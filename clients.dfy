/** The clients table (convex/clients.ts): its record and the partial
    update its `updateClient` handler applies. */
module Clients {
  import opened Common
  import opened Tables

  datatype ClientStatus = Active | Inactive | Pending

  /** The arguments of `createClient`, stored as given. */
  datatype ClientFields = ClientFields(
    name: string,
    email: string,
    phone: Option<string>,
    company: Option<string>,
    status: ClientStatus)

  type Client = Stamped<ClientFields>

  /** The optional arguments of `updateClient` (everything but the id). */
  datatype ClientPatch = ClientPatch(
    name: Option<string>,
    email: Option<string>,
    phone: Option<string>,
    company: Option<string>,
    status: Option<ClientStatus>)
  {
    /** Some argument is defined: the filtered update object is non-empty. */
    predicate Supplies() {
      name.Some? || email.Some? || phone.Some? || company.Some? || status.Some?
    }
  }

  /** The stored fields after `ctx.db.patch` with the defined arguments:
      exactly the fields the patch supplies are written, the others kept. */
  function Apply(f: ClientFields, p: ClientPatch): (g: ClientFields)
    ensures
      && (if p.name.Some? then g.name == p.name.value else g.name == f.name)
      && (if p.email.Some? then g.email == p.email.value else g.email == f.email)
      && (if p.phone.Some? then g.phone == p.phone else g.phone == f.phone)
      && (if p.company.Some? then g.company == p.company else g.company == f.company)
      && (if p.status.Some? then g.status == p.status.value else g.status == f.status)
  {
    ClientFields(
      p.name.GetOr(f.name),
      p.email.GetOr(f.email),
      p.phone.OrElse(f.phone),
      p.company.OrElse(f.company),
      p.status.GetOr(f.status))
  }

  /** Applying the same patch twice is applying it once. */
  lemma ApplyIdempotent(f: ClientFields, p: ClientPatch)
    ensures Apply(Apply(f, p), p) == Apply(f, p)
  {
  }

  /** A patch that supplies nothing would change no field: the case the
      handler rejects before writing. */
  lemma ApplyNothing(f: ClientFields, p: ClientPatch)
    requires !p.Supplies()
    ensures Apply(f, p) == f
  {
  }

  /** The status filter of `getClientsByStatus` over a scan of the table. */
  function ByStatus(rows: seq<Doc<Client>>, s: ClientStatus): seq<Doc<Client>> {
    Where(rows, (c: Client) => c.fields.status == s)
  }
}
