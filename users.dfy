/** The users table (convex/users.ts), keyed in practice by the identity
    provider's `userId`. */
module Users {
  import opened Common
  import opened Tables

  /** The arguments of `store`, which are also the stored fields. */
  datatype UserFields = UserFields(
    userId: string,
    firstName: Option<string>,
    lastName: Option<string>,
    email: string,
    imageUrl: Option<string>)

  type User = Stamped<UserFields>

  /** At most one row per `userId`: what every `.unique()` lookup on the
      `by_user_id` index relies on. */
  ghost predicate UniqueUserIds(m: map<Id, User>) {
    forall a, b :: a in m && b in m && m[a].fields.userId == m[b].fields.userId ==> a == b
  }

  /** The `by_user_id` index lookup over a scan of the table. */
  function ByUserId(rows: seq<Doc<User>>, uid: string): seq<Doc<User>> {
    Where(rows, (u: User) => u.fields.userId == uid)
  }

  /** With unique `userId`s, the index lookup finds at most one row, so
      `.unique()` never throws. */
  lemma ByUserIdAtMostOne(m: map<Id, User>, next: Id, uid: string)
    requires UniqueUserIds(m)
    ensures |ByUserId(All(m, next), uid)| <= 1
  {
    var rows := All(m, next);
    WhereAtMostOne(rows, (u: User) => u.fields.userId == uid);
  }

  /** The index lookup finds nothing exactly when no stored user has that
      `userId`. */
  lemma ByUserIdEmpty(m: map<Id, User>, next: Id, uid: string)
    requires Bounded(m, next)
    ensures ByUserId(All(m, next), uid) == [] <==> forall k :: k in m ==> m[k].fields.userId != uid
  {
    var r := ByUserId(All(m, next), uid);
    if r != [] {
      assert r[0] in r;
    }
    forall k | k in m && m[k].fields.userId == uid
      ensures r != []
    {
      assert Doc(k, m[k]) in All(m, next);
      assert Doc(k, m[k]) in r;
    }
  }

  /** `.unique()` over an index lookup: null when nothing matches, the row
      when exactly one does, and an error when several do. */
  function Unique(matches: seq<Doc<User>>): (r: Result<Option<Doc<User>>>)
    ensures r == Err(NotUnique) <==> |matches| > 1
    ensures r == Ok(None) <==> matches == []
    ensures r.Ok? && r.value.Some? ==> matches == [r.value.value]
  {
    if |matches| > 1 then Err(NotUnique)
    else if matches == [] then Ok(None)
    else Ok(Some(matches[0]))
  }

  /** The fields `store` writes over an existing row: the four profile
      fields are replaced by the arguments (an absent one is cleared, not
      kept), and `userId` stays. */
  function Refreshed(f: UserFields, args: UserFields): (g: UserFields)
    requires args.userId == f.userId
    ensures g == args
  {
    UserFields(f.userId, args.firstName, args.lastName, args.email, args.imageUrl)
  }
}
