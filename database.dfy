/** The backend handlers of convex/leads.ts, clients.ts, projects.ts,
    tasks.ts, users.ts and analytics.ts over one in-memory document store.

    Each handler runs as one atomic step. The clock is the `now` parameter
    and ids come from the store's counter. Queries are functions of the
    stored tables; mutations are methods that change only the tables they
    write. */
module Database {
  import opened Common
  import opened Tables
  import Seqs
  import Clients
  import Projects
  import Tasks
  import Leads
  import Users
  import Analytics

  /** What `getRevenueMetrics` returns. */
  datatype RevenueMetrics = RevenueMetrics(totalRevenue: int, monthlyRevenue: int, entries: nat)

  /** What `getProjectMetrics` returns. */
  datatype ProjectMetrics = ProjectMetrics(
    total: nat,
    completed: nat,
    statusDistribution: map<Projects.ProjectStatus, nat>)

  /** What `getLeadMetrics` returns. */
  datatype LeadMetrics = LeadMetrics(
    total: nat,
    converted: nat,
    conversionRate: real,
    statusDistribution: map<Leads.LeadStatus, nat>)

  /** A distribution entry, reading a missing key as 0. */
  function CountOf<K>(m: map<K, nat>, k: K): nat {
    if k in m then m[k] else 0
  }

  /** The accumulator of `getProjectMetrics`, a count per status that
      occurs, holds for each status the number of projects with it, and
      these counts add up to the number of projects. */
  lemma ProjectDistribution(rows: seq<Doc<Projects.Project>>, counts: map<Projects.ProjectStatus, nat>)
    requires forall k :: k in counts <==> k in Projects.Statuses(rows)
    requires forall k :: k in counts ==> counts[k] == multiset(Projects.Statuses(rows))[k]
    ensures forall s :: s in counts <==> |Projects.ByStatus(rows, s)| > 0
    ensures forall s :: s in counts ==> counts[s] == |Projects.ByStatus(rows, s)|
    ensures CountOf(counts, Projects.Planning) + CountOf(counts, Projects.InProgress)
          + CountOf(counts, Projects.Review) + CountOf(counts, Projects.Completed)
          + CountOf(counts, Projects.OnHold) == |rows|
  {
    forall s ensures multiset(Projects.Statuses(rows))[s] == |Projects.ByStatus(rows, s)| {
      Projects.StatusCount(rows, s);
    }
    Projects.StatusesPartition(rows);
  }

  /** The accumulator of `getLeadMetrics`, a count per status that occurs,
      holds for each status the number of leads with it, and these counts
      add up to the number of leads. */
  lemma LeadDistribution(rows: seq<Doc<Leads.Lead>>, counts: map<Leads.LeadStatus, nat>)
    requires forall k :: k in counts <==> k in Leads.Statuses(rows)
    requires forall k :: k in counts ==> counts[k] == multiset(Leads.Statuses(rows))[k]
    ensures forall s :: s in counts <==> |Leads.ByStatus(rows, s)| > 0
    ensures forall s :: s in counts ==> counts[s] == |Leads.ByStatus(rows, s)|
    ensures CountOf(counts, Leads.New) + CountOf(counts, Leads.Contacted)
          + CountOf(counts, Leads.Qualified) + CountOf(counts, Leads.Proposal)
          + CountOf(counts, Leads.Won) + CountOf(counts, Leads.Lost) == |rows|
  {
    forall s ensures multiset(Leads.Statuses(rows))[s] == |Leads.ByStatus(rows, s)| {
      Leads.StatusCount(rows, s);
    }
    Leads.StatusesPartition(rows);
  }

  class Store {
    var leads: map<Id, Leads.Lead>
    var clients: map<Id, Clients.Client>
    var projects: map<Id, Projects.Project>
    var tasks: map<Id, Tasks.Task>
    var users: map<Id, Users.User>
    var analytics: map<Id, Analytics.Entry>
    /** The next id the store hands out. */
    var nextId: Id

    /** Every id in use was handed out already, and no two users share a
        `userId`. */
    ghost predicate Valid()
      reads this
    {
      && Bounded(leads, nextId) && Bounded(clients, nextId) && Bounded(projects, nextId)
      && Bounded(tasks, nextId) && Bounded(users, nextId) && Bounded(analytics, nextId)
      && Users.UniqueUserIds(users)
    }

    /** An empty store. */
    constructor ()
      ensures Valid()
      ensures leads == map[] && clients == map[] && projects == map[] && tasks == map[]
      ensures users == map[] && analytics == map[]
    {
      leads, clients, projects, tasks := map[], map[], map[], map[];
      users, analytics := map[], map[];
      nextId := 0;
    }

    /** The id the next insert receives. */
    method FreshId() returns (id: Id)
      modifies this`nextId
      ensures id == old(nextId) && nextId == id + 1
    {
      id := nextId;
      nextId := nextId + 1;
    }

    // ---------------------------------------------------------------- leads

    /** `getLeads`: every lead, newest first. */
    function GetLeads(): (r: seq<Doc<Leads.Lead>>)
      reads this
      requires Valid()
      ensures forall d :: d in r <==> d.id in leads && leads[d.id] == d.rec
      ensures forall i, j :: 0 <= i < j < |r| ==> r[i].id > r[j].id
    {
      Newest(leads, nextId)
    }

    /** `getLead`: the stored lead, or null. */
    function GetLead(id: Id): (r: Option<Leads.Lead>)
      reads this
      ensures r.Some? <==> id in leads
      ensures r.Some? ==> r.value == leads[id]
    {
      Get(leads, id)
    }

    /** `getLeadsByStatus`: exactly the leads with status `s`, oldest first. */
    function GetLeadsByStatus(s: Leads.LeadStatus): (r: seq<Doc<Leads.Lead>>)
      reads this
      requires Valid()
      ensures forall d :: d in r <==> d.id in leads && leads[d.id] == d.rec && d.rec.fields.status == s
      ensures Increasing(r)
    {
      Leads.ByStatus(All(leads, nextId), s)
    }

    /** `createLead`: stores the arguments under a fresh id, stamped `now`. */
    method CreateLead(args: Leads.LeadFields, now: int) returns (id: Id)
      requires Valid()
      modifies this`leads, this`nextId
      ensures Valid()
      ensures id == old(nextId) && id !in old(leads) && nextId == id + 1
      ensures leads == old(leads)[id := Stamped(args, now, now)]
    {
      id := FreshId();
      leads := leads[id := Stamped(args, now, now)];
    }

    /** `updateLead`: rejects a patch that supplies nothing; otherwise writes
        the supplied fields and refreshes `updatedAt`. */
    method UpdateLead(id: Id, patch: Leads.LeadPatch, now: int) returns (o: Outcome)
      requires Valid()
      modifies this`leads
      ensures Valid()
      ensures !patch.Supplies() ==> o == Fail(NoValidFieldsToUpdate)
      ensures patch.Supplies() && id !in old(leads) ==> o == Fail(NonexistentDocument)
      ensures o.Fail? ==> leads == old(leads)
      ensures o.Pass? <==> patch.Supplies() && id in old(leads)
      ensures o.Pass? ==>
        var was := old(leads)[id];
        leads == old(leads)[id := Stamped(Leads.Apply(was.fields, patch), was.createdAt, now)]
    {
      if !patch.Supplies() {
        return Fail(NoValidFieldsToUpdate);
      }
      if id !in leads {
        return Fail(NonexistentDocument);
      }
      var was := leads[id];
      leads := leads[id := Stamped(Leads.Apply(was.fields, patch), was.createdAt, now)];
      o := Pass;
    }

    /** `deleteLead`: removes that lead and nothing else. */
    method DeleteLead(id: Id) returns (o: Outcome)
      requires Valid()
      modifies this`leads
      ensures Valid()
      ensures o.Pass? <==> id in old(leads)
      ensures o.Fail? ==> o.error == NonexistentDocument
      ensures leads == old(leads) - {id}
    {
      if id !in leads {
        return Fail(NonexistentDocument);
      }
      leads := leads - {id};
      o := Pass;
    }

    /** `convertLeadToClient`: inserts a client copied from the lead, marks
        the lead won and records a `lead_converted` entry, returning the new
        client's id; fails with "Lead not found", writing nothing, when
        there is no such lead. */
    method ConvertLeadToClient(id: Id, now: int) returns (r: Result<Id>)
      requires Valid()
      modifies this`leads, this`clients, this`analytics, this`nextId
      ensures Valid()
      ensures id !in old(leads) ==>
        && r == Err(LeadNotFound)
        && leads == old(leads) && clients == old(clients) && analytics == old(analytics)
        && nextId == old(nextId)
      ensures id in old(leads) ==>
        var lead := old(leads)[id];
        var clientId := old(nextId);
        && r == Ok(clientId)
        && nextId == clientId + 2
        && clientId !in old(clients)
        && clients == old(clients)[clientId := Stamped(Leads.ConvertedClient(lead.fields), now, now)]
        && leads == old(leads)[id := Stamped(lead.fields.(status := Leads.Won), lead.createdAt, now)]
        && clientId + 1 !in old(analytics)
        && analytics == old(analytics)[clientId + 1 := Leads.ConversionEntry(lead.fields, id, clientId, now)]
    {
      if id !in leads {
        return Err(LeadNotFound);
      }
      var lead := leads[id];
      var clientId := FreshId();
      clients := clients[clientId := Stamped(Leads.ConvertedClient(lead.fields), now, now)];
      Leads.WonPatchOnlySetsStatus(lead.fields);
      leads := leads[id := Stamped(Leads.Apply(lead.fields, Leads.WonPatch), lead.createdAt, now)];
      var entryId := FreshId();
      analytics := analytics[entryId := Leads.ConversionEntry(lead.fields, id, clientId, now)];
      r := Ok(clientId);
    }

    // -------------------------------------------------------------- clients

    /** `getClients`: every client, newest first. */
    function GetClients(): (r: seq<Doc<Clients.Client>>)
      reads this
      requires Valid()
      ensures forall d :: d in r <==> d.id in clients && clients[d.id] == d.rec
      ensures forall i, j :: 0 <= i < j < |r| ==> r[i].id > r[j].id
    {
      Newest(clients, nextId)
    }

    /** `getClient`: the stored client, or null. */
    function GetClient(id: Id): (r: Option<Clients.Client>)
      reads this
      ensures r.Some? <==> id in clients
      ensures r.Some? ==> r.value == clients[id]
    {
      Get(clients, id)
    }

    /** `getClientsByStatus`: exactly the clients with status `s`. */
    function GetClientsByStatus(s: Clients.ClientStatus): (r: seq<Doc<Clients.Client>>)
      reads this
      requires Valid()
      ensures forall d :: d in r <==> d.id in clients && clients[d.id] == d.rec && d.rec.fields.status == s
      ensures Increasing(r)
    {
      Clients.ByStatus(All(clients, nextId), s)
    }

    /** `createClient`: stores the arguments under a fresh id, stamped `now`. */
    method CreateClient(args: Clients.ClientFields, now: int) returns (id: Id)
      requires Valid()
      modifies this`clients, this`nextId
      ensures Valid()
      ensures id == old(nextId) && id !in old(clients) && nextId == id + 1
      ensures clients == old(clients)[id := Stamped(args, now, now)]
    {
      id := FreshId();
      clients := clients[id := Stamped(args, now, now)];
    }

    /** `updateClient`: rejects a patch that supplies nothing; otherwise
        writes the supplied fields and refreshes `updatedAt`. */
    method UpdateClient(id: Id, patch: Clients.ClientPatch, now: int) returns (o: Outcome)
      requires Valid()
      modifies this`clients
      ensures Valid()
      ensures !patch.Supplies() ==> o == Fail(NoValidFieldsToUpdate)
      ensures patch.Supplies() && id !in old(clients) ==> o == Fail(NonexistentDocument)
      ensures o.Fail? ==> clients == old(clients)
      ensures o.Pass? <==> patch.Supplies() && id in old(clients)
      ensures o.Pass? ==>
        var was := old(clients)[id];
        clients == old(clients)[id := Stamped(Clients.Apply(was.fields, patch), was.createdAt, now)]
    {
      if !patch.Supplies() {
        return Fail(NoValidFieldsToUpdate);
      }
      if id !in clients {
        return Fail(NonexistentDocument);
      }
      var was := clients[id];
      clients := clients[id := Stamped(Clients.Apply(was.fields, patch), was.createdAt, now)];
      o := Pass;
    }

    /** `deleteClient`: removes that client only. Its projects keep their
        now dangling `clientId`. */
    method DeleteClient(id: Id) returns (o: Outcome)
      requires Valid()
      modifies this`clients
      ensures Valid()
      ensures o.Pass? <==> id in old(clients)
      ensures o.Fail? ==> o.error == NonexistentDocument
      ensures clients == old(clients) - {id}
      ensures projects == old(projects)
      ensures forall p :: p in projects && projects[p].fields.clientId == id ==> id !in clients
    {
      if id !in clients {
        return Fail(NonexistentDocument);
      }
      clients := clients - {id};
      o := Pass;
    }

    // ------------------------------------------------------------- projects

    /** `getProjects`: every project, newest first. */
    function GetProjects(): (r: seq<Doc<Projects.Project>>)
      reads this
      requires Valid()
      ensures forall d :: d in r <==> d.id in projects && projects[d.id] == d.rec
      ensures forall i, j :: 0 <= i < j < |r| ==> r[i].id > r[j].id
    {
      Newest(projects, nextId)
    }

    /** `getProject`: the stored project, or null. */
    function GetProject(id: Id): (r: Option<Projects.Project>)
      reads this
      ensures r.Some? <==> id in projects
      ensures r.Some? ==> r.value == projects[id]
    {
      Get(projects, id)
    }

    /** `getProjectsByClient`: exactly the projects of that client. */
    function GetProjectsByClient(clientId: Id): (r: seq<Doc<Projects.Project>>)
      reads this
      requires Valid()
      ensures forall d :: d in r <==> d.id in projects && projects[d.id] == d.rec && d.rec.fields.clientId == clientId
      ensures Increasing(r)
    {
      Projects.ByClient(All(projects, nextId), clientId)
    }

    /** `getProjectsByStatus`: exactly the projects with status `s`. */
    function GetProjectsByStatus(s: Projects.ProjectStatus): (r: seq<Doc<Projects.Project>>)
      reads this
      requires Valid()
      ensures forall d :: d in r <==> d.id in projects && projects[d.id] == d.rec && d.rec.fields.status == s
      ensures Increasing(r)
    {
      Projects.ByStatus(All(projects, nextId), s)
    }

    /** `createProject`: stores the arguments under a fresh id, stamped `now`. */
    method CreateProject(args: Projects.ProjectFields, now: int) returns (id: Id)
      requires Valid()
      modifies this`projects, this`nextId
      ensures Valid()
      ensures id == old(nextId) && id !in old(projects) && nextId == id + 1
      ensures projects == old(projects)[id := Stamped(args, now, now)]
    {
      id := FreshId();
      projects := projects[id := Stamped(args, now, now)];
    }

    /** `updateProject`: rejects a patch that supplies nothing; otherwise
        writes the supplied fields (never `clientId`) and refreshes
        `updatedAt`. */
    method UpdateProject(id: Id, patch: Projects.ProjectPatch, now: int) returns (o: Outcome)
      requires Valid()
      modifies this`projects
      ensures Valid()
      ensures !patch.Supplies() ==> o == Fail(NoValidFieldsToUpdate)
      ensures patch.Supplies() && id !in old(projects) ==> o == Fail(NonexistentDocument)
      ensures o.Fail? ==> projects == old(projects)
      ensures o.Pass? <==> patch.Supplies() && id in old(projects)
      ensures o.Pass? ==>
        var was := old(projects)[id];
        projects == old(projects)[id := Stamped(Projects.Apply(was.fields, patch), was.createdAt, now)]
      ensures forall p :: p in projects ==> projects[p].fields.clientId == old(projects)[p].fields.clientId
    {
      if !patch.Supplies() {
        return Fail(NoValidFieldsToUpdate);
      }
      if id !in projects {
        return Fail(NonexistentDocument);
      }
      var was := projects[id];
      projects := projects[id := Stamped(Projects.Apply(was.fields, patch), was.createdAt, now)];
      o := Pass;
    }

    /** `deleteProject`: removes that project only; its tasks stay. */
    method DeleteProject(id: Id) returns (o: Outcome)
      requires Valid()
      modifies this`projects
      ensures Valid()
      ensures o.Pass? <==> id in old(projects)
      ensures o.Fail? ==> o.error == NonexistentDocument
      ensures projects == old(projects) - {id}
      ensures tasks == old(tasks)
    {
      if id !in projects {
        return Fail(NonexistentDocument);
      }
      projects := projects - {id};
      o := Pass;
    }

    // ---------------------------------------------------------------- tasks

    /** `getTasks`: every task, newest first. */
    function GetTasks(): (r: seq<Doc<Tasks.Task>>)
      reads this
      requires Valid()
      ensures forall d :: d in r <==> d.id in tasks && tasks[d.id] == d.rec
      ensures forall i, j :: 0 <= i < j < |r| ==> r[i].id > r[j].id
    {
      Newest(tasks, nextId)
    }

    /** `getTask`: the stored task, or null. */
    function GetTask(id: Id): (r: Option<Tasks.Task>)
      reads this
      ensures r.Some? <==> id in tasks
      ensures r.Some? ==> r.value == tasks[id]
    {
      Get(tasks, id)
    }

    /** `getTasksByProject`: exactly the tasks of that project; a task with
        no project is never returned. */
    function GetTasksByProject(projectId: Id): (r: seq<Doc<Tasks.Task>>)
      reads this
      requires Valid()
      ensures forall d :: d in r <==> d.id in tasks && tasks[d.id] == d.rec && d.rec.fields.projectId == Some(projectId)
      ensures forall d :: d in r ==> d.rec.fields.projectId.Some?
      ensures Increasing(r)
    {
      Tasks.ByProject(All(tasks, nextId), projectId)
    }

    /** `getTasksByStatus`: exactly the tasks with status `s`. */
    function GetTasksByStatus(s: Tasks.TaskStatus): (r: seq<Doc<Tasks.Task>>)
      reads this
      requires Valid()
      ensures forall d :: d in r <==> d.id in tasks && tasks[d.id] == d.rec && d.rec.fields.status == s
      ensures Increasing(r)
    {
      Tasks.ByStatus(All(tasks, nextId), s)
    }

    /** `createTask`: stores the arguments under a fresh id, stamped `now`. */
    method CreateTask(args: Tasks.TaskFields, now: int) returns (id: Id)
      requires Valid()
      modifies this`tasks, this`nextId
      ensures Valid()
      ensures id == old(nextId) && id !in old(tasks) && nextId == id + 1
      ensures tasks == old(tasks)[id := Stamped(args, now, now)]
    {
      id := FreshId();
      tasks := tasks[id := Stamped(args, now, now)];
    }

    /** `updateTask`: rejects a patch that supplies nothing; otherwise writes
        the supplied fields (never `projectId`) and refreshes `updatedAt`. */
    method UpdateTask(id: Id, patch: Tasks.TaskPatch, now: int) returns (o: Outcome)
      requires Valid()
      modifies this`tasks
      ensures Valid()
      ensures !patch.Supplies() ==> o == Fail(NoValidFieldsToUpdate)
      ensures patch.Supplies() && id !in old(tasks) ==> o == Fail(NonexistentDocument)
      ensures o.Fail? ==> tasks == old(tasks)
      ensures o.Pass? <==> patch.Supplies() && id in old(tasks)
      ensures o.Pass? ==>
        var was := old(tasks)[id];
        tasks == old(tasks)[id := Stamped(Tasks.Apply(was.fields, patch), was.createdAt, now)]
      ensures forall t :: t in tasks ==> tasks[t].fields.projectId == old(tasks)[t].fields.projectId
    {
      if !patch.Supplies() {
        return Fail(NoValidFieldsToUpdate);
      }
      if id !in tasks {
        return Fail(NonexistentDocument);
      }
      var was := tasks[id];
      tasks := tasks[id := Stamped(Tasks.Apply(was.fields, patch), was.createdAt, now)];
      o := Pass;
    }

    /** `deleteTask`: removes that task only. */
    method DeleteTask(id: Id) returns (o: Outcome)
      requires Valid()
      modifies this`tasks
      ensures Valid()
      ensures o.Pass? <==> id in old(tasks)
      ensures o.Fail? ==> o.error == NonexistentDocument
      ensures tasks == old(tasks) - {id}
    {
      if id !in tasks {
        return Fail(NonexistentDocument);
      }
      tasks := tasks - {id};
      o := Pass;
    }

    // ---------------------------------------------------------------- users

    /** `get`: the one user with that `userId`, or null. `.unique()` cannot
        throw, because the store never holds two users with one `userId`. */
    function GetUser(uid: string): (r: Result<Option<Doc<Users.User>>>)
      reads this
      requires Valid()
      ensures r.Ok?
      ensures r.value.Some? ==>
        var d := r.value.value;
        d.id in users && users[d.id] == d.rec && d.rec.fields.userId == uid
      ensures r.value.None? <==> forall k :: k in users ==> users[k].fields.userId != uid
    {
      Users.ByUserIdAtMostOne(users, nextId, uid);
      Users.ByUserIdEmpty(users, nextId, uid);
      Users.Unique(Users.ByUserId(All(users, nextId), uid))
    }

    /** `list`: every user, oldest first. */
    function ListUsers(): (r: seq<Doc<Users.User>>)
      reads this
      requires Valid()
      ensures forall d :: d in r <==> d.id in users && users[d.id] == d.rec
      ensures Increasing(r)
    {
      All(users, nextId)
    }

    /** `store`: refreshes the profile of the user with `args.userId` and
        returns its id, or inserts a new user when there is none. */
    method StoreUser(args: Users.UserFields, now: int) returns (id: Id)
      requires Valid()
      modifies this`users, this`nextId
      ensures Valid()
      ensures (exists k :: k in old(users) && old(users)[k].fields.userId == args.userId) ==>
        && id in old(users) && old(users)[id].fields.userId == args.userId
        && users == old(users)[id := Stamped(args, old(users)[id].createdAt, now)]
        && nextId == old(nextId)
      ensures (forall k :: k in old(users) ==> old(users)[k].fields.userId != args.userId) ==>
        && id == old(nextId) && id !in old(users) && nextId == id + 1
        && users == old(users)[id := Stamped(args, now, now)]
    {
      var existing := GetUser(args.userId);
      if existing.value.Some? {
        id := existing.value.value.id;
        var was := users[id];
        users := users[id := Stamped(Users.Refreshed(was.fields, args), was.createdAt, now)];
      } else {
        id := FreshId();
        users := users[id := Stamped(args, now, now)];
      }
    }

    /** `remove`: deletes the user with that `userId` if there is one. */
    method RemoveUser(uid: string)
      requires Valid()
      modifies this`users
      ensures Valid()
      ensures users == map k | k in old(users) && old(users)[k].fields.userId != uid :: old(users)[k]
      ensures |users| >= |old(users)| - 1
    {
      var existing := GetUser(uid);
      if existing.value.Some? {
        var id := existing.value.value.id;
        users := users - {id};
        assert users == map k | k in old(users) && old(users)[k].fields.userId != uid :: old(users)[k];
      } else {
        assert users == map k | k in old(users) && old(users)[k].fields.userId != uid :: old(users)[k];
      }
    }

    // ------------------------------------------------------------ analytics

    /** `getAnalytics`: every entry, newest first. */
    function GetAnalytics(): (r: seq<Doc<Analytics.Entry>>)
      reads this
      requires Valid()
      ensures forall d :: d in r <==> d.id in analytics && analytics[d.id] == d.rec
      ensures forall i, j :: 0 <= i < j < |r| ==> r[i].id > r[j].id
    {
      Newest(analytics, nextId)
    }

    /** `getAnalyticsByType`: exactly the entries of that type. */
    function GetAnalyticsByType(kind: Analytics.AnalyticsType): (r: seq<Doc<Analytics.Entry>>)
      reads this
      requires Valid()
      ensures forall d :: d in r <==> d.id in analytics && analytics[d.id] == d.rec && d.rec.kind == kind
      ensures Increasing(r)
    {
      Analytics.ByType(All(analytics, nextId), kind)
    }

    /** `getAnalyticsByDateRange`: exactly the entries dated within
        [startDate, endDate], both ends included. */
    function GetAnalyticsByDateRange(startDate: int, endDate: int): (r: seq<Doc<Analytics.Entry>>)
      reads this
      requires Valid()
      ensures forall d :: d in r <==>
        d.id in analytics && analytics[d.id] == d.rec && startDate <= d.rec.date <= endDate
      ensures Increasing(r)
    {
      Analytics.InDateRange(All(analytics, nextId), startDate, endDate)
    }

    /** `getRevenueMetrics`, with the start of the current month passed in:
        the total and number of `revenue_generated` entries, and the part of
        the total dated from `monthStart` on. */
    function GetRevenueMetrics(monthStart: int): (m: RevenueMetrics)
      reads this
      requires Valid()
      ensures var revenue := GetAnalyticsByType(Analytics.RevenueGenerated);
        && m.entries == |revenue|
        && m.totalRevenue == Analytics.SumValues(revenue)
        && m.monthlyRevenue == Analytics.SumValues(Analytics.Since(revenue, monthStart))
        && m.totalRevenue == m.monthlyRevenue + Analytics.SumValues(Analytics.Before(revenue, monthStart))
        && ((forall d :: d in revenue ==> d.rec.value >= 0) ==> 0 <= m.monthlyRevenue <= m.totalRevenue)
    {
      var revenue := GetAnalyticsByType(Analytics.RevenueGenerated);
      Analytics.SumValuesSplit(revenue, monthStart);
      Analytics.SumValuesNonNegative(Analytics.Since(revenue, monthStart));
      Analytics.SumValuesNonNegative(Analytics.Before(revenue, monthStart));
      RevenueMetrics(Analytics.SumValues(revenue),
                     Analytics.SumValues(Analytics.Since(revenue, monthStart)),
                     |revenue|)
    }

    /** `getProjectMetrics`: the number of projects, of completed ones, and
        how many have each status (a status no project has is absent). */
    method GetProjectMetrics() returns (m: ProjectMetrics)
      requires Valid()
      ensures m.total == |projects|
      ensures m.completed == |GetProjectsByStatus(Projects.Completed)|
      ensures forall s :: s in m.statusDistribution <==> |GetProjectsByStatus(s)| > 0
      ensures forall s :: s in m.statusDistribution ==> m.statusDistribution[s] == |GetProjectsByStatus(s)|
      ensures CountOf(m.statusDistribution, Projects.Planning) + CountOf(m.statusDistribution, Projects.InProgress)
            + CountOf(m.statusDistribution, Projects.Review) + CountOf(m.statusDistribution, Projects.Completed)
            + CountOf(m.statusDistribution, Projects.OnHold) == m.total
    {
      var rows := All(projects, nextId);
      var counts := Seqs.Tally(Projects.Statuses(rows));
      ProjectDistribution(rows, counts);
      AllCount(projects, nextId);
      m := ProjectMetrics(|rows|, |Projects.ByStatus(rows, Projects.Completed)|, counts);
    }

    /** `getLeadMetrics`: the number of leads, of won ones, the conversion
        rate in percent, and how many have each status. */
    method GetLeadMetrics() returns (m: LeadMetrics)
      requires Valid()
      ensures m.total == |leads|
      ensures m.converted == |GetLeadsByStatus(Leads.Won)| <= m.total
      ensures m.conversionRate == Analytics.ConversionRate(m.converted, m.total)
      ensures forall s :: s in m.statusDistribution <==> |GetLeadsByStatus(s)| > 0
      ensures forall s :: s in m.statusDistribution ==> m.statusDistribution[s] == |GetLeadsByStatus(s)|
      ensures CountOf(m.statusDistribution, Leads.New) + CountOf(m.statusDistribution, Leads.Contacted)
            + CountOf(m.statusDistribution, Leads.Qualified) + CountOf(m.statusDistribution, Leads.Proposal)
            + CountOf(m.statusDistribution, Leads.Won) + CountOf(m.statusDistribution, Leads.Lost) == m.total
    {
      var rows := All(leads, nextId);
      var counts := Seqs.Tally(Leads.Statuses(rows));
      LeadDistribution(rows, counts);
      AllCount(leads, nextId);
      var won := |Leads.ByStatus(rows, Leads.Won)|;
      m := LeadMetrics(|rows|, won, Analytics.ConversionRate(won, |rows|), counts);
    }

    /** `recordAnalytics`: inserts the arguments as one entry dated `now`. */
    method RecordAnalytics(args: Analytics.EntryArgs, now: int) returns (id: Id)
      requires Valid()
      modifies this`analytics, this`nextId
      ensures Valid()
      ensures id == old(nextId) && id !in old(analytics) && nextId == id + 1
      ensures analytics == old(analytics)[id := Analytics.Recorded(args, now)]
    {
      id := FreshId();
      analytics := analytics[id := Analytics.Recorded(args, now)];
    }

    /** `recordRevenue`: inserts one `revenue_generated` entry dated `now`. */
    method RecordRevenue(args: Analytics.RevenueArgs, now: int) returns (id: Id)
      requires Valid()
      modifies this`analytics, this`nextId
      ensures Valid()
      ensures id == old(nextId) && id !in old(analytics) && nextId == id + 1
      ensures analytics == old(analytics)[id := Analytics.Revenue(args, now)]
    {
      id := FreshId();
      analytics := analytics[id := Analytics.Revenue(args, now)];
    }
  }
}
