# Web agency workflow: a verified model

This project models the core of a web-agency workflow application in Dafny. Its backend is a set of Convex handlers over six tables: leads, clients, projects, tasks, users and analytics. Its front end is a set of React screens: the QA and launch checklist, the CRM lead list, the two client portals and the project workflow board.

**The backend** is modelled by the class `Database.Store`:
- It holds one map per table and the counter that hands out document ids.
- Every query handler is a function of the stored tables, except the two metrics queries. Those are methods, because their per-status counts are built by a loop (`Seqs.Tally`).
- Every mutation handler is a method. Its `modifies` clause names only the tables and the id counter it writes. Its `ensures` clause states the new contents of those tables and, for an insert, the advanced id counter.
- Each table has a module with its record, its partial-update arguments and the lemmas about them: `Leads`, `Clients`, `Projects`, `Tasks`, `Users`, `Analytics`.
- `Tables` gives the scans, filters and orderings the queries are built from.
- `Seqs` holds the sequence facts those rest on.

**The screens** are modelled as follows:
- `QALaunch`: the progress percentages, the category filter and the checklist toggles. The toggles belong to the class `QALaunch.Screen`, which holds the project list and the selected project.
- `CrmLeads`: the search-and-status filter and the summary counts.
- `ClientPortalConvex`: the progress table, the shilling conversion, the days-remaining figure and the two quick actions. The actions are tied to the store's `updateProject` and `recordRevenue` records.
- `ClientPortal.Screen`: the message box and `sendMessage`.
- `ProjectWorkflow`: the board columns.

**Conventions used throughout**
- Document ids are natural numbers, handed out in increasing order. So insertion order is id order: `collect()` lists a table by increasing id, and `order("desc")` lists it by decreasing id.
- The clock (`Date.now()`) is a `now` parameter. The start of the current month is a `monthStart` parameter.
- `ctx.db.patch` and `ctx.db.delete` on an id with no document fail with `NonexistentDocument` and write nothing. That is what the Convex runtime does. The handlers themselves do not check.

## Model

| member | source | states |
|---|---|---|
| Database.Store.GetLeads | convex/leads.ts:5-10 | Returns exactly the stored leads, each once with its id, in strictly decreasing id order (newest first). |
| Database.Store.GetLead | convex/leads.ts:12-17 | Returns the stored lead when the id is present, and None (null) exactly when it is not. |
| Database.Store.GetLeadsByStatus | convex/leads.ts:19-36 | Returns exactly the stored leads with the given status, in increasing id order. |
| Database.Store.CreateLead | convex/leads.ts:39-66 | Stores the arguments unchanged under a fresh id, with createdAt = updatedAt = now, and advances the id counter past it. Other leads are unchanged and the invariant is kept. |
| Database.Store.UpdateLead | convex/leads.ts:68-103 | An update that supplies no field fails with "No valid fields to update" and writes nothing. Otherwise it writes exactly the supplied fields, keeps createdAt, sets updatedAt = now and touches no other lead. It fails on a missing id. |
| Database.Store.DeleteLead | convex/leads.ts:105-110 | Removes exactly that lead. It fails when the lead is absent. |
| Database.Store.ConvertLeadToClient | convex/leads.ts:112-151 | A missing lead gives "Lead not found" and nothing is written. Otherwise it inserts the client copied from the lead, sets only the lead's status to won, inserts the lead_converted entry under the next id, and returns the client's id. The id counter moves past both new documents. |
| Leads.ConvertedClient | convex/leads.ts:122-130 | The new client has the lead's name, email, phone and company, and status "active". |
| Leads.ConversionEntry | convex/leads.ts:139-147 | The entry is lead_converted, dated now, and links the lead and the client. Its value is the estimate, or 0 when there is none. Its currency is the lead's when that is non-empty, and "USD" otherwise. Its metadata is convertedFrom "lead". |
| Leads.WonPatchOnlySetsStatus | convex/leads.ts:133-136 | The conversion patch changes the lead's status to won and no other field. |
| Leads.Apply | convex/leads.ts:88-101 | A patch writes exactly the fields it supplies and keeps every other field. |
| Leads.ApplyIdempotent | convex/leads.ts:88-101 | Applying the same update twice gives what applying it once gives. |
| Leads.ApplyNothing | convex/leads.ts:90-96 | A patch that supplies nothing would leave the lead unchanged; this is the case the handler rejects. |
| Leads.StatusCount | convex/analytics.ts:92-95 | A status occurs in the status list as often as the by_status lookup finds leads with it. |
| Leads.StatusesPartition | convex/analytics.ts:92-95 | The six status lookups together count every lead exactly once. |
| Database.Store.GetClients | convex/clients.ts:5-10 | Returns exactly the stored clients, newest first. |
| Database.Store.GetClient | convex/clients.ts:12-17 | Returns the stored client, and None exactly when the id is absent. |
| Database.Store.GetClientsByStatus | convex/clients.ts:19-27 | Returns exactly the clients with that status, in increasing id order. |
| Database.Store.CreateClient | convex/clients.ts:30-46 | Stores the arguments under a fresh id, stamped now, and advances the id counter past it. |
| Database.Store.UpdateClient | convex/clients.ts:48-72 | Rejects an empty update and writes nothing. Otherwise writes exactly the supplied fields, refreshing updatedAt. |
| Database.Store.DeleteClient | convex/clients.ts:74-79 | Removes exactly that client and leaves every project alone. The client's projects keep a clientId that no longer resolves. |
| Clients.Apply | convex/clients.ts:57-70 | A patch writes exactly the fields it supplies. |
| Clients.ApplyIdempotent | convex/clients.ts:57-70 | Applying an update twice is applying it once. |
| Clients.ApplyNothing | convex/clients.ts:59-65 | A patch that supplies nothing would change nothing. |
| Database.Store.GetProjects | convex/projects.ts:5-10 | Returns exactly the stored projects, newest first. |
| Database.Store.GetProject | convex/projects.ts:12-17 | Returns the stored project, and None exactly when the id is absent. |
| Database.Store.GetProjectsByClient | convex/projects.ts:19-27 | Returns exactly the projects of that client, in increasing id order. |
| Database.Store.GetProjectsByStatus | convex/projects.ts:29-45 | Returns exactly the projects with that status, in increasing id order. |
| Database.Store.CreateProject | convex/projects.ts:48-73 | Stores the arguments under a fresh id, stamped now, and advances the id counter past it. |
| Database.Store.UpdateProject | convex/projects.ts:75-107 | Rejects an empty update. Otherwise writes exactly the supplied fields. No project's clientId ever changes. |
| Database.Store.DeleteProject | convex/projects.ts:109-114 | Removes exactly that project and leaves its tasks in place. |
| Projects.Apply | convex/projects.ts:92-106 | A patch writes exactly the supplied fields and never clientId. |
| Projects.ApplyIdempotent | convex/projects.ts:92-106 | Applying an update twice is applying it once. |
| Projects.ApplyNothing | convex/projects.ts:94-100 | A patch that supplies nothing would change nothing. |
| Projects.StatusCount | convex/analytics.ts:73-76 | A status occurs among the projects' statuses as often as by_status finds projects with it. |
| Projects.StatusesPartition | convex/analytics.ts:73-76 | The five status lookups together count every project exactly once. |
| Database.Store.GetTasks | convex/tasks.ts:5-10 | Returns exactly the stored tasks, newest first. |
| Database.Store.GetTask | convex/tasks.ts:12-17 | Returns the stored task, and None exactly when the id is absent. |
| Database.Store.GetTasksByProject | convex/tasks.ts:19-27 | Returns exactly the tasks of that project. A task with no project is never returned. |
| Database.Store.GetTasksByStatus | convex/tasks.ts:29-44 | Returns exactly the tasks with that status, in increasing id order. |
| Database.Store.CreateTask | convex/tasks.ts:47-70 | Stores the arguments under a fresh id, stamped now, and advances the id counter past it. |
| Database.Store.UpdateTask | convex/tasks.ts:72-102 | Rejects an empty update. Otherwise writes exactly the supplied fields. No task's projectId ever changes. |
| Database.Store.DeleteTask | convex/tasks.ts:104-109 | Removes exactly that task. |
| Tasks.Apply | convex/tasks.ts:87-101 | A patch writes exactly the supplied fields and never projectId. |
| Tasks.ApplyIdempotent | convex/tasks.ts:87-101 | Applying an update twice is applying it once. |
| Tasks.ApplyNothing | convex/tasks.ts:89-95 | A patch that supplies nothing would change nothing. |
| Database.Store.GetUser | convex/users.ts:59-67 | `.unique()` never throws on the store. It returns the one user with that userId, or None exactly when no user has it. |
| Database.Store.ListUsers | convex/users.ts:69-73 | Returns exactly the stored users, oldest first. |
| Database.Store.StoreUser | convex/users.ts:4-43 | An existing userId keeps its document id and createdAt; its profile becomes the arguments and updatedAt = now. Otherwise a new user is inserted under a fresh id and the id counter advances. userIds stay unique. |
| Database.Store.RemoveUser | convex/users.ts:45-57 | Afterwards the users are exactly the previous ones without that userId. At most one is removed. |
| Users.ByUserIdAtMostOne | convex/users.ts:14-17 | While userIds are unique, the by_user_id lookup finds at most one user. |
| Users.ByUserIdEmpty | convex/users.ts:62-65 | The lookup finds nothing exactly when no stored user has the userId. |
| Users.Unique | convex/users.ts:14-17 | `.unique()` fails exactly when several rows match. It gives null exactly when none matches, and otherwise the single match. |
| Users.Refreshed | convex/users.ts:21-27 | The refreshed profile is the arguments. Absent optional fields are cleared, not kept. |
| Database.Store.GetAnalytics | convex/analytics.ts:5-10 | Returns exactly the stored entries, newest first. |
| Database.Store.GetAnalyticsByType | convex/analytics.ts:12-27 | Returns exactly the entries of that type. |
| Database.Store.GetAnalyticsByDateRange | convex/analytics.ts:29-40 | Returns exactly the entries dated from startDate to endDate, both ends included. |
| Database.Store.GetRevenueMetrics | convex/analytics.ts:42-65 | entries is the number of revenue entries and totalRevenue their sum. monthlyRevenue is the sum over those dated from monthStart on. The total is the monthly revenue plus the sum of the earlier entries. When no revenue value is negative, 0 ≤ monthlyRevenue ≤ totalRevenue. |
| Analytics.SumValuesSplit | convex/analytics.ts:50-57 | The total of any rows is the total from a date on plus the total before it. |
| Analytics.SumValuesAppend | convex/analytics.ts:50 | The total of two concatenated row lists is the sum of their totals. |
| Analytics.SumValuesNonNegative | convex/analytics.ts:50 | Rows with no negative value have a non-negative total. This bounds the monthly revenue by the total. |
| Database.Store.GetProjectMetrics | convex/analytics.ts:67-84 | total is the number of projects and completed the number of completed ones. Each status present maps to its project count, and absent statuses are missing. The counts add up to total. |
| Database.ProjectDistribution | convex/analytics.ts:73-76 | The per-status accumulator holds, for each status, the number of projects with it, and these counts sum to the number of projects. |
| Database.Store.GetLeadMetrics | convex/analytics.ts:86-106 | total is the number of leads and converted the number of won ones. The rate is ConversionRate of the two. The status counts are exact and add up to total. |
| Database.LeadDistribution | convex/analytics.ts:92-95 | The per-status accumulator holds, for each status, the number of leads with it, and these counts sum to the number of leads. |
| Analytics.ConversionRate | convex/analytics.ts:97 | A percentage in [0, 100], 0 for no leads, with rate × total = 100 × won. It is 100 exactly when every lead is won and 0 exactly when none is. |
| Seqs.Tally | convex/analytics.ts:73-76 | The loop's map has a key exactly for each value that occurs, with its number of occurrences. |
| Database.Store.RecordAnalytics | convex/analytics.ts:109-130 | Inserts one entry holding the arguments, dated now, under a fresh id, and advances the id counter past it. |
| Analytics.Recorded | convex/analytics.ts:124-128 | The entry carries back every argument unchanged and is dated now. |
| Database.Store.RecordRevenue | convex/analytics.ts:132-151 | Inserts one revenue entry dated now under a fresh id, and advances the id counter past it. |
| Analytics.Revenue | convex/analytics.ts:140-149 | The entry is revenue_generated, with value = amount and the given currency, project and client. Its metadata holds the description, and it has no lead. |
| QALaunch.Percent | components/qa-launch.tsx:185 | Math.round of done/total × 100: the nearest whole percentage, with a half rounding up. It lies in [0, 100], is 100 when everything is done and 0 when nothing is. |
| QALaunch.RoundedPercent | components/qa-launch.tsx:185 | The integer formula (200·done + total) div (2·total) has those rounding properties. |
| QALaunch.QAProgress | components/qa-launch.tsx:183-186 | The rounded share of checked QA items, in [0, 100]. It is 100 when all are checked and 0 when none are. |
| QALaunch.LaunchProgress | components/qa-launch.tsx:188-191 | The same for the launch steps. |
| QALaunch.ItemsByCategory | components/qa-launch.tsx:193-195 | Exactly the QA items of that category, each as often as in the checklist, in checklist order. |
| QALaunch.ToggleItems | components/qa-launch.tsx:203-205 | Only `completed` changes, and it flips exactly on the items with that id. |
| QALaunch.ToggleSteps | components/qa-launch.tsx:222-224 | The same for launch steps. |
| QALaunch.ToggleItemsTwice | components/qa-launch.tsx:197-214 | Toggling the same QA item twice restores the checklist. |
| QALaunch.ToggleItemsAbsent | components/qa-launch.tsx:203-205 | Toggling an id no item has changes nothing. |
| QALaunch.ToggleStepsTwice | components/qa-launch.tsx:216-235 | Toggling the same step twice restores the steps. |
| QALaunch.ToggleStepsAbsent | components/qa-launch.tsx:222-224 | Toggling an id no step has changes nothing. |
| QALaunch.ToggleItemsMovesCountByOne | components/qa-launch.tsx:183-205 | With unique ids, a toggle moves the number of checked items by exactly one: down if the item was checked, up if it was not. |
| QALaunch.WithItemToggled | components/qa-launch.tsx:201-206 | Only the project's QA items change, and toggling again restores the project. |
| QALaunch.WithStepToggled | components/qa-launch.tsx:220-225 | Only the project's launch steps change, and toggling again restores the project. |
| QALaunch.Screen.constructor | components/qa-launch.tsx:171 | The screen opens with the first project on display. |
| QALaunch.Screen.ToggleQAItem | components/qa-launch.tsx:197-214 | Every listed project with the selected project's id gets the toggled checklist, and the others stay. The selected project is toggled too, so an entry equal to it stays equal to it. |
| QALaunch.Screen.ToggleLaunchStep | components/qa-launch.tsx:216-235 | The same for launch steps. |
| CrmLeads.Label | components/crm-leads.tsx:45 | No status is labelled "all", so the status filter's "all" never collides with a status. |
| CrmLeads.LabelInjective | components/crm-leads.tsx:45 | Distinct statuses have distinct labels. |
| CrmLeads.LowerChar | components/crm-leads.tsx:104 | Upper-case ASCII letters map to lower case; every other character is kept. |
| CrmLeads.Lower | components/crm-leads.tsx:104-106 | Lower-cases character by character and keeps the length. |
| CrmLeads.MatchesSearch | components/crm-leads.tsx:103-106 | The lower-cased term occurs at some position in the lower-cased name, company or email. |
| CrmLeads.MatchesStatus | components/crm-leads.tsx:107 | "all" lets every lead through. A status's label lets through exactly the leads with that status. Any other string lets none through. |
| Seqs.FilterMultiplicity | components/crm-leads.tsx:102-109 | `.filter` keeps every occurrence of an element that passes and drops every element that does not. |
| CrmLeads.Includes | components/crm-leads.tsx:104-106 | `includes` holds exactly when the term occurs at some position. |
| CrmLeads.FilteredLeads | components/crm-leads.tsx:102-109 | The result is exactly the leads passing both the search and the status test, each as often as in the list, as an order-preserving subsequence. Under a filter other than "all", every result has that status. |
| CrmLeads.NoFilterListsAll | components/crm-leads.tsx:102-109 | With an empty term and "all", every lead is listed, in order. |
| CrmLeads.EmptyTermMatchesAll | components/crm-leads.tsx:103-106 | The empty term matches every lead. |
| CrmLeads.SearchIgnoresOtherFields | components/crm-leads.tsx:103-106 | Only name, company and email are searched. Leads that agree on those match the same terms. |
| CrmLeads.LeadStats | components/crm-leads.tsx:111-117 | total is the number of leads. new, qualified, proposals and won are each the number of times that status occurs among the leads. new + qualified + proposals + won + lost = total, so the four shown never exceed total. They equal it exactly when no lead is lost. |
| CrmLeads.StatusCount | components/crm-leads.tsx:111-117 | The leads the filter for a status keeps are as many as the times that status occurs among the leads' statuses. |
| CrmLeads.StatusesPartition | components/crm-leads.tsx:111-117 | The five status counts add up to the number of leads. |
| CrmLeads.NoneLost | components/crm-leads.tsx:111-117 | The Lost count is 0 exactly when no lead is lost. |
| ClientPortalConvex.ProjectProgress | components/client-portal-convex.tsx:61-70 | In [0, 100]. It is 100 exactly for "completed", and 0 exactly for a string outside the table. |
| ClientPortalConvex.ProgressOfStatus | components/client-portal-convex.tsx:61-70 | Every stored status shows positive progress and only completed shows 100. Planning < in progress < review < completed. |
| ClientPortalConvex.ConvertToKsh | components/client-portal-convex.tsx:73-75 | The shilling amount is a multiple of 130 whose quotient by 130 is the dollar amount. |
| ClientPortalConvex.CeilDays | components/client-portal-convex.tsx:233 | 0 once the time has passed. Otherwise the least number of whole days covering the remaining milliseconds. |
| ClientPortalConvex.DaysRemaining | components/client-portal-convex.tsx:232-234 | "TBD" (None) exactly when there is no end date or it is 0. Otherwise 0 if the date has passed, else the ceiling of the days left. |
| ClientPortalConvex.CurrentProject | components/client-portal-convex.tsx:85-96 | The placeholder (None) exactly when there are no projects. Otherwise the selected project, or the first one when none is selected. |
| ClientPortalConvex.CanRequestReview | components/client-portal-convex.tsx:321 | The Request Review button is enabled exactly while the project's progress is below the review mark (85). |
| ClientPortalConvex.RequestReviewMovesToReview | components/client-portal-convex.tsx:319-321 | The review request is an update the handler accepts. It moves the project to review and changes nothing else. The button is then disabled and the bar shows 85. |
| ClientPortalConvex.PaymentFor | components/client-portal-convex.tsx:327-334 | A payment is sent exactly when the budget is present and non-zero. It has amount = budget and the project's id, currency is the project's or "USD", and the description is "Revenue from " + title. |
| ClientPortalConvex.PaymentRecordsBudget | components/client-portal-convex.tsx:327-334 | The recorded entry is revenue_generated for that project, worth its budget, dated now. |
| ClientPortal.TrimStart | components/client-portal.tsx:195 | Removes exactly the leading white space: the result is a suffix, and what was removed is blank. |
| ClientPortal.TrimEnd | components/client-portal.tsx:195 | Removes exactly the trailing white space. |
| ClientPortal.Trim | components/client-portal.tsx:195 | `trim()` returns a middle part of the string with only white space around it and none at its own ends. It is "" exactly for strings made only of white space. |
| ClientPortal.Screen.constructor | components/client-portal.tsx:173-174 | The screen opens on the first project with an empty message box. |
| ClientPortal.Screen.Type | components/client-portal.tsx:476 | The message box holds what was typed. |
| ClientPortal.Screen.SendMessage | components/client-portal.tsx:194-211 | A blank message changes nothing. Otherwise the untrimmed text is appended as one message from "Sarah Johnson", sender type client. Earlier messages, the other project fields and the project list are unchanged, and the box is cleared. |
| ProjectWorkflow.ColumnOf | components/project-workflow.tsx:121-128 | Each stage has exactly one column, the one whose id is its status. |
| ProjectWorkflow.TasksByStatus | components/project-workflow.tsx:137-139 | Nothing when no project is selected. Otherwise exactly the selected project's tasks with that status, each as often as in the project, in order. |
| ProjectWorkflow.TaskInOneColumn | components/project-workflow.tsx:121-139 | Every task shows in its status's column and in no other. |
| ProjectWorkflow.ColumnCountsSum | components/project-workflow.tsx:121-139 | The six column counts add up to the number of tasks. |
| ProjectWorkflow.BoardShowsEveryTask | components/project-workflow.tsx:285-348 | The column badges add up to the "Total Tasks" figure. |

## Left out

- convex/http.ts (HTTP routing, JSON, CORS, webhook logging) and the React machinery: rendering, dialogs and hooks. Each `setState` call is modelled as an assignment.
- Other pages and components: the provider, the layouts and pages, the user menu, the dashboard and the analytics charts. They hold wiring or fixed sample data.
- The clock and formatting. `Date.now()` and `new Date()` are parameters. The month start of `getRevenueMetrics` is the `monthStart` parameter. Locale formatting and the "KSH …" string are not modelled.
- Database.Store.StoreUser: the source calls `Date.now()` twice on insert, so createdAt and updatedAt could differ by a millisecond. The model stamps both with one `now`.
- Database.Store.GetAnalyticsByDateRange: returns the matching entries in insertion order, not in the `by_date` index's date order. The set of entries is exact.
- Database.Store.GetLeadsByStatus, GetProjectsByStatus, GetProjectsByClient, GetTasksByStatus, GetTasksByProject, GetAnalyticsByType: index lookups are modelled as filtered scans in insertion order. That is the order Convex gives for equal index keys.
- Convex ids are opaque strings per table. Here they are one natural-number counter shared by all tables.
- Concurrency: every handler is one atomic step, with no interleaving or retries.
- Floating point. Amounts, budgets and values are integers and the conversion rate is a real. Not modelled: NaN, rounding of sums, and `Math.round` on binary fractions.
- QALaunch.QAProgress and QALaunch.LaunchProgress: require a non-empty list. The source divides by zero there and shows NaN.
- CrmLeads.Lower: lowers only ASCII letters. JavaScript's `toLowerCase` also lowers other scripts.
- ClientPortalConvex.ProjectProgress: treats every string outside the five statuses as 0. In the source, a status naming an inherited object property such as "constructor" would yield that property instead. Stored statuses are always one of the five.
- ClientPortal.Screen.SendMessage: the message id and timestamp, which the source derives from the clock, are parameters.
- The date-string parsing of components/client-portal.tsx:307-309 is not modelled.
- Leads.Apply, Clients.Apply, Projects.Apply, Tasks.Apply: `ctx.db.patch` with an explicit `undefined` would remove a field. The handlers filter those out before patching, so the model never removes a field on update.
