# TermoPro front end — a verified model of its logic

TermoPro-Frontend is a React console for an installation company. Owners, managers, technicians and operators use it to manage teams, tasks, client orders, invitations, employees and time-off requests. Almost all of it is rendering and REST calls. This project models in Dafny the part that makes decisions:

- the real-time notification feed: a most-recent-first store, fed by a STOMP subscription per company;
- role-based access:
  - the route guard;
  - sidebar, drawer and bottom-bar filtering with active-path matching;
  - the per-page `canManage`/`canCreate` rules;
- the order and task status workflows: which transitions each page offers, and the status labels;
- list updates on page state:
  - filters with an `all` wildcard;
  - prepend, remove by id, replace by id;
  - the "company users who are not members" difference;
- the query parameters the task and order services build;
- the session kept in `localStorage`: restore, login, logout and the registration error behaviour;
- the schemas and submit handlers of the three create forms.

Pages whose state changes are classes. Their fields are the page's `useState` values and their methods are the handlers. Each handler is one atomic step, and the server's answer is a parameter (`Response<T>`: `Success(value)` or `Failure`). A method returns the request it sends as a value `Http.Request(verb, path, query, body)`, with the query as an ordered key/value sequence. The create calls, whose JSON bodies are typed records, return `Http.JsonRequest(verb, path, query, body)` instead. Pure logic (tables, filters, workflows, labels, request shapes) is written as functions, with lemmas proving what the code promises.

Conventions:
- Roles, statuses and types are the server's strings, named by constants. This keeps the "unknown value passes through" branches of the label switches.
- An absent or falsy `companyId` or route parameter is the empty string. Written into a link, a missing company id is the text `undefined`, as a template literal writes it.
- `JSON.parse`, `JSON.stringify` and the e-mail check are function parameters. A failed parse is `None`.
- A `navigate` call is recorded in a `navigatedTo` field.

## Model

| member | source | states |
|---|---|---|
| NotificationStore.Added | src/components/store/useNotificationStore.ts:13 | the new notification is at index 0, the length grows by exactly one, and every earlier notification follows it unchanged and in order |
| NotificationStore.AddedAllReversesArrivals | src/components/store/useNotificationStore.ts:13 | after adding n1..nk the list is nk..n1 followed by what was there before |
| NotificationStore.NewestFirst | src/components/store/useNotificationStore.ts:13 | starting empty, the last arrival is first and the first arrival is last |
| NotificationStore.NoDeduplication | src/components/store/useNotificationStore.ts:13 | adding the same record twice yields two equal entries at the head |
| NotificationStore.NotificationStore.constructor | src/components/store/useNotificationStore.ts:12 | the store starts with no notifications |
| NotificationStore.NotificationStore.AddNotification | src/components/store/useNotificationStore.ts:13 | the list becomes the old list with `n` prepended |
| NotificationStore.NotificationStore.ClearNotifications | src/components/store/useNotificationStore.ts:14 | the list is empty afterwards whatever it held, so clearing twice is clearing once |
| NotificationContext.TopicFor | src/context/NotificationContext.tsx:31 | the topic is `/topic/company/` followed by exactly the company id |
| NotificationContext.TopicRoundTrip | src/context/NotificationContext.tsx:31 | the company id can be read back from its topic |
| NotificationContext.TopicsSeparateCompanies | src/context/NotificationContext.tsx:31 | two companies never share a topic |
| NotificationContext.StompClient.constructor | src/context/NotificationContext.tsx:27-29 | a new client is inactive, has no subscription, and carries its topic and the 5000 ms reconnect delay |
| NotificationContext.StompClient.Activate | src/context/NotificationContext.tsx:47 | the client is active afterwards |
| NotificationContext.StompClient.Deactivate | src/context/NotificationContext.tsx:51 | the client is inactive afterwards |
| NotificationContext.StompClient.OnConnect | src/context/NotificationContext.tsx:30-31 | every connect subscribes once more to the client's own topic, and nothing else subscribes |
| NotificationContext.NotificationProvider.constructor | src/context/NotificationContext.tsx:20 | no client, no cleanup and no effect run before the first render |
| NotificationContext.NotificationProvider.AtMostOneActive | src/context/NotificationContext.tsx:22-53 | of all clients the effect ever created, at most one is active |
| NotificationContext.Dependency | src/context/NotificationContext.tsx:53 | present iff there is a user, and then the user's company id; for a user with a company it is that company |
| NotificationContext.NotificationProvider.Render | src/context/NotificationContext.tsx:22-53 | with an unchanged `companyId` nothing happens. Otherwise the previous client is deactivated, and a new active client is created exactly when there is a user with a company. That client has no subscription yet, uses that company's topic and a 5000 ms delay, and is stored in the ref |
| NotificationContext.NotificationProvider.Unmount | src/context/NotificationContext.tsx:50-52 | the cleanup deactivates the client of the last effect run, and no client is left active |
| NotificationContext.NotificationProvider.HandleMessage | src/context/NotificationContext.tsx:32-41 | a body that fails to parse leaves the store unchanged and shows nothing. A parsed one is prepended to the store, and only then is its toast shown with the title and message |
| ProtectedRoute.Guard | src/components/auth/ProtectedRoute.tsx:19-33 | spinner iff loading. Login redirect carrying the location iff not loading and no user. Home redirect iff a user whose role is missing from a given role list. Otherwise the route renders children exactly when some are given, else the outlet |
| ProtectedRoute.AdmittedIff | src/components/auth/ProtectedRoute.tsx:29-33 | an authenticated user is admitted iff the route has no role list or lists the user's role |
| ProtectedRoute.UnauthenticatedNeverSentHome | src/components/auth/ProtectedRoute.tsx:19-31 | without a user the guard never redirects to `/` |
| ProtectedRoute.OnlyOwnersReviewTimeOff | src/routes/AppRoutes.tsx:107 | the pending time-off page admits a signed-in user iff the user is an owner |
| Sidebar.VisibleItems | src/components/layout/Sidebar.tsx:68-72 | an item is shown iff it has no role list, or there is a user whose role is listed |
| Sidebar.VisibleItemsKeepTableOrder | src/components/layout/Sidebar.tsx:68-72 | the shown items are the table's items at increasing positions |
| Sidebar.MainLinks | src/components/layout/Sidebar.tsx:68-76 | one link per shown item. An exact item is active iff the path equals its href, any other iff the path starts with its href |
| Sidebar.AdminLinks | src/components/layout/Sidebar.tsx:103-109 | one link per shown admin item, active by prefix |
| Domain.CompanyIdText | src/components/layout/Sidebar.tsx:49 | the company id when the user has one, the text `undefined` when there is no user or no company; src/components/layout/MobileSidebar.tsx:51 and :60 write it the same way |
| Sidebar.AdminItems | src/components/layout/Sidebar.tsx:46-53 | a single non-exact item labelled "Setări firmă" to `/company/` plus the given id text, restricted to owners and managers |
| Sidebar.SidebarLinks | src/components/layout/Sidebar.tsx:68-109 | the links begin with exactly the main links. The admin links, built from the company id text, make up the rest when the admin section shows; otherwise nothing follows |
| Sidebar.AdminSectionForOwnersAndManagers | src/components/layout/Sidebar.tsx:97 | the admin section shows iff the user is an owner or a manager |
| Sidebar.AdminLinkWhenShown | src/components/layout/Sidebar.tsx:49 | when shown, the last link is the settings link to `/company/` plus the company id text (`undefined` for a user without a company), active by prefix |
| Sidebar.DashboardActiveOnlyAtRoot | src/components/layout/Sidebar.tsx:74-75 | the dashboard link is active iff the path is exactly `/` |
| Sidebar.TechnicianSidebar | src/components/layout/Sidebar.tsx:16-44 | a technician sees every entry but Teams, in table order, and no admin section |
| Sidebar.SidebarWithoutTeams | src/components/layout/Sidebar.tsx:16-44 | any user who is neither owner nor manager, signed in or not, sees the table without its Teams entry and nothing else removed |
| Sidebar.HidesOnlyRestricted | src/components/layout/Sidebar.tsx:72-74 | a table whose only role-restricted entry is hidden from the user renders every other entry, in order |
| Sidebar.OwnerOrManagerSidebar | src/components/layout/Sidebar.tsx:16-44 | owners and managers see the whole table |
| MobileSidebar.InvitationsItem | src/components/layout/MobileSidebar.tsx:49-54 | the drawer's extra entry links to `/invitations/` plus the company id, or to `/invitations/undefined` without a company. It matches by prefix and is restricted to owners and managers |
| MobileSidebar.MobileNavItems | src/components/layout/MobileSidebar.tsx:21-55 | the drawer's table is the sidebar's table with the invitations entry appended |
| MobileSidebar.MobileSidebarLinks | src/components/layout/MobileSidebar.tsx:96-137 | the links begin with exactly the drawer table's main links. The admin links (src/components/layout/MobileSidebar.tsx:57-64, the same item as the sidebar's) make up the rest when the admin section shows; otherwise nothing follows |
| MobileSidebar.MobileSeesSidebarPlusInvitations | src/components/layout/MobileSidebar.tsx:98-100 | the drawer shows what the sidebar shows, then the invitations entry, which only owners and managers see |
| MobileSidebar.InvitationsEntryMatchesRoute | src/components/layout/MobileSidebar.tsx:53 | the invitations entry is visible to a user iff the invitations route admits that user |
| MobileSidebar.MobileLinksExtendSidebarLinks | src/components/layout/MobileSidebar.tsx:96-137 | for owners and managers the drawer's links are the sidebar's, with the invitations link before the admin section. For everyone else they are exactly the sidebar's links |
| MobileSidebar.HandleLogout | src/components/layout/MobileSidebar.tsx:66-69 | the session is logged out, and `onNavigate` is called exactly when one is given |
| MobileNavigation.BottomLinks | src/components/layout/MobileNavigation.tsx:58-64 | one link per shown item, with the `/` special case of `isActive` |
| MobileNavigation.OnlyTeamsRestricted | src/components/layout/MobileNavigation.tsx:22-53 | the Teams item is the only one with a role list |
| MobileNavigation.ActiveAgreesWithSidebar | src/components/layout/MobileNavigation.tsx:17-20 | at every path each bottom item is active exactly when the sidebar's item at the same position is |
| MobileNavigation.SameVisiblePositions | src/components/layout/MobileNavigation.tsx:60-62 | the bottom bar hides the same positions as the sidebar for every user |
| MobileNavigation.BottomWithoutTeams | src/components/layout/MobileNavigation.tsx:60-62 | a user who is neither owner nor manager sees the bar without its Teams entry and nothing else removed |
| MobileNavigation.BottomBarMatchesSidebar | src/components/layout/MobileNavigation.tsx:17-62 | the bottom bar's links equal the sidebar's main links for every user and path |
| Seqs.FilterCounts | src/pages/invitations/Invitations.tsx:129 | `filter` keeps every copy: an element that passes occurs in the result as often as in the input, any other element not at all. Every list filter of the model (src/pages/orders/Orders.tsx:47, src/pages/tasks/Tasks.tsx:48, src/pages/teams/TeamDetails.tsx:68, src/pages/invitations/Invitations.tsx:249, src/components/layout/Sidebar.tsx:68-72) is `Seqs.Filter` |
| EntityLists.WithoutId | src/pages/invitations/Invitations.tsx:129 | exactly the entries whose id differs from the removed one remain |
| EntityLists.WithoutIdPreservesOrder | src/pages/invitations/Invitations.tsx:129 | the survivors keep their relative order |
| EntityLists.WithoutAbsentId | src/pages/teams/TeamDetails.tsx:109 | removing an id nobody has changes nothing |
| EntityLists.WithoutIdIdempotent | src/pages/company/ManageEmployees.tsx:69 | removing the same id twice is removing it once |
| EntityLists.WithoutPresentId | src/pages/timeoff/TimeOffRequests.tsx:56 | with unique ids, removing a present id shortens the list by exactly one |
| EntityLists.WithoutIdKeepsUnique | src/pages/timeoff/TimeOffRequests.tsx:75 | removal keeps ids unique |
| EntityLists.ReplaceById | src/pages/teams/Teams.tsx:109 | same length. Each entry with the updated id becomes the update, and every other entry is unchanged in place |
| EntityLists.ReplaceByIdKeepsIds | src/pages/teams/Teams.tsx:109 | the ids at every position are unchanged |
| EntityLists.ReplaceByIdIdempotent | src/pages/teams/Teams.tsx:109 | replacing twice with the same update is replacing once |
| EntityLists.ReplaceByIdTouchesOnlyItsId | src/pages/teams/Teams.tsx:109 | apart from entries with the updated id, the list is unchanged |
| EntityLists.Prepended | src/pages/invitations/Invitations.tsx:109 | the new entry is first and the old list follows unchanged |
| EntityLists.PrependedKeepsUnique | src/pages/invitations/Invitations.tsx:109 | prepending an entry with a fresh id keeps ids unique |
| OrderService.FilterOrders | src/services/order.service.ts:17-26 | the loop sends GET `/orders/filter` whose query is the given entries with unset or empty values skipped |
| OrderService.FilterQuery | src/services/order.service.ts:18-24 | no more pairs than entries, and every pair comes from an entry given with that same non-empty value |
| OrderService.FilterQueryIff | src/services/order.service.ts:20-24 | a pair is in the query iff the entry was given with that non-empty value |
| OrderService.FilterQueryKeepsEntryOrder | src/services/order.service.ts:20-24 | the query's pairs come from the entries at increasing positions |
| OrderService.FilterQueryKeysOnce | src/services/order.service.ts:20-24 | with distinct entry keys, each key appears at most once in the query |
| OrderService.UpdateOrderStatus | src/services/order.service.ts:33-37 | PUT `/orders/{id}/status`. Both the query and the body hold only `status`, with the same value |
| TaskService.DecimalString | src/services/task.service.ts:23-24 | a page number is written as digits, without a leading zero |
| TaskService.DecimalRoundTrip | src/services/task.service.ts:23-24 | reading the digits back gives the number |
| TaskService.Optional | src/services/task.service.ts:27-32 | a filter is sent iff it is given, non-empty and not `all` |
| TaskService.GetCompanyTasksPaginated | src/services/task.service.ts:21-35 | GET `/tasks/company/{companyId}` with the query built from page, size, status and type |
| TaskService.PaginatedQuery | src/services/task.service.ts:22-32 | page and size come first, in that order, as decimal text of the given values or the defaults; one more pair for each filter that is sent |
| TaskService.PaginatedQueryKeys | src/services/task.service.ts:22-32 | the keys are page, size, then status and type, each only when sent |
| TaskService.PaginatedQueryValues | src/services/task.service.ts:21-32 | page and size default to 0 and 10, and status and type carry the given values |
| TaskService.UpdateTaskStatus | src/services/task.service.ts:50-55 | PUT `/tasks/{id}/status` whose query is exactly `status` then `companyId` |
| TaskService.DeleteTask | src/services/task.service.ts:58-62 | DELETE `/tasks/{id}` whose query is exactly `userId` |
| OrderDetails.CanManageOrder | src/pages/orders/OrderDetails.tsx:135-137 | true iff the user is an owner, a manager or an operator |
| OrderDetails.OrderActions | src/pages/orders/OrderDetails.tsx:214-237 | nothing for those who cannot manage or for terminal statuses. Otherwise at most one forward step, one rank ahead, and cancel last |
| OrderDetails.OrderForwardStep | src/pages/orders/OrderDetails.tsx:216-236 | a known non-terminal status offers its next status and cancel. An unknown status offers only cancel |
| OrderDetails.OrderForwardChain | src/pages/orders/OrderDetails.tsx:216-230 | PENDING, SCHEDULED, IN_PROGRESS, COMPLETED in that order. COMPLETED and CANCELLED have no next status |
| OrderDetails.OrderStatusLabel | src/pages/orders/OrderDetails.tsx:118-133 | each of the five statuses has its fixed label, and an unknown status passes through; the same switch is repeated in src/pages/orders/Orders.tsx:68-83 |
| OrderDetails.OrderStatusLabelsDistinct | src/pages/orders/OrderDetails.tsx:118-133 | distinct statuses have distinct labels |
| OrderDetails.GetOrderDetails | src/services/order.service.ts:13-14 | GET `/orders/{id}` |
| OrderDetails.DeleteOrder | src/services/order.service.ts:29-30 | DELETE `/orders/{id}` |
| OrderDetails.OrderDetailsPage.constructor | src/pages/orders/OrderDetails.tsx:24-29 | no order, loading |
| OrderDetails.OrderDetailsPage.LoadOrderDetails | src/pages/orders/OrderDetails.tsx:37-53 | without an order id nothing changes and loading stays. Otherwise the order is fetched, success stores it, failure leaves for `/orders`, and loading ends |
| OrderDetails.OrderDetailsPage.HandleStatusChange | src/pages/orders/OrderDetails.tsx:55-72 | without an order or an id nothing is sent. Otherwise the status update is sent, and the order is replaced only by the server's result |
| OrderDetails.OrderDetailsPage.HandleDelete | src/pages/orders/OrderDetails.tsx:74-90 | without an id nothing is sent. Otherwise the delete is sent, and only success leaves for `/orders` |
| OrderDetails.TechnicianChangesNoOrder | src/pages/orders/OrderDetails.tsx:135-137 | a technician is offered no transition at any status |
| Orders.FilteredOrders | src/pages/orders/Orders.tsx:47-49 | an order is kept iff the filter is `all` or equals its status |
| Orders.AllKeepsEveryOrder | src/pages/orders/Orders.tsx:47-49 | the `all` filter keeps the list as it is |
| Orders.FilteredOrdersKeepOrder | src/pages/orders/Orders.tsx:47-49 | the result is a subsequence in the original order |
| Orders.FilteredOrdersIdempotent | src/pages/orders/Orders.tsx:47-49 | filtering twice equals filtering once |
| Orders.CanCreateOrder | src/pages/orders/Orders.tsx:89-91 | true iff the user is an owner, a manager or an operator |
| Orders.CreateButtonMatchesRoute | src/pages/orders/Orders.tsx:89-91 | the create button shows iff the create-order route admits the user, and iff the user may manage orders |
| Orders.OrdersPage.constructor | src/pages/orders/Orders.tsx:22-24 | no orders, loading, filter `all` |
| Orders.GetCompanyOrders | src/services/order.service.ts:9-10 | GET `/orders/company/{id}` |
| Orders.OrdersPage.LoadOrders | src/pages/orders/Orders.tsx:30-45 | without a company nothing is sent, nothing changes and loading stays true. Otherwise it sends GET `/orders/company/{id}` for the user's company; success stores the orders, failure keeps them, and loading ends |
| TaskDetails.CanManageTask | src/pages/tasks/TaskDetails.tsx:160 | true iff the user is an owner or a manager |
| TaskDetails.TaskActions | src/pages/tasks/TaskDetails.tsx:241-259 | nothing for those who cannot manage or for terminal statuses. Otherwise at most one forward step, one rank ahead, and cancel last. SCHEDULED is never offered |
| TaskDetails.TaskForwardSteps | src/pages/tasks/TaskDetails.tsx:243-258 | PENDING to IN_PROGRESS to COMPLETED. Any other non-terminal status offers only cancel |
| TaskDetails.TaskStatusLabel | src/pages/tasks/TaskDetails.tsx:128-141 | each task status has its fixed label, and an unknown one passes through; the same switch is repeated in src/pages/tasks/Tasks.tsx:69-82 |
| TaskDetails.TaskTypeLabel | src/pages/tasks/TaskDetails.tsx:143-158 | each task type has its fixed label, and an unknown one passes through; the same switch is repeated in src/pages/tasks/Tasks.tsx:84-99 |
| TaskDetails.TaskStatusLabelsDistinct | src/pages/tasks/TaskDetails.tsx:128-141 | distinct known statuses have distinct labels |
| TaskDetails.TaskTypeLabelsDistinct | src/pages/tasks/TaskDetails.tsx:143-158 | distinct known task types have distinct labels |
| TaskDetails.WithAssigner | src/pages/tasks/TaskDetails.tsx:45-50 | the loaded task is the fetched task with only `assignedByUser` set |
| TaskDetails.GetTaskDetails | src/services/task.service.ts:46-47 | GET `/tasks/{companyId}/{taskId}` |
| TaskDetails.GetUserById | src/services/auth.service.ts:21-22 | GET `/users/{id}` |
| TaskDetails.TaskDetailsPage.constructor | src/pages/tasks/TaskDetails.tsx:25-30 | no task, loading |
| TaskDetails.TaskDetailsPage.LoadTaskDetails | src/pages/tasks/TaskDetails.tsx:38-62 | without a task id nothing changes. Without a company, or on any failure, the page leaves for `/tasks`. Otherwise it fetches the task and then its assigner, and stores the task with the assigner. Loading ends whenever an id is given |
| TaskDetails.TaskDetailsPage.HandleStatusChange | src/pages/tasks/TaskDetails.tsx:64-84 | without a task, an id or a company nothing is sent and the task is unchanged. Otherwise the update is sent, and the task is replaced only by the server's result |
| TaskDetails.TaskDetailsPage.HandleDelete | src/pages/tasks/TaskDetails.tsx:86-102 | without an id nothing is sent. Otherwise the delete carries the user's id, or the empty string without one, and only success leaves for `/tasks` |
| TaskDetails.OnlyOwnersAndManagersChangeTasks | src/pages/tasks/TaskDetails.tsx:160 | technicians and operators are offered no transition |
| Tasks.FilteredTasks | src/pages/tasks/Tasks.tsx:48-52 | a task is kept iff (status filter `all` or matching) and (type filter `all` or matching) |
| Tasks.AllKeepsEveryTask | src/pages/tasks/Tasks.tsx:49-51 | with both filters `all` the list is kept as it is |
| Tasks.FilteredTasksIsIntersection | src/pages/tasks/Tasks.tsx:48-52 | filtering by both equals filtering by status, then by type |
| Tasks.FilteredTasksKeepOrder | src/pages/tasks/Tasks.tsx:48 | the result is a subsequence in the original order |
| Tasks.CanCreateTask | src/pages/tasks/Tasks.tsx:105 | true iff the user is an owner or a manager |
| Tasks.CreateButtonMatchesRoute | src/pages/tasks/Tasks.tsx:105 | the create button shows iff the create-task route admits the user, and iff the user may manage tasks |
| Tasks.LoadTasksAsWritten | src/pages/tasks/Tasks.tsx:31-46 | as written: without a company nothing changes. With one, loading ends and the list never changes |
| Tasks.LoadTasksIntended | src/pages/tasks/Tasks.tsx:31-46 | without a company nothing changes and loading stays true. Otherwise loading ends, success stores the tasks, and failure keeps them |
| Tasks.LoadTasksAsWrittenShowsNothing | src/pages/tasks/Tasks.tsx:35 | a company with a task on the server still shows an empty list as written, where the intended load shows that task |
| Tasks.TasksPage.constructor | src/pages/tasks/Tasks.tsx:22-25 | no tasks, loading, both filters `all` |
| Tasks.TasksPage.LoadTasks | src/pages/tasks/Tasks.tsx:31-46 | the page's list and spinner change as the intended load says |
| Invitations.RoleLabel | src/pages/invitations/Invitations.tsx:169-182 | each of the four roles has its fixed label, and an unknown role passes through; the same switch is repeated in src/pages/company/ManageEmployees.tsx:83-96 |
| Invitations.RoleLabelsDistinct | src/pages/invitations/Invitations.tsx:169-182 | distinct roles have distinct labels |
| Invitations.SelectableRoles | src/pages/invitations/Invitations.tsx:249 | a role is offered iff it is a member of `Role` other than OWNER |
| Invitations.FormValid | src/pages/invitations/Invitations.tsx:52-57 | the form passes iff the address passes the e-mail check and the role is a selectable one or OWNER |
| Invitations.SelectableRolesAreAllButOwner | src/pages/invitations/Invitations.tsx:249 | the role picker offers MANAGER, TECHNICIAN, OPERATOR: every role but OWNER, in enum order |
| Invitations.SchemaAdmitsSelectableAndOwner | src/pages/invitations/Invitations.tsx:52-57 | with a valid e-mail, every offered role passes the schema. So does OWNER, which the picker does not offer |
| Invitations.CreateInvitation | src/services/company.service.ts:21-22 | POST `/invitations` whose body has exactly the keys e-mail, role and company, carrying the given e-mail, role and company id |
| Invitations.RowActions | src/pages/invitations/Invitations.tsx:319-337 | a row offers resend iff its invitation is unused; delete is always offered, last |
| Invitations.DeleteInvitation | src/services/company.service.ts:29-30 | DELETE `/invitations/{id}` |
| Invitations.Resent | src/pages/invitations/Invitations.tsx:151-154 | the new invitation first, then exactly the others except the resent one |
| Invitations.ResentReplacesOne | src/pages/invitations/Invitations.tsx:151-154 | with unique ids and a fresh replacement id, resend keeps the length and unique ids |
| Invitations.InvitationsPage.constructor | src/pages/invitations/Invitations.tsx:64-66 | no invitations, loading, dialog closed |
| Invitations.GetCompanyInvitations | src/services/company.service.ts:25-26 | GET `/invitations/company/{id}` |
| Invitations.InvitationsPage.LoadInvitations | src/pages/invitations/Invitations.tsx:82-97 | without a company nothing is sent, nothing changes and loading stays. Otherwise it sends GET `/invitations/company/{id}`; success stores the list, failure keeps it, and loading ends |
| Invitations.InvitationsPage.OnSubmit | src/pages/invitations/Invitations.tsx:99-124 | invalid values or no company send nothing. Otherwise the create is sent, and success prepends the new invitation and closes the dialog. Failure changes nothing |
| Invitations.InvitationsPage.HandleDelete | src/pages/invitations/Invitations.tsx:126-141 | the delete is sent. Success removes exactly that id, and failure keeps the list |
| Invitations.InvitationsPage.HandleResend | src/pages/invitations/Invitations.tsx:143-167 | a create with the old invitation's e-mail, role and company is sent. Success puts the new one first without the old id, and failure keeps the list |
| TeamDetails.NonMembers | src/pages/teams/TeamDetails.tsx:68-70 | exactly the company users whose id no member has |
| TeamDetails.NonMembersDisjoint | src/pages/teams/TeamDetails.tsx:68-70 | no available user shares an id with a member |
| TeamDetails.NonMembersKeepOrder | src/pages/teams/TeamDetails.tsx:68 | the available users keep the company list's order |
| TeamDetails.NoMembersOffersEveryone | src/pages/teams/TeamDetails.tsx:68-70 | an empty team offers every company user |
| TeamDetails.GetCompanyUsers | src/services/company.service.ts:13-14 | GET `/companies/{id}/users` |
| TeamDetails.GetTeamDetails | src/services/team.service.ts:13-14 | GET `/teams/{id}` |
| TeamDetails.GetTeamMembers | src/services/team.service.ts:25-26 | GET `/teams/{id}/members` |
| TeamDetails.RemoveUserFromTeam | src/services/team.service.ts:21-22 | DELETE `/teams/{teamId}/remove/{userId}` |
| TeamDetails.TeamDetailsPage.constructor | src/pages/teams/TeamDetails.tsx:50-55 | no team, no members, loading, nobody available |
| TeamDetails.TeamDetailsPage.LoadTeamDetails | src/pages/teams/TeamDetails.tsx:82-102 | without a team id nothing is sent and nothing changes. Otherwise it sends GET `/teams/{id}` and GET `/teams/{id}/members` together. The team and the members are stored only if both calls succeed; otherwise the page leaves for `/teams`. Loading ends |
| TeamDetails.TeamDetailsPage.LoadAvailableUsers | src/pages/teams/TeamDetails.tsx:65-79 | without a loaded team nothing is sent. Otherwise the company's users are fetched, and success stores exactly the non-members |
| TeamDetails.TeamDetailsPage.HandleRemoveMember | src/pages/teams/TeamDetails.tsx:104-120 | without a team id or a user nothing is sent. Otherwise success drops exactly that member, and failure keeps the members |
| Teams.CanManageTeam | src/pages/teams/Teams.tsx:21 | true iff the user is an owner or a manager |
| Teams.CanManageTeamIff | src/pages/teams/Teams.tsx:21 | managing teams is allowed iff the user is an owner or a manager; src/pages/teams/TeamDetails.tsx:131 uses the same rule |
| Teams.DeleteTeamAsWritten | src/pages/teams/Teams.tsx:127-143 | as written the list never changes |
| Teams.DeleteTeamIntended | src/pages/teams/Teams.tsx:127-143 | no user or a failed call keeps the list. A successful call removes exactly that team's id |
| Teams.DeleteTeamAsWrittenKeepsDeleted | src/pages/teams/Teams.tsx:130 | a team the user deletes is still listed as written, and gone in the intended version |
| Teams.TeamsPage.constructor | src/pages/teams/Teams.tsx:18-19 | no teams, not loading |
| Teams.GetCompanyTeams | src/services/team.service.ts:9-10 | GET `/teams` whose query is exactly `companyId` with the given id |
| Teams.TeamsPage.LoadTeams | src/pages/teams/Teams.tsx:27-43 | without a company nothing is sent and nothing changes. Otherwise it sends GET `/teams?companyId={id}` for the user's company; success stores the teams, failure keeps them, and loading ends |
| Teams.TeamsPage.OnUpdated | src/pages/teams/Teams.tsx:109 | the list is replaced by id with the updated team |
| Teams.TeamsPage.DeleteTeam | src/pages/teams/Teams.tsx:127-143 | the list changes as the intended delete says |
| ManageEmployees.CanRemoveEmployee | src/pages/company/ManageEmployees.tsx:142 | true iff the current user is an owner and the employee is not |
| ManageEmployees.RemovalRule | src/pages/company/ManageEmployees.tsx:142 | removal is offered iff the current user is an owner and the employee is not |
| ManageEmployees.RemoveUserFromCompany | src/services/company.service.ts:17-18 | DELETE `/companies/{companyId}/user/{userId}` |
| ManageEmployees.ManageEmployeesPage.constructor | src/pages/company/ManageEmployees.tsx:40-41 | no employees, loading |
| ManageEmployees.ManageEmployeesPage.LoadEmployees | src/pages/company/ManageEmployees.tsx:47-62 | without a company nothing is sent, nothing changes and loading stays true. Otherwise it sends GET `/companies/{id}/users` (`TeamDetails.GetCompanyUsers`); success stores the users, failure keeps them, and loading ends |
| ManageEmployees.ManageEmployeesPage.HandleRemoveEmployee | src/pages/company/ManageEmployees.tsx:64-80 | without a company nothing is sent. Otherwise success drops exactly that employee, and failure keeps the list |
| TimeOffRequests.TimeOffTypeLabel | src/pages/timeoff/TimeOffRequests.tsx:89-102 | each of the four types has its fixed label, and an unknown type passes through |
| TimeOffRequests.TimeOffTypeLabelsDistinct | src/pages/timeoff/TimeOffRequests.tsx:89-102 | distinct types have distinct labels |
| TimeOffRequests.GetPending | src/services/timeoff.service.ts:17-18 | GET `/time-off/pending/company/{id}` |
| TimeOffRequests.Approve | src/services/timeoff.service.ts:21-22 | PUT `/time-off/{id}/approve` whose query is exactly `keycloakId` |
| TimeOffRequests.Reject | src/services/timeoff.service.ts:25-26 | DELETE `/time-off/{id}/reject` whose query is exactly `keycloakId` |
| TimeOffRequests.ReviewerOf | src/pages/timeoff/TimeOffRequests.tsx:52 | a reviewer id exists iff there is a user with a non-empty keycloak id |
| TimeOffRequests.TimeOffRequestsPage.constructor | src/pages/timeoff/TimeOffRequests.tsx:25-26 | no requests, loading |
| TimeOffRequests.TimeOffRequestsPage.LoadPendingRequests | src/pages/timeoff/TimeOffRequests.tsx:28-49 | only a user with a company fetches, then success stores the requests and loading ends. Otherwise nothing is sent and nothing changes |
| TimeOffRequests.TimeOffRequestsPage.HandleApprove | src/pages/timeoff/TimeOffRequests.tsx:51-68 | without a keycloak id nothing is sent. Otherwise the approval is sent, success removes exactly that request, and failure keeps the list |
| TimeOffRequests.TimeOffRequestsPage.HandleReject | src/pages/timeoff/TimeOffRequests.tsx:70-87 | without a keycloak id nothing is sent. Otherwise the rejection is sent, success removes exactly that request, and failure keeps the list |
| AuthContext.Stored | src/context/AuthContext.tsx:37-39 | a key counts as stored iff it is present with a non-empty value |
| AuthContext.Restored | src/context/AuthContext.tsx:35-58 | a user is restored iff all three keys are stored and the user parses. The user is then the stored user plus both tokens. A failed parse removes the three keys, and without a session storage is untouched |
| AuthContext.LoggedInStorage | src/context/AuthContext.tsx:83-85 | login writes the two tokens and the serialized user, and every other key is unchanged |
| AuthContext.LoggedOutStorage | src/context/AuthContext.tsx:155-157 | logout removes exactly the three session keys |
| AuthContext.LoginThenRestore | src/context/AuthContext.tsx:35-85 | after a login the next load restores the same user with the same tokens |
| AuthContext.LogoutThenRestore | src/context/AuthContext.tsx:153-157 | after a logout the next load restores nobody and changes nothing |
| AuthContext.FailedRestoreIsFinal | src/context/AuthContext.tsx:49-54 | after a failed parse the next load finds no session |
| AuthContext.AuthProvider.constructor | src/context/AuthContext.tsx:30-32 | no user, loading, no error |
| AuthContext.AuthProvider.RestoreSession | src/context/AuthContext.tsx:35-58 | user and storage become those of the restore, and loading ends in every case |
| AuthContext.AuthProvider.Login | src/context/AuthContext.tsx:60-102 | never throws, and loading ends. Success sets the user and writes the session. Failure records the fixed message and changes neither user nor storage |
| AuthContext.AuthProvider.Register | src/context/AuthContext.tsx:104-128 | returns the created user on success. On failure it records the message and rethrows |
| AuthContext.AuthProvider.RegisterWithInvite | src/context/AuthContext.tsx:130-151 | never throws. A failure only records the message |
| AuthContext.AuthProvider.Logout | src/context/AuthContext.tsx:153-163 | no user, and the three session keys removed |
| AuthContext.AuthProvider.ClearError | src/context/AuthContext.tsx:165-167 | the error is cleared and nothing else changes |
| CreateTeam.TeamFormErrors | src/pages/teams/CreateTeam.tsx:22-29 | no message iff the name has 3 to 50 characters and the description 10 to 500. Each of the four messages appears iff its own bound is violated, and there is exactly one message per failing field. A name message comes first and a description message last |
| CreateTeam.CreateTeamRequest | src/services/team.service.ts:5-6 | POST `/teams` whose body is exactly name and company |
| CreateTeam.CreateTeamPage.constructor | src/pages/teams/CreateTeam.tsx:37 | not loading, nowhere navigated |
| CreateTeam.CreateTeamPage.BeginSubmit | src/pages/teams/CreateTeam.tsx:47-55 | invalid values or no company send nothing. Otherwise loading starts and name and company are sent, without the description |
| CreateTeam.CreateTeamPage.Settle | src/pages/teams/CreateTeam.tsx:56-71 | loading ends on success and failure alike, and only success leaves for `/teams` |
| CreateOrder.OrderFormErrors | src/pages/orders/CreateOrder.tsx:22-30 | no message iff client name ≥ 3, phone ≥ 10, address ≥ 10 and date non-empty. Each field's message appears iff that field fails, one message per failing field, in the order name, phone, address, date |
| CreateOrder.OptionalFieldsFree | src/pages/orders/CreateOrder.tsx:27-29 | latitude, longitude and team never affect validity |
| CreateOrder.CreateOrderPage.constructor | src/pages/orders/CreateOrder.tsx:38 | not loading, nowhere navigated |
| CreateOrder.CreateOrderRequest | src/services/order.service.ts:5-6 | POST `/orders/create` with no query and the payload as body |
| CreateOrder.CreateOrderPage.BeginSubmit | src/pages/orders/CreateOrder.tsx:50-58 | invalid values or no company send nothing. Otherwise loading starts and the create request for the values plus the company is sent |
| CreateOrder.CreateOrderPage.Settle | src/pages/orders/CreateOrder.tsx:59-74 | loading ends on success and failure alike, and only success leaves for `/orders` |
| CreateTask.TaskFormErrors | src/pages/tasks/CreateTask.tsx:30-37 | no message iff title ≥ 3, description ≥ 10, the type is a task type and the date is non-empty. Each field's message appears iff that field fails, one message per failing field, in the order title, description, type, date |
| CreateTask.CreateTaskQuery | src/services/task.service.ts:5-9 | the query is only `creatorUserId`: the given id, or the text `undefined` when none is passed |
| CreateTask.CreateTaskRequest | src/services/task.service.ts:5-10 | POST `/tasks` with the creator query and the payload as body |
| CreateTask.CreateTaskCallAsWritten | src/pages/tasks/CreateTask.tsx:62-66 | as written: a POST to `/tasks` whose body is the values plus company and `assignedBy` as the user's id, with `creatorUserId` the text `undefined` |
| CreateTask.CreateTaskCall | src/pages/tasks/CreateTask.tsx:62-66 | the same POST to `/tasks` and payload, with `creatorUserId` the user's id |
| CreateTask.CreatorUserIdAsWrittenIsLost | src/pages/tasks/CreateTask.tsx:62 | as written the creator parameter disagrees with the payload's assigner, and in the corrected call the two agree |
| CreateTask.CreateTaskPage.constructor | src/pages/tasks/CreateTask.tsx:45 | not loading, nowhere navigated |
| CreateTask.CreateTaskPage.BeginSubmit | src/pages/tasks/CreateTask.tsx:57-66 | invalid values or no company send nothing. Otherwise loading starts and the corrected call is sent |
| CreateTask.CreateTaskPage.Settle | src/pages/tasks/CreateTask.tsx:67-82 | loading ends on success and failure alike, and only success leaves for `/tasks` |

## Left out

- **Transport:** SockJS, the STOMP handshake, heartbeats and the reconnection itself belong to third-party libraries. The model keeps only the effect-level events: render, connect, message and cleanup.
- **UI:** toasts (beyond their order relative to the store update), JSX, icons, colour classes and dialogs are not modelled.
- **Network plumbing:**
  - The axios client and its interceptors in src/services/api.ts are not modelled.
  - Neither are the PDF and Excel exports.
  - The one-line REST wrappers that no modelled handler calls are left out too.
- **Dates:** `new Date()` defaults and locale formatting are not modelled. A date is an opaque string.
- **Library behaviour treated as opaque:**
  - The e-mail check of zod and the auth pages, which are dominated by it and by network calls.
  - `jwtDecode`, and `JSON.parse`/`JSON.stringify` of the stored user. These are function parameters, and a failed parse is `None`.
  - `URLSearchParams` percent-encoding. Queries are ordered key/value sequences.
- **Async ordering:**
  - Every handler is one atomic step.
  - Races between handlers, stale closures over `invitations`, `members` and `employees`, and React's effect scheduling are not modelled.
  - `Promise.all` in TeamDetails is "both succeed or it fails".
- **Routing:** react-router configuration, layout wrappers, LoadingSpinner, NotFound, App and the effect-driven helpers AssignToFields and EditTeamDialog are not modelled. EditTeamDialog calls `teamService.updateTeam`, which team.service.ts does not define, so `onUpdated` is not reached in practice. `Teams.TeamsPage.OnUpdated` models the callback as written.
- **The add-member handler of TeamDetails:** not modelled. It has the same shape as the removal.
- **String lengths:** they count Unicode scalar values, whereas zod counts UTF-16 code units. The two differ only for characters outside the Basic Multilingual Plane.
- **Empty company id in links:** the model cannot tell a `companyId` that is the empty string from a missing one, so it writes `undefined` into the settings and invitations links for both. The code would write an empty id for the first.
- **Extra arguments:** `TeamDetails.TeamDetailsPage.HandleRemoveMember`: the page passes an extra requester id to `removeUserFromTeam`, which JavaScript ignores. The model keeps only the request actually sent. It does model the failure of `user!.id` without a user as "nothing sent".
- **Page numbers:** `TaskService.GetCompanyTasksPaginated`: page and size are natural numbers. The service accepts any JavaScript number, and negative or fractional values are not modelled.
- **Enum error text:** `CreateTask.TaskFormErrors`: zod's default message for a bad task type is longer than the constant used here. The model only records that the field fails.

## Findings

| source | as written | input that shows it | evidently intended | confidence | as-written member | corrected member |
|---|---|---|---|---|---|---|
| src/pages/tasks/Tasks.tsx:35 | `loadTasks` calls `taskService.getCompanyTasks`, which src/services/task.service.ts:12-15 has commented out. The call throws inside the `try`, so the list stays empty and only the error toast appears | a signed-in user with a company, whose company has one task | fetch the company's tasks and show them | high; not executed | Tasks.LoadTasksAsWritten (Tasks.LoadTasksAsWrittenShowsNothing) | Tasks.LoadTasksIntended (Tasks.TasksPage.LoadTasks) |
| src/pages/teams/Teams.tsx:130 | the delete action calls `teamService.deleteTeam`, which src/services/team.service.ts does not define. The call throws, and the team stays listed | an owner deletes a listed team | delete the team and drop it from the list | high; not executed | Teams.DeleteTeamAsWritten (Teams.DeleteTeamAsWrittenKeepsDeleted) | Teams.DeleteTeamIntended (Teams.TeamsPage.DeleteTeam) |
| src/pages/tasks/CreateTask.tsx:62 | `createTask` is called without its `creatorUserId` argument, so `URLSearchParams` sends `creatorUserId=undefined` | any valid task submitted by a user whose id is not the text `undefined` | pass the signed-in user's id as creator | medium; not executed | CreateTask.CreateTaskCallAsWritten (CreateTask.CreatorUserIdAsWrittenIsLost) | CreateTask.CreateTaskCall (CreateTask.CreateTaskPage.BeginSubmit) |
