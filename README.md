# To-do lists: event bus, model, view, controller and service

A Dafny model of a small browser to-do application that keeps a user's lists
and tasks. The modelled core has these parts:

- **EventEmitter** (`Events`): a map from event name to the ordered handlers
  subscribed to it. `on` appends a handler. `raise` calls the handlers in
  order. Handlers are opaque ids. A call that throws is one whose
  `Invocation(handler, args)` is in the `faulty` set passed to `Raise`, so a
  handler may throw for some arguments and not for others; its exception ends
  the `forEach` and reaches the caller.
- **ListModel** (`ListModels`): the in-memory mirror of the user, the lists
  and the tasks. Every mutation raises its event on the model's emitter. The
  source's `extends EventEmitter` becomes a `bus` field. Lists and tasks are
  objects (`ListRec`, `TaskRec`), so membership is by reference, as with
  `indexOf`. A thrown string is the `Thrown` result.
- **ListView** (`Views`): the DOM becomes plain state. Each rendered title is a
  `Field` with its shown text, its edit flag and the number of `focusout`
  handlers bound to it. The view also holds the visible view, the message
  banner, the prompt box, the menu links and the greeter. The events the view
  raises for the controller are returned as a sequence.
- **ListService** (`Service`): `$.ajax` becomes a function from `Request` to
  `Done(data) | Fail(status, statusText)`. Each operation returns the requests
  it sent and how its promise settles. `Stuck` means the `done` callback threw
  a TypeError, so the promise never settles. `login` caches the token in
  `_jwt` (the `jwt` field).
- **ListController** (`Controllers`): the event handlers and the startup
  branch. The login and register handlers take the transport's answer and go
  through `ListService.login` and `register`, so `_jwt` is set by a
  successful login. Every other service answer is a parameter: `Success(v)`
  or `Failure(message)`, where the message may be undefined. The service calls
  issued are logged in `sent`. `localStorage` is a `map<string, string>`. The
  view is the model's only subscriber (`ViewOnly`), so every model event
  reaches exactly one view handler, and the controller's contracts say what
  the view shows afterwards.
- **User** (`Records.NewUser`): the total constructor that copies each of the
  four fields when it is truthy and gives null otherwise.
- **Legacy copy** (`Legacy`, for `app/__controllers/userController.js`):
  `UserModel` is the same code as `ListModel`, so `ListModel` models it.
  `UserView` differs from `ListView` in its submit handlers, in having no
  `prompt` method, and in its templates: the remove control of a list is bound
  through `#list-<id>>span` (userController.js:195) and the new-task control
  sits inside `div.task-holder` (userController.js:193, 207). The templates are
  DOM detail the abstracted view does not see, and the legacy controller never
  prompts, so `ListView` models `UserView` apart from the submit handlers. The erase-all and startup handlers of
  `UserController` are the same code as in `ListController` (lines 418-449),
  so `OnEraseLists` and `Resume` model them too. Only what differs has members
  of its own.

Three inconsistencies of the source are modelled as written:

- Startup writes `service.token` (app/components/lists/listController.js:191),
  but the service only ever reads `_jwt`. So a restored session sends
  `Bearer null` (`Resume` keeps `jwt`; `RestoredSessionUnauthenticated`),
  while after a login it sends the token (`OnLogin` sets `jwt`).
- The controller calls `service.deleteTask`, which the service does not have.
  So removing a task always fails with a TypeError, is reported, is rethrown,
  and the model keeps the task (`OnRemoveTask`).
- A task title is rendered from `task.task`, but cancelling restores
  `task.name` and completing compares with `task.name`. So completing an
  untouched, freshly rendered title raises `taskNameEdited` unless `name`
  already equals `task`, and always when `name` is undefined
  (`FreshTitleCountsAsEdit`, `UnrenamedTaskAlwaysEdited`).

## Model

| member | source | states |
|---|---|---|
| Events.EventEmitter.constructor | app/models/events.js:2-4 | a fresh emitter has no handlers |
| Events.EventEmitter.On | app/models/events.js:5-10 | the map becomes `Register(old map, e, h)`: `h` is appended to `e`'s list, which is created if absent |
| Events.Register | app/models/events.js:5-10 | `e`'s handlers gain `h` at the end; every other event's handlers are unchanged; the key set grows by `e` |
| Events.RegisterFresh | app/models/events.js:6-9 | the first subscription creates the list holding just that handler |
| Events.RegisterOnlyGrows | app/models/events.js:5-10 | with no unsubscribe, each handler list before an `on` is a prefix of the same list after it |
| Events.EventEmitter.Raise | app/models/events.js:11-16 | returns the invocations `Dispatch` of the registered handlers gives, a call throwing when it is in `faulty`; the map is not modified (no `modifies`) |
| Events.DispatchShape | app/models/events.js:11-16 | a raise calls a prefix of the handlers, in registration order, each with the same arguments; it stops right after the first throwing handler, whose exception escapes; with none throwing, all are called |
| Events.RaiseUnsubscribed | app/models/events.js:12 | raising an event with no entry calls nothing and throws nothing |
| Events.DispatchAllCalled | app/models/events.js:13-15 | with no throwing handler, exactly one call per registered handler and nothing escapes |
| Events.DispatchCountsDuplicates | app/models/events.js:9-15 | a handler registered n times is invoked n times by one raise |
| Events.SubscribedTwiceCalledTwice | app/models/events.js:5-15 | subscribing the same callback twice makes one raise call it twice |
| Events.DispatchTwo | app/models/events.js:13-15 | two non-throwing subscribers are called in subscription order |
| Events.DispatchEachSnoc | app/components/lists/listModel.js:122-125 | the per-element raise loop of `clear*` extends by one raise per extra element |
| Events.DispatchEachStops | app/components/lists/listModel.js:130-133 | once the raise of element i throws, whatever i is, later elements are not raised |
| Events.DispatchEachFirstThrow | app/components/lists/listModel.js:122-133 | when element k is the first whose raise throws, the loop raises elements 0..k-1 in full without a throw, then element k up to the throwing handler, whose exception escapes, and nothing after |
| Events.DispatchEachNoThrow | app/components/lists/listModel.js:122-133 | when no element's raise throws, the loop throws nothing |
| Events.ThrowOnLaterElement | app/components/lists/listModel.js:122-125 | a handler throwing only for the second element: the first element is raised, then the second, whose exception ends the loop before the third |
| Events.DispatchEachCount | app/components/lists/listModel.js:122-133 | with no throwing handler, the loop makes one call per handler per element |
| Events.DispatchEachSingle | app/components/lists/listModel.js:130-133 | a single subscriber sees one call per element, in collection order |
| Seqs.IndexOf | app/components/lists/listModel.js:86-87 | the position of the first occurrence: the element is there and nowhere before |
| Seqs.RemoveFirstKeepsOrder | app/components/lists/listModel.js:87 | `splice(indexOf(x), 1)` keeps the elements before and after the first `x`, in order |
| Seqs.RemoveFirstMultiset | app/components/lists/listModel.js:87 | the splice removes exactly one copy of `x` |
| Seqs.RemoveFirstStillHolds | app/components/lists/listModel.js:87 | `x` is still tracked after the splice iff it was held at least twice |
| Records.NewUser | app/models/user.js:2-8 | each of the four fields is the same-named payload property when truthy and null otherwise; a falsy payload gives four nulls |
| Records.NewUserOfNothing | app/models/user.js:3 | `new User(undefined)` and `new User({})` have four null fields |
| Records.NewUserFieldwise | app/models/user.js:4-7 | each field depends only on the same-named payload property |
| Records.NewUserDropsFalsy | app/models/user.js:4-7 | 0, '', false and null become null |
| ListModels.ListModel.constructor | app/components/lists/listModel.js:16-30 | a new model has no user, no lists, no tasks and no subscribers |
| ListModels.ListModel.SetUser | app/components/lists/listModel.js:38-41 | the setter stores the value, null included, and raises `userChanged` with it; the collections are untouched |
| ListModels.ListModel.GetListIds | app/components/lists/listModel.js:51-53 | the ids of the held lists, in collection order, with the same length |
| ListModels.ListModel.GetListTasks | app/components/lists/listModel.js:59-61 | exactly the tracked tasks whose `idlist` is the id; reads only |
| ListModels.TasksOfSnoc | app/components/lists/listModel.js:59-61 | the filter keeps insertion order: a new task extends the result at its end, or not at all |
| ListModels.ListModel.AddList | app/components/lists/listModel.js:67-70 | the list is appended with no duplicate check, and one `listAdded` is raised with it |
| ListModels.ListModel.UpdateList | app/components/lists/listModel.js:76-79 | an untracked list throws 'La lista no existe' and raises nothing; a tracked one raises one `listUpdated`; nothing changes |
| ListModels.ListModel.DeleteList | app/components/lists/listModel.js:85-89 | a tracked list loses its first occurrence, then one `listDeleted` is raised; an untracked one throws with no change |
| ListModels.ListModel.AddTask | app/components/lists/listModel.js:95-98 | the task is appended and one `taskAdded` is raised |
| ListModels.ListModel.UpdateTask | app/components/lists/listModel.js:104-107 | as `UpdateList`, throwing 'La tarea no existe' |
| ListModels.ListModel.DeleteTask | app/components/lists/listModel.js:113-117 | as `DeleteList`, on the tasks |
| ListModels.ListModel.ClearTasks | app/components/lists/listModel.js:122-125 | one `taskDeleted` per held task, in order, while the tasks are still held; then the tasks are emptied; lists untouched; the raises stop at the first task whose raise throws (`FirstThrowAt`), and a throw leaves the tasks in place |
| ListModels.ListModel.ClearLists | app/components/lists/listModel.js:130-133 | as `ClearTasks`, with `listDeleted` per list |
| Service.ListService.constructor | app/services/listService.js:12-15 | `_jwt` starts null |
| Service.BearerBeforeLogin | app/services/listService.js:14 | before any login the header reads 'Bearer null' |
| Service.AuthenticatedCallsCarryJwt | app/services/listService.js:46-131 | every authenticated request carries 'Bearer ' + `_jwt` as it is when the call is made |
| Service.Register | app/services/listService.js:17-30 | POST /users with no header; success resolves the User built from the body; failure rejects the raw payload, which has no `message` |
| Service.ListService.Login | app/services/listService.js:31-45 | POST /users/login; success stores the body in `_jwt` and resolves it; failure keeps `_jwt` and rejects ListServiceError(status, statusText) |
| Service.FailWith | app/services/listService.js:4-9 | a failure becomes a ListServiceError whose code is the status and whose message is the status text |
| Service.MessageOf | app/services/listService.js:24-28 | only a ListServiceError has a `message` |
| Service.DecodeLists | app/services/listService.js:53-55 | an array body maps to one List per element, order and length kept; any other body never settles |
| Service.ListService.GetLists | app/services/listService.js:46-59 | GET /list with the bearer header; decoded as `DecodeLists`; a failure rejects ListServiceError(status, statusText) |
| Service.DecodeGetList | app/services/listService.js:72-77 | an empty array resolves null, a non-empty one the List of element 0; a null body never settles |
| Service.ListService.GetList | app/services/listService.js:65-82 | GET base + '/list/' + id, decoded as `DecodeGetList`; a failure rejects ListServiceError(status, statusText) |
| Service.ListUrlInjective | app/services/listService.js:70 | different ids give different per-id URLs |
| Service.ListService.AddList | app/services/listService.js:88-102 | POST /list with {name}; resolves the List built from the whole body; a failure rejects ListServiceError(status, statusText) |
| Service.DecodeUpdate | app/services/listService.js:111-113 | an array body resolves true iff it has length 1 and its only element == 1 |
| Service.UpdateOneRow | app/services/listService.js:111-113 | [1] gives true; [0], [] and [1, 1] give false |
| Service.ListService.UpdateList | app/services/listService.js:103-117 | PUT base + '/list/' + id with {name}, decoded as `DecodeUpdate`; a failure rejects ListServiceError(status, statusText) |
| Service.ListService.DeleteList | app/services/listService.js:118-131 | DELETE base + '/list/' + id; resolves iff the transport answered `done` |
| Service.ListService.EmptyStub | app/services/listService.js:132-146 | the five empty task operations send no request and resolve to undefined |
| Views.KeyActionOf | app/components/lists/listView.js:165-172 | Escape (27) cancels, Enter (13) completes, any other key does nothing |
| Views.NameChanged | app/components/lists/listView.js:210-215 | the text counts as edited iff it is not the record's name; an undefined name always differs |
| Views.SubmitAllowed | app/components/lists/listView.js:55 | a submit passes iff both username and password are non-empty |
| Views.ShownBanner | app/components/lists/listView.js:303-324 | the banner is shown; a string gives that title, '' text and a close control; an object gives its own title, text and closeable flag |
| Views.PlainMessageForgets | app/components/lists/listView.js:307-310 | a string message does not depend on the previous banner |
| Views.Answers | app/components/lists/listView.js:343-356 | one click calls every bound callback once, in binding order, with the same answer |
| Views.CompletedTwice | app/components/lists/listView.js:196-220 | completing twice is completing once; a cancel after an edit shows the name and leaves edit mode |
| Views.UnrenamedTaskAlwaysEdited | app/components/lists/listView.js:285-290 | when a task's `name` is undefined, completing its edit always raises `taskNameEdited` |
| Views.FreshTitleCountsAsEdit | app/components/lists/listView.js:237-290 | a freshly rendered title shows `task.task` (line 237); completing it untouched raises nothing iff `task.name` equals `task.task`, and raises `taskNameEdited(task, task.task)` when `name` is undefined |
| Views.EditedOnlyOnce | app/components/lists/listView.js:210-215 | once the name equals the shown text, completing raises nothing |
| Views.SubscribeView | app/components/lists/listView.js:86-118 | the view subscribes one handler each to six model events |
| Views.ViewSubscribedFresh | app/components/lists/listView.js:86-118 | on a fresh model each of those events has exactly the view's handler |
| Views.TaskUpdatedUnheard | app/components/lists/listView.js:86-118 | no view handler listens to `taskUpdated` |
| Views.TaskSlotted | app/components/lists/listView.js:237-239 | the task is rendered iff it already was or its list is rendered; inside a rendered list its title shows `task.task`, out of edit mode and with no `focusout` binding; every other rendered task is unchanged |
| Views.ListView.constructor | app/components/lists/listView.js:36-120 | the view subscribes to the model; nothing is rendered or shown yet |
| Views.ListView.ShowView | app/components/lists/listView.js:370-375 | all views are hidden, then only a truthy `v` is shown; null leaves all hidden |
| Views.ListView.ShowMessage | app/components/lists/listView.js:303-329 | the banner becomes `ShownBanner(old banner, m)` |
| Views.ListView.HideMessage | app/components/lists/listView.js:361-363 | the banner is hidden and nothing else changes; hiding twice is the same as once |
| Views.ListView.SubmitLogin | app/components/lists/listView.js:51-62 | with both fields filled it raises `loginButtonClicked` and nothing else; otherwise it shows its message and raises nothing |
| Views.ListView.SubmitRegister | app/components/lists/listView.js:63-74 | as `SubmitLogin`, with `registerButtonClicked` and its own message |
| Views.ListView.StartListEdition | app/components/lists/listView.js:185-190 | the title enters edit mode and gains one `focusout` binding |
| Views.ListView.CancelListEdition | app/components/lists/listView.js:196-201 | edit mode ends, the text becomes `list.name`, nothing is raised |
| Views.ListView.CompleteListEdition | app/components/lists/listView.js:210-220 | raises `listNameEdited(list, text)` iff the text differs from `list.name`; edit mode ends; the text is never reverted |
| Views.ListView.BlurList | app/components/lists/listView.js:188 | a focus loss completes once per `focusout` binding, so an edit started n times raises its event n times |
| Views.ListView.KeyDownList | app/components/lists/listView.js:163-172 | Escape cancels, Enter completes and prevents the default, other keys change nothing |
| Views.ListView.StartTaskEdition | app/components/lists/listView.js:260-265 | as `StartListEdition`, on the task title |
| Views.ListView.CancelTaskEdition | app/components/lists/listView.js:271-276 | edit mode ends and the text becomes `task.name`; an undefined name leaves the text as it is |
| Views.ListView.CompleteTaskEdition | app/components/lists/listView.js:285-295 | raises `taskNameEdited` iff the text differs from `task.name`, not from `task.task`; edit mode ends |
| Views.ListView.KeyDownTask | app/components/lists/listView.js:243-252 | the keydown dispatch of a task title |
| Views.ListView.Prompt | app/components/lists/listView.js:338-342 | the prompt is shown with its title and text, and the callback is bound to both buttons |
| Views.ListView.AnswerPrompt | app/components/lists/listView.js:343-356 | a click hides the prompt, unbinds both buttons and calls each pending callback with true (accept) or false (reject); a second click calls nothing |
| Views.ListView.UserChangedHandler | app/components/lists/listView.js:86-96 | null resets the page to the home view with no lists and no greeter; a user hides login and register, shows logout, hides every view and greets the user |
| Views.ListView.ListAddedHandler | app/components/lists/listView.js:98-100 | the list is rendered with its name |
| Views.ListView.ListUpdatedHandler | app/components/lists/listView.js:102-104 | only the list's shown text changes, to its name |
| Views.ListView.ListDeletedHandler | app/components/lists/listView.js:106-110 | the list goes with the tasks rendered inside it |
| Views.ListView.TaskAddedHandler | app/components/lists/listView.js:112-114 | the task is rendered inside its list |
| Views.ListView.TaskDeletedHandler | app/components/lists/listView.js:116-118 | the task is no longer rendered |
| Controllers.ErrorText | app/components/lists/listController.js:45 | the banner is 'Error:' followed by the message, or 'Error:undefined' when there is none |
| Controllers.ErrorTextInjective | app/components/lists/listController.js:45 | different messages give different banners |
| Controllers.PromiseAll | app/components/lists/listController.js:170-175 | a wave succeeds iff every request succeeds, with the values in request order |
| Controllers.PromiseAllReason | app/components/lists/listController.js:183-185 | a failed wave reports the message of its first failed request |
| Controllers.FlattenKeeps | app/components/lists/listController.js:214 | every task of every fetched list is added |
| Controllers.ListsWithTasks | app/components/lists/listController.js:165-168 | the ids that have at least one task, in their order, and no others |
| Controllers.TasksOfFirst | app/components/lists/listController.js:167-168 | a list's tasks are non-empty iff it has a task, and the first one's `idlist` is the list's id |
| Controllers.EraseSelectsListsWithTasks | app/components/lists/listController.js:165-168 | erase-all selects exactly the held ids with a task, in `getListIds` order |
| Controllers.EraseDeletesOnlyAfterEmptying | app/components/lists/listController.js:170-175 | a `deleteList` is issued only after every `deleteListTasks` succeeded |
| Controllers.ListController.constructor | app/components/lists/listController.js:190-196 | runs the startup branch on the given storage, with everything `Resume` states about the model, the requests and the page; `_jwt` is left as it was |
| Controllers.RestoredSessionUnauthenticated | app/components/lists/listController.js:191 | the header after a login with a token other than 'null' differs from the 'Bearer null' a restored session sends |
| Controllers.ListController.Resume | app/components/lists/listController.js:190-196 | a truthy stored token goes to `service.token` (not `_jwt`), the user becomes the stored username (null when absent) and the lists load, with the page as `EnterAs` states; otherwise the user is set to null, nothing is requested, the page is reset to the home view and the banner is untouched |
| Controllers.ListController.EnterAs | app/components/lists/listController.js:192-193 | the user is set, then the lists load: a user is greeted with only the logout link shown, null resets the page; the fetched lists and their tasks are rendered on top of what setting the user left, and the lists view is shown when `getLists` succeeded |
| Controllers.ListController.LoadUserLists | app/components/lists/listController.js:201-219 | GET the lists, show the lists view and add each list; then add the tasks of all lists, or report the failure; a failed `getLists` is not reported |
| Controllers.ListController.ShowLists | app/components/lists/listController.js:205-207 | the lists view is shown and the fetched lists are added in order |
| Controllers.ListController.LoadTasks | app/components/lists/listController.js:211-218 | one fetch per list; all tasks added and the banner hidden, or the error shown and nothing added |
| Controllers.ListController.SignIn | app/components/lists/listController.js:32-41 | storage gets 'token' and 'username', then the user is set and greeted, then the lists load and are rendered, as `EnterAs` states for a user |
| Controllers.ListController.OnLogin | app/components/lists/listController.js:22-47 | after the waiting message, a successful login leaves the token in `_jwt`, writes storage, sets the user and loads the lists; a failed one keeps `_jwt`, storage, the user, the collections and the whole page but the banner, and shows 'Error:' + the status text; success greets the user, shows only the logout link and renders the loaded lists and tasks |
| Controllers.ListController.LogIn | app/components/lists/listController.js:26-46 | the `try` after the waiting message: `service.login`, then storage, the user and the lists, with the page as in `SignIn`; a rejection is reported with its message and nothing else on the page changes |
| Controllers.ListController.OnRegister | app/components/lists/listController.js:60-81 | login is called only after the registration succeeds, then the login path follows with `_jwt` set; a failed registration always shows 'Error:undefined', since the raw payload has no `message`; a failed login shows 'Error:' + the status text; neither changes `_jwt`, storage, the user, the collections or the page but the banner; success renders the page as `OnLogin` does |
| Controllers.ListController.OnLogout | app/components/lists/listController.js:50-57 | both storage keys are removed and the user is set to null, which resets the view |
| Controllers.ListController.OnListNameEdited | app/components/lists/listController.js:84-96 | the name is changed and `updateList` called only after the request succeeds; on failure the name is unchanged and the error shown |
| Controllers.ListController.OnAddList | app/components/lists/listController.js:99-106 | the created list is added to the model only on success |
| Controllers.ListController.OnRemoveList | app/components/lists/listController.js:109-127 | a list with tasks only gets a prompt and no request; a list without tasks is deleted right away, with the model, the rendered lists and tasks and the banner as `DeleteNow` states |
| Controllers.ListController.DeleteNow | app/components/lists/listController.js:120-123 | the model loses the list only after `deleteList` succeeds |
| Controllers.ListController.OnRemovalAnswered | app/components/lists/listController.js:114-119 | rejecting changes nothing and sends nothing; accepting deletes on the server, then from the model |
| Controllers.ListController.OnAddTask | app/components/lists/listController.js:130-137 | the created task is added only on success |
| Controllers.ListController.OnTaskNameEdited | app/components/lists/listController.js:140-148 | `task.name` is set and `updateTask` called only after the request succeeds |
| Controllers.ListController.OnRemoveTask | app/components/lists/listController.js:152-160 | the missing `deleteTask` throws; the error is shown and rethrown, and the model is untouched |
| Controllers.ListController.ClearModel | app/components/lists/listController.js:178-179 | tasks then lists are cleared, and the view drops every rendered one |
| Controllers.ListController.OnEraseLists | app/components/lists/listController.js:163-186 | wave one empties the selected lists; wave two, sent only if wave one succeeded, deletes every held list; the model is cleared only if both succeed; otherwise the error is shown and the model and view are unchanged |
| Legacy.RemoveListSubscribedTwice | app/__controllers/userController.js:359-389 | `removeListButtonClicked` gets the log handler, then the delete handler |
| Legacy.RemovalRunsBoth | app/__controllers/userController.js:359-361 | one removal click runs the log handler and then the delete handler, with the list |
| Legacy.RegisterUnheard | app/__controllers/userController.js:341-438 | no handler is subscribed to `registerButtonClicked` |
| Legacy.SubmitLoginEvents | app/__controllers/userController.js:106-113 | the event is raised only when both fields are non-empty, with no message otherwise |
| Legacy.SubmitRegisterEvents | app/__controllers/userController.js:114-121 | the register password is read from the login form |
| Legacy.RegisterPasswordIgnored | app/__controllers/userController.js:116 | the register form's own password field makes no difference |
| Legacy.LegacyOnLogin | app/__controllers/userController.js:341-351 | a failed login escapes the handler as ListServiceError(status, statusText) after the waiting message, with `_jwt`, storage, user and collections unchanged; the page apart from the banner is unchanged; a successful one stores the token in `_jwt`, follows the login path and renders the page as `SignIn` does |
| Legacy.LegacyOnRemoveList | app/__controllers/userController.js:382-389 | the list is deleted with no prompt, even when it has tasks; the model, the rendered lists and tasks and the banner follow `DeleteNow` |

## Left out

- The DOM is not modelled: jQuery selectors, HTML templates, CSS classes, focus and the list fade-out. They become the fields of `ListView`.
- The click bindings that only re-raise an event (`#add-task`, `#erase-tasks`, `#logout-link`, the remove and new-task controls) are not modelled as members. The controller handler each one reaches is modelled.
- The `setTimeout` auto-hide of `showMessage` is timer-driven and is not modelled.
- `$.ajax` and the network are not modelled: the transport is a function from request to response. `register`'s raw failure payload is reduced to its status and status text.
- `localStorage` is a string map.
- `Promise.all` is all-or-nothing over a sequence of outcomes. Concurrency and interleaving with later events are not modelled. Each handler runs to completion, and the task fetch of `loadUserLists` is treated as finishing inside it.
- Controllers.PromiseAll: a wave's answers are a function of the list id, so two requests for the same id in one wave get the same answer. The server could answer them differently. The model's lists can repeat an id, since `addList` has no duplicate check and a logout keeps the model's lists for the next login.
- Controllers.ListController.OnRemoveTask: the message of the TypeError (`NoDeleteTask`) is the wording of the V8 engine; other JavaScript engines word this error differently.
- Controllers.PromiseAllReason: the reported reason is the first failure in request order; JavaScript's `Promise.all` rejects with the first rejection in time, which is the same only when the requests settle in order.
- Apart from `login` and `register`, the controller takes service answers as parameters and is not composed with `ListService`'s operations. For the stub task operations this matters: composed, they would resolve `undefined`, and the view's `taskAdded` handler would throw on it.
- In the controller, model events reach the view's handlers, which are taken never to throw. The emitter itself models throwing handlers.
- `console.log` is not modelled; the legacy log handler has no state.
- app/app.js is pure wiring and is not modelled.
- The List and Task classes (app/models/list.js) are not part of this model. A list or task is a `ListRec`/`TaskRec` record, and a decoded List is the payload it is built from.
- JSON numbers are integers, and `==` between a string and a number is modelled only for canonical decimal text.
- The greeter setter and `reset` are folded into `UserChangedHandler`.
- Events.Register: event names are taken to be none of `Object.prototype`'s property names (`constructor`, `toString`, `__proto__`, ...). On the plain `{}` of events.js:3 such a name resolves to an inherited property, so the source's `on` would throw a TypeError instead of registering. The application's event names are not among them.
- Events.EventEmitter.On: the same assumption; for an inherited property name the source throws a TypeError.
- Events.EventEmitter.Raise: the same assumption; for an inherited property name the source's `forEach` throws a TypeError instead of calling nothing.
- Events.RaiseUnsubscribed: the same assumption; an inherited property name is not an event without entry in the source.
