/** ListController (app/components/lists/listController.js): the handlers of
    the view's events and the startup branch. Login and registration go
    through the service with the transport's answer; every other service
    call is an abstract outcome handed in by the caller. The calls issued are
    logged in `sent`, and `localStorage` is a string map. The view is the
    model's only subscriber, so every model event is delivered to the view
    handler it invokes. */
module Controllers {
  import opened Json
  import opened Events
  import opened Records
  import opened ListModels
  import opened Views
  import Service
  import Seqs

  /** How a service promise settles, as the controller sees it: a value, or
      a rejection whose `message` may be undefined. */
  datatype Outcome<T> = Success(value: T) | Failure(message: Option<string>)

  /** A call on the service. */
  datatype ServiceCall =
    | LoginCall(username: string, password: string)
    | RegisterCall(username: string, password: string)
    | GetListsCall
    | GetListTasksCall(listId: int)
    | AddListCall(name: string)
    | UpdateListCall(id: int, name: string)
    | DeleteListCall(id: int)
    | AddTaskCall(listId: int, name: string)
    | UpdateTaskCall(id: int, name: string)
    | DeleteListTasksCall(listId: int)

  const WaitingApi := "Esperando api"
  const LoadingLists := "Cargando listas de usuario"
  const AllErased := "Todos los datos borrados"
  const NewListName := "nueva lista, click para cambiar nombre"
  const NewTaskName := "Nueva tarea, haz click sobre el título para cambiar el nombre"
  const ConfirmTitle := "Atención"
  const ConfirmText := "La lista seleccionada tiene tareas asociadas. ¿Quieres eliminarla?"
  /** The TypeError raised by calling the `deleteTask` the service lacks. */
  const NoDeleteTask := "this.service.deleteTask is not a function"

  /** `'Error:' + err.message`; a thrown string or a raw failure payload has
      no `message`, which prints as 'undefined'. */
  function ErrorText(message: Option<string>): (s: string)
    ensures |s| >= 6 && s[..6] == "Error:"
    ensures message.Some? ==> s[6..] == message.value
    ensures message.None? ==> s == "Error:undefined"
  {
    "Error:" + (if message.Some? then message.value else "undefined")
  }

  /** Different messages give different banners. */
  lemma ErrorTextInjective(a: Option<string>, b: Option<string>)
    requires a.Some? && b.Some? && ErrorText(a) == ErrorText(b)
    ensures a == b
  {
    assert a.value == ErrorText(a)[6..];
    assert b.value == ErrorText(b)[6..];
  }

  /** The per-list requests the controller sends in waves. */
  datatype Wave = FetchTasks | EmptyList | DropList

  /** The call of `wave` for the list `id`. */
  function WaveCall(wave: Wave, id: int): ServiceCall
  {
    match wave
    case FetchTasks => GetListTasksCall(id)
    case EmptyList => DeleteListTasksCall(id)
    case DropList => DeleteListCall(id)
  }

  /** `ids.map(id => service.op(id))`, as the calls it issues. */
  function CallsFor(ids: seq<int>, wave: Wave): (r: seq<ServiceCall>)
    ensures |r| == |ids|
    ensures forall i :: 0 <= i < |ids| ==> r[i] == WaveCall(wave, ids[i])
  {
    if ids == [] then [] else [WaveCall(wave, ids[0])] + CallsFor(ids[1..], wave)
  }

  /** `Promise.all` over one request per id: all the values, in id order,
      when every request succeeds. */
  function PromiseAll<T>(ids: seq<int>, respond: int -> Outcome<T>): (o: Outcome<seq<T>>)
    ensures o.Success? <==> forall i :: 0 <= i < |ids| ==> respond(ids[i]).Success?
    ensures o.Success? ==> |o.value| == |ids|
    ensures o.Success? ==> forall i :: 0 <= i < |ids| ==> o.value[i] == respond(ids[i]).value
  {
    if ids == [] then Success([])
    else match respond(ids[0])
      case Failure(m) => Failure(m)
      case Success(v) =>
        match PromiseAll(ids[1..], respond)
        case Failure(m) => Failure(m)
        case Success(vs) => Success([v] + vs)
  }

  /** A failed wave reports the reason of a failed request, the first one in
      request order. */
  lemma {:induction false} PromiseAllReason<T>(ids: seq<int>, respond: int -> Outcome<T>)
    requires PromiseAll(ids, respond).Failure?
    ensures exists i ::
      && 0 <= i < |ids| && respond(ids[i]).Failure?
      && respond(ids[i]).message == PromiseAll(ids, respond).message
      && forall j :: 0 <= j < i ==> respond(ids[j]).Success?
  {
    if respond(ids[0]).Success? {
      PromiseAllReason(ids[1..], respond);
      var i :| 0 <= i < |ids[1..]| && respond(ids[1..][i]).Failure?
        && respond(ids[1..][i]).message == PromiseAll(ids[1..], respond).message
        && forall j :: 0 <= j < i ==> respond(ids[1..][j]).Success?;
      assert respond(ids[i + 1]).Failure?;
      assert forall j :: 0 <= j < i + 1 ==> respond(ids[j]).Success? by {
        forall j | 0 <= j < i + 1
          ensures respond(ids[j]).Success?
        {
          if j > 0 {
            assert ids[j] == ids[1..][j - 1];
          }
        }
      }
    } else {
      assert respond(ids[0]).Failure?;
    }
  }

  /** `tasksLists.flat()`. */
  function Flatten<T>(tss: seq<seq<T>>): (r: seq<T>)
  {
    if tss == [] then [] else tss[0] + Flatten(tss[1..])
  }

  /** Every task of every list survives the flattening, in order. */
  lemma {:induction false} FlattenKeeps<T>(tss: seq<seq<T>>, i: nat, j: nat)
    requires i < |tss| && j < |tss[i]|
    ensures tss[i][j] in Flatten(tss)
  {
    if i == 0 {
      assert Flatten(tss) == tss[0] + Flatten(tss[1..]);
      assert Flatten(tss)[j] == tss[0][j];
    } else {
      FlattenKeeps(tss[1..], i - 1, j);
      assert tss[1..][i - 1] == tss[i];
    }
  }

  /** `getListTasks(id)` for each id. */
  function TaskListsOf(ids: seq<int>, tasks: seq<TaskRec>): (r: seq<seq<TaskRec>>)
    ensures |r| == |ids|
  {
    if ids == [] then [] else [TasksOf(tasks, ids[0])] + TaskListsOf(ids[1..], tasks)
  }

  /** `.filter(taskList => taskList.length > 0)`. */
  function NonEmpty(tss: seq<seq<TaskRec>>): (r: seq<seq<TaskRec>>)
    ensures forall i :: 0 <= i < |r| ==> r[i] != []
  {
    if tss == [] then []
    else (if tss[0] != [] then [tss[0]] else []) + NonEmpty(tss[1..])
  }

  /** `.map(taskList => taskList[0].idlist)`. */
  function FirstIdlists(tss: seq<seq<TaskRec>>): (r: seq<int>)
    requires forall i :: 0 <= i < |tss| ==> tss[i] != []
    ensures |r| == |tss|
  {
    if tss == [] then [] else [tss[0][0].idlist] + FirstIdlists(tss[1..])
  }

  /** The lists erase-all empties first: the chain of the source. */
  function EraseSelection(ids: seq<int>, tasks: seq<TaskRec>): seq<int>
  {
    FirstIdlists(NonEmpty(TaskListsOf(ids, tasks)))
  }

  predicate HasTasks(tasks: seq<TaskRec>, id: int)
  {
    exists i :: 0 <= i < |tasks| && tasks[i].idlist == id
  }

  /** The ids that have at least one task, in their order. */
  function ListsWithTasks(ids: seq<int>, tasks: seq<TaskRec>): (r: seq<int>)
    ensures forall i :: 0 <= i < |r| ==> r[i] in ids && HasTasks(tasks, r[i])
    ensures forall i :: 0 <= i < |ids| && HasTasks(tasks, ids[i]) ==> ids[i] in r
  {
    if ids == [] then []
    else (if HasTasks(tasks, ids[0]) then [ids[0]] else []) + ListsWithTasks(ids[1..], tasks)
  }

  /** A list's tasks are non-empty exactly when it has a task, and the first
      of them belongs to it. */
  lemma TasksOfFirst(tasks: seq<TaskRec>, id: int)
    ensures TasksOf(tasks, id) != [] <==> HasTasks(tasks, id)
    ensures TasksOf(tasks, id) != [] ==> TasksOf(tasks, id)[0].idlist == id
  {
    if HasTasks(tasks, id) {
      var i :| 0 <= i < |tasks| && tasks[i].idlist == id;
      assert tasks[i] in TasksOf(tasks, id);
    }
  }

  /** Erase-all selects exactly the held list ids that have a task, in
      `getListIds` order: each selected id is its first task's `idlist`. */
  lemma {:induction false} EraseSelectsListsWithTasks(ids: seq<int>, tasks: seq<TaskRec>)
    ensures EraseSelection(ids, tasks) == ListsWithTasks(ids, tasks)
  {
    if ids != [] {
      var first := TasksOf(tasks, ids[0]);
      var rest := TaskListsOf(ids[1..], tasks);
      var all := TaskListsOf(ids, tasks);
      assert all == [first] + rest;
      assert all[0] == first && all[1..] == rest;
      TasksOfFirst(tasks, ids[0]);
      EraseSelectsListsWithTasks(ids[1..], tasks);
      var kept := NonEmpty(all);
      assert kept == (if first != [] then [first] else []) + NonEmpty(rest);
      if first != [] {
        assert kept[0] == first && kept[1..] == NonEmpty(rest);
        assert FirstIdlists(kept) == [ids[0]] + FirstIdlists(NonEmpty(rest));
      } else {
        assert kept == NonEmpty(rest);
      }
    }
  }

  /** The view is the only subscriber of the model: one handler per event it
      renders, none for `taskUpdated`. */
  ghost predicate ViewOnly(model: ListModel)
    reads model, model.bus
  {
    model.bus.eventMap == ViewSubscriptions()
  }

  lemma SubscribersOfViewOnly(model: ListModel)
    requires ViewOnly(model)
    ensures model.Subscribers(UserChanged) == [OnUserChanged]
    ensures model.Subscribers(ListAdded) == [OnListAdded]
    ensures model.Subscribers(ListUpdated) == [OnListUpdated]
    ensures model.Subscribers(ListDeleted) == [OnListDeleted]
    ensures model.Subscribers(TaskAdded) == [OnTaskAdded]
    ensures model.Subscribers(TaskDeleted) == [OnTaskDeleted]
    ensures model.Subscribers(TaskUpdated) == []
  {
    EventNamesDistinct();
  }

  /** With a single non-throwing subscriber, one raise is one call. */
  lemma DispatchOne<A>(h: HandlerId, args: A)
    ensures Dispatch([h], args, {}) == Raised([Invocation(h, args)], None)
  {
    var none: set<Invocation<A>> := {};
    assert [h][1..] == [];
    assert Dispatch([], args, none) == Raised([], None);
  }

  /** The tasks `loadUserLists` adds: the flattened answers, if both waves
      succeed. */
  function LoadedTasks(lists: Outcome<seq<ListRec>>, listTasks: int -> Outcome<seq<TaskRec>>): seq<TaskRec>
  {
    if lists.Failure? then []
    else
      var w := PromiseAll(Ids(lists.value), listTasks);
      if w.Success? then Flatten(w.value) else []
  }

  /** The calls `loadUserLists` issues after `getLists`. */
  function TaskFetches(lists: Outcome<seq<ListRec>>): seq<ServiceCall>
  {
    if lists.Success? then CallsFor(Ids(lists.value), FetchTasks) else []
  }

  /** The banner when `loadUserLists` is done: the loading message while
      `getLists` failed (its rejection is not handled), hidden after the
      tasks arrived, the error otherwise. */
  function LoadBanner(prev: Banner, lists: Outcome<seq<ListRec>>, listTasks: int -> Outcome<seq<TaskRec>>): Banner
  {
    var loading := ShownBanner(prev, Plain(LoadingLists));
    if lists.Failure? then loading
    else
      var w := PromiseAll(Ids(lists.value), listTasks);
      if w.Success? then loading.(shown := false) else ShownBanner(loading, Plain(ErrorText(w.message)))
  }

  /** The first wave of erase-all: empty each selected list. */
  function EraseFirstWave(ids: seq<int>, tasks: seq<TaskRec>): seq<ServiceCall>
  {
    CallsFor(EraseSelection(ids, tasks), EmptyList)
  }

  /** The second wave, sent only once the first succeeded: delete each held
      list. */
  function EraseSecondWave(ids: seq<int>, tasks: seq<TaskRec>, deleteListTasks: int -> Outcome<()>): seq<ServiceCall>
  {
    if PromiseAll(EraseSelection(ids, tasks), deleteListTasks).Success? then CallsFor(ids, DropList) else []
  }

  /** Whether both waves of erase-all succeed. */
  predicate EraseSucceeds(ids: seq<int>, tasks: seq<TaskRec>, deleteListTasks: int -> Outcome<()>, deleteList: int -> Outcome<()>)
  {
    PromiseAll(EraseSelection(ids, tasks), deleteListTasks).Success? && PromiseAll(ids, deleteList).Success?
  }

  /** The message erase-all ends with. */
  function EraseMessage(ids: seq<int>, tasks: seq<TaskRec>, deleteListTasks: int -> Outcome<()>, deleteList: int -> Outcome<()>): string
  {
    var first := PromiseAll(EraseSelection(ids, tasks), deleteListTasks);
    if first.Failure? then ErrorText(first.message)
    else
      var second := PromiseAll(ids, deleteList);
      if second.Failure? then ErrorText(second.message) else AllErased
  }

  /** No list is deleted by erase-all unless every task-deletion request of
      the first wave succeeded; with a failed first wave, only that wave is
      sent. */
  lemma EraseDeletesOnlyAfterEmptying(ids: seq<int>, tasks: seq<TaskRec>, deleteListTasks: int -> Outcome<()>, k: nat)
    requires var calls := EraseFirstWave(ids, tasks) + EraseSecondWave(ids, tasks, deleteListTasks);
      k < |calls| && calls[k].DeleteListCall?
    ensures forall j :: 0 <= j < |EraseSelection(ids, tasks)| ==> deleteListTasks(EraseSelection(ids, tasks)[j]).Success?
  {
  }

  /** Login and a restored session differ on the wire: after a login every
      request carries the token as `'Bearer ' + token`, while a session
      restored on a fresh service keeps `_jwt` null and sends 'Bearer null'
      whatever token was stored. */
  lemma {:induction false} RestoredSessionUnauthenticated(token: string)
    requires token != "null"
    ensures Service.Bearer(JStr(token)) != Service.Bearer(JNull)
    ensures Service.Bearer(JNull) == "Bearer null"
  {
    Service.BearerBeforeLogin();
    assert Service.Bearer(JStr(token))[7..] == token;
    assert Service.Bearer(JNull)[7..] == "null";
  }

  /** A stored token that is truthy: a non-empty string. */
  predicate HasSession(storage: map<string, string>)
  {
    "token" in storage && storage["token"] != ""
  }

  /** `localStorage.getItem('username')`: null when absent. */
  function StoredUser(storage: map<string, string>): Option<string>
  {
    if "username" in storage then Some(storage["username"]) else None
  }

  class ListController {
    const model: ListModel
    const view: ListView
    const service: Service.ListService
    /** `localStorage`. */
    var storage: map<string, string>
    /** The service calls issued, in order. */
    var sent: seq<ServiceCall>
    /** The list each prompt callback deletes, by callback id. */
    var removals: seq<ListRec>

    /** The startup branch, run by the constructor. */
    constructor (view: ListView, model: ListModel, service: Service.ListService, storage: map<string, string>,
                 lists: Outcome<seq<ListRec>>, listTasks: int -> Outcome<seq<TaskRec>>)
      requires ViewOnly(model)
      modifies model, view`lists, view`tasks, view`shownView, view`info, view`loginLink, view`logoutLink,
        view`registerLink, view`greeter, service`token
      ensures this.model == model && this.view == view && this.service == service
      ensures this.storage == storage && removals == []
      ensures service.jwt == old(service.jwt)
      ensures HasSession(storage) ==>
        && service.token == Some(storage["token"]) && model.user == StoredUser(storage)
        && sent == [GetListsCall] + TaskFetches(lists)
        && model.lists == old(model.lists) + (if lists.Success? then lists.value else [])
        && model.tasks == old(model.tasks) + LoadedTasks(lists, listTasks)
        && view.info == LoadBanner(old(view.info), lists, listTasks)
      ensures HasSession(storage) ==>
        var u := StoredUser(storage);
        var before := if u.Some? then old(view.lists) else map[];
        && view.greeter == (if u.Some? then Some("Hola, " + u.value) else None)
        && view.loginLink == u.None? && view.logoutLink == u.Some? && view.registerLink == u.None?
        && view.shownView == (if lists.Success? then Some(ListsView) else if u.Some? then None else Some(HomeView))
        && view.lists == (if lists.Success? then ListFields(before, lists.value) else before)
        && view.tasks == TaskSlots(view.lists, if u.Some? then old(view.tasks) else map[], LoadedTasks(lists, listTasks))
      ensures !HasSession(storage) ==>
        && service.token == old(service.token) && model.user.None? && sent == []
        && model.lists == old(model.lists) && model.tasks == old(model.tasks)
        && view.shownView == Some(HomeView) && view.lists == map[] && view.tasks == map[]
        && view.info == old(view.info) && view.greeter.None? && view.loginLink && !view.logoutLink && view.registerLink
    {
      this.model := model;
      this.view := view;
      this.service := service;
      this.storage := storage;
      sent := [];
      removals := [];
      new;
      Resume(lists, listTasks);
      assert [] + [GetListsCall] == [GetListsCall];
    }

    /** The startup branch. A truthy stored token goes into `service.token`
        (which the service never reads), the stored username (null when
        absent) becomes the user, and the lists are loaded; otherwise the
        user is set to null. */
    method Resume(lists: Outcome<seq<ListRec>>, listTasks: int -> Outcome<seq<TaskRec>>)
      requires ViewOnly(model)
      modifies this`sent, model, view`lists, view`tasks, view`shownView, view`info, view`loginLink, view`logoutLink,
        view`registerLink, view`greeter, service`token
      ensures service.jwt == old(service.jwt)
      ensures HasSession(storage) ==>
        && service.token == Some(storage["token"]) && model.user == StoredUser(storage)
        && sent == old(sent) + [GetListsCall] + TaskFetches(lists)
        && model.lists == old(model.lists) + (if lists.Success? then lists.value else [])
        && model.tasks == old(model.tasks) + LoadedTasks(lists, listTasks)
        && view.info == LoadBanner(old(view.info), lists, listTasks)
      ensures HasSession(storage) ==>
        var u := StoredUser(storage);
        var before := if u.Some? then old(view.lists) else map[];
        && view.greeter == (if u.Some? then Some("Hola, " + u.value) else None)
        && view.loginLink == u.None? && view.logoutLink == u.Some? && view.registerLink == u.None?
        && view.shownView == (if lists.Success? then Some(ListsView) else if u.Some? then None else Some(HomeView))
        && view.lists == (if lists.Success? then ListFields(before, lists.value) else before)
        && view.tasks == TaskSlots(view.lists, if u.Some? then old(view.tasks) else map[], LoadedTasks(lists, listTasks))
      ensures !HasSession(storage) ==>
        && service.token == old(service.token) && model.user.None? && sent == old(sent)
        && model.lists == old(model.lists) && model.tasks == old(model.tasks)
        && view.shownView == Some(HomeView) && view.lists == map[] && view.tasks == map[]
        && view.info == old(view.info) && view.greeter.None? && view.loginLink && !view.logoutLink && view.registerLink
    {
      if "token" in storage && Truthy(JStr(storage["token"])) {
        service.token := Some(storage["token"]);
        EnterAs(StoredUser(storage), lists, listTasks);
      } else {
        SetUser(None);
      }
    }

    /** `model.user = u; this.loadUserLists()`: the user is set, which
        greets a user or resets the page for null, and then the lists and
        their tasks are loaded and rendered. */
    method EnterAs(u: Option<string>, lists: Outcome<seq<ListRec>>, listTasks: int -> Outcome<seq<TaskRec>>)
      requires ViewOnly(model)
      modifies this`sent, model, view`lists, view`tasks, view`shownView, view`info, view`loginLink, view`logoutLink,
        view`registerLink, view`greeter
      ensures model.user == u
      ensures sent == old(sent) + [GetListsCall] + TaskFetches(lists)
      ensures model.lists == old(model.lists) + (if lists.Success? then lists.value else [])
      ensures model.tasks == old(model.tasks) + LoadedTasks(lists, listTasks)
      ensures view.info == LoadBanner(old(view.info), lists, listTasks)
      ensures view.greeter == (if u.Some? then Some("Hola, " + u.value) else None)
      ensures view.loginLink == u.None? && view.logoutLink == u.Some? && view.registerLink == u.None?
      ensures view.shownView == (if lists.Success? then Some(ListsView) else if u.Some? then None else Some(HomeView))
      ensures var before := if u.Some? then old(view.lists) else map[];
        view.lists == (if lists.Success? then ListFields(before, lists.value) else before)
      ensures view.tasks == TaskSlots(view.lists, if u.Some? then old(view.tasks) else map[], LoadedTasks(lists, listTasks))
    {
      SetUser(u);
      LoadUserLists(lists, listTasks);
    }

    /** `model.user = u`, delivered to the view. */
    method SetUser(u: Option<string>)
      requires ViewOnly(model)
      modifies model, view`lists, view`tasks, view`shownView, view`loginLink, view`logoutLink,
        view`registerLink, view`greeter
      ensures model.user == u && model.lists == old(model.lists) && model.tasks == old(model.tasks)
      ensures u.None? ==> view.lists == map[] && view.tasks == map[] && view.shownView == Some(HomeView)
      ensures u.None? ==> view.greeter.None? && view.loginLink && !view.logoutLink && view.registerLink
      ensures u.Some? ==> view.lists == old(view.lists) && view.tasks == old(view.tasks) && view.shownView.None?
      ensures u.Some? ==> view.greeter == Some("Hola, " + u.value)
      ensures u.Some? ==> !view.loginLink && view.logoutLink && !view.registerLink
    {
      SubscribersOfViewOnly(model);
      DispatchOne(OnUserChanged, UserArg(u));
      var r := model.SetUser(u, {});
      assert r.calls == [Invocation(OnUserChanged, UserArg(u))];
      view.UserChangedHandler(u);
    }

    /** `model.addList(l)`, delivered to the view. */
    method PublishList(l: ListRec)
      requires ViewOnly(model)
      modifies model, view`lists
      ensures model.lists == old(model.lists) + [l]
      ensures model.tasks == old(model.tasks) && model.user == old(model.user)
      ensures view.lists == old(view.lists)[l.id := NewListField(l.name)]
    {
      SubscribersOfViewOnly(model);
      DispatchOne(OnListAdded, ListArg(l));
      var r := model.AddList(l, {});
      assert r.calls == [Invocation(OnListAdded, ListArg(l))];
      view.ListAddedHandler(l);
    }

    /** `model.addTask(t)`, delivered to the view. */
    method PublishTask(t: TaskRec)
      requires ViewOnly(model)
      modifies model, view`tasks
      ensures model.tasks == old(model.tasks) + [t]
      ensures model.lists == old(model.lists) && model.user == old(model.user)
      ensures view.tasks == TaskSlotted(view.lists, old(view.tasks), t)
    {
      SubscribersOfViewOnly(model);
      DispatchOne(OnTaskAdded, TaskArg(t));
      var r := model.AddTask(t, {});
      assert r.calls == [Invocation(OnTaskAdded, TaskArg(t))];
      view.TaskAddedHandler(t);
    }

    /** `view.showMessage('Error:' + err.message)`. */
    method Report(message: Option<string>)
      modifies view`info
      ensures view.info == ShownBanner(old(view.info), Plain(ErrorText(message)))
    {
      view.ShowMessage(Plain(ErrorText(message)));
    }

    /** `lists.forEach(list => model.addList(list))`, each delivered. */
    method PublishLists(ls: seq<ListRec>)
      requires ViewOnly(model)
      modifies model, view`lists
      ensures model.lists == old(model.lists) + ls
      ensures model.tasks == old(model.tasks) && model.user == old(model.user)
      ensures view.lists == ListFields(old(view.lists), ls)
    {
      var i := 0;
      while i < |ls|
        invariant 0 <= i <= |ls|
        invariant model.lists == old(model.lists) + ls[..i]
        invariant model.tasks == old(model.tasks) && model.user == old(model.user)
        invariant view.lists == ListFields(old(view.lists), ls[..i])
      {
        assert ls[..i + 1][..i] == ls[..i];
        PublishList(ls[i]);
        assert model.lists == old(model.lists) + ls[..i + 1];
        i := i + 1;
      }
      assert ls[..i] == ls;
    }

    /** `tasks.forEach(task => model.addTask(task))`, each delivered. */
    method PublishTasks(ts: seq<TaskRec>)
      requires ViewOnly(model)
      modifies model, view`tasks
      ensures model.tasks == old(model.tasks) + ts
      ensures model.lists == old(model.lists) && model.user == old(model.user)
      ensures view.tasks == TaskSlots(view.lists, old(view.tasks), ts)
    {
      var j := 0;
      while j < |ts|
        invariant 0 <= j <= |ts|
        invariant model.tasks == old(model.tasks) + ts[..j]
        invariant model.lists == old(model.lists) && model.user == old(model.user)
        invariant view.tasks == TaskSlots(view.lists, old(view.tasks), ts[..j])
      {
        assert ts[..j + 1][..j] == ts[..j];
        PublishTask(ts[j]);
        assert model.tasks == old(model.tasks) + ts[..j + 1];
        j := j + 1;
      }
      assert ts[..j] == ts;
    }

    /** `loadUserLists()`: show the loading message, fetch the lists, show the
        lists view and add them; then fetch every list's tasks at once and add
        them all, or report the failure. */
    method LoadUserLists(lists: Outcome<seq<ListRec>>, listTasks: int -> Outcome<seq<TaskRec>>)
      requires ViewOnly(model)
      modifies this`sent, model, view`lists, view`tasks, view`shownView, view`info
      ensures sent == old(sent) + [GetListsCall] + TaskFetches(lists)
      ensures model.user == old(model.user)
      ensures model.lists == old(model.lists) + (if lists.Success? then lists.value else [])
      ensures model.tasks == old(model.tasks) + LoadedTasks(lists, listTasks)
      ensures view.lists == (if lists.Success? then ListFields(old(view.lists), lists.value) else old(view.lists))
      ensures view.tasks == TaskSlots(view.lists, old(view.tasks), LoadedTasks(lists, listTasks))
      ensures view.shownView == (if lists.Success? then Some(ListsView) else old(view.shownView))
      ensures view.info == LoadBanner(old(view.info), lists, listTasks)
    {
      view.ShowMessage(Plain(LoadingLists));
      sent := sent + [GetListsCall];
      if lists.Success? {
        ShowLists(lists.value, listTasks);
      }
    }

    /** `loadUserLists` once `getLists` answered `ls`. */
    method ShowLists(ls: seq<ListRec>, listTasks: int -> Outcome<seq<TaskRec>>)
      requires ViewOnly(model)
      modifies this`sent, model, view`lists, view`tasks, view`shownView, view`info
      ensures sent == old(sent) + CallsFor(Ids(ls), FetchTasks)
      ensures model.user == old(model.user) && model.lists == old(model.lists) + ls
      ensures view.lists == ListFields(old(view.lists), ls)
      ensures view.shownView == Some(ListsView)
      ensures var w := PromiseAll(Ids(ls), listTasks);
        && model.tasks == old(model.tasks) + (if w.Success? then Flatten(w.value) else [])
        && view.tasks == TaskSlots(view.lists, old(view.tasks), if w.Success? then Flatten(w.value) else [])
        && view.info == if w.Success? then old(view.info).(shown := false) else ShownBanner(old(view.info), Plain(ErrorText(w.message)))
    {
      view.ShowView(Some(ListsView));
      PublishLists(ls);
      LoadTasks(Ids(ls), listTasks);
    }

    /** The second half of `loadUserLists`: every list's tasks at once, then
        all of them added and the banner hidden, or the failure reported. */
    method LoadTasks(ids: seq<int>, listTasks: int -> Outcome<seq<TaskRec>>)
      requires ViewOnly(model)
      modifies this`sent, model, view`tasks, view`info
      ensures sent == old(sent) + CallsFor(ids, FetchTasks)
      ensures model.user == old(model.user) && model.lists == old(model.lists)
      ensures var w := PromiseAll(ids, listTasks);
        && model.tasks == old(model.tasks) + (if w.Success? then Flatten(w.value) else [])
        && view.tasks == TaskSlots(view.lists, old(view.tasks), if w.Success? then Flatten(w.value) else [])
        && view.info == if w.Success? then old(view.info).(shown := false) else ShownBanner(old(view.info), Plain(ErrorText(w.message)))
    {
      sent := sent + CallsFor(ids, FetchTasks);
      var w := PromiseAll(ids, listTasks);
      if w.Failure? {
        Report(w.message);
        return;
      }
      PublishTasks(Flatten(w.value));
      view.HideMessage();
    }

    /** Store the session, set the user and load the lists: the success path
        shared by login and register. A failure of the list loading is not
        caught by the handler's `try`, since its promise is returned without
        being awaited. */
    method SignIn(username: string, token: Json, lists: Outcome<seq<ListRec>>, listTasks: int -> Outcome<seq<TaskRec>>)
      requires ViewOnly(model)
      modifies this`sent, this`storage, model, view`lists, view`tasks, view`shownView, view`info,
        view`loginLink, view`logoutLink, view`registerLink, view`greeter
      ensures storage == old(storage)["token" := JsString(token)]["username" := username]
      ensures model.user == Some(username)
      ensures sent == old(sent) + [GetListsCall] + TaskFetches(lists)
      ensures model.lists == old(model.lists) + (if lists.Success? then lists.value else [])
      ensures model.tasks == old(model.tasks) + LoadedTasks(lists, listTasks)
      ensures view.greeter == Some("Hola, " + username) && view.logoutLink && !view.loginLink && !view.registerLink
      ensures view.shownView == (if lists.Success? then Some(ListsView) else None)
      ensures view.lists == (if lists.Success? then ListFields(old(view.lists), lists.value) else old(view.lists))
      ensures view.tasks == TaskSlots(view.lists, old(view.tasks), LoadedTasks(lists, listTasks))
      ensures view.info == LoadBanner(old(view.info), lists, listTasks)
    {
      storage := storage["token" := JsString(token)]["username" := username];
      EnterAs(Some(username), lists, listTasks);
    }

    /** The `loginButtonClicked` handler. `login` is the transport's answer
        to the login request, which goes through `service.login`: on success
        `_jwt` holds the token, the token and the username are stored, the
        user is set and the lists are loaded; on failure the rejection's
        message, the status text, is shown and nothing else changes. */
    method OnLogin(username: string, password: string, login: Service.Response,
                   lists: Outcome<seq<ListRec>>, listTasks: int -> Outcome<seq<TaskRec>>)
      requires ViewOnly(model)
      modifies this`sent, this`storage, model, view`lists, view`tasks, view`shownView, view`info,
        view`loginLink, view`logoutLink, view`registerLink, view`greeter, service`jwt
      ensures login.Fail? ==>
        && sent == old(sent) + [LoginCall(username, password)]
        && service.jwt == old(service.jwt)
        && storage == old(storage) && model.user == old(model.user)
        && model.lists == old(model.lists) && model.tasks == old(model.tasks)
        && view.Shown() == old(view.Shown())
        && view.info == ShownBanner(ShownBanner(old(view.info), Plain(WaitingApi)), Plain(ErrorText(Some(login.statusText))))
      ensures login.Done? ==>
        && sent == old(sent) + [LoginCall(username, password)] + [GetListsCall] + TaskFetches(lists)
        && service.jwt == login.data && service.Auth() == Some(Service.Bearer(login.data))
        && storage == old(storage)["token" := JsString(login.data)]["username" := username]
        && model.user == Some(username)
        && model.lists == old(model.lists) + (if lists.Success? then lists.value else [])
        && model.tasks == old(model.tasks) + LoadedTasks(lists, listTasks)
        && view.info == LoadBanner(ShownBanner(old(view.info), Plain(WaitingApi)), lists, listTasks)
        && view.greeter == Some("Hola, " + username) && view.logoutLink && !view.loginLink && !view.registerLink
        && view.shownView == (if lists.Success? then Some(ListsView) else None)
        && view.lists == (if lists.Success? then ListFields(old(view.lists), lists.value) else old(view.lists))
        && view.tasks == TaskSlots(view.lists, old(view.tasks), LoadedTasks(lists, listTasks))
    {
      view.ShowMessage(Plain(WaitingApi));
      LogIn(username, password, login, lists, listTasks);
    }

    /** `await service.login(...)` and what follows it in the `try` of the
        login and register handlers, with the `catch` reporting the
        rejection. */
    method LogIn(username: string, password: string, login: Service.Response,
                 lists: Outcome<seq<ListRec>>, listTasks: int -> Outcome<seq<TaskRec>>)
      requires ViewOnly(model)
      modifies this`sent, this`storage, model, view`lists, view`tasks, view`shownView, view`info,
        view`loginLink, view`logoutLink, view`registerLink, view`greeter, service`jwt
      ensures login.Fail? ==>
        && sent == old(sent) + [LoginCall(username, password)]
        && service.jwt == old(service.jwt)
        && storage == old(storage) && model.user == old(model.user)
        && model.lists == old(model.lists) && model.tasks == old(model.tasks)
        && view.Shown() == old(view.Shown())
        && view.info == ShownBanner(old(view.info), Plain(ErrorText(Some(login.statusText))))
      ensures login.Done? ==>
        && sent == old(sent) + [LoginCall(username, password)] + [GetListsCall] + TaskFetches(lists)
        && service.jwt == login.data
        && storage == old(storage)["token" := JsString(login.data)]["username" := username]
        && model.user == Some(username)
        && model.lists == old(model.lists) + (if lists.Success? then lists.value else [])
        && model.tasks == old(model.tasks) + LoadedTasks(lists, listTasks)
        && view.info == LoadBanner(old(view.info), lists, listTasks)
        && view.greeter == Some("Hola, " + username) && view.logoutLink && !view.loginLink && !view.registerLink
        && view.shownView == (if lists.Success? then Some(ListsView) else None)
        && view.lists == (if lists.Success? then ListFields(old(view.lists), lists.value) else old(view.lists))
        && view.tasks == TaskSlots(view.lists, old(view.tasks), LoadedTasks(lists, listTasks))
    {
      sent := sent + [LoginCall(username, password)];
      var call := service.Login(username, password, (_: Service.Request) => login);
      match login
      case Fail(_, _) =>
        Report(Service.MessageOf(call.result.reason));
      case Done(token) =>
        SignIn(username, token, lists, listTasks);
    }

    /** The `registerButtonClicked` handler. `register` and `login` are the
        transport's answers. Login is called only after the registration
        succeeds. A failed registration rejects with the raw payload, which
        has no `message`, so it always shows 'Error:undefined'. */
    method OnRegister(username: string, password: string, register: Service.Response, login: Service.Response,
                      lists: Outcome<seq<ListRec>>, listTasks: int -> Outcome<seq<TaskRec>>)
      requires ViewOnly(model)
      modifies this`sent, this`storage, model, view`lists, view`tasks, view`shownView, view`info,
        view`loginLink, view`logoutLink, view`registerLink, view`greeter, service`jwt
      ensures register.Fail? ==>
        && sent == old(sent) + [RegisterCall(username, password)]
        && service.jwt == old(service.jwt)
        && storage == old(storage) && model.user == old(model.user)
        && model.lists == old(model.lists) && model.tasks == old(model.tasks)
        && view.Shown() == old(view.Shown())
        && view.info == ShownBanner(ShownBanner(old(view.info), Plain(WaitingApi)), Plain(ErrorText(None)))
      ensures register.Done? && login.Fail? ==>
        && sent == old(sent) + [RegisterCall(username, password)] + [LoginCall(username, password)]
        && service.jwt == old(service.jwt)
        && storage == old(storage) && model.user == old(model.user)
        && model.lists == old(model.lists) && model.tasks == old(model.tasks)
        && view.Shown() == old(view.Shown())
        && view.info == ShownBanner(ShownBanner(old(view.info), Plain(WaitingApi)), Plain(ErrorText(Some(login.statusText))))
      ensures register.Done? && login.Done? ==>
        && sent == old(sent) + [RegisterCall(username, password)] + [LoginCall(username, password)] + [GetListsCall] + TaskFetches(lists)
        && service.jwt == login.data
        && storage == old(storage)["token" := JsString(login.data)]["username" := username]
        && model.user == Some(username)
        && model.lists == old(model.lists) + (if lists.Success? then lists.value else [])
        && model.tasks == old(model.tasks) + LoadedTasks(lists, listTasks)
        && view.info == LoadBanner(ShownBanner(old(view.info), Plain(WaitingApi)), lists, listTasks)
        && view.greeter == Some("Hola, " + username) && view.logoutLink && !view.loginLink && !view.registerLink
        && view.shownView == (if lists.Success? then Some(ListsView) else None)
        && view.lists == (if lists.Success? then ListFields(old(view.lists), lists.value) else old(view.lists))
        && view.tasks == TaskSlots(view.lists, old(view.tasks), LoadedTasks(lists, listTasks))
    {
      view.ShowMessage(Plain(WaitingApi));
      sent := sent + [RegisterCall(username, password)];
      var registered := Service.Register(username, password, (_: Service.Request) => register);
      if registered.result.Rejected? {
        Report(Service.MessageOf(registered.result.reason));
        return;
      }
      LogIn(username, password, login, lists, listTasks);
    }

    /** The `logoutButtonClicked` handler: forget the session and set the
        user to null. The model keeps its lists and tasks. */
    method OnLogout()
      requires ViewOnly(model)
      modifies this`storage, model, view`lists, view`tasks, view`shownView, view`loginLink, view`logoutLink,
        view`registerLink, view`greeter
      ensures storage == old(storage) - {"token", "username"}
      ensures model.user.None? && model.lists == old(model.lists) && model.tasks == old(model.tasks)
      ensures view.lists == map[] && view.tasks == map[] && view.shownView == Some(HomeView)
      ensures view.greeter.None? && view.loginLink && !view.logoutLink && view.registerLink
    {
      storage := storage - {"token"};
      storage := storage - {"username"};
      SetUser(None);
    }

    /** The `listNameEdited` handler. Only after the update request succeeds
        (whatever `success` it answers) is the name changed in place and
        `model.updateList` called, which throws, reported as
        'Error:undefined', for a list the model does not hold. */
    method OnListNameEdited(l: ListRec, name: string, update: Outcome<bool>)
      requires ViewOnly(model)
      modifies this`sent, l, view`lists, view`info
      ensures sent == old(sent) + [UpdateListCall(l.id, name)]
      ensures update.Failure? ==>
        && l.name == old(l.name) && view.lists == old(view.lists)
        && view.info == ShownBanner(old(view.info), Plain(ErrorText(update.message)))
      ensures update.Success? && l in model.lists ==>
        && l.name == name && view.info == old(view.info)
        && view.lists == Update(old(view.lists), l.id, (f: Field) => f.(text := name))
      ensures update.Success? && l !in model.lists ==>
        && l.name == name && view.lists == old(view.lists)
        && view.info == ShownBanner(old(view.info), Plain(ErrorText(None)))
    {
      sent := sent + [UpdateListCall(l.id, name)];
      if update.Failure? {
        Report(update.message);
        return;
      }
      l.name := name;
      var r := model.UpdateList(l, {});
      match r
      case Thrown(_) =>
        Report(None);
      case Ok(raised) =>
        SubscribersOfViewOnly(model);
        DispatchOne(OnListUpdated, ListArg(l));
        assert raised.calls == [Invocation(OnListUpdated, ListArg(l))];
        view.ListUpdatedHandler(l);
    }

    /** The `addListButtonClicked` handler. */
    method OnAddList(add: Outcome<ListRec>)
      requires ViewOnly(model)
      modifies this`sent, model, view`lists, view`info
      ensures sent == old(sent) + [AddListCall(NewListName)]
      ensures model.tasks == old(model.tasks) && model.user == old(model.user)
      ensures add.Success? ==>
        && model.lists == old(model.lists) + [add.value] && view.info == old(view.info)
        && view.lists == old(view.lists)[add.value.id := NewListField(add.value.name)]
      ensures add.Failure? ==>
        && model.lists == old(model.lists) && view.lists == old(view.lists)
        && view.info == ShownBanner(old(view.info), Plain(ErrorText(add.message)))
    {
      sent := sent + [AddListCall(NewListName)];
      match add
      case Failure(m) =>
        Report(m);
      case Success(l) =>
        PublishList(l);
    }

    /** `model.deleteList(l)`, delivered to the view; whether it threw. */
    method RemoveFromModel(l: ListRec) returns (threw: bool)
      requires ViewOnly(model)
      modifies model, view`lists, view`tasks
      ensures threw <==> l !in old(model.lists)
      ensures threw ==> model.lists == old(model.lists) && view.lists == old(view.lists) && view.tasks == old(view.tasks)
      ensures !threw ==>
        && model.lists == Seqs.RemoveFirst(old(model.lists), l)
        && view.lists == old(view.lists) - {l.id} && view.tasks == OutsideList(old(view.tasks), l.id)
      ensures model.tasks == old(model.tasks) && model.user == old(model.user)
    {
      var r := model.DeleteList(l, {});
      threw := r.Thrown?;
      if !threw {
        SubscribersOfViewOnly(model);
        DispatchOne(OnListDeleted, ListArg(l));
        assert r.value.calls == [Invocation(OnListDeleted, ListArg(l))];
        view.ListDeletedHandler(l);
      }
    }

    /** The `removeListButtonClicked` handler. A list with tasks is only put
        to the user: a prompt whose callback deletes it, and no request yet. A
        list without tasks is deleted right away. */
    method OnRemoveList(l: ListRec, delete: Outcome<()>)
      requires ViewOnly(model)
      modifies this`sent, this`removals, model, view`lists, view`tasks, view`info, view`prompt
      ensures model.tasks == old(model.tasks) && model.user == old(model.user)
      ensures model.GetListTasks(l.id) != [] ==>
        && sent == old(sent) && model.lists == old(model.lists)
        && removals == old(removals) + [l]
        && view.prompt == PromptBox(true, ConfirmTitle, ConfirmText, old(view.prompt.callbacks) + [|old(removals)|])
        && view.lists == old(view.lists) && view.tasks == old(view.tasks) && view.info == old(view.info)
      ensures model.GetListTasks(l.id) == [] ==>
        && sent == old(sent) + [DeleteListCall(l.id)] && removals == old(removals) && view.prompt == old(view.prompt)
      ensures model.GetListTasks(l.id) == [] && delete.Failure? ==>
        && model.lists == old(model.lists) && view.lists == old(view.lists) && view.tasks == old(view.tasks)
        && view.info == ShownBanner(old(view.info), Plain(ErrorText(delete.message)))
      ensures model.GetListTasks(l.id) == [] && delete.Success? && l in old(model.lists) ==>
        && model.lists == Seqs.RemoveFirst(old(model.lists), l) && view.info == old(view.info)
        && view.lists == old(view.lists) - {l.id} && view.tasks == OutsideList(old(view.tasks), l.id)
      ensures model.GetListTasks(l.id) == [] && delete.Success? && l !in old(model.lists) ==>
        && model.lists == old(model.lists) && view.lists == old(view.lists) && view.tasks == old(view.tasks)
        && view.info == ShownBanner(old(view.info), Plain(ErrorText(None)))
    {
      if |model.GetListTasks(l.id)| > 0 {
        view.Prompt(ConfirmTitle, ConfirmText, |removals|);
        removals := removals + [l];
        return;
      }
      DeleteNow(l, delete);
    }

    /** `await service.deleteList(list.id); model.deleteList(list)` inside a
        `try` that reports any failure. */
    method DeleteNow(l: ListRec, delete: Outcome<()>)
      requires ViewOnly(model)
      modifies this`sent, model, view`lists, view`tasks, view`info
      ensures sent == old(sent) + [DeleteListCall(l.id)]
      ensures model.tasks == old(model.tasks) && model.user == old(model.user)
      ensures delete.Failure? ==>
        && model.lists == old(model.lists) && view.lists == old(view.lists) && view.tasks == old(view.tasks)
        && view.info == ShownBanner(old(view.info), Plain(ErrorText(delete.message)))
      ensures delete.Success? && l in old(model.lists) ==>
        && model.lists == Seqs.RemoveFirst(old(model.lists), l) && view.info == old(view.info)
        && view.lists == old(view.lists) - {l.id} && view.tasks == OutsideList(old(view.tasks), l.id)
      ensures delete.Success? && l !in old(model.lists) ==>
        && model.lists == old(model.lists) && view.lists == old(view.lists) && view.tasks == old(view.tasks)
        && view.info == ShownBanner(old(view.info), Plain(ErrorText(None)))
    {
      sent := sent + [DeleteListCall(l.id)];
      match delete
      case Failure(m) =>
        Report(m);
      case Success(_) =>
        var threw := RemoveFromModel(l);
        if threw {
          Report(None);
        }
    }

    /** A prompt callback of `removeListButtonClicked` runs with the user's
        answer: on accept it deletes the list; on reject nothing happens. Its
        failures are not caught, so nothing is reported. */
    method OnRemovalAnswered(callback: CallbackId, accept: bool, delete: Outcome<()>)
      requires ViewOnly(model)
      modifies this`sent, model, view`lists, view`tasks
      ensures model.tasks == old(model.tasks) && model.user == old(model.user)
      ensures !accept || callback >= |removals| ==>
        && sent == old(sent) && model.lists == old(model.lists)
        && view.lists == old(view.lists) && view.tasks == old(view.tasks)
      ensures accept && callback < |removals| ==> sent == old(sent) + [DeleteListCall(removals[callback].id)]
      ensures accept && callback < |removals| && delete.Success? && removals[callback] in old(model.lists) ==>
        model.lists == Seqs.RemoveFirst(old(model.lists), removals[callback])
      ensures accept && callback < |removals| && delete.Success? && removals[callback] in old(model.lists) ==>
        && view.lists == old(view.lists) - {removals[callback].id}
        && view.tasks == OutsideList(old(view.tasks), removals[callback].id)
      ensures accept && callback < |removals| && (delete.Failure? || removals[callback] !in old(model.lists)) ==>
        && model.lists == old(model.lists)
        && view.lists == old(view.lists) && view.tasks == old(view.tasks)
    {
      if !accept || callback >= |removals| {
        return;
      }
      var l := removals[callback];
      sent := sent + [DeleteListCall(l.id)];
      if delete.Success? {
        var _ := RemoveFromModel(l);
      }
    }

    /** The `addTaskButtonClicked` handler. */
    method OnAddTask(l: ListRec, add: Outcome<TaskRec>)
      requires ViewOnly(model)
      modifies this`sent, model, view`tasks, view`info
      ensures sent == old(sent) + [AddTaskCall(l.id, NewTaskName)]
      ensures model.lists == old(model.lists) && model.user == old(model.user)
      ensures add.Success? ==>
        && model.tasks == old(model.tasks) + [add.value] && view.info == old(view.info)
        && view.tasks == TaskSlotted(view.lists, old(view.tasks), add.value)
      ensures add.Failure? ==>
        && model.tasks == old(model.tasks) && view.tasks == old(view.tasks)
        && view.info == ShownBanner(old(view.info), Plain(ErrorText(add.message)))
    {
      sent := sent + [AddTaskCall(l.id, NewTaskName)];
      match add
      case Failure(m) =>
        Report(m);
      case Success(t) =>
        PublishTask(t);
    }

    /** The `taskNameEdited` handler: as for lists, on `task.name`, with no
        view handler for the `taskUpdated` it raises. */
    method OnTaskNameEdited(t: TaskRec, name: string, update: Outcome<()>)
      requires ViewOnly(model)
      modifies this`sent, t, view`info
      ensures sent == old(sent) + [UpdateTaskCall(t.id, name)]
      ensures update.Failure? ==>
        && t.name == old(t.name)
        && view.info == ShownBanner(old(view.info), Plain(ErrorText(update.message)))
      ensures update.Success? ==> t.name == Some(name)
      ensures update.Success? && t in model.tasks ==> view.info == old(view.info)
      ensures update.Success? && t !in model.tasks ==> view.info == ShownBanner(old(view.info), Plain(ErrorText(None)))
    {
      sent := sent + [UpdateTaskCall(t.id, name)];
      if update.Failure? {
        Report(update.message);
        return;
      }
      t.name := Some(name);
      var r := model.UpdateTask(t, {});
      match r
      case Thrown(_) =>
        Report(None);
      case Ok(raised) =>
        SubscribersOfViewOnly(model);
        assert raised.calls == [];
    }

    /** The `removeTaskButtonClicked` handler: the service has no
        `deleteTask`, so the call throws a TypeError before any request; it is
        reported and rethrown, and the model keeps the task. */
    method OnRemoveTask(t: TaskRec) returns (rethrown: string)
      modifies view`info
      ensures rethrown == NoDeleteTask
      ensures view.info == ShownBanner(old(view.info), Plain(ErrorText(Some(NoDeleteTask))))
    {
      Report(Some(NoDeleteTask));
      rethrown := NoDeleteTask;
    }

    /** Deliver the `taskDeleted` of each task, in order. */
    method DeliverTaskDeletions(ts: seq<TaskRec>)
      modifies view`tasks
      ensures view.tasks == WithoutTasks(old(view.tasks), ts)
    {
      var k := 0;
      while k < |ts|
        invariant 0 <= k <= |ts|
        invariant view.tasks == WithoutTasks(old(view.tasks), ts[..k])
      {
        assert ts[..k + 1][..k] == ts[..k];
        view.TaskDeletedHandler(ts[k]);
        k := k + 1;
      }
      assert ts[..k] == ts;
    }

    /** Deliver the `listDeleted` of each list, in order. */
    method DeliverListDeletions(ls: seq<ListRec>)
      modifies view`lists, view`tasks
      ensures view.lists == WithoutLists(old(view.lists), ls)
      ensures view.tasks == OutsideLists(old(view.tasks), ls)
    {
      var k := 0;
      while k < |ls|
        invariant 0 <= k <= |ls|
        invariant view.tasks == OutsideLists(old(view.tasks), ls[..k])
        invariant view.lists == WithoutLists(old(view.lists), ls[..k])
      {
        assert ls[..k + 1][..k] == ls[..k];
        view.ListDeletedHandler(ls[k]);
        k := k + 1;
      }
      assert ls[..k] == ls;
    }

    /** `model.clearTasks()` then `model.clearLists()`: each raises one event
        per element, which the view receives in order. */
    method ClearModel()
      requires ViewOnly(model)
      modifies model, view`lists, view`tasks
      ensures model.tasks == [] && model.lists == [] && model.user == old(model.user)
      ensures view.tasks == OutsideLists(WithoutTasks(old(view.tasks), old(model.tasks)), old(model.lists))
      ensures view.lists == WithoutLists(old(view.lists), old(model.lists))
    {
      SubscribersOfViewOnly(model);
      var ts := model.tasks;
      var ls := model.lists;
      DispatchEachSingle(OnTaskDeleted, TaskArgs(ts));
      var r1 := model.ClearTasks({});
      assert forall k :: 0 <= k < |ts| ==> r1.calls[k] == Invocation(OnTaskDeleted, TaskArg(ts[k]));
      DeliverTaskDeletions(ts);
      DispatchEachSingle(OnListDeleted, ListArgs(ls));
      var r2 := model.ClearLists({});
      assert forall k :: 0 <= k < |ls| ==> r2.calls[k] == Invocation(OnListDeleted, ListArg(ls[k]));
      DeliverListDeletions(ls);
    }

    /** The `eraseListsButtonClicked` handler: empty the selected lists' tasks,
        then, once all of those succeed, delete every held list; only when
        both waves succeed is the model cleared, tasks first. */
    method OnEraseLists(deleteListTasks: int -> Outcome<()>, deleteList: int -> Outcome<()>)
      requires ViewOnly(model)
      modifies this`sent, model, view`lists, view`tasks, view`info
      ensures sent == old(sent) + EraseFirstWave(Ids(old(model.lists)), old(model.tasks))
        + EraseSecondWave(Ids(old(model.lists)), old(model.tasks), deleteListTasks)
      ensures model.user == old(model.user)
      ensures view.info == ShownBanner(old(view.info),
        Plain(EraseMessage(Ids(old(model.lists)), old(model.tasks), deleteListTasks, deleteList)))
      ensures EraseSucceeds(Ids(old(model.lists)), old(model.tasks), deleteListTasks, deleteList) ==>
        && model.tasks == [] && model.lists == []
        && view.tasks == OutsideLists(WithoutTasks(old(view.tasks), old(model.tasks)), old(model.lists))
        && view.lists == WithoutLists(old(view.lists), old(model.lists))
      ensures !EraseSucceeds(Ids(old(model.lists)), old(model.tasks), deleteListTasks, deleteList) ==>
        && model.tasks == old(model.tasks) && model.lists == old(model.lists)
        && view.tasks == old(view.tasks) && view.lists == old(view.lists)
    {
      var selected := EraseSelection(model.GetListIds(), model.tasks);
      sent := sent + CallsFor(selected, EmptyList);
      var first := PromiseAll(selected, deleteListTasks);
      if first.Failure? {
        Report(first.message);
        assert sent == old(sent) + CallsFor(selected, EmptyList) + [];
        return;
      }
      var ids := model.GetListIds();
      sent := sent + CallsFor(ids, DropList);
      var second := PromiseAll(ids, deleteList);
      if second.Failure? {
        Report(second.message);
        return;
      }
      ClearModel();
      view.ShowMessage(Plain(AllErased));
    }
  }
}
