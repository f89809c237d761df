/** ListModel (app/components/lists/listModel.js): the in-memory mirror of the
    user's lists and tasks. Every mutation raises its event on the model's own
    emitter; the emitter is a field here where the source inherits from it. */
module ListModels {
  import opened Json
  import opened Events
  import opened Records
  import opened Seqs

  const UserChanged := "userChanged"
  const ListAdded := "listAdded"
  const ListUpdated := "listUpdated"
  const ListDeleted := "listDeleted"
  const TaskAdded := "taskAdded"
  const TaskUpdated := "taskUpdated"
  const TaskDeleted := "taskDeleted"

  /** The seven event names are pairwise different. */
  lemma EventNamesDistinct()
    ensures UserChanged != ListAdded && UserChanged != ListUpdated && UserChanged != ListDeleted
    ensures UserChanged != TaskAdded && UserChanged != TaskUpdated && UserChanged != TaskDeleted
    ensures ListAdded != ListUpdated && ListAdded != ListDeleted && ListAdded != TaskAdded
    ensures ListAdded != TaskUpdated && ListAdded != TaskDeleted
    ensures ListUpdated != ListDeleted && ListUpdated != TaskAdded && ListUpdated != TaskUpdated
    ensures ListUpdated != TaskDeleted && ListDeleted != TaskAdded && ListDeleted != TaskUpdated
    ensures ListDeleted != TaskDeleted
    ensures TaskAdded != TaskUpdated && TaskAdded != TaskDeleted && TaskUpdated != TaskDeleted
  {
    assert UserChanged[0] == 'u' && ListAdded[0] == 'l' && TaskAdded[0] == 't';
    assert ListAdded[4] == 'A' && ListUpdated[4] == 'U' && ListDeleted[4] == 'D';
    assert TaskAdded[4] == 'A' && TaskUpdated[4] == 'U' && TaskDeleted[4] == 'D';
    assert ListUpdated[0] == 'l' && ListDeleted[0] == 'l';
    assert TaskUpdated[0] == 't' && TaskDeleted[0] == 't';
  }

  const ListMissing := "La lista no existe"
  const TaskMissing := "La tarea no existe"

  /** The argument a model event carries. */
  datatype ModelArg = UserArg(user: Option<string>) | ListArg(list: ListRec) | TaskArg(task: TaskRec)

  /** A mutator's result: what its raise did, or the string it throws. */
  datatype Result<T> = Ok(value: T) | Thrown(error: string)

  /** `lists.map(list => list.id)`. */
  function Ids(ls: seq<ListRec>): (ids: seq<int>)
    ensures |ids| == |ls|
    ensures forall i :: 0 <= i < |ls| ==> ids[i] == ls[i].id
  {
    if ls == [] then [] else [ls[0].id] + Ids(ls[1..])
  }

  /** `tasks.filter(task => task.idlist == id)`. */
  function TasksOf(ts: seq<TaskRec>, id: int): (r: seq<TaskRec>)
    ensures |r| <= |ts|
    ensures forall i :: 0 <= i < |r| ==> r[i] in ts && r[i].idlist == id
    ensures forall i :: 0 <= i < |ts| && ts[i].idlist == id ==> ts[i] in r
  {
    if ts == [] then []
    else (if ts[0].idlist == id then [ts[0]] else []) + TasksOf(ts[1..], id)
  }

  /** The filter keeps insertion order: adding a task to the end extends the
      result at its end, or not at all. */
  lemma {:induction false} TasksOfSnoc(ts: seq<TaskRec>, t: TaskRec, id: int)
    ensures TasksOf(ts + [t], id) == TasksOf(ts, id) + (if t.idlist == id then [t] else [])
  {
    if ts == [] {
      assert ts + [t] == [t];
      assert [t][1..] == [];
    } else {
      assert (ts + [t])[0] == ts[0];
      assert (ts + [t])[1..] == ts[1..] + [t];
      TasksOfSnoc(ts[1..], t, id);
    }
  }

  /** The event arguments of `forEach(x => raise(name, x))`. */
  function ListArgs(ls: seq<ListRec>): (r: seq<ModelArg>)
    ensures |r| == |ls|
    ensures forall i :: 0 <= i < |ls| ==> r[i] == ListArg(ls[i])
  {
    if ls == [] then [] else [ListArg(ls[0])] + ListArgs(ls[1..])
  }

  function TaskArgs(ts: seq<TaskRec>): (r: seq<ModelArg>)
    ensures |r| == |ts|
    ensures forall i :: 0 <= i < |ts| ==> r[i] == TaskArg(ts[i])
  {
    if ts == [] then [] else [TaskArg(ts[0])] + TaskArgs(ts[1..])
  }

  class ListModel {
    const bus: EventEmitter<ModelArg>
    var user: Option<string>
    var lists: seq<ListRec>
    var tasks: seq<TaskRec>

    constructor ()
      ensures fresh(bus) && bus.eventMap == map[]
      ensures user == None && lists == [] && tasks == []
    {
      bus := new EventEmitter();
      user := None;
      lists := [];
      tasks := [];
    }

    /** The handlers currently subscribed to `e`. */
    function Subscribers(e: string): seq<HandlerId>
      reads this, bus
    {
      bus.HandlersOf(e)
    }

    /** The `user` setter: store the value (null included), then raise
        `userChanged` with it. The getter is the field. */
    method SetUser(u: Option<string>, faulty: set<Invocation<ModelArg>>) returns (r: Raised<ModelArg>)
      modifies this
      ensures user == u && lists == old(lists) && tasks == old(tasks)
      ensures r == Dispatch(Subscribers(UserChanged), UserArg(u), faulty)
    {
      user := u;
      r := bus.Raise(UserChanged, UserArg(u), faulty);
    }

    /** `getListIds()`: the ids of the held lists, in collection order. */
    function GetListIds(): (ids: seq<int>)
      reads this
      ensures |ids| == |lists|
      ensures forall i :: 0 <= i < |lists| ==> ids[i] == lists[i].id
    {
      Ids(lists)
    }

    /** `getListTasks(id)`: the held tasks of list `id`, in insertion order. */
    function GetListTasks(id: int): (ts: seq<TaskRec>)
      reads this
      ensures forall i :: 0 <= i < |ts| ==> ts[i] in tasks && ts[i].idlist == id
      ensures forall i :: 0 <= i < |tasks| && tasks[i].idlist == id ==> tasks[i] in ts
    {
      TasksOf(tasks, id)
    }

    /** `addList(list)`: append, with no duplicate check, then raise
        `listAdded` once. */
    method AddList(l: ListRec, faulty: set<Invocation<ModelArg>>) returns (r: Raised<ModelArg>)
      modifies this
      ensures lists == old(lists) + [l] && tasks == old(tasks) && user == old(user)
      ensures r == Dispatch(Subscribers(ListAdded), ListArg(l), faulty)
    {
      lists := lists + [l];
      r := bus.Raise(ListAdded, ListArg(l), faulty);
    }

    /** `updateList(list)`: nothing changes; an untracked list throws 'La lista
        no existe' and raises nothing, a tracked one raises `listUpdated`. */
    method UpdateList(l: ListRec, faulty: set<Invocation<ModelArg>>) returns (r: Result<Raised<ModelArg>>)
      ensures r.Thrown? <==> l !in lists
      ensures r.Thrown? ==> r.error == ListMissing
      ensures r.Ok? ==> r.value == Dispatch(Subscribers(ListUpdated), ListArg(l), faulty)
    {
      if l !in lists {
        return Thrown(ListMissing);
      }
      var raised := bus.Raise(ListUpdated, ListArg(l), faulty);
      return Ok(raised);
    }

    /** `deleteList(list)`: splice out the first occurrence, then raise
        `listDeleted`; an untracked list throws and nothing changes. */
    method DeleteList(l: ListRec, faulty: set<Invocation<ModelArg>>) returns (r: Result<Raised<ModelArg>>)
      modifies this
      ensures r.Thrown? <==> l !in old(lists)
      ensures r.Thrown? ==> r.error == ListMissing && lists == old(lists)
      ensures r.Ok? ==> lists == RemoveFirst(old(lists), l)
      ensures r.Ok? ==> r.value == Dispatch(Subscribers(ListDeleted), ListArg(l), faulty)
      ensures tasks == old(tasks) && user == old(user)
    {
      if l !in lists {
        return Thrown(ListMissing);
      }
      lists := RemoveFirst(lists, l);
      var raised := bus.Raise(ListDeleted, ListArg(l), faulty);
      return Ok(raised);
    }

    /** `addTask(task)`: append, then raise `taskAdded` once. */
    method AddTask(t: TaskRec, faulty: set<Invocation<ModelArg>>) returns (r: Raised<ModelArg>)
      modifies this
      ensures tasks == old(tasks) + [t] && lists == old(lists) && user == old(user)
      ensures r == Dispatch(Subscribers(TaskAdded), TaskArg(t), faulty)
    {
      tasks := tasks + [t];
      r := bus.Raise(TaskAdded, TaskArg(t), faulty);
    }

    /** `updateTask(task)`: as `updateList`, with 'La tarea no existe'. */
    method UpdateTask(t: TaskRec, faulty: set<Invocation<ModelArg>>) returns (r: Result<Raised<ModelArg>>)
      ensures r.Thrown? <==> t !in tasks
      ensures r.Thrown? ==> r.error == TaskMissing
      ensures r.Ok? ==> r.value == Dispatch(Subscribers(TaskUpdated), TaskArg(t), faulty)
    {
      if t !in tasks {
        return Thrown(TaskMissing);
      }
      var raised := bus.Raise(TaskUpdated, TaskArg(t), faulty);
      return Ok(raised);
    }

    /** `deleteTask(task)`: as `deleteList`, on the tasks. */
    method DeleteTask(t: TaskRec, faulty: set<Invocation<ModelArg>>) returns (r: Result<Raised<ModelArg>>)
      modifies this
      ensures r.Thrown? <==> t !in old(tasks)
      ensures r.Thrown? ==> r.error == TaskMissing && tasks == old(tasks)
      ensures r.Ok? ==> tasks == RemoveFirst(old(tasks), t)
      ensures r.Ok? ==> r.value == Dispatch(Subscribers(TaskDeleted), TaskArg(t), faulty)
      ensures lists == old(lists) && user == old(user)
    {
      if t !in tasks {
        return Thrown(TaskMissing);
      }
      tasks := RemoveFirst(tasks, t);
      var raised := bus.Raise(TaskDeleted, TaskArg(t), faulty);
      return Ok(raised);
    }

    /** `clearTasks()`: raise `taskDeleted` for each held task in order while
        the collection is still full, then empty it. An exception escaping a
        handler ends the `forEach` before the collection is emptied. */
    method ClearTasks(faulty: set<Invocation<ModelArg>>) returns (r: Raised<ModelArg>)
      modifies this
      ensures r == DispatchEach(Subscribers(TaskDeleted), TaskArgs(old(tasks)), faulty)
      ensures tasks == (if r.thrown.None? then [] else old(tasks))
      ensures forall k: nat :: FirstThrowAt(Subscribers(TaskDeleted), TaskArgs(old(tasks)), k, faulty) ==>
        r == Prepend(DispatchEach(Subscribers(TaskDeleted), TaskArgs(old(tasks))[..k], faulty).calls,
                     Dispatch(Subscribers(TaskDeleted), TaskArgs(old(tasks))[k], faulty))
      ensures lists == old(lists) && user == old(user)
    {
      ghost var hs := Subscribers(TaskDeleted);
      r := Raised([], None);
      var i := 0;
      while i < |tasks|
        invariant 0 <= i <= |tasks|
        invariant r.thrown.None?
        invariant tasks == old(tasks) && lists == old(lists) && user == old(user)
        invariant r == DispatchEach(hs, TaskArgs(tasks[..i]), faulty)
      {
        var one := bus.Raise(TaskDeleted, TaskArg(tasks[i]), faulty);
        assert TaskArgs(tasks[..i + 1]) == TaskArgs(tasks[..i]) + [TaskArg(tasks[i])];
        DispatchEachSnoc(hs, TaskArgs(tasks[..i]), TaskArg(tasks[i]), faulty);
        r := Prepend(r.calls, one);
        if one.thrown.Some? {
          assert TaskArgs(tasks)[..i + 1] == TaskArgs(tasks[..i + 1]);
          DispatchEachStops(hs, TaskArgs(tasks), i, faulty);
          forall k: nat | FirstThrowAt(hs, TaskArgs(tasks), k, faulty)
            ensures DispatchEach(hs, TaskArgs(tasks), faulty)
                 == Prepend(DispatchEach(hs, TaskArgs(tasks)[..k], faulty).calls, Dispatch(hs, TaskArgs(tasks)[k], faulty))
          {
            DispatchEachFirstThrow(hs, TaskArgs(tasks), k, faulty);
          }
          return;
        }
        i := i + 1;
      }
      assert tasks[..i] == tasks;
      forall k: nat | FirstThrowAt(hs, TaskArgs(tasks), k, faulty)
        ensures DispatchEach(hs, TaskArgs(tasks), faulty)
             == Prepend(DispatchEach(hs, TaskArgs(tasks)[..k], faulty).calls, Dispatch(hs, TaskArgs(tasks)[k], faulty))
      {
        DispatchEachFirstThrow(hs, TaskArgs(tasks), k, faulty);
      }
      tasks := [];
    }

    /** `clearLists()`: as `clearTasks`, raising `listDeleted` per list. */
    method ClearLists(faulty: set<Invocation<ModelArg>>) returns (r: Raised<ModelArg>)
      modifies this
      ensures r == DispatchEach(Subscribers(ListDeleted), ListArgs(old(lists)), faulty)
      ensures lists == (if r.thrown.None? then [] else old(lists))
      ensures forall k: nat :: FirstThrowAt(Subscribers(ListDeleted), ListArgs(old(lists)), k, faulty) ==>
        r == Prepend(DispatchEach(Subscribers(ListDeleted), ListArgs(old(lists))[..k], faulty).calls,
                     Dispatch(Subscribers(ListDeleted), ListArgs(old(lists))[k], faulty))
      ensures tasks == old(tasks) && user == old(user)
    {
      ghost var hs := Subscribers(ListDeleted);
      r := Raised([], None);
      var i := 0;
      while i < |lists|
        invariant 0 <= i <= |lists|
        invariant r.thrown.None?
        invariant tasks == old(tasks) && lists == old(lists) && user == old(user)
        invariant r == DispatchEach(hs, ListArgs(lists[..i]), faulty)
      {
        var one := bus.Raise(ListDeleted, ListArg(lists[i]), faulty);
        assert ListArgs(lists[..i + 1]) == ListArgs(lists[..i]) + [ListArg(lists[i])];
        DispatchEachSnoc(hs, ListArgs(lists[..i]), ListArg(lists[i]), faulty);
        r := Prepend(r.calls, one);
        if one.thrown.Some? {
          assert ListArgs(lists)[..i + 1] == ListArgs(lists[..i + 1]);
          DispatchEachStops(hs, ListArgs(lists), i, faulty);
          forall k: nat | FirstThrowAt(hs, ListArgs(lists), k, faulty)
            ensures DispatchEach(hs, ListArgs(lists), faulty)
                 == Prepend(DispatchEach(hs, ListArgs(lists)[..k], faulty).calls, Dispatch(hs, ListArgs(lists)[k], faulty))
          {
            DispatchEachFirstThrow(hs, ListArgs(lists), k, faulty);
          }
          return;
        }
        i := i + 1;
      }
      assert lists[..i] == lists;
      forall k: nat | FirstThrowAt(hs, ListArgs(lists), k, faulty)
        ensures DispatchEach(hs, ListArgs(lists), faulty)
             == Prepend(DispatchEach(hs, ListArgs(lists)[..k], faulty).calls, Dispatch(hs, ListArgs(lists)[k], faulty))
      {
        DispatchEachFirstThrow(hs, ListArgs(lists), k, faulty);
      }
      lists := [];
    }
  }
}
