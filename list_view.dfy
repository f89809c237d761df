/** ListView (app/components/lists/listView.js). The DOM is abstracted to the
    state the view reads and writes: one editable title per rendered list and
    task, the visible view, the message banner, the confirmation prompt, the
    menu links and the greeter. What the view raises for its observers is
    returned as a sequence of events. */
module Views {
  import opened Json
  import opened Events
  import opened Records
  import opened ListModels

  const KeyEscape := 27
  const KeyIntro := 13

  const HomeView := "home-view"
  const ListsView := "lists-view"

  const MissingLogin := "Hay que proporcionar usuario y clave para confirmar la identidad"
  const MissingRegister := "Hay que proporcionar usuario y clave para el registro"

  /** The handlers the view subscribes to the model, in subscription order. */
  const OnUserChanged: HandlerId := 0
  const OnListAdded: HandlerId := 1
  const OnListUpdated: HandlerId := 2
  const OnListDeleted: HandlerId := 3
  const OnTaskAdded: HandlerId := 4
  const OnTaskDeleted: HandlerId := 5

  /** A prompt callback; the controller knows what each one does. */
  type CallbackId = nat

  /** An editable title (`h3` of a list, `span.title` of a task): the text
      shown, whether it is in edit mode, and how many `focusout` handlers are
      bound to it (every start of an edit binds one more). */
  datatype Field = Field(text: string, editing: bool, blurBindings: nat)

  /** A rendered task: the list it is rendered in, and its title. */
  datatype TaskSlot = TaskSlot(list: int, title: Field)

  /** The `#info` banner. */
  datatype Banner = Banner(shown: bool, title: string, text: string, closeable: bool)

  /** The `#prompt` box and the callbacks bound to its two buttons, in binding
      order. */
  datatype PromptBox = PromptBox(shown: bool, title: string, text: string, callbacks: seq<CallbackId>)

  /** The argument of `showMessage`: a string, or an object whose absent
      `title`/`text` are `None`. */
  datatype MessageArg = Plain(s: string) | Detailed(title: Option<string>, text: Option<string>, closeable: bool)

  /** What the page shows apart from the banner and the prompt: the rendered
      lists and tasks, the visible view, the greeter and the three menu
      links. */
  datatype Page = Page(lists: map<int, Field>, tasks: map<int, TaskSlot>, shownView: Option<string>,
                       greeter: Option<string>, loginLink: bool, logoutLink: bool, registerLink: bool)

  /** What the view raises for its observers. */
  datatype ViewEvent =
    | LoginClicked(username: string, password: string)
    | RegisterClicked(username: string, password: string)
    | ListNameEdited(list: ListRec, name: string)
    | TaskNameEdited(task: TaskRec, name: string)

  /** What a keydown on an editable title does. */
  datatype KeyAction = CancelEdit | CompleteEdit | IgnoreKey

  /** The keydown dispatch: Escape cancels, Enter completes, any other key
      does nothing. */
  function KeyActionOf(keyCode: int): (a: KeyAction)
    ensures a.CancelEdit? <==> keyCode == KeyEscape
    ensures a.CompleteEdit? <==> keyCode == KeyIntro
    ensures a.IgnoreKey? <==> keyCode != KeyEscape && keyCode != KeyIntro
  {
    if keyCode == KeyEscape then CancelEdit
    else if keyCode == KeyIntro then CompleteEdit
    else IgnoreKey
  }

  /** `newName != name`, where `name` may be undefined: a string is never
      loosely equal to undefined, so an undefined name always counts as
      changed. */
  function NameChanged(shown: string, name: Option<string>): (b: bool)
    ensures b <==> name != Some(shown)
    ensures name.None? ==> b
  {
    match name
    case None => true
    case Some(n) => n != shown
  }

  /** `username && password` on two input values. */
  function SubmitAllowed(username: string, password: string): (ok: bool)
    ensures ok <==> username != "" && password != ""
  {
    Truthy(JStr(username)) && Truthy(JStr(password))
  }

  /** `.text(v)`: a string replaces the text; `.text(undefined)` is a getter
      and changes nothing. */
  function SetText(prev: string, v: Option<string>): string
  {
    if v.Some? then v.value else prev
  }

  /** `.text()` of a selector: the text of the field, or '' when nothing
      matches. */
  function ShownText<K>(m: map<K, Field>, k: K): string
  {
    if k in m then m[k].text else ""
  }

  /** The banner after `showMessage(m)`. A string gives that title, an empty
      text and a close control; an object gives its own title, text and
      closeable flag, an absent title or text keeping what was there. */
  function ShownBanner(prev: Banner, m: MessageArg): (b: Banner)
    ensures b.shown
    ensures m.Plain? ==> b == Banner(true, m.s, "", true)
    ensures m.Detailed? ==> b.closeable == m.closeable
    ensures m.Detailed? ==> b.title == (if m.title.Some? then m.title.value else prev.title)
    ensures m.Detailed? ==> b.text == (if m.text.Some? then m.text.value else prev.text)
  {
    var (title, text, closeable) :=
      match m
      case Plain(s) => (Some(s), Some(""), true)
      case Detailed(t, x, c) => (t, x, c);
    Banner(true, SetText(prev.title, title), SetText(prev.text, text), closeable)
  }

  /** A string message does not depend on what the banner showed before. */
  lemma PlainMessageForgets(a: Banner, b: Banner, s: string)
    ensures ShownBanner(a, Plain(s)) == ShownBanner(b, Plain(s))
  {
  }

  /** The calls one click on a prompt button makes: every bound callback, in
      binding order, with the same answer. */
  function Answers(callbacks: seq<CallbackId>, accept: bool): (calls: seq<(CallbackId, bool)>)
    ensures |calls| == |callbacks|
    ensures forall i :: 0 <= i < |callbacks| ==> calls[i] == (callbacks[i], accept)
  {
    if callbacks == [] then [] else [(callbacks[0], accept)] + Answers(callbacks[1..], accept)
  }

  function Started(f: Field): Field
  {
    f.(editing := true, blurBindings := f.blurBindings + 1)
  }

  function Completed(f: Field): Field
  {
    f.(editing := false)
  }

  function Cancelled(f: Field, name: Option<string>): Field
  {
    f.(editing := false, text := SetText(f.text, name))
  }

  /** Apply `f` to entry `k` when it is rendered; a selector matching nothing
      changes nothing. */
  function Update<K>(m: map<K, Field>, k: K, f: Field -> Field): (r: map<K, Field>)
    ensures r.Keys == m.Keys
    ensures k in m ==> r[k] == f(m[k])
    ensures forall k' :: k' in m && k' != k ==> r[k'] == m[k']
  {
    if k in m then m[k := f(m[k])] else m
  }

  function UpdateTitle(m: map<int, TaskSlot>, k: int, f: Field -> Field): (r: map<int, TaskSlot>)
    ensures r.Keys == m.Keys
    ensures k in m ==> r[k] == m[k].(title := f(m[k].title))
    ensures forall k' :: k' in m && k' != k ==> r[k'] == m[k']
  {
    if k in m then m[k := m[k].(title := f(m[k].title))] else m
  }

  function TitleTexts(m: map<int, TaskSlot>): map<int, Field>
  {
    map k | k in m :: m[k].title
  }

  /** `raise('listNameEdited', list, shown)` when the text differs. */
  function ListEdited(l: ListRec, shown: string, name: string): seq<ViewEvent>
  {
    if NameChanged(shown, Some(name)) then [ListNameEdited(l, shown)] else []
  }

  function TaskEdited(t: TaskRec, shown: string, name: Option<string>): seq<ViewEvent>
  {
    if NameChanged(shown, name) then [TaskNameEdited(t, shown)] else []
  }

  /** `n` copies of `s`, one after the other. */
  function Repeat<T>(s: seq<T>, n: nat): (r: seq<T>)
    ensures |r| == n * |s|
  {
    if n == 0 then [] else Repeat(s, n - 1) + s
  }

  /** Completing is idempotent, and cancelling after a completion restores
      the record's name all the same. */
  lemma CompletedTwice(f: Field, name: string)
    ensures Completed(Completed(f)) == Completed(f)
    ensures Cancelled(Completed(Started(f)), Some(name)) == Field(name, false, f.blurBindings + 1)
  {
  }

  /** When a task has no `name`, completing an edit of its title raises
      `taskNameEdited` even when the text was not touched. */
  lemma UnrenamedTaskAlwaysEdited(t: TaskRec, shown: string)
    requires t.name.None?
    ensures TaskEdited(t, shown, t.name) == [TaskNameEdited(t, shown)]
  {
  }

  /** After the controller has stored the edited text as the name, the same
      text no longer counts as an edit. */
  lemma EditedOnlyOnce(l: ListRec, shown: string)
    ensures ListEdited(l, shown, shown) == []
  {
  }

  /** The model subscriptions made by the view constructor. */
  function ViewSubscribed(m: map<string, seq<HandlerId>>): map<string, seq<HandlerId>>
  {
    var m1 := Register(m, UserChanged, OnUserChanged);
    var m2 := Register(m1, ListAdded, OnListAdded);
    var m3 := Register(m2, ListUpdated, OnListUpdated);
    var m4 := Register(m3, ListDeleted, OnListDeleted);
    var m5 := Register(m4, TaskAdded, OnTaskAdded);
    Register(m5, TaskDeleted, OnTaskDeleted)
  }

  /** The subscriptions of a fresh model once the view is built: one handler
      per event, and none for `taskUpdated`. */
  function ViewSubscriptions(): map<string, seq<HandlerId>>
  {
    map[UserChanged := [OnUserChanged], ListAdded := [OnListAdded], ListUpdated := [OnListUpdated],
        ListDeleted := [OnListDeleted], TaskAdded := [OnTaskAdded], TaskDeleted := [OnTaskDeleted]]
  }

  /** The first three subscriptions of the view on a fresh model. */
  lemma ListSubscriptionsFresh()
    ensures var m0: map<string, seq<HandlerId>> := map[];
      Register(Register(Register(m0, UserChanged, OnUserChanged), ListAdded, OnListAdded), ListUpdated, OnListUpdated)
      == map[UserChanged := [OnUserChanged], ListAdded := [OnListAdded], ListUpdated := [OnListUpdated]]
  {
    EventNamesDistinct();
    var m0: map<string, seq<HandlerId>> := map[];
    var m1 := map[UserChanged := [OnUserChanged]];
    var m2 := m1[ListAdded := [OnListAdded]];
    RegisterFresh(m0, UserChanged, OnUserChanged);
    RegisterFresh(m1, ListAdded, OnListAdded);
    RegisterFresh(m2, ListUpdated, OnListUpdated);
  }

  /** The last three, on top of the first three. */
  lemma TaskSubscriptionsFresh()
    ensures var m3 := map[UserChanged := [OnUserChanged], ListAdded := [OnListAdded], ListUpdated := [OnListUpdated]];
      Register(Register(Register(m3, ListDeleted, OnListDeleted), TaskAdded, OnTaskAdded), TaskDeleted, OnTaskDeleted)
      == ViewSubscriptions()
  {
    EventNamesDistinct();
    var m3 := map[UserChanged := [OnUserChanged], ListAdded := [OnListAdded], ListUpdated := [OnListUpdated]];
    var m4 := m3[ListDeleted := [OnListDeleted]];
    var m5 := m4[TaskAdded := [OnTaskAdded]];
    RegisterFresh(m3, ListDeleted, OnListDeleted);
    RegisterFresh(m4, TaskAdded, OnTaskAdded);
    RegisterFresh(m5, TaskDeleted, OnTaskDeleted);
  }

  /** Building the view on a fresh model leaves exactly one handler per
      rendered event. */
  lemma ViewSubscribedFresh()
    ensures ViewSubscribed(map[]) == ViewSubscriptions()
  {
    ListSubscriptionsFresh();
    TaskSubscriptionsFresh();
  }

  /** No view handler listens to `taskUpdated`. */
  lemma TaskUpdatedUnheard()
    ensures HandlersIn(ViewSubscriptions(), TaskUpdated) == []
  {
    EventNamesDistinct();
  }

  /** The six `model.on` calls of the view constructor. */
  method SubscribeView(bus: EventEmitter<ModelArg>)
    modifies bus
    ensures bus.eventMap == ViewSubscribed(old(bus.eventMap))
  {
    bus.On(UserChanged, OnUserChanged);
    bus.On(ListAdded, OnListAdded);
    bus.On(ListUpdated, OnListUpdated);
    bus.On(ListDeleted, OnListDeleted);
    bus.On(TaskAdded, OnTaskAdded);
    bus.On(TaskDeleted, OnTaskDeleted);
  }

  /** The title of a newly rendered list. */
  function NewListField(name: string): Field
  {
    Field(name, false, 0)
  }

  /** The rendered lists after `addList` for each of `ls` in order. */
  function ListFields(m: map<int, Field>, ls: seq<ListRec>): (r: map<int, Field>)
    reads ls
    ensures r.Keys == m.Keys + (set i | 0 <= i < |ls| :: ls[i].id)
  {
    if ls == [] then m
    else ListFields(m, ls[..|ls| - 1])[ls[|ls| - 1].id := NewListField(ls[|ls| - 1].name)]
  }

  /** `addTask(task)`: the task is rendered only inside a rendered list, with
      its `task` property as the title text, out of edit mode and with no
      `focusout` handler yet; nothing else rendered changes. */
  function TaskSlotted(lists: map<int, Field>, m: map<int, TaskSlot>, t: TaskRec): (r: map<int, TaskSlot>)
    ensures t.id in r <==> t.id in m || t.idlist in lists
    ensures t.idlist in lists ==>
      && r[t.id].list == t.idlist
      && r[t.id].title.text == t.task && !r[t.id].title.editing && r[t.id].title.blurBindings == 0
    ensures t.idlist !in lists && t.id in m ==> r[t.id] == m[t.id]
    ensures forall k :: k != t.id ==> (k in r <==> k in m)
    ensures forall k :: k != t.id && k in m ==> r[k] == m[k]
  {
    if t.idlist in lists then m[t.id := TaskSlot(t.idlist, Field(t.task, false, 0))] else m
  }

  function TaskSlots(lists: map<int, Field>, m: map<int, TaskSlot>, ts: seq<TaskRec>): map<int, TaskSlot>
  {
    if ts == [] then m else TaskSlotted(lists, TaskSlots(lists, m, ts[..|ts| - 1]), ts[|ts| - 1])
  }

  /** A task is rendered from `task.task`, but an edit is compared with
      `task.name`: completing the edit of a freshly rendered title without
      touching it raises `taskNameEdited` unless the task's `name` already
      equals its `task` text, and in particular whenever `name` is
      undefined. */
  lemma {:induction false} FreshTitleCountsAsEdit(lists: map<int, Field>, m: map<int, TaskSlot>, t: TaskRec)
    requires t.idlist in lists
    ensures var shown := ShownText(TitleTexts(TaskSlotted(lists, m, t)), t.id);
      && shown == t.task
      && (TaskEdited(t, shown, t.name) == [] <==> t.name == Some(t.task))
      && (t.name.None? ==> TaskEdited(t, shown, t.name) == [TaskNameEdited(t, t.task)])
  {
    var r := TaskSlotted(lists, m, t);
    assert t.id in TitleTexts(r) && TitleTexts(r)[t.id] == r[t.id].title;
  }

  /** The rendered tasks once the tasks `ts` are removed. */
  function WithoutTasks(m: map<int, TaskSlot>, ts: seq<TaskRec>): (r: map<int, TaskSlot>)
    ensures forall k :: k in r <==> k in m && forall j :: 0 <= j < |ts| ==> ts[j].id != k
    ensures forall k :: k in r ==> r[k] == m[k]
  {
    if ts == [] then m else WithoutTasks(m, ts[..|ts| - 1]) - {ts[|ts| - 1].id}
  }

  /** The rendered tasks once list `id` is removed with everything inside it. */
  function OutsideList(m: map<int, TaskSlot>, id: int): (r: map<int, TaskSlot>)
    ensures forall k :: k in r <==> k in m && m[k].list != id
    ensures forall k :: k in r ==> r[k] == m[k]
  {
    map k | k in m && m[k].list != id :: m[k]
  }

  function WithoutLists(m: map<int, Field>, ls: seq<ListRec>): (r: map<int, Field>)
    ensures forall k :: k in r <==> k in m && forall j :: 0 <= j < |ls| ==> ls[j].id != k
    ensures forall k :: k in r ==> r[k] == m[k]
  {
    if ls == [] then m else WithoutLists(m, ls[..|ls| - 1]) - {ls[|ls| - 1].id}
  }

  function OutsideLists(m: map<int, TaskSlot>, ls: seq<ListRec>): (r: map<int, TaskSlot>)
    ensures forall k :: k in r <==> k in m && forall j :: 0 <= j < |ls| ==> ls[j].id != m[k].list
    ensures forall k :: k in r ==> r[k] == m[k]
  {
    if ls == [] then m else OutsideList(OutsideLists(m, ls[..|ls| - 1]), ls[|ls| - 1].id)
  }

  class ListView {
    /** The rendered lists' titles, by list id. */
    var lists: map<int, Field>
    /** The rendered tasks, by task id. */
    var tasks: map<int, TaskSlot>
    /** The one visible view of `#app-views`, if any. */
    var shownView: Option<string>
    var info: Banner
    var prompt: PromptBox
    var loginLink: bool
    var logoutLink: bool
    var registerLink: bool
    /** The greeter's text, `None` while it is hidden. */
    var greeter: Option<string>

    /** The page apart from the banner and the prompt. */
    function Shown(): Page
      reads this
    {
      Page(lists, tasks, shownView, greeter, loginLink, logoutLink, registerLink)
    }

    /** The constructor subscribes one handler to each model event it
        renders. The page starts with nothing rendered or shown. */
    constructor (model: ListModel)
      modifies model.bus
      ensures model.bus.eventMap == ViewSubscribed(old(model.bus.eventMap))
      ensures lists == map[] && tasks == map[] && shownView.None?
      ensures !info.shown && !prompt.shown && prompt.callbacks == []
      ensures greeter.None?
    {
      lists := map[];
      tasks := map[];
      shownView := None;
      info := Banner(false, "", "", true);
      prompt := PromptBox(false, "", "", []);
      loginLink := true;
      logoutLink := false;
      registerLink := true;
      greeter := None;
      new;
      SubscribeView(model.bus);
    }

    /** `showView(v)`: hide every view, then show `v` when it is truthy. */
    method ShowView(v: Option<string>)
      modifies this`shownView
      ensures shownView == (if v.Some? && v.value != "" then v else None)
    {
      shownView := None;
      if v.Some? && v.value != "" {
        shownView := v;
      }
    }

    /** `showMessage(m)`; the timer that may hide it again is left out. */
    method ShowMessage(m: MessageArg)
      modifies this`info
      ensures info == ShownBanner(old(info), m)
    {
      info := ShownBanner(info, m);
    }

    method HideMessage()
      modifies this`info
      ensures info == old(info).(shown := false)
    {
      info := info.(shown := false);
    }

    /** The `#submit-login` click: raise `loginButtonClicked` when both
        fields are filled, otherwise show a message. */
    method SubmitLogin(username: string, password: string) returns (evs: seq<ViewEvent>)
      modifies this`info
      ensures SubmitAllowed(username, password) ==> evs == [LoginClicked(username, password)] && info == old(info)
      ensures !SubmitAllowed(username, password) ==> evs == [] && info == ShownBanner(old(info), Plain(MissingLogin))
    {
      if SubmitAllowed(username, password) {
        evs := [LoginClicked(username, password)];
      } else {
        evs := [];
        ShowMessage(Plain(MissingLogin));
      }
    }

    /** The `#submit-register` click, with its own message. */
    method SubmitRegister(username: string, password: string) returns (evs: seq<ViewEvent>)
      modifies this`info
      ensures SubmitAllowed(username, password) ==> evs == [RegisterClicked(username, password)] && info == old(info)
      ensures !SubmitAllowed(username, password) ==> evs == [] && info == ShownBanner(old(info), Plain(MissingRegister))
    {
      if SubmitAllowed(username, password) {
        evs := [RegisterClicked(username, password)];
      } else {
        evs := [];
        ShowMessage(Plain(MissingRegister));
      }
    }

    /** `startListEdition(list)`: edit mode on, one more `focusout` binding. */
    method StartListEdition(l: ListRec)
      modifies this`lists
      ensures lists == Update(old(lists), l.id, Started)
    {
      lists := Update(lists, l.id, Started);
    }

    /** `cancelListEdition(list)`: edit mode off and the name shown again;
        nothing is raised. */
    method CancelListEdition(l: ListRec)
      modifies this`lists
      ensures var name := l.name; lists == Update(old(lists), l.id, (f: Field) => Cancelled(f, Some(name)))
    {
      var name := l.name;
      lists := Update(lists, l.id, (f: Field) => Cancelled(f, Some(name)));
    }

    /** `completeListEdition(list)`: raise `listNameEdited(list, text)` when
        the shown text differs from the name, then leave edit mode; the text
        stays as typed. */
    method CompleteListEdition(l: ListRec) returns (evs: seq<ViewEvent>)
      modifies this`lists
      ensures evs == ListEdited(l, ShownText(old(lists), l.id), l.name)
      ensures lists == Update(old(lists), l.id, Completed)
    {
      evs := ListEdited(l, ShownText(lists, l.id), l.name);
      lists := Update(lists, l.id, Completed);
    }

    /** A `focusout` of a list title: every binding completes the edit once,
        and the name does not change in between (the controller renames only
        after its request answers), so an edit started `n` times raises its
        event `n` times. */
    method BlurList(l: ListRec) returns (evs: seq<ViewEvent>)
      modifies this`lists
      ensures var n := if l.id in old(lists) then old(lists)[l.id].blurBindings else 0;
        && evs == Repeat(ListEdited(l, ShownText(old(lists), l.id), l.name), n)
        && lists == (if n == 0 then old(lists) else Update(old(lists), l.id, Completed))
    {
      var n := if l.id in lists then lists[l.id].blurBindings else 0;
      ghost var once := ListEdited(l, ShownText(lists, l.id), l.name);
      evs := [];
      var i := 0;
      while i < n
        invariant 0 <= i <= n
        invariant lists == (if i == 0 then old(lists) else Update(old(lists), l.id, Completed))
        invariant ShownText(lists, l.id) == ShownText(old(lists), l.id)
        invariant evs == Repeat(once, i)
      {
        var more := CompleteListEdition(l);
        evs := evs + more;
        i := i + 1;
      }
    }

    /** A keydown on a list title. The second result is `preventDefault`. */
    method KeyDownList(l: ListRec, keyCode: int) returns (evs: seq<ViewEvent>, prevented: bool)
      modifies this`lists
      ensures KeyActionOf(keyCode).CancelEdit? ==> evs == [] && !prevented
      ensures KeyActionOf(keyCode).CancelEdit? ==>
                var name := l.name; lists == Update(old(lists), l.id, (f: Field) => Cancelled(f, Some(name)))
      ensures KeyActionOf(keyCode).CompleteEdit? ==> prevented
      ensures KeyActionOf(keyCode).CompleteEdit? ==> evs == ListEdited(l, ShownText(old(lists), l.id), l.name)
      ensures KeyActionOf(keyCode).CompleteEdit? ==> lists == Update(old(lists), l.id, Completed)
      ensures KeyActionOf(keyCode).IgnoreKey? ==> evs == [] && !prevented && lists == old(lists)
    {
      evs, prevented := [], false;
      match KeyActionOf(keyCode)
      case CancelEdit =>
        CancelListEdition(l);
      case CompleteEdit =>
        evs := CompleteListEdition(l);
        prevented := true;
      case IgnoreKey =>
    }

    /** `startTaskEdition(task)`. */
    method StartTaskEdition(t: TaskRec)
      modifies this`tasks
      ensures tasks == UpdateTitle(old(tasks), t.id, Started)
    {
      tasks := UpdateTitle(tasks, t.id, Started);
    }

    /** `cancelTaskEdition(task)`: restores `task.name`, which is undefined
        until the first rename, and then leaves the text as it is. */
    method CancelTaskEdition(t: TaskRec)
      modifies this`tasks
      ensures var name := t.name; tasks == UpdateTitle(old(tasks), t.id, (f: Field) => Cancelled(f, name))
    {
      var name := t.name;
      tasks := UpdateTitle(tasks, t.id, (f: Field) => Cancelled(f, name));
    }

    /** `completeTaskEdition(task)`: compares the text with `task.name`, not
        with the `task` property it was first rendered from. */
    method CompleteTaskEdition(t: TaskRec) returns (evs: seq<ViewEvent>)
      modifies this`tasks
      ensures evs == TaskEdited(t, ShownText(TitleTexts(old(tasks)), t.id), t.name)
      ensures tasks == UpdateTitle(old(tasks), t.id, Completed)
    {
      evs := TaskEdited(t, ShownText(TitleTexts(tasks), t.id), t.name);
      tasks := UpdateTitle(tasks, t.id, Completed);
    }

    /** A keydown on a task title. */
    method KeyDownTask(t: TaskRec, keyCode: int) returns (evs: seq<ViewEvent>, prevented: bool)
      modifies this`tasks
      ensures KeyActionOf(keyCode).CancelEdit? ==> evs == [] && !prevented
      ensures KeyActionOf(keyCode).CancelEdit? ==>
                var name := t.name; tasks == UpdateTitle(old(tasks), t.id, (f: Field) => Cancelled(f, name))
      ensures KeyActionOf(keyCode).CompleteEdit? ==> prevented
      ensures KeyActionOf(keyCode).CompleteEdit? ==> evs == TaskEdited(t, ShownText(TitleTexts(old(tasks)), t.id), t.name)
      ensures KeyActionOf(keyCode).CompleteEdit? ==> tasks == UpdateTitle(old(tasks), t.id, Completed)
      ensures KeyActionOf(keyCode).IgnoreKey? ==> evs == [] && !prevented && tasks == old(tasks)
    {
      evs, prevented := [], false;
      match KeyActionOf(keyCode)
      case CancelEdit =>
        CancelTaskEdition(t);
      case CompleteEdit =>
        evs := CompleteTaskEdition(t);
        prevented := true;
      case IgnoreKey =>
    }

    /** `prompt(title, message, callback)`: show the box and bind `callback`
        to both buttons, after whatever is still bound. */
    method Prompt(title: string, message: string, callback: CallbackId)
      modifies this`prompt
      ensures prompt == PromptBox(true, title, message, old(prompt.callbacks) + [callback])
    {
      prompt := PromptBox(true, title, message, prompt.callbacks + [callback]);
    }

    /** A click on `#prompt-accept` (`accept`) or `#prompt-reject`: every bound
        handler hides the box, unbinds both buttons and calls its callback, so
        each pending callback runs once with the answer and a second click
        calls nothing. */
    method AnswerPrompt(accept: bool) returns (calls: seq<(CallbackId, bool)>)
      modifies this`prompt
      ensures calls == Answers(old(prompt.callbacks), accept)
      ensures old(prompt.callbacks) != [] ==> prompt == old(prompt).(shown := false, callbacks := [])
      ensures old(prompt.callbacks) == [] ==> prompt == old(prompt)
    {
      calls := Answers(prompt.callbacks, accept);
      if prompt.callbacks != [] {
        prompt := prompt.(shown := false, callbacks := []);
      }
    }

    /** The `userChanged` handler. Null resets the page: no lists, the login
        and register links, the home view and no greeter. A user hides those
        links, shows logout, hides every view and greets the user. */
    method UserChangedHandler(u: Option<string>)
      modifies this`lists, this`tasks, this`shownView, this`loginLink, this`logoutLink, this`registerLink, this`greeter
      ensures u.None? ==> lists == map[] && tasks == map[] && shownView == Some(HomeView) && greeter.None?
      ensures u.None? ==> loginLink && !logoutLink && registerLink
      ensures u.Some? ==> lists == old(lists) && tasks == old(tasks) && shownView.None?
      ensures u.Some? ==> greeter == Some("Hola, " + u.value) && !loginLink && logoutLink && !registerLink
    {
      if u.None? {
        lists, tasks := map[], map[];
        loginLink, logoutLink, registerLink := true, false, true;
        ShowView(Some(HomeView));
        greeter := None;
      } else {
        loginLink, logoutLink, registerLink := false, true, false;
        ShowView(None);
        greeter := Some("Hola, " + u.value);
      }
    }

    /** The `listAdded` handler: render the list with its name. */
    method ListAddedHandler(l: ListRec)
      modifies this`lists
      ensures lists == old(lists)[l.id := NewListField(l.name)]
    {
      lists := lists[l.id := NewListField(l.name)];
    }

    /** The `listUpdated` handler: show the list's current name. */
    method ListUpdatedHandler(l: ListRec)
      modifies this`lists
      ensures var name := l.name; lists == Update(old(lists), l.id, (f: Field) => f.(text := name))
    {
      var name := l.name;
      lists := Update(lists, l.id, (f: Field) => f.(text := name));
    }

    /** The `listDeleted` handler: the list goes with the tasks inside it (the
        fade-out before the removal is not modelled). */
    method ListDeletedHandler(l: ListRec)
      modifies this`lists, this`tasks
      ensures lists == old(lists) - {l.id}
      ensures tasks == OutsideList(old(tasks), l.id)
    {
      lists := lists - {l.id};
      tasks := OutsideList(tasks, l.id);
    }

    /** The `taskAdded` handler: rendered from `task.task`, inside its list. */
    method TaskAddedHandler(t: TaskRec)
      modifies this`tasks
      ensures tasks == TaskSlotted(lists, old(tasks), t)
    {
      tasks := TaskSlotted(lists, tasks, t);
    }

    /** The `taskDeleted` handler. */
    method TaskDeletedHandler(t: TaskRec)
      modifies this`tasks
      ensures tasks == old(tasks) - {t.id}
    {
      tasks := tasks - {t.id};
    }
  }
}
