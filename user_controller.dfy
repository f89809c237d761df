/** app/__controllers/userController.js: an earlier copy of the model, view
    and controller that the application does not wire up. `UserModel` is the
    same code as ListModel. `UserView` differs from ListView in its two
    submit handlers, in its templates, which the abstracted view does not
    see, and in having no `prompt`, which this controller never calls; so
    ListModel and ListView model both. What differs is below: the submit handlers, the controller's subscriptions
    (no register handler, two `removeListButtonClicked` handlers, no prompt)
    and a login handler without a `catch`. */
module Legacy {
  import opened Json
  import opened Events
  import opened Records
  import opened ListModels
  import opened Views
  import opened Controllers
  import Service

  // The view events the controller subscribes to.
  const LoginButtonClicked := "loginButtonClicked"
  const LogoutButtonClicked := "logoutButtonClicked"
  const RegisterButtonClicked := "registerButtonClicked"
  const RemoveListButtonClicked := "removeListButtonClicked"
  /** `listNameEdited`. */
  const ListRenamed := "listNameEdited"
  const AddListButtonClicked := "addListButtonClicked"
  const AddTaskButtonClicked := "addTaskButtonClicked"
  /** `taskNameEdited`. */
  const TaskRenamed := "taskNameEdited"
  const RemoveTaskButtonClicked := "removeTaskButtonClicked"
  const EraseListsButtonClicked := "eraseListsButtonClicked"

  // The controller's handlers, in subscription order.
  const OnLoginHandler: HandlerId := 0
  const OnLogoutHandler: HandlerId := 1
  /** The first `removeListButtonClicked` handler: `console.log(list)`. */
  const LogRemovalHandler: HandlerId := 2
  const OnListRenamedHandler: HandlerId := 3
  const OnAddListHandler: HandlerId := 4
  /** The second `removeListButtonClicked` handler: the deletion. */
  const OnRemoveListHandler: HandlerId := 5
  const OnAddTaskHandler: HandlerId := 6
  const OnTaskRenamedHandler: HandlerId := 7
  const OnRemoveTaskHandler: HandlerId := 8
  const OnEraseListsHandler: HandlerId := 9

  /** The view's handler map after the controller's constructor, starting
      from `m`. */
  function LegacySubscribed(m: map<string, seq<HandlerId>>): map<string, seq<HandlerId>>
  {
    var m1 := Register(m, LoginButtonClicked, OnLoginHandler);
    var m2 := Register(m1, LogoutButtonClicked, OnLogoutHandler);
    var m3 := Register(m2, RemoveListButtonClicked, LogRemovalHandler);
    var m4 := Register(m3, ListRenamed, OnListRenamedHandler);
    var m5 := Register(m4, AddListButtonClicked, OnAddListHandler);
    var m6 := Register(m5, RemoveListButtonClicked, OnRemoveListHandler);
    var m7 := Register(m6, AddTaskButtonClicked, OnAddTaskHandler);
    var m8 := Register(m7, TaskRenamed, OnTaskRenamedHandler);
    var m9 := Register(m8, RemoveTaskButtonClicked, OnRemoveTaskHandler);
    Register(m9, EraseListsButtonClicked, OnEraseListsHandler)
  }

  lemma RemoveListNameDistinct()
    ensures RemoveListButtonClicked != LoginButtonClicked && RemoveListButtonClicked != LogoutButtonClicked
    ensures RemoveListButtonClicked != ListRenamed && RemoveListButtonClicked != AddListButtonClicked
    ensures RemoveListButtonClicked != AddTaskButtonClicked && RemoveListButtonClicked != TaskRenamed
    ensures RemoveListButtonClicked != RemoveTaskButtonClicked && RemoveListButtonClicked != EraseListsButtonClicked
  {
    assert |RemoveListButtonClicked| == 23 && |LoginButtonClicked| == 18 && |LogoutButtonClicked| == 19;
    assert |ListRenamed| == 14 && |AddListButtonClicked| == 20 && |AddTaskButtonClicked| == 20 && |TaskRenamed| == 14;
    assert RemoveListButtonClicked[6] == 'L' && RemoveTaskButtonClicked[6] == 'T';
    assert RemoveListButtonClicked[0] == 'r' && EraseListsButtonClicked[0] == 'e';
  }

  lemma RegisterNameDistinct()
    ensures RegisterButtonClicked != LoginButtonClicked && RegisterButtonClicked != LogoutButtonClicked
    ensures RegisterButtonClicked != RemoveListButtonClicked && RegisterButtonClicked != ListRenamed
    ensures RegisterButtonClicked != AddListButtonClicked && RegisterButtonClicked != AddTaskButtonClicked
    ensures RegisterButtonClicked != TaskRenamed && RegisterButtonClicked != RemoveTaskButtonClicked
    ensures RegisterButtonClicked != EraseListsButtonClicked
  {
    assert |RegisterButtonClicked| == 21 && |LoginButtonClicked| == 18 && |LogoutButtonClicked| == 19;
    assert |RemoveListButtonClicked| == 23 && |ListRenamed| == 14 && |AddListButtonClicked| == 20;
    assert |AddTaskButtonClicked| == 20 && |TaskRenamed| == 14 && |RemoveTaskButtonClicked| == 23;
    assert |EraseListsButtonClicked| == 23;
  }

  /** `removeListButtonClicked` is subscribed twice: the log handler, then the
      deletion, after whatever was there before. */
  lemma RemoveListSubscribedTwice(m: map<string, seq<HandlerId>>)
    ensures HandlersIn(LegacySubscribed(m), RemoveListButtonClicked)
         == HandlersIn(m, RemoveListButtonClicked) + [LogRemovalHandler, OnRemoveListHandler]
  {
    RemoveListNameDistinct();
    var e := RemoveListButtonClicked;
    var m1 := Register(m, LoginButtonClicked, OnLoginHandler);
    var m2 := Register(m1, LogoutButtonClicked, OnLogoutHandler);
    var m3 := Register(m2, e, LogRemovalHandler);
    var m4 := Register(m3, ListRenamed, OnListRenamedHandler);
    var m5 := Register(m4, AddListButtonClicked, OnAddListHandler);
    var m6 := Register(m5, e, OnRemoveListHandler);
    assert HandlersIn(m2, e) == HandlersIn(m, e);
    assert HandlersIn(m5, e) == HandlersIn(m, e) + [LogRemovalHandler];
    assert HandlersIn(m6, e) == HandlersIn(m, e) + [LogRemovalHandler, OnRemoveListHandler];
  }

  /** Nothing listens to `registerButtonClicked`: a register click of the
      legacy view does nothing. */
  lemma RegisterUnheard(m: map<string, seq<HandlerId>>)
    ensures HandlersIn(LegacySubscribed(m), RegisterButtonClicked) == HandlersIn(m, RegisterButtonClicked)
  {
    RegisterNameDistinct();
  }

  /** On a fresh view, one removal click runs the log handler and then the
      deletion, each with the list. */
  lemma RemovalRunsBoth(l: ListRec)
    ensures Dispatch(HandlersIn(LegacySubscribed(map[]), RemoveListButtonClicked), l, {}).calls
         == [Invocation(LogRemovalHandler, l), Invocation(OnRemoveListHandler, l)]
  {
    var none: map<string, seq<HandlerId>> := map[];
    RemoveListSubscribedTwice(none);
    assert HandlersIn(LegacySubscribed(none), RemoveListButtonClicked) == [LogRemovalHandler, OnRemoveListHandler];
    DispatchTwo(LogRemovalHandler, OnRemoveListHandler, l);
  }

  /** The `#submit-login` click of the legacy view: the event only when both
      fields are non-empty, and no message otherwise. */
  function SubmitLoginEvents(username: string, password: string): (evs: seq<ViewEvent>)
    ensures SubmitAllowed(username, password) ==> evs == [LoginClicked(username, password)]
    ensures !SubmitAllowed(username, password) ==> evs == []
  {
    if Truthy(JStr(username)) && Truthy(JStr(password)) then [LoginClicked(username, password)] else []
  }

  /** The `#submit-register` click of the legacy view: the password is read
      from the login form, not the register form. */
  function SubmitRegisterEvents(registerUsername: string, registerPassword: string, loginPassword: string): (evs: seq<ViewEvent>)
    ensures SubmitAllowed(registerUsername, loginPassword) ==> evs == [RegisterClicked(registerUsername, loginPassword)]
    ensures !SubmitAllowed(registerUsername, loginPassword) ==> evs == []
  {
    var username, password := registerUsername, loginPassword;
    if Truthy(JStr(username)) && Truthy(JStr(password)) then [RegisterClicked(username, password)] else []
  }

  /** What the register form's password field holds makes no difference. */
  lemma RegisterPasswordIgnored(u: string, p1: string, p2: string, loginPassword: string)
    ensures SubmitRegisterEvents(u, p1, loginPassword) == SubmitRegisterEvents(u, p2, loginPassword)
  {
  }

  /** The legacy `loginButtonClicked` handler: as ListController's, but with
      no `catch`, so a failed login escapes, as the ListServiceError that
      `service.login` rejects with, after the waiting message and changes
      nothing else. */
  method LegacyOnLogin(c: ListController, username: string, password: string, login: Service.Response,
                       lists: Outcome<seq<ListRec>>, listTasks: int -> Outcome<seq<TaskRec>>)
    returns (escaped: Option<Service.Rejection>)
    requires ViewOnly(c.model)
    modifies c`sent, c`storage, c.model, c.view`lists, c.view`tasks, c.view`shownView, c.view`info,
      c.view`loginLink, c.view`logoutLink, c.view`registerLink, c.view`greeter, c.service`jwt
    ensures escaped.Some? <==> login.Fail?
    ensures login.Fail? ==>
      && escaped.value == Service.ServiceError(login.status, login.statusText)
      && c.sent == old(c.sent) + [LoginCall(username, password)]
      && c.service.jwt == old(c.service.jwt)
      && c.storage == old(c.storage) && c.model.user == old(c.model.user)
      && c.model.lists == old(c.model.lists) && c.model.tasks == old(c.model.tasks)
      && c.view.Shown() == old(c.view.Shown())
      && c.view.info == ShownBanner(old(c.view.info), Plain(WaitingApi))
    ensures login.Done? ==>
      && c.sent == old(c.sent) + [LoginCall(username, password)] + [GetListsCall] + TaskFetches(lists)
      && c.service.jwt == login.data
      && c.storage == old(c.storage)["token" := JsString(login.data)]["username" := username]
      && c.model.user == Some(username)
      && c.model.lists == old(c.model.lists) + (if lists.Success? then lists.value else [])
      && c.model.tasks == old(c.model.tasks) + LoadedTasks(lists, listTasks)
      && c.view.info == LoadBanner(ShownBanner(old(c.view.info), Plain(WaitingApi)), lists, listTasks)
      && c.view.greeter == Some("Hola, " + username) && c.view.logoutLink && !c.view.loginLink && !c.view.registerLink
      && c.view.shownView == (if lists.Success? then Some(ListsView) else None)
      && c.view.lists == (if lists.Success? then ListFields(old(c.view.lists), lists.value) else old(c.view.lists))
      && c.view.tasks == TaskSlots(c.view.lists, old(c.view.tasks), LoadedTasks(lists, listTasks))
  {
    c.view.ShowMessage(Plain(WaitingApi));
    c.sent := c.sent + [LoginCall(username, password)];
    var call := c.service.Login(username, password, (_: Service.Request) => login);
    match login
    case Fail(_, _) =>
      escaped := Some(call.result.reason);
    case Done(token) =>
      escaped := None;
      c.SignIn(username, token, lists, listTasks);
  }

  /** One `removeListButtonClicked` raise on the legacy view: the log handler
      (no state) and then the deletion, which asks nothing of the user even
      when the list has tasks. */
  method LegacyOnRemoveList(c: ListController, l: ListRec, delete: Outcome<()>)
    requires ViewOnly(c.model)
    modifies c`sent, c.model, c.view`lists, c.view`tasks, c.view`info
    ensures c.sent == old(c.sent) + [DeleteListCall(l.id)]
    ensures c.model.tasks == old(c.model.tasks) && c.model.user == old(c.model.user)
    ensures delete.Failure? ==>
      && c.model.lists == old(c.model.lists) && c.view.lists == old(c.view.lists) && c.view.tasks == old(c.view.tasks)
      && c.view.info == ShownBanner(old(c.view.info), Plain(ErrorText(delete.message)))
    ensures delete.Success? && l in old(c.model.lists) ==>
      && c.model.lists == Seqs.RemoveFirst(old(c.model.lists), l) && c.view.info == old(c.view.info)
      && c.view.lists == old(c.view.lists) - {l.id}
      && c.view.tasks == OutsideList(old(c.view.tasks), l.id)
    ensures delete.Success? && l !in old(c.model.lists) ==>
      && c.model.lists == old(c.model.lists) && c.view.lists == old(c.view.lists) && c.view.tasks == old(c.view.tasks)
      && c.view.info == ShownBanner(old(c.view.info), Plain(ErrorText(None)))
  {
    RemovalRunsBoth(l);
    c.DeleteNow(l, delete);
  }
}
