/** The domain records: the `User` value built by app/models/user.js, and the
    list and task records the model tracks by reference (the controller
    renames them in place). */
module Records {
  import opened Json

  /** A user as built from an API payload; `None` is `null`. */
  datatype User = User(id: Option<Json>, username: Option<Json>, updatedAt: Option<Json>, createdAt: Option<Json>)

  /** `data.key || null`, where `data` already went through `data || {}`. */
  function TruthyOrNull(data: Json, key: string): Option<Json>
  {
    var v := Property(data, key);
    if v.Some? && Truthy(v.value) then v else None
  }

  /** Whether `field` is what `data.key || null` gives: the property when it
      is truthy, `null` otherwise. */
  ghost predicate CopiedIfTruthy(data: Option<Json>, key: string, field: Option<Json>)
  {
    && (field.Some? <==> data.Some? && Property(data.value, key).Some? && Truthy(Property(data.value, key).value))
    && (field.Some? ==> field == Property(data.value, key))
  }

  /** `new User(data)`, where `None` is an absent argument. Each of the four
      fields is the same-named property of `data` when that is truthy (so 0,
      '' and false become null) and null otherwise; a falsy `data` gives four
      nulls. */
  function NewUser(data: Option<Json>): (u: User)
    ensures CopiedIfTruthy(data, "id", u.id)
    ensures CopiedIfTruthy(data, "username", u.username)
    ensures CopiedIfTruthy(data, "updatedAt", u.updatedAt)
    ensures CopiedIfTruthy(data, "createdAt", u.createdAt)
  {
    var d := if data.Some? && Truthy(data.value) then data.value else JObj(map[]);
    User(TruthyOrNull(d, "id"), TruthyOrNull(d, "username"), TruthyOrNull(d, "updatedAt"), TruthyOrNull(d, "createdAt"))
  }

  /** `new User(undefined)` and `new User({})` have four null fields. */
  lemma NewUserOfNothing()
    ensures NewUser(None) == User(None, None, None, None)
    ensures NewUser(Some(JObj(map[]))) == User(None, None, None, None)
  {
  }

  /** Each field depends only on the same-named property of the payload:
      two payloads that agree on that property give the same field. */
  lemma NewUserFieldwise(a: Json, b: Json, key: string)
    requires Truthy(a) && Truthy(b)
    requires Property(a, key) == Property(b, key)
    ensures key == "id" ==> NewUser(Some(a)).id == NewUser(Some(b)).id
    ensures key == "username" ==> NewUser(Some(a)).username == NewUser(Some(b)).username
    ensures key == "updatedAt" ==> NewUser(Some(a)).updatedAt == NewUser(Some(b)).updatedAt
    ensures key == "createdAt" ==> NewUser(Some(a)).createdAt == NewUser(Some(b)).createdAt
  {
  }

  /** Falsy values are dropped: a payload whose `id` is 0, whose `username`
      is '' and whose dates are `false` gives four nulls. */
  lemma NewUserDropsFalsy()
    ensures NewUser(Some(JObj(map["id" := JNum(0), "username" := JStr(""),
                                  "updatedAt" := JBool(false), "createdAt" := JNull])))
         == User(None, None, None, None)
  {
  }

  /** A list as held by the model; `name` is changed in place on rename. */
  class ListRec {
    const id: int
    var name: string

    constructor (id: int, name: string)
      ensures this.id == id && this.name == name
    {
      this.id := id;
      this.name := name;
    }
  }

  /** A task as held by the model. Its title is rendered from `task`, while
      renames write and compare `name`, which is `None` (undefined) until the
      first rename. */
  class TaskRec {
    const id: int
    const idlist: int
    const task: string
    const createdAt: string
    var name: Option<string>

    constructor (id: int, idlist: int, task: string, createdAt: string, name: Option<string>)
      ensures this.id == id && this.idlist == idlist && this.task == task
      ensures this.createdAt == createdAt && this.name == name
    {
      this.id := id;
      this.idlist := idlist;
      this.task := task;
      this.createdAt := createdAt;
      this.name := name;
    }
  }
}
