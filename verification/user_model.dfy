/**
 * The users service's model: a static array of users `{id, email, createdAt}`.
 * `crypto.randomUUID()` and `new Date()` are the parameters `id` and `now`.
 */
module UserModel {
  import opened Wrappers
  import opened Js
  import C = Collection

  /** A user; its field is the email, `None` when the parameters had none. */
  type User = C.Record<Option<Value>>

  datatype Model = Model(users: seq<User>)

  const Empty: Model := Model([])

  /** `UserModel.all()`: the users in the order they were created. */
  function All(m: Model): (r: seq<User>)
    ensures r == m.users
  {
    m.users
  }

  /** `UserModel.create(params)`: append a user with `params.email`; `params` of `undefined`/`null` throws. */
  function Create(m: Model, params: Option<Value>, id: string, now: int): (r: Result<(Model, User), Thrown>)
    ensures r.Success? <==> params.Some? && !params.value.Null?
    ensures r.Success? ==>
      && r.value.1 == C.Record(id, OptionalGet(params, "email"), now)
      && r.value.0.users == m.users + [r.value.1]
    ensures r.Success? && C.Fresh(m.users, id) ==> Read(r.value.0, id) == Some(r.value.1)
    ensures r.Success? && C.Fresh(m.users, id) && C.DistinctIds(m.users) ==> C.DistinctIds(r.value.0.users)
  {
    match Get(params, "email")
    case Failure(e) => Failure(e)
    case Success(email) =>
      C.CreateFresh(m.users, id, email, now);
      var (users, user) := C.Create(m.users, id, email, now);
      Success((Model(users), user))
  }

  /** `UserModel.read(id)`: the first user with `id`, or `undefined`. */
  function Read(m: Model, id: string): (r: Option<User>)
    ensures r.None? <==> forall i :: 0 <= i < |m.users| ==> m.users[i].id != id
    ensures r.Some? ==> r.value.id == id && exists i :: 0 <= i < |m.users| && m.users[i] == r.value && forall j :: 0 <= j < i ==> m.users[j].id != id
  {
    C.Find(m.users, id)
  }

  /**
   * `UserModel.update(id, params)`: set the email of the first user with `id`.
   * Contrary to its documentation it does not return `undefined` for an
   * unknown id: it throws, as it does for `params` of `undefined`/`null`.
   * The right-hand side `params.email` is read before the assignment to an
   * `undefined` user fails, so nullish `params` throw their own error first.
   */
  function Update(m: Model, id: string, params: Option<Value>): (r: Result<(Model, User), Thrown>)
    ensures params.None? ==> r == Failure(TypeError("Cannot read properties of undefined"))
    ensures params == Some(Null) ==> r == Failure(TypeError("Cannot read properties of null"))
    ensures params.Some? && !params.value.Null? && Read(m, id).None? ==> r == Failure(TypeError("Cannot set properties of undefined"))
    ensures r.Success? <==> Read(m, id).Some? && params.Some? && !params.value.Null?
    ensures r.Success? ==>
      var i := C.IndexOf(m.users, id).value;
      && |r.value.0.users| == |m.users|
      && r.value.1 == m.users[i].(field := OptionalGet(params, "email"))
      && r.value.0.users[i] == r.value.1
      && (forall j :: 0 <= j < |m.users| && j != i ==> r.value.0.users[j] == m.users[j])
  {
    match Get(params, "email")
    case Failure(e) => Failure(e)
    case Success(email) =>
      match C.Update(m.users, id, email)
      case Failure(e) => Failure(e)
      case Success((users, rec)) => Success((Model(users), rec))
  }

  /** `UserModel.delete(id)`: drop every user with `id`, keep the rest in order, return the first dropped or `undefined`. */
  function Delete(m: Model, id: string): (r: (Model, Option<User>))
    ensures r.1 == Read(m, id)
    ensures r.0.users == C.Without(m.users, id)
    ensures Read(r.0, id).None?
    ensures r.1.None? ==> r.0 == m
  {
    C.DeleteRemovesAll(m.users, id);
    var (users, user) := C.Delete(m.users, id);
    (Model(users), user)
  }

  /** A call to the model, for replaying a history of calls. */
  datatype Op = CreateOp(params: Option<Value>, id: string, now: int) | UpdateOp(id: string, params: Option<Value>) | DeleteOp(id: string)

  /** The model after the calls of `ops`, in order; a call that throws leaves it as it was. */
  function Replay(m: Model, ops: seq<Op>): Model
    decreases |ops|
  {
    if |ops| == 0 then m
    else
      var before := Replay(m, ops[..|ops| - 1]);
      match ops[|ops| - 1]
      case CreateOp(params, id, now) => (match Create(before, params, id, now) case Success((m', _)) => m' case Failure(_) => before)
      case UpdateOp(id, params) => (match Update(before, id, params) case Success((m', _)) => m' case Failure(_) => before)
      case DeleteOp(id) => Delete(before, id).0
  }

  /** Every create of `ops` draws an id no user held at that moment, as `randomUUID` is relied on to do. */
  ghost predicate FreshCreates(m: Model, ops: seq<Op>)
    decreases |ops|
  {
    |ops| > 0 ==>
      && FreshCreates(m, ops[..|ops| - 1])
      && (ops[|ops| - 1].CreateOp? ==> C.Fresh(Replay(m, ops[..|ops| - 1]).users, ops[|ops| - 1].id))
  }

  /** With fresh ids on create, user ids stay pairwise distinct across any history of calls. */
  lemma {:induction false} IdsStayDistinct(m: Model, ops: seq<Op>)
    requires C.DistinctIds(m.users)
    requires FreshCreates(m, ops)
    ensures C.DistinctIds(Replay(m, ops).users)
    decreases |ops|
  {
    if |ops| > 0 {
      var before := Replay(m, ops[..|ops| - 1]);
      IdsStayDistinct(m, ops[..|ops| - 1]);
      match ops[|ops| - 1]
      case CreateOp(params, id, now) =>
      case UpdateOp(id, params) =>
        if Update(before, id, params).Success? {
          C.UpdateKeepsIds(before.users, id, OptionalGet(params, "email"));
        }
      case DeleteOp(id) =>
        C.DeleteRemovesAll(before.users, id);
    }
  }

  /**
   * The clock moves forward: every create of `ops` is stamped later than
   * every user present at that moment.
   */
  ghost predicate ClockForward(m: Model, ops: seq<Op>)
    decreases |ops|
  {
    |ops| > 0 ==>
      && ClockForward(m, ops[..|ops| - 1])
      && (ops[|ops| - 1].CreateOp? ==> C.CreatedBefore(Replay(m, ops[..|ops| - 1]).users, ops[|ops| - 1].now))
  }

  /**
   * `all()` lists the users in the order they were created: whatever
   * history of creates, updates and deletes is replayed, creation times
   * strictly increase along the list.
   */
  lemma {:induction false} AllInCreationOrder(m: Model, ops: seq<Op>)
    requires C.CreatedInOrder(All(m))
    requires ClockForward(m, ops)
    ensures C.CreatedInOrder(All(Replay(m, ops)))
    decreases |ops|
  {
    if |ops| > 0 {
      var before := Replay(m, ops[..|ops| - 1]);
      AllInCreationOrder(m, ops[..|ops| - 1]);
      match ops[|ops| - 1]
      case CreateOp(params, id, now) =>
        if Create(before, params, id, now).Success? {
          C.CreateKeepsOrder(before.users, id, OptionalGet(params, "email"), now);
        }
      case UpdateOp(id, params) =>
        if Update(before, id, params).Success? {
          C.UpdateKeepsOrder(before.users, id, OptionalGet(params, "email"));
        }
      case DeleteOp(id) =>
        C.WithoutKeepsOrder(before.users, id);
    }
  }
}
