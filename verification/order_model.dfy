/**
 * The orders service's model: a static array of orders `{id, total, createdAt}`.
 * `crypto.randomUUID()` and `new Date()` are the parameters `id` and `now`.
 */
module OrderModel {
  import opened Wrappers
  import opened Js
  import C = Collection

  /** An order; its field is the total, `None` when the parameters had none. */
  type Order = C.Record<Option<Value>>

  datatype Model = Model(orders: seq<Order>)

  /** `OrderModel.all()`: the orders in the order they were created. */
  function All(m: Model): (r: seq<Order>)
    ensures r == m.orders
  {
    m.orders
  }

  /** `OrderModel.create(params)`: append an order with `params.total`; `params` of `undefined`/`null` throws. */
  function Create(m: Model, params: Option<Value>, id: string, now: int): (r: Result<(Model, Order), Thrown>)
    ensures r.Success? <==> params.Some? && !params.value.Null?
    ensures r.Success? ==>
      && r.value.1 == C.Record(id, OptionalGet(params, "total"), now)
      && r.value.0.orders == m.orders + [r.value.1]
    ensures r.Success? && C.Fresh(m.orders, id) ==> Read(r.value.0, id) == Some(r.value.1)
    ensures r.Success? && C.Fresh(m.orders, id) && C.DistinctIds(m.orders) ==> C.DistinctIds(r.value.0.orders)
  {
    match Get(params, "total")
    case Failure(e) => Failure(e)
    case Success(total) =>
      C.CreateFresh(m.orders, id, total, now);
      var (orders, order) := C.Create(m.orders, id, total, now);
      Success((Model(orders), order))
  }

  /** `OrderModel.read(id)`: the first order with `id`, or `undefined`. */
  function Read(m: Model, id: string): (r: Option<Order>)
    ensures r.None? <==> forall i :: 0 <= i < |m.orders| ==> m.orders[i].id != id
    ensures r.Some? ==> r.value.id == id && exists i :: 0 <= i < |m.orders| && m.orders[i] == r.value && forall j :: 0 <= j < i ==> m.orders[j].id != id
  {
    C.Find(m.orders, id)
  }

  /** `OrderModel.update(id, params)`: set the total of the first order with `id`; `params.total` is read first, then an unknown id throws. */
  function Update(m: Model, id: string, params: Option<Value>): (r: Result<(Model, Order), Thrown>)
    ensures params.None? ==> r == Failure(TypeError("Cannot read properties of undefined"))
    ensures params == Some(Null) ==> r == Failure(TypeError("Cannot read properties of null"))
    ensures params.Some? && !params.value.Null? && Read(m, id).None? ==> r == Failure(TypeError("Cannot set properties of undefined"))
    ensures r.Success? <==> Read(m, id).Some? && params.Some? && !params.value.Null?
    ensures r.Success? ==>
      var i := C.IndexOf(m.orders, id).value;
      && |r.value.0.orders| == |m.orders|
      && r.value.1 == m.orders[i].(field := OptionalGet(params, "total"))
      && r.value.0.orders[i] == r.value.1
      && (forall j :: 0 <= j < |m.orders| && j != i ==> r.value.0.orders[j] == m.orders[j])
  {
    match Get(params, "total")
    case Failure(e) => Failure(e)
    case Success(total) =>
      match C.Update(m.orders, id, total)
      case Failure(e) => Failure(e)
      case Success((orders, rec)) => Success((Model(orders), rec))
  }

  /** `OrderModel.delete(id)`: drop every order with `id`, keep the rest in order, return the first dropped or `undefined`. */
  function Delete(m: Model, id: string): (r: (Model, Option<Order>))
    ensures r.1 == Read(m, id)
    ensures r.0.orders == C.Without(m.orders, id)
    ensures Read(r.0, id).None?
    ensures r.1.None? ==> r.0 == m
  {
    C.DeleteRemovesAll(m.orders, id);
    var (orders, order) := C.Delete(m.orders, id);
    (Model(orders), order)
  }

  /** A call to the model, for replaying a history of calls. */
  datatype Op = CreateOp(params: Option<Value>, id: string, now: int) | UpdateOp(id: string, params: Option<Value>) | DeleteOp(id: string)

  /** The model after the calls of `ops`, in order; a call that throws leaves it as it was. */
  function Replay(m: Model, ops: seq<Op>): Model
    decreases |ops|
  {
    if |ops| == 0 then m
    else
      var before := Replay(m, ops[..|ops| - 1]);
      match ops[|ops| - 1]
      case CreateOp(params, id, now) => (match Create(before, params, id, now) case Success((m', _)) => m' case Failure(_) => before)
      case UpdateOp(id, params) => (match Update(before, id, params) case Success((m', _)) => m' case Failure(_) => before)
      case DeleteOp(id) => Delete(before, id).0
  }

  /**
   * The clock moves forward: every create of `ops` is stamped later than
   * every order present at that moment.
   */
  ghost predicate ClockForward(m: Model, ops: seq<Op>)
    decreases |ops|
  {
    |ops| > 0 ==>
      && ClockForward(m, ops[..|ops| - 1])
      && (ops[|ops| - 1].CreateOp? ==> C.CreatedBefore(Replay(m, ops[..|ops| - 1]).orders, ops[|ops| - 1].now))
  }

  /**
   * `all()` lists the orders in the order they were created: whatever
   * history of creates, updates and deletes is replayed, creation times
   * strictly increase along the list.
   */
  lemma {:induction false} AllInCreationOrder(m: Model, ops: seq<Op>)
    requires C.CreatedInOrder(All(m))
    requires ClockForward(m, ops)
    ensures C.CreatedInOrder(All(Replay(m, ops)))
    decreases |ops|
  {
    if |ops| > 0 {
      var before := Replay(m, ops[..|ops| - 1]);
      AllInCreationOrder(m, ops[..|ops| - 1]);
      match ops[|ops| - 1]
      case CreateOp(params, id, now) =>
        if Create(before, params, id, now).Success? {
          C.CreateKeepsOrder(before.orders, id, OptionalGet(params, "total"), now);
        }
      case UpdateOp(id, params) =>
        if Update(before, id, params).Success? {
          C.UpdateKeepsOrder(before.orders, id, OptionalGet(params, "total"));
        }
      case DeleteOp(id) =>
        C.WithoutKeepsOrder(before.orders, id);
    }
  }
}
