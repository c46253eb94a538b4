/**
 * The payments service's model, a copy of the user model over an array named
 * `coupons`. Its `create` constructs a `Coupon`, a class the module never
 * defines or imports, so creating always throws and nothing is ever added.
 */
module PaymentModel {
  import opened Wrappers
  import opened Js
  import C = Collection

  /** A payment `{id, email, createdAt}`; its field is the email. */
  type Payment = C.Record<Option<Value>>

  datatype Model = Model(coupons: seq<Payment>)

  /** `PaymentModel.all()`: the stored records in order. */
  function All(m: Model): (r: seq<Payment>)
    ensures r == m.coupons
  {
    m.coupons
  }

  /** `PaymentModel.create(params)`: `new Coupon(...)` throws before anything is pushed. */
  function Create(m: Model, params: Option<Value>, id: string, now: int): (r: Result<(Model, Payment), Thrown>)
    ensures r.Failure? && r.error == ReferenceError("Coupon")
  {
    Failure(ReferenceError("Coupon"))
  }

  /** `PaymentModel.read(id)`: the first record with `id`, or `undefined`. */
  function Read(m: Model, id: string): (r: Option<Payment>)
    ensures r.None? <==> forall i :: 0 <= i < |m.coupons| ==> m.coupons[i].id != id
    ensures r.Some? ==> r.value.id == id && exists i :: 0 <= i < |m.coupons| && m.coupons[i] == r.value && forall j :: 0 <= j < i ==> m.coupons[j].id != id
  {
    C.Find(m.coupons, id)
  }

  /** `PaymentModel.update(id, params)`: set the email of the first record with `id`; `params.email` is read first, then an unknown id throws. */
  function Update(m: Model, id: string, params: Option<Value>): (r: Result<(Model, Payment), Thrown>)
    ensures params.None? ==> r == Failure(TypeError("Cannot read properties of undefined"))
    ensures params == Some(Null) ==> r == Failure(TypeError("Cannot read properties of null"))
    ensures params.Some? && !params.value.Null? && Read(m, id).None? ==> r == Failure(TypeError("Cannot set properties of undefined"))
    ensures r.Success? <==> Read(m, id).Some? && params.Some? && !params.value.Null?
    ensures r.Success? ==>
      var i := C.IndexOf(m.coupons, id).value;
      && |r.value.0.coupons| == |m.coupons|
      && r.value.1 == m.coupons[i].(field := OptionalGet(params, "email"))
      && r.value.0.coupons[i] == r.value.1
      && (forall j :: 0 <= j < |m.coupons| && j != i ==> r.value.0.coupons[j] == m.coupons[j])
  {
    match Get(params, "email")
    case Failure(e) => Failure(e)
    case Success(email) =>
      match C.Update(m.coupons, id, email)
      case Failure(e) => Failure(e)
      case Success((coupons, rec)) => Success((Model(coupons), rec))
  }

  /** `PaymentModel.delete(id)`: drop every record with `id`, keep the rest in order, return the first dropped or `undefined`. */
  function Delete(m: Model, id: string): (r: (Model, Option<Payment>))
    ensures r.1 == Read(m, id)
    ensures r.0.coupons == C.Without(m.coupons, id)
    ensures Read(r.0, id).None?
    ensures r.1.None? ==> r.0 == m
  {
    C.DeleteRemovesAll(m.coupons, id);
    var (coupons, coupon) := C.Delete(m.coupons, id);
    (Model(coupons), coupon)
  }

  /** Since `create` never succeeds, a model that starts empty stays empty whatever mix of calls is made. */
  lemma {:induction false} StaysEmpty(ops: seq<Op>)
    ensures Replay(Model([]), ops) == Model([])
    decreases |ops|
  {
    if |ops| > 0 {
      var m := Replay(Model([]), ops[..|ops| - 1]);
      StaysEmpty(ops[..|ops| - 1]);
      match ops[|ops| - 1]
      case CreateOp(params, id, now) =>
      case UpdateOp(id, params) =>
      case DeleteOp(id) =>
        assert C.Without(m.coupons, id) == [];
    }
  }

  /** A call to the model, for replaying a history of calls. */
  datatype Op = CreateOp(params: Option<Value>, id: string, now: int) | UpdateOp(id: string, params: Option<Value>) | DeleteOp(id: string)

  /** The model after the calls of `ops`, in order; a call that throws leaves it as it was. */
  function Replay(m: Model, ops: seq<Op>): Model
    decreases |ops|
  {
    if |ops| == 0 then m
    else
      var before := Replay(m, ops[..|ops| - 1]);
      match ops[|ops| - 1]
      case CreateOp(params, id, now) => (match Create(before, params, id, now) case Success((m', _)) => m' case Failure(_) => before)
      case UpdateOp(id, params) => (match Update(before, id, params) case Success((m', _)) => m' case Failure(_) => before)
      case DeleteOp(id) => Delete(before, id).0
  }

  /**
   * `all()` keeps the records in the order they were created: no history of
   * calls reorders them, since `create` never adds one, `update` changes no
   * creation time and `delete` filters in place.
   */
  lemma {:induction false} AllInCreationOrder(m: Model, ops: seq<Op>)
    requires C.CreatedInOrder(All(m))
    ensures C.CreatedInOrder(All(Replay(m, ops)))
    decreases |ops|
  {
    if |ops| > 0 {
      var before := Replay(m, ops[..|ops| - 1]);
      AllInCreationOrder(m, ops[..|ops| - 1]);
      match ops[|ops| - 1]
      case CreateOp(params, id, now) =>
      case UpdateOp(id, params) =>
        if Update(before, id, params).Success? {
          C.UpdateKeepsOrder(before.coupons, id, OptionalGet(params, "email"));
        }
      case DeleteOp(id) =>
        C.WithoutKeepsOrder(before.coupons, id);
    }
  }
}
