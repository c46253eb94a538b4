/**
 * The fastify user routes of the payments service: an in-memory `Map` from
 * numeric id to user plus a `nextId` counter, with GET by id, GET all and a
 * POST guarded by the email pre-handler. `new Date().toISOString()` is the
 * parameter `now`.
 */
module UserRoutes {
  import opened Wrappers
  import opened Js
  import opened Http
  import Decimal
  import ValidateEmail

  datatype User = User(id: int, name: Value, email: string, createdAt: string)

  /** The JSON a user is sent as. */
  function ToJson(u: User): Value {
    Obj(map["id" := Num(u.id as real), "name" := u.name, "email" := Str(u.email), "createdAt" := Str(u.createdAt)])
  }

  /**
   * The module state: the `Map`'s entries, its keys in insertion order (the
   * order `values()` walks), and the counter.
   */
  datatype Store = Store(users: map<int, User>, order: seq<int>, nextId: int)

  const Initial: Store := Store(map[], [], 1)

  /**
   * The invariant the routes keep: the ids handed out so far are exactly
   * 1 .. nextId-1, in insertion order, and every user is stored under its own id.
   */
  ghost predicate Valid(st: Store) {
    && st.nextId >= 1
    && |st.order| == st.nextId - 1
    && (forall i :: 0 <= i < |st.order| ==> st.order[i] == i + 1)
    && (forall k :: k in st.users <==> 1 <= k < st.nextId)
    && (forall k :: k in st.users ==> st.users[k].id == k)
  }

  lemma InitialValid()
    ensures Valid(Initial)
  {
  }

  /** `Map.prototype.set`: a new key goes to the end of the iteration order, an old key keeps its place. */
  function MapSet(st: Store, key: int, u: User): (r: Store)
    ensures r.users == st.users[key := u] && r.nextId == st.nextId
    ensures key !in st.users ==> r.order == st.order + [key]
    ensures key in st.users ==> r.order == st.order
  {
    Store(st.users[key := u], if key in st.users then st.order else st.order + [key], st.nextId)
  }

  const NotFound: string := "User not found"
  const MissingName: string := "Missing required field: name"

  /** GET `/v1/:id`: look up `parseInt(id, 10)`. */
  function GetById(st: Store, id: string): (r: Reply)
    ensures r.status == 404 <==> Decimal.ParseInt(id).None? || Decimal.ParseInt(id).value !in st.users
    ensures r.status == 404 ==> r.body == ErrorBody(NotFound)
    ensures r.status != 404 ==> r == Reply(200, ToJson(st.users[Decimal.ParseInt(id).value]))
  {
    var key := Decimal.ParseInt(id);
    if key.None? || key.value !in st.users then Reply(404, ErrorBody(NotFound))
    else Reply(200, ToJson(st.users[key.value]))
  }

  /** GET `/v1`: `Array.from(users.values())`, which under the invariant lists users by ascending id. */
  function GetAll(st: Store): (r: Reply)
    requires Valid(st)
    ensures r.status == 200 && r.body.Arr? && |r.body.items| == st.nextId - 1
    ensures forall i :: 0 <= i < |r.body.items| ==> i + 1 in st.users && r.body.items[i] == ToJson(st.users[i + 1])
  {
    Reply(200, Arr(seq(|st.order|, i requires 0 <= i < |st.order| => ToJson(st.users[st.order[i]]))))
  }

  /**
   * POST `/v1`: the email pre-handler runs first; then a falsy `name` is a
   * 400; otherwise the user gets id `nextId`, the counter moves on, and the
   * user is stored and sent back with 201.
   */
  function Post(st: Store, body: Option<Value>, now: string): (r: (Store, Reply))
    ensures ValidateEmail.Validate(body).Halt? ==> r == (st, ValidateEmail.Validate(body).reply)
    ensures ValidateEmail.Validate(body).Continue? && !Truthy(OptionalGet(body, "name")) ==> r == (st, Reply(400, ErrorBody(MissingName)))
    ensures r.1.status == 201 <==> ValidateEmail.Validate(body).Continue? && Truthy(OptionalGet(body, "name"))
    ensures r.1.status == 201 ==>
      var u := User(st.nextId, OptionalGet(body, "name").value, OptionalGet(body, "email").value.s, now);
      && r.1.body == ToJson(u)
      && r.0.nextId == st.nextId + 1
      && r.0.users == st.users[st.nextId := u]
    ensures r.1.status != 201 ==> r.0 == st
    ensures Valid(st) ==> Valid(r.0)
  {
    match ValidateEmail.Validate(body)
    case Halt(reply) => (st, reply)
    case Continue =>
      var name := OptionalGet(body, "name");
      var email := OptionalGet(body, "email").value.s;
      if !Truthy(name) then (st, Reply(400, ErrorBody(MissingName)))
      else
        var u := User(st.nextId, name.value, email, now);
        var st' := MapSet(st.(nextId := st.nextId + 1), u.id, u);
        (st', Reply(201, ToJson(u)))
  }

  /** A created user is found again by GET on the decimal spelling of its id, and is last in GET all. */
  lemma PostThenGet(st: Store, body: Option<Value>, now: string)
    requires Valid(st)
    requires Post(st, body, now).1.status == 201
    ensures GetById(Post(st, body, now).0, Decimal.FromNat(st.nextId)) == Reply(200, Post(st, body, now).1.body)
    ensures GetAll(Post(st, body, now).0).body.items == GetAll(st).body.items + [Post(st, body, now).1.body]
  {
    Decimal.ParseIntFromNat(st.nextId, "");
    assert Decimal.FromNat(st.nextId) + "" == Decimal.FromNat(st.nextId);
    var st' := Post(st, body, now).0;
    var all := GetAll(st').body.items;
    var before := GetAll(st).body.items;
    assert |all| == |before| + 1;
    forall i | 0 <= i < |before| ensures all[i] == before[i] {
      assert st'.users[i + 1] == st.users[i + 1];
    }
  }

  /** The POSTs of a run, each a body and the time it arrived, replayed on a store. */
  function Replay(st: Store, posts: seq<(Option<Value>, string)>): Store
    decreases |posts|
  {
    if |posts| == 0 then st
    else
      var (body, now) := posts[|posts| - 1];
      Post(Replay(st, posts[..|posts| - 1]), body, now).0
  }

  /** How many of the POSTs succeed, each judged against the store it met. */
  function Created(st: Store, posts: seq<(Option<Value>, string)>): nat
    decreases |posts|
  {
    if |posts| == 0 then 0
    else
      var before := Replay(st, posts[..|posts| - 1]);
      var (body, now) := posts[|posts| - 1];
      Created(st, posts[..|posts| - 1]) + (if Post(before, body, now).1.status == 201 then 1 else 0)
  }

  /**
   * From the initial store, `nextId` is one more than the number of users
   * created so far, and there are exactly that many stored users with ids
   * 1, 2, ... in creation order: ids are unique and equal their keys.
   */
  lemma {:induction false} CounterCountsCreates(posts: seq<(Option<Value>, string)>)
    ensures Valid(Replay(Initial, posts))
    ensures Replay(Initial, posts).nextId == 1 + Created(Initial, posts)
    decreases |posts|
  {
    if |posts| > 0 {
      CounterCountsCreates(posts[..|posts| - 1]);
    }
  }
}
