/**
 * The in-memory collection behind the user, order and payment models: a
 * sequence of records in insertion order, each with an id, one updatable
 * field and a creation time. Lookups use `Array.prototype.find` (first match);
 * deletion uses `filter` (every match).
 */
module Collection {
  import opened Wrappers
  import opened Js

  datatype Record<F> = Record(id: string, field: F, createdAt: int)

  /** The index of the first record with `id`, if any. */
  function IndexOf<F>(s: seq<Record<F>>, id: string): (r: Option<nat>)
    ensures r.None? <==> forall i :: 0 <= i < |s| ==> s[i].id != id
    ensures r.Some? ==> r.value < |s| && s[r.value].id == id
    ensures r.Some? ==> forall i :: 0 <= i < r.value ==> s[i].id != id
    decreases |s|
  {
    if |s| == 0 then None
    else if s[0].id == id then Some(0)
    else match IndexOf(s[1..], id)
      case None => None
      case Some(i) => Some(i + 1)
  }

  /** `find(r => r.id === id)`: the first record with `id`, or `undefined`. */
  function Find<F>(s: seq<Record<F>>, id: string): (r: Option<Record<F>>)
    ensures r.None? <==> forall i :: 0 <= i < |s| ==> s[i].id != id
    ensures r.Some? ==> r.value in s && r.value.id == id
    ensures r.Some? ==> exists i :: 0 <= i < |s| && s[i] == r.value && forall j :: 0 <= j < i ==> s[j].id != id
  {
    match IndexOf(s, id)
    case None => None
    case Some(i) => Some(s[i])
  }

  /** `filter(r => r.id !== id)` */
  function Without<F>(s: seq<Record<F>>, id: string): (r: seq<Record<F>>)
    ensures forall i :: 0 <= i < |r| ==> r[i] in s && r[i].id != id
    ensures forall i :: 0 <= i < |s| && s[i].id != id ==> s[i] in r
    ensures |r| <= |s|
    decreases |s|
  {
    if |s| == 0 then []
    else if s[0].id == id then Without(s[1..], id)
    else [s[0]] + Without(s[1..], id)
  }

  /** Filtering keeps the order of what it keeps: it distributes over concatenation. */
  lemma {:induction false} WithoutAppend<F>(a: seq<Record<F>>, b: seq<Record<F>>, id: string)
    ensures Without(a + b, id) == Without(a, id) + Without(b, id)
    decreases |a|
  {
    if |a| == 0 {
      assert a + b == b;
    } else {
      assert (a + b)[1..] == a[1..] + b;
      WithoutAppend(a[1..], b, id);
    }
  }

  /** Filtering out an id no record has changes nothing. */
  lemma {:induction false} WithoutAbsent<F>(s: seq<Record<F>>, id: string)
    requires forall i :: 0 <= i < |s| ==> s[i].id != id
    ensures Without(s, id) == s
    decreases |s|
  {
    if |s| > 0 {
      WithoutAbsent(s[1..], id);
      assert [s[0]] + s[1..] == s;
    }
  }

  /** `push(new Record(...))`; the result is the record pushed. */
  function Create<F>(s: seq<Record<F>>, id: string, field: F, now: int): (r: (seq<Record<F>>, Record<F>))
    ensures |r.0| == |s| + 1 && r.0[..|s|] == s && r.0[|s|] == r.1
    ensures r.1 == Record(id, field, now)
  {
    var rec := Record(id, field, now);
    (s + [rec], rec)
  }

  /**
   * Assign `field` on the first record with `id` and return it; with no
   * such record the assignment dereferences `undefined` and throws.
   */
  function Update<F>(s: seq<Record<F>>, id: string, field: F): (r: Result<(seq<Record<F>>, Record<F>), Thrown>)
    ensures r.Failure? <==> Find(s, id).None?
    ensures r.Success? ==>
      var i := IndexOf(s, id).value;
      && |r.value.0| == |s|
      && r.value.0[i] == s[i].(field := field)
      && r.value.1 == r.value.0[i]
      && (forall j :: 0 <= j < |s| && j != i ==> r.value.0[j] == s[j])
  {
    match IndexOf(s, id)
    case None => Failure(TypeError("Cannot set properties of undefined"))
    case Some(i) =>
      var rec := s[i].(field := field);
      Success((s[i := rec], rec))
  }

  /** Remove every record with `id`; return the first of them, or `undefined`. */
  function Delete<F>(s: seq<Record<F>>, id: string): (r: (seq<Record<F>>, Option<Record<F>>))
    ensures r.1 == Find(s, id)
    ensures forall i :: 0 <= i < |r.0| ==> r.0[i] in s && r.0[i].id != id
    ensures forall i :: 0 <= i < |s| && s[i].id != id ==> s[i] in r.0
    ensures r.1.None? ==> r.0 == s
  {
    var found := Find(s, id);
    if found.None? then
      WithoutAbsent(s, id);
      (Without(s, id), found)
    else
      (Without(s, id), found)
  }

  predicate DistinctIds<F>(s: seq<Record<F>>) {
    forall i, j :: 0 <= i < j < |s| ==> s[i].id != s[j].id
  }

  predicate Fresh<F>(s: seq<Record<F>>, id: string) {
    forall i :: 0 <= i < |s| ==> s[i].id != id
  }

  /** With a fresh id, creating keeps ids distinct and the new record is what `find` returns for its id. */
  lemma CreateFresh<F>(s: seq<Record<F>>, id: string, field: F, now: int)
    ensures DistinctIds(s) && Fresh(s, id) ==> DistinctIds(Create(s, id, field, now).0)
    ensures Fresh(s, id) ==> Find(Create(s, id, field, now).0, id) == Some(Record(id, field, now))
  {
  }

  /** Creating does not change what `find` returns for any other id. */
  lemma CreateKeepsOtherReads<F>(s: seq<Record<F>>, id: string, field: F, now: int, other: string)
    requires other != id
    ensures Find(Create(s, id, field, now).0, other) == Find(s, other)
  {
    var s' := Create(s, id, field, now).0;
    match IndexOf(s, other)
    case None =>
    case Some(i) =>
      assert s'[i] == s[i];
  }

  /** Updating leaves the ids (so their distinctness) as they were. */
  lemma UpdateKeepsIds<F>(s: seq<Record<F>>, id: string, field: F)
    requires Update(s, id, field).Success?
    ensures var s' := Update(s, id, field).value.0;
      forall i :: 0 <= i < |s| ==> s'[i].id == s[i].id && s'[i].createdAt == s[i].createdAt
    ensures DistinctIds(s) ==> DistinctIds(Update(s, id, field).value.0)
  {
  }

  /** Filtering keeps ids distinct. */
  lemma {:induction false} WithoutKeepsDistinct<F>(s: seq<Record<F>>, id: string)
    requires DistinctIds(s)
    ensures DistinctIds(Without(s, id))
    decreases |s|
  {
    if |s| > 0 {
      WithoutKeepsDistinct(s[1..], id);
      var rest := Without(s[1..], id);
      if s[0].id != id {
        forall m | 0 <= m < |rest| ensures rest[m].id != s[0].id {
          var k :| 0 <= k < |s[1..]| && s[1..][k] == rest[m];
          assert s[k + 1] == rest[m];
        }
        var r := [s[0]] + rest;
        forall i, j | 0 <= i < j < |r| ensures r[i].id != r[j].id {
          if i == 0 {
            assert r[j] == rest[j - 1];
          } else {
            assert r[i] == rest[i - 1] && r[j] == rest[j - 1];
          }
        }
      }
    }
  }

  /** After a delete no record with that id is left, and distinct ids stay distinct. */
  lemma DeleteRemovesAll<F>(s: seq<Record<F>>, id: string)
    ensures Find(Delete(s, id).0, id).None?
    ensures DistinctIds(s) ==> DistinctIds(Delete(s, id).0)
  {
    var s' := Delete(s, id).0;
    if DistinctIds(s) {
      WithoutKeepsDistinct(s, id);
    }
  }

  /** Creation times strictly increase along the sequence: records sit in the order they were created. */
  predicate CreatedInOrder<F>(s: seq<Record<F>>) {
    forall i, j :: 0 <= i < j < |s| ==> s[i].createdAt < s[j].createdAt
  }

  /** Every record was created before `now`. */
  predicate CreatedBefore<F>(s: seq<Record<F>>, now: int) {
    forall i :: 0 <= i < |s| ==> s[i].createdAt < now
  }

  /** Appending a record created after all the others keeps creation order. */
  lemma CreateKeepsOrder<F>(s: seq<Record<F>>, id: string, field: F, now: int)
    requires CreatedInOrder(s) && CreatedBefore(s, now)
    ensures CreatedInOrder(Create(s, id, field, now).0)
  {
  }

  /** Updating keeps creation order, since no creation time changes. */
  lemma UpdateKeepsOrder<F>(s: seq<Record<F>>, id: string, field: F)
    requires Update(s, id, field).Success?
    ensures CreatedInOrder(s) ==> CreatedInOrder(Update(s, id, field).value.0)
  {
    UpdateKeepsIds(s, id, field);
  }

  /** Dropping the first record keeps creation order. */
  lemma TailInOrder<F>(s: seq<Record<F>>)
    requires |s| > 0 && CreatedInOrder(s)
    ensures CreatedInOrder(s[1..])
  {
    forall i, j | 0 <= i < j < |s[1..]| ensures s[1..][i].createdAt < s[1..][j].createdAt {
      assert s[1..][i] == s[i + 1] && s[1..][j] == s[j + 1];
    }
  }

  /** Filtering keeps creation order. */
  lemma {:induction false} WithoutKeepsOrder<F>(s: seq<Record<F>>, id: string)
    requires CreatedInOrder(s)
    ensures CreatedInOrder(Without(s, id))
    decreases |s|
  {
    if |s| > 0 {
      TailInOrder(s);
      WithoutKeepsOrder(s[1..], id);
      if s[0].id != id {
        var rest := Without(s[1..], id);
        forall m | 0 <= m < |rest| ensures s[0].createdAt < rest[m].createdAt {
          var k :| 0 <= k < |s[1..]| && s[1..][k] == rest[m];
          assert s[k + 1] == rest[m];
        }
        var r := [s[0]] + rest;
        forall i, j | 0 <= i < j < |r| ensures r[i].createdAt < r[j].createdAt {
          if i == 0 {
            assert r[j] == rest[j - 1];
          } else {
            assert r[i] == rest[i - 1] && r[j] == rest[j - 1];
          }
        }
      }
    }
  }
}
