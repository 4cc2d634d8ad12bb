/** Redis sorted sets: members with scores, kept in ascending order of score and then of member. */
module SortedSets {
  type Id = string

  datatype Entry = Entry(score: int, id: Id)

  type SortedSet = seq<Entry>

  /** The byte order Redis breaks ties with. */
  predicate IdBefore(a: Id, b: Id) {
    b != "" && (a == "" || a[0] < b[0] || (a[0] == b[0] && IdBefore(a[1..], b[1..])))
  }

  predicate Before(x: Entry, y: Entry) {
    x.score < y.score || (x.score == y.score && IdBefore(x.id, y.id))
  }

  ghost predicate Sorted(q: SortedSet) {
    && (forall i, j :: 0 <= i < j < |q| ==> Before(q[i], q[j]))
    && (forall i, j :: 0 <= i < j < |q| ==> q[i].id != q[j].id)
  }

  lemma {:induction false} IdOrder(a: Id, b: Id)
    ensures !IdBefore(a, a)
    ensures a == b || IdBefore(a, b) || IdBefore(b, a)
  {
    if a != "" {
      IdOrder(a[1..], if b == "" then "" else b[1..]);
      assert a == [a[0]] + a[1..];
      assert b != "" ==> b == [b[0]] + b[1..];
    }
  }

  /** `a` and `b` share their first `i` bytes, and then `a` ends or has the smaller one. */
  predicate FirstDifference(a: Id, b: Id, i: nat) {
    i <= |a| && i < |b| && a[..i] == b[..i] && (i == |a| || a[i] < b[i])
  }

  /** Neither prefix is looked at twice. */
  lemma DifferenceInRest(a: Id, b: Id, i: nat)
    requires a != "" && b != "" && a[0] == b[0] && i < |a| && i < |b|
    ensures FirstDifference(a, b, i + 1) <==> FirstDifference(a[1..], b[1..], i)
  {
    assert a[..i + 1] == [a[0]] + a[1..][..i] && b[..i + 1] == [b[0]] + b[1..][..i];
    assert a[..i + 1][1..] == a[1..][..i] && b[..i + 1][1..] == b[1..][..i];
  }

  lemma {:induction false} IdBeforeIsByteOrder(a: Id, b: Id)
    ensures IdBefore(a, b) <==> exists i: nat :: FirstDifference(a, b, i)
  {
    if a == "" || b == "" || a[0] != b[0] {
      forall i: nat | i > 0 ensures !FirstDifference(a, b, i) {
        if i <= |a| && i < |b| {
          assert a[..i][0] == a[0] && b[..i][0] == b[0];
        }
      }
      assert IdBefore(a, b) <==> FirstDifference(a, b, 0);
    } else {
      IdBeforeIsByteOrder(a[1..], b[1..]);
      if i: nat :| FirstDifference(a, b, i) {
        DifferenceInRest(a, b, i - 1);
      }
      if i: nat :| FirstDifference(a[1..], b[1..], i) {
        DifferenceInRest(a, b, i);
      }
    }
  }

  lemma {:induction false} IdTransitive(a: Id, b: Id, c: Id)
    requires IdBefore(a, b) && IdBefore(b, c)
    ensures IdBefore(a, c)
  {
    if a != "" && a[0] == b[0] && b[0] == c[0] {
      IdTransitive(a[1..], b[1..], c[1..]);
    }
  }

  lemma BeforeTransitive(x: Entry, y: Entry, z: Entry)
    requires Before(x, y) && Before(y, z)
    ensures Before(x, z)
  {
    if x.score == y.score && y.score == z.score {
      IdTransitive(x.id, y.id, z.id);
    }
  }

  /** ZREMRANGEBYSCORE -inf bound: the bound itself goes too. */
  function EvictThrough(q: SortedSet, bound: int): SortedSet {
    if q == [] then [] else
    if q[0].score <= bound then EvictThrough(q[1..], bound) else [q[0]] + EvictThrough(q[1..], bound)
  }

  /** ZREM */
  function Remove(q: SortedSet, id: Id): SortedSet {
    if q == [] then [] else if q[0].id == id then Remove(q[1..], id) else [q[0]] + Remove(q[1..], id)
  }

  function Insert(q: SortedSet, e: Entry): SortedSet {
    if q == [] then [e] else if Before(e, q[0]) then [e] + q else [q[0]] + Insert(q[1..], e)
  }

  /** ZADD */
  function Add(q: SortedSet, score: int, id: Id): SortedSet {
    Insert(Remove(q, id), Entry(score, id))
  }

  // ---- Membership and order --------------------------------------------------------------------

  lemma SortedTail(q: SortedSet)
    requires Sorted(q) && q != []
    ensures Sorted(q[1..])
    ensures forall e :: e in q[1..] ==> Before(q[0], e) && e.id != q[0].id
  {
    forall e | e in q[1..] ensures Before(q[0], e) && e.id != q[0].id {
      var i :| 0 <= i < |q[1..]| && q[1..][i] == e;
      assert q[i + 1] == e;
    }
  }

  lemma SortedCons(e: Entry, q: SortedSet)
    requires Sorted(q) && forall x :: x in q ==> Before(e, x) && x.id != e.id
    ensures Sorted([e] + q)
  {
  }

  lemma {:induction false} EvictFacts(q: SortedSet, bound: int)
    ensures forall e :: e in EvictThrough(q, bound) <==> e in q && e.score > bound
    ensures Sorted(q) ==> Sorted(EvictThrough(q, bound))
  {
    if q != [] {
      EvictFacts(q[1..], bound);
      if Sorted(q) {
        SortedTail(q);
        SortedCons(q[0], EvictThrough(q[1..], bound));
      }
    }
  }

  lemma {:induction false} RemoveFacts(q: SortedSet, id: Id)
    ensures forall e :: e in Remove(q, id) <==> e in q && e.id != id
    ensures Sorted(q) ==> Sorted(Remove(q, id))
  {
    if q != [] {
      RemoveFacts(q[1..], id);
      if Sorted(q) {
        SortedTail(q);
        SortedCons(q[0], Remove(q[1..], id));
      }
    }
  }

  lemma {:induction false} InsertFacts(q: SortedSet, e: Entry)
    requires Sorted(q) && forall x :: x in q ==> x.id != e.id
    ensures Sorted(Insert(q, e))
    ensures forall x :: x in Insert(q, e) <==> x in q || x == e
  {
    if q == [] {
    } else if Before(e, q[0]) {
      SortedTail(q);
      forall x | x in q ensures Before(e, x) {
        if x != q[0] {
          BeforeTransitive(e, q[0], x);
        }
      }
      SortedCons(e, q);
    } else {
      SortedTail(q);
      InsertFacts(q[1..], e);
      IdOrder(e.id, q[0].id);
      SortedCons(q[0], Insert(q[1..], e));
    }
  }

  /** ZADD replaces the member's old score and keeps everyone else. */
  lemma AddFacts(q: SortedSet, score: int, id: Id)
    requires Sorted(q)
    ensures Sorted(Add(q, score, id))
    ensures forall e :: e in Add(q, score, id) <==> e == Entry(score, id) || (e in q && e.id != id)
  {
    RemoveFacts(q, id);
    InsertFacts(Remove(q, id), Entry(score, id));
  }

  lemma SameMember(q: SortedSet, x: Entry, y: Entry)
    requires Sorted(q) && x in q && y in q && x.id == y.id
    ensures x == y
  {
    var i :| 0 <= i < |q| && q[i] == x;
    var j :| 0 <= j < |q| && q[j] == y;
  }
}
