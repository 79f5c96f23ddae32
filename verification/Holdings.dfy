/** Counting the rows that any number of workers hold in memory. */
module Holdings {
  import opened Prelude
  import opened Events

  /** How often `id` occurs across all hands. */
  function Held(hands: seq<seq<Uuid>>, id: Uuid): nat {
    if hands == [] then 0 else Held(hands[..|hands| - 1], id) + multiset(hands[|hands| - 1])[id]
  }

  lemma {:induction false} HeldUpdate(hands: seq<seq<Uuid>>, w: nat, hand: seq<Uuid>, id: Uuid)
    requires w < |hands|
    ensures Held(hands[w := hand], id) + multiset(hands[w])[id] == Held(hands, id) + multiset(hand)[id]
  {
    var last := |hands| - 1;
    if w == last {
      assert hands[w := hand][..last] == hands[..last];
    } else {
      assert hands[w := hand][..last] == hands[..last][w := hand];
      HeldUpdate(hands[..last], w, hand, id);
    }
  }

  lemma {:induction false} HeldByOne(hands: seq<seq<Uuid>>, w: nat, id: Uuid)
    requires w < |hands|
    ensures Held(hands, id) >= multiset(hands[w])[id]
  {
    if w < |hands| - 1 {
      HeldByOne(hands[..|hands| - 1], w, id);
    }
  }

  function Empty(n: nat): seq<seq<Uuid>> { seq(n, _ => []) }

  lemma {:induction false} NobodyHolds(n: nat, id: Uuid)
    ensures Held(Empty(n), id) == 0
  {
    if n > 0 {
      assert Empty(n)[..n - 1] == Empty(n - 1);
      NobodyHolds(n - 1, id);
    }
  }

  lemma {:induction false} DistinctCount(ids: seq<Uuid>, id: Uuid)
    requires Distinct(ids)
    ensures multiset(ids)[id] == if id in ids then 1 else 0
  {
    if ids != [] {
      var init, last := ids[..|ids| - 1], ids[|ids| - 1];
      assert ids == init + [last];
      DistinctCount(init, id);
    }
  }

  lemma HeadAndRest(ids: seq<Uuid>, id: Uuid)
    requires ids != []
    ensures multiset(ids)[id] == (if id == ids[0] then 1 else 0) + multiset(ids[1..])[id]
  {
    assert ids == [ids[0]] + ids[1..];
  }

  /** Distinct rows drained from a table are no more than the table has. */
  lemma {:induction false} DrainedAreRows(ids: seq<Uuid>, keys: set<Uuid>)
    requires Distinct(ids) && forall id :: id in ids ==> id in keys
    ensures |ids| <= |keys|
  {
    if ids != [] {
      var init, last := ids[..|ids| - 1], ids[|ids| - 1];
      DrainedAreRows(init, keys - {last});
    }
  }

  lemma {:induction false} HeldByNobody(hands: seq<seq<Uuid>>, id: Uuid)
    requires forall h :: h in hands ==> id !in h
    ensures Held(hands, id) == 0
  {
    if hands != [] {
      assert hands[|hands| - 1] in hands;
      HeldByNobody(hands[..|hands| - 1], id);
    }
  }

  lemma {:induction false} HeldByTwo(hands: seq<seq<Uuid>>, v: nat, w: nat, id: Uuid)
    requires v < |hands| && w < |hands| && v != w
    ensures Held(hands, id) >= multiset(hands[v])[id] + multiset(hands[w])[id]
  {
    var last := |hands| - 1;
    if v == last {
      HeldByOne(hands[..last], w, id);
    } else if w == last {
      HeldByOne(hands[..last], v, id);
    } else {
      HeldByTwo(hands[..last], v, w, id);
    }
  }

  // ---- claims ----

  lemma {:induction false} SomeIsLowest(ids: set<Uuid>, key: Uuid -> int)
    requires ids != {}
    ensures exists id :: id in ids && forall x :: x in ids ==> key(id) <= key(x)
  {
    var y :| y in ids;
    var rest := ids - {y};
    assert forall x :: x in ids ==> x == y || x in rest;
    if rest != {} {
      SomeIsLowest(rest, key);
      var z :| z in rest && forall x :: x in rest ==> key(z) <= key(x);
      LowestOfBoth(ids, key, y, z);
    }
  }

  lemma LowestOfBoth(ids: set<Uuid>, key: Uuid -> int, y: Uuid, z: Uuid)
    requires y in ids && z in ids && forall x :: x in ids && x != y ==> key(z) <= key(x)
    ensures exists id :: id in ids && forall x :: x in ids ==> key(id) <= key(x)
  {
    var lowest := if key(y) <= key(z) then y else z;
    assert lowest in ids && forall x :: x in ids ==> key(lowest) <= key(x);
  }

  /** Nothing left behind comes before anything taken. */
  predicate TakenFirst(ids: seq<Uuid>, due: set<Uuid>, key: Uuid -> int) {
    forall x, y :: x in ids && y in due && y !in ids ==> key(x) <= key(y)
  }

  /** The first `min(limit, |due|)` by `key`, once each; the database breaks ties as it likes. */
  method TakeFirst(due: set<Uuid>, key: Uuid -> int, limit: nat) returns (ids: seq<Uuid>)
    ensures Distinct(ids) && |ids| == Min(limit, |due|) && TakenFirst(ids, due, key)
    ensures forall id :: id in ids ==> id in due
  {
    ids := [];
    var left := due;
    while |ids| < limit && left != {}
      invariant Distinct(ids) && |ids| <= limit && |ids| + |left| == |due| && left <= due
      invariant forall x :: x in due <==> x in ids || x in left
      invariant forall x :: x in ids ==> x !in left
      invariant forall x, y :: x in ids && y in left ==> key(x) <= key(y)
      decreases left
    {
      SomeIsLowest(left, key);
      var id :| id in left && forall x :: x in left ==> key(id) <= key(x);
      left := left - {id};
      ids := ids + [id];
    }
  }

  // ---- drainers ----

  /** A drainer holds its claimed rows in memory; once the transport answered for the first of
      them, `verdict` waits to be applied. */
  datatype Worker<V, T> = Worker(hand: seq<Uuid>, verdict: Option<V>, total: T)

  /** Rows claimed but not yet handed to the transport. */
  function Unsent<V, T>(worker: Worker<V, T>): seq<Uuid> {
    if worker.verdict.Some? && worker.hand != [] then worker.hand[1..] else worker.hand
  }

  function Hands<V, T>(workers: seq<Worker<V, T>>): seq<seq<Uuid>> {
    seq(|workers|, i requires 0 <= i < |workers| => Unsent(workers[i]))
  }

  predicate InHand<V, T>(workers: seq<Worker<V, T>>, id: Uuid) {
    exists w :: 0 <= w < |workers| && id in workers[w].hand
  }

  lemma WorkerChange<V, T>(workers: seq<Worker<V, T>>, w: nat, worker: Worker<V, T>, id: Uuid)
    requires w < |workers|
    ensures Held(Hands(workers[w := worker]), id) + multiset(Unsent(workers[w]))[id]
      == Held(Hands(workers), id) + multiset(Unsent(worker))[id]
  {
    HeldUpdate(Hands(workers), w, Unsent(worker), id);
    assert Hands(workers[w := worker]) == Hands(workers)[w := Unsent(worker)];
  }

  /** `n` drainers with nothing to do. */
  function Crew<V, T>(idle: Worker<V, T>, n: nat): (crew: seq<Worker<V, T>>)
    ensures |crew| == n && forall w :: 0 <= w < n ==> crew[w] == idle
  {
    seq(n, _ => idle)
  }

  lemma IdleHoldNothing<V, T>(n: nat, idle: Worker<V, T>, id: Uuid)
    requires idle.hand == []
    ensures Held(Hands(Crew(idle, n)), id) == 0
  {
    NobodyHolds(n, id);
    assert Hands(Crew(idle, n)) == Empty(n);
  }

  lemma NotInHand<V, T>(workers: seq<Worker<V, T>>, id: Uuid)
    requires !InHand(workers, id)
    ensures Held(Hands(workers), id) == 0
  {
    forall h | h in Hands(workers)
      ensures id !in h
    {
      var w :| 0 <= w < |workers| && h == Unsent(workers[w]);
      assert id !in workers[w].hand;
    }
    HeldByNobody(Hands(workers), id);
  }
}
