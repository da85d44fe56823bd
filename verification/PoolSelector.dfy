/** Weighted rotation over pools (internal/reservation/pool_selector.go): over any window as long as the
    total weight, each pool is chosen exactly its weight many times, whatever order the pools come in. */
module PoolSelector {
  import opened Rows

  datatype Candidate = Candidate(id: PoolId, maxConcurrency: int)

  function Weight(c: Candidate): (w: nat)
    ensures w >= 1
  {
    if c.maxConcurrency > 0 then c.maxConcurrency else 1
  }

  function Total(s: seq<Candidate>): (t: nat)
    ensures s != [] ==> t > 0
  {
    if s == [] then 0 else Weight(s[0]) + Total(s[1..])
  }

  // ---- Sorting by identifier ----

  function Insert(s: seq<Candidate>, c: Candidate): (result: seq<Candidate>) {
    if s == [] || c.id < s[0].id then [c] + s else [s[0]] + Insert(s[1..], c)
  }

  /** The stable sort by identifier. */
  function SortById(s: seq<Candidate>): (result: seq<Candidate>) {
    if s == [] then [] else Insert(SortById(s[..|s| - 1]), s[|s| - 1])
  }

  predicate DistinctIds(s: seq<Candidate>) {
    forall i, j :: 0 <= i < j < |s| ==> s[i].id != s[j].id
  }

  predicate Ascending(s: seq<Candidate>) {
    forall i, j :: 0 <= i < j < |s| ==> s[i].id < s[j].id
  }

  lemma {:induction false} InsertKeeps(s: seq<Candidate>, c: Candidate)
    ensures multiset(Insert(s, c)) == multiset(s) + multiset{c}
  {
    if s != [] && c.id >= s[0].id {
      InsertKeeps(s[1..], c);
      assert s == [s[0]] + s[1..];
    }
  }

  /** Whatever is inserted behind the first element stays above it. */
  lemma AboveTheFirst(s: seq<Candidate>, c: Candidate)
    requires s != [] && Ascending(s) && c.id > s[0].id
    ensures forall j :: 0 <= j < |Insert(s[1..], c)| ==> s[0].id < Insert(s[1..], c)[j].id
  {
    var rest := Insert(s[1..], c);
    InsertKeeps(s[1..], c);
    forall j | 0 <= j < |rest|
      ensures s[0].id < rest[j].id
    {
      assert rest[j] in multiset(rest);
      assert rest[j] in s[1..] || rest[j] == c;
    }
  }

  lemma {:induction false} InsertSorts(s: seq<Candidate>, c: Candidate)
    requires Ascending(s) && forall i :: 0 <= i < |s| ==> s[i].id != c.id
    ensures Ascending(Insert(s, c))
  {
    if s == [] || c.id < s[0].id {
    } else {
      InsertSorts(s[1..], c);
      AboveTheFirst(s, c);
    }
  }

  lemma NotAmong(s: seq<Candidate>, sorted: seq<Candidate>)
    requires s != [] && DistinctIds(s) && multiset(sorted) == multiset(s[..|s| - 1])
    ensures forall i :: 0 <= i < |sorted| ==> sorted[i].id != s[|s| - 1].id
  {
    forall i | 0 <= i < |sorted|
      ensures sorted[i].id != s[|s| - 1].id
    {
      assert sorted[i] in multiset(s[..|s| - 1]);
      assert sorted[i] in s[..|s| - 1];
    }
  }

  lemma {:induction false} SortSorts(s: seq<Candidate>)
    requires DistinctIds(s)
    ensures Ascending(SortById(s)) && multiset(SortById(s)) == multiset(s)
  {
    if s == [] {
    } else {
      var front, last := s[..|s| - 1], s[|s| - 1];
      SortSorts(front);
      NotAmong(s, SortById(front));
      InsertSorts(SortById(front), last);
      InsertKeeps(SortById(front), last);
      assert s == front + [last];
    }
  }

  lemma SameFirst(a: seq<Candidate>, b: seq<Candidate>)
    requires Ascending(a) && Ascending(b) && multiset(a) == multiset(b) && a != [] && b != []
    ensures a[0] == b[0]
  {
    assert a[0] in multiset(b) && b[0] in multiset(a);
    assert a[0] in b && b[0] in a;
  }

  lemma {:induction false} OneAscendingOrder(a: seq<Candidate>, b: seq<Candidate>)
    requires Ascending(a) && Ascending(b) && multiset(a) == multiset(b)
    ensures a == b
  {
    assert |multiset(a)| == |a| && |multiset(b)| == |b|;
    if a == [] {
    } else {
      SameFirst(a, b);
      assert a == [a[0]] + a[1..] && b == [b[0]] + b[1..];
      assert multiset(a[1..]) == multiset(a) - multiset{a[0]};
      assert multiset(b[1..]) == multiset(b) - multiset{b[0]};
      OneAscendingOrder(a[1..], b[1..]);
    }
  }

  lemma OrderDoesNotMatter(a: seq<Candidate>, b: seq<Candidate>)
    requires DistinctIds(a) && DistinctIds(b) && multiset(a) == multiset(b)
    ensures SortById(a) == SortById(b)
  {
    SortSorts(a);
    SortSorts(b);
    OneAscendingOrder(SortById(a), SortById(b));
  }

  // ---- The walk ----

  /** The pool that position `cursor` of one rotation belongs to. */
  function Pick(s: seq<Candidate>, cursor: nat): (result: PoolId)
    requires cursor < Total(s)
  {
    if cursor < Weight(s[0]) then s[0].id else Pick(s[1..], cursor - Weight(s[0]))
  }

  class Selector {
    var cursors: map<Platform, nat>

    constructor ()
      ensures cursors == map[]
    {
      cursors := map[];
    }

    function Cursor(p: Platform): (result: nat)
      reads this
    {
      if p in cursors then cursors[p] else 0
    }

    /** Chooses a pool and advances the cursor of the platform by one. */
    method Select(p: Platform, candidates: seq<Candidate>) returns (selected: Option<PoolId>)
      modifies this
      ensures candidates == [] ==> selected == None && cursors == old(cursors)
      ensures candidates != [] ==>
                var s := SortById(candidates);
                && Total(s) > 0
                && selected == Some(Pick(s, old(Cursor(p)) % Total(s)))
                && cursors == old(cursors)[p := (old(Cursor(p)) + 1) % Total(s)]
    {
      if candidates == [] {
        return None;
      }
      var s := SortById(candidates);
      SortKeepsLength(candidates);
      var total, n := 0, 0;
      while n < |s|
        invariant 0 <= n <= |s|
        invariant total + Total(s[n..]) == Total(s)
      {
        total := total + Weight(s[n]);
        n := n + 1;
      }
      var cursor: nat := Cursor(p) % total;
      ghost var start := cursor;
      var chosen := s[0].id;
      n := 0;
      while n < |s|
        invariant 0 <= n < |s| && cursor < Total(s[n..])
        invariant Pick(s, start) == Pick(s[n..], cursor)
        decreases |s| - n
      {
        var weight := Weight(s[n]);
        if cursor < weight {
          chosen := s[n].id;
          break;
        }
        cursor := cursor - weight;
        n := n + 1;
      }
      cursors := cursors[p := (Cursor(p) + 1) % total];
      selected := Some(chosen);
    }
  }

  lemma {:induction false} SortKeepsLength(s: seq<Candidate>)
    ensures |SortById(s)| == |s|
  {
    if s == [] {
    } else {
      SortKeepsLength(s[..|s| - 1]);
      InsertGrows(SortById(s[..|s| - 1]), s[|s| - 1]);
    }
  }

  lemma {:induction false} InsertGrows(s: seq<Candidate>, c: Candidate)
    ensures |Insert(s, c)| == |s| + 1
  {
    if s != [] && c.id >= s[0].id {
      InsertGrows(s[1..], c);
    }
  }

  // ---- One full rotation ----

  /** How many of the `n` positions from `from` on belong to pool `id`. */
  function Share(s: seq<Candidate>, id: PoolId, from: nat, n: nat): (result: nat)
    requires from + n <= Total(s)
    decreases n
  {
    if n == 0 then 0 else (if Pick(s, from) == id then 1 else 0) + Share(s, id, from + 1, n - 1)
  }

  function WeightOf(s: seq<Candidate>, id: PoolId): (result: nat) {
    if s == [] then 0 else (if s[0].id == id then Weight(s[0]) else 0) + WeightOf(s[1..], id)
  }

  lemma {:induction false} ShareSplits(s: seq<Candidate>, id: PoolId, from: nat, n: nat, m: nat)
    requires from + n + m <= Total(s)
    ensures Share(s, id, from, n + m) == Share(s, id, from, n) + Share(s, id, from + n, m)
    decreases n
  {
    if n == 0 {
    } else {
      ShareSplits(s, id, from + 1, n - 1, m);
    }
  }

  lemma {:induction false} FirstShare(s: seq<Candidate>, id: PoolId, from: nat)
    requires s != [] && from <= Weight(s[0])
    ensures Share(s, id, from, Weight(s[0]) - from) == if s[0].id == id then Weight(s[0]) - from else 0
    decreases Weight(s[0]) - from
  {
    if from < Weight(s[0]) {
      FirstShare(s, id, from + 1);
    }
  }

  lemma {:induction false} RestShare(s: seq<Candidate>, id: PoolId, from: nat, n: nat)
    requires s != [] && from + n <= Total(s[1..])
    ensures Share(s, id, Weight(s[0]) + from, n) == Share(s[1..], id, from, n)
    decreases n
  {
    if n == 0 {
    } else {
      RestShare(s, id, from + 1, n - 1);
    }
  }

  lemma {:induction false} FullRotation(s: seq<Candidate>, id: PoolId)
    ensures Share(s, id, 0, Total(s)) == WeightOf(s, id)
  {
    if s == [] {
    } else {
      ShareSplits(s, id, 0, Weight(s[0]), Total(s[1..]));
      FirstShare(s, id, 0);
      RestShare(s, id, 0, Total(s[1..]));
      FullRotation(s[1..], id);
    }
  }

  lemma {:induction false} WeightIsFound(s: seq<Candidate>, c: Candidate)
    requires DistinctIds(s) && c in s
    ensures WeightOf(s, c.id) == Weight(c)
  {
    if s[0] == c {
      NoWeight(s[1..], c.id);
    } else {
      assert c in s[1..];
      WeightIsFound(s[1..], c);
    }
  }

  lemma {:induction false} NoWeight(s: seq<Candidate>, id: PoolId)
    requires forall i :: 0 <= i < |s| ==> s[i].id != id
    ensures WeightOf(s, id) == 0
  {
    if s == [] {
    } else {
      NoWeight(s[1..], id);
    }
  }

  // ---- Windows of calls ----

  predicate Callable(calls: seq<seq<Candidate>>) {
    forall i :: 0 <= i < |calls| ==> Total(SortById(calls[i])) > 0
  }

  /** What consecutive calls answer, from what the cursor is before the first. */
  function Picks(cursor: nat, calls: seq<seq<Candidate>>): (result: seq<PoolId>)
    requires Callable(calls)
    decreases |calls|
  {
    if calls == [] then []
    else
      var s := SortById(calls[0]);
      [Pick(s, cursor % Total(s))] + Picks((cursor + 1) % Total(s), calls[1..])
  }

  /** Every call is given the same pools, in some order. */
  predicate SamePools(calls: seq<seq<Candidate>>, pools: seq<Candidate>) {
    forall i :: 0 <= i < |calls| ==> DistinctIds(calls[i]) && multiset(calls[i]) == multiset(pools)
  }

  /** The positions of `n` consecutive calls, one after the other around the rotation. */
  function Round(s: seq<Candidate>, at: nat, n: nat): (result: seq<PoolId>)
    requires at < Total(s)
    decreases n
  {
    if n == 0 then [] else [Pick(s, at)] + Round(s, if at + 1 == Total(s) then 0 else at + 1, n - 1)
  }

  lemma SameOrder(call: seq<Candidate>, pools: seq<Candidate>)
    requires DistinctIds(call) && DistinctIds(pools) && multiset(call) == multiset(pools) && pools != []
    ensures SortById(call) == SortById(pools) && Total(SortById(call)) > 0
  {
    OrderDoesNotMatter(call, pools);
    SortKeepsLength(pools);
  }

  lemma {:induction false} PicksGoRound(cursor: nat, calls: seq<seq<Candidate>>, pools: seq<Candidate>)
    requires pools != [] && DistinctIds(pools) && SamePools(calls, pools)
    ensures Callable(calls) && Total(SortById(pools)) > 0
    ensures Picks(cursor, calls) == Round(SortById(pools), cursor % Total(SortById(pools)), |calls|)
    decreases |calls|
  {
    SameOrder(pools, pools);
    forall i | 0 <= i < |calls|
      ensures Total(SortById(calls[i])) > 0
    {
      SameOrder(calls[i], pools);
    }
    if calls == [] {
    } else {
      SameOrder(calls[0], pools);
      NextPosition(cursor, Total(SortById(pools)));
      PicksGoRound((cursor + 1) % Total(SortById(pools)), calls[1..], pools);
    }
  }

  lemma NextPosition(cursor: nat, total: nat)
    requires total > 0
    ensures (cursor + 1) % total == if cursor % total + 1 == total then 0 else cursor % total + 1
    ensures ((cursor + 1) % total) % total == (cursor + 1) % total
  {
    var q, at := cursor / total, cursor % total;
    assert cursor == total * q + at;
    if at + 1 == total {
      assert total * (q + 1) == total * q + total;
      Remainder(cursor + 1, total, q + 1, 0);
    } else {
      Remainder(cursor + 1, total, q, at + 1);
    }
    Remainder((cursor + 1) % total, total, 0, (cursor + 1) % total);
  }

  lemma Remainder(n: nat, total: nat, q: nat, r: nat)
    requires r < total && n == total * q + r
    ensures n % total == r
  {
    var d, e := n / total, n % total;
    assert n == total * d + e;
    if d < q {
      Multiples(total, d + 1, q);
      assert false;
    } else if q < d {
      Multiples(total, q + 1, d);
      assert false;
    }
  }

  lemma Multiples(total: nat, a: nat, b: nat)
    requires a <= b
    ensures total * a <= total * b
  {
  }

  /** How many of `n` calls from position `at` on pick pool `id`. */
  function Tally(s: seq<Candidate>, at: nat, n: nat, id: PoolId): (result: nat)
    requires at < Total(s)
    decreases n
  {
    if n == 0 then 0
    else (if Pick(s, at) == id then 1 else 0) + Tally(s, if at + 1 == Total(s) then 0 else at + 1, n - 1, id)
  }

  lemma {:induction false} RoundCounts(s: seq<Candidate>, at: nat, n: nat, id: PoolId)
    requires at < Total(s)
    ensures multiset(Round(s, at, n))[id] == Tally(s, at, n, id)
    decreases n
  {
    if n == 0 {
    } else {
      var next := if at + 1 == Total(s) then 0 else at + 1;
      var first, rest := Pick(s, at), Round(s, next, n - 1);
      assert Round(s, at, n) == [first] + rest;
      FirstOfRound(first, rest, id);
      RoundCounts(s, next, n - 1, id);
    }
  }

  lemma FirstOfRound(first: PoolId, rest: seq<PoolId>, id: PoolId)
    ensures multiset([first] + rest)[id] == (if first == id then 1 else 0) + multiset(rest)[id]
  {
  }

  lemma {:induction false} StretchTally(s: seq<Candidate>, at: nat, n: nat, id: PoolId)
    requires at < Total(s) && at + n <= Total(s)
    ensures Tally(s, at, n, id) == Share(s, id, at, n)
    decreases n
  {
    if n > 1 {
      StretchTally(s, at + 1, n - 1, id);
    }
  }

  /** Calls that pass the end of the rotation count the positions up to it and those from its start. */
  lemma {:induction false} WrapTally(s: seq<Candidate>, at: nat, n: nat, id: PoolId)
    requires at < Total(s) && Total(s) <= at + n <= 2 * Total(s)
    ensures Tally(s, at, n, id) == Share(s, id, at, Total(s) - at) + Share(s, id, 0, at + n - Total(s))
    decreases n
  {
    if at + 1 == Total(s) {
      StretchTally(s, 0, n - 1, id);
    } else {
      WrapTally(s, at + 1, n - 1, id);
    }
  }

  /** Weighted rotation is exact. With an unchanged set of pools, given to each call in any order, any
      window of as many consecutive calls as the total weight picks each pool exactly its weight many
      times, wherever the cursor stands when the window begins; a pool without a limit weighs one. */
  lemma WindowIsExact(cursor: nat, calls: seq<seq<Candidate>>, pools: seq<Candidate>, c: Candidate)
    requires DistinctIds(pools) && SamePools(calls, pools) && c in pools
    requires |calls| == Total(SortById(pools))
    ensures Callable(calls)
    ensures multiset(Picks(cursor, calls))[c.id] == if c.maxConcurrency > 0 then c.maxConcurrency else 1
  {
    var s := SortById(pools);
    PicksGoRound(cursor, calls, pools);
    SortSorts(pools);
    assert c in multiset(s);
    RoundIsExact(s, cursor % Total(s), c);
  }

  lemma RoundIsExact(s: seq<Candidate>, at: nat, c: Candidate)
    requires at < Total(s) && Ascending(s) && c in s
    ensures multiset(Round(s, at, Total(s)))[c.id] == Weight(c)
  {
    RoundCounts(s, at, Total(s), c.id);
    WrapTally(s, at, Total(s), c.id);
    ShareSplits(s, c.id, 0, at, Total(s) - at);
    FullRotation(s, c.id);
    WeightIsFound(s, c);
  }
}
