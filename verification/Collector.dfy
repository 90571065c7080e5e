/** collector/main.go: a bounded store of runs, refined by a fold over everything ever ingested. */
module Collector {
  import opened Paths

  const MAX_OBS_PER_RUN: nat := 4096

  // ---- specification over the ingest history ----

  function LastOf<T>(s: seq<T>, n: int): seq<T> {
    if n <= 0 then [] else if |s| <= n then s else s[|s| - n..]
  }

  function FirstOf<T>(s: seq<T>, n: nat): seq<T> {
    if |s| <= n then s else s[..n]
  }

  /** The ids in the order in which they entered the store; an id evicted and seen again is born again. */
  function Births(h: seq<Observation>, cap: int): seq<string> {
    if h == [] then []
    else
      var b, id := Births(h[..|h| - 1], cap), h[|h| - 1].id;
      if id in LastOf(b, cap) then b else b + [id]
  }

  /** FIFO retention: the last `cap` births. */
  function Retained(h: seq<Observation>, cap: int): seq<string> {
    LastOf(Births(h, cap), cap)
  }

  /** The observations of `id` since its latest birth. */
  function SinceBirth(h: seq<Observation>, id: string, cap: int): seq<Observation> {
    if h == [] then []
    else
      var before, o := h[..|h| - 1], h[|h| - 1];
      if o.id != id then SinceBirth(before, id, cap)
      else if id in Retained(before, cap) then SinceBirth(before, id, cap) + [o]
      else [o]
  }

  /** Every observation of `id`, for a store whose cap retains nobody. */
  function AllOf(h: seq<Observation>, id: string): seq<Observation> {
    if h == [] then []
    else AllOf(h[..|h| - 1], id) + if h[|h| - 1].id == id then [h[|h| - 1]] else []
  }

  function Ids(h: seq<Observation>): set<string> {
    set i | 0 <= i < |h| :: h[i].id
  }

  ghost predicate Distinct<T(!new)>(s: seq<T>) {
    forall i, j :: 0 <= i < j < |s| ==> s[i] != s[j]
  }

  function ToSet<T>(s: seq<T>): set<T> {
    set x | x in s
  }

  type Runs = map<string, seq<Observation>>

  /**
   * What the store holds after ingesting `h`. With a positive cap: the retained runs, each cut at the per-run
   * cap. With cap zero: every run ever seen, in no order list and so never evicted. Below zero: nothing.
   */
  ghost predicate Refines(runs: Runs, order: seq<string>, h: seq<Observation>, cap: int) {
    if cap >= 1 then
      && order == Retained(h, cap)
      && runs.Keys == ToSet(order)
      && forall id :: id in runs ==> runs[id] == FirstOf(SinceBirth(h, id, cap), MAX_OBS_PER_RUN)
    else if cap == 0 then
      && order == []
      && runs.Keys == Ids(h)
      && forall id :: id in runs ==> runs[id] == FirstOf(AllOf(h, id), MAX_OBS_PER_RUN)
    else
      order == [] && runs == map[]
  }

  /** No id is retained twice. */
  lemma {:induction false} RetainedDistinct(h: seq<Observation>, cap: int)
    ensures Distinct(Retained(h, cap))
    ensures |Retained(h, cap)| == (if cap <= 0 then 0 else if |Births(h, cap)| <= cap then |Births(h, cap)| else cap)
  {
    if h != [] {
      RetainedDistinct(h[..|h| - 1], cap);
      LastOfAppend(Births(h[..|h| - 1], cap), h[|h| - 1].id, cap);
    }
  }

  /** A birth shifts the retained window by one once it is full. */
  lemma LastOfAppend<T>(b: seq<T>, x: T, cap: int)
    ensures LastOf(b + [x], cap) ==
            if cap <= 0 then [] else if |b| < cap then LastOf(b, cap) + [x] else LastOf(b, cap)[1..] + [x]
  {
  }

  /** A run that fills its cap keeps its first observations. */
  lemma FirstOfAppend<T>(s: seq<T>, x: T, n: nat)
    ensures FirstOf(s + [x], n) == if |FirstOf(s, n)| >= n then FirstOf(s, n) else FirstOf(s, n) + [x]
  {
  }

  /** What an observation of a stored run adds. */
  lemma KnownStep(h: seq<Observation>, o: Observation, cap: int)
    ensures o.id in Retained(h, cap) ==>
              && Retained(h + [o], cap) == Retained(h, cap)
              && SinceBirth(h + [o], o.id, cap) == SinceBirth(h, o.id, cap) + [o]
              && FirstOf(SinceBirth(h + [o], o.id, cap), MAX_OBS_PER_RUN) ==
                 (var kept := FirstOf(SinceBirth(h, o.id, cap), MAX_OBS_PER_RUN);
                  if |kept| >= MAX_OBS_PER_RUN then kept else kept + [o])
    ensures FirstOf(AllOf(h + [o], o.id), MAX_OBS_PER_RUN) ==
            (var kept := FirstOf(AllOf(h, o.id), MAX_OBS_PER_RUN);
             if |kept| >= MAX_OBS_PER_RUN then kept else kept + [o])
  {
    assert (h + [o])[..|h|] == h;
    FirstOfAppend(SinceBirth(h, o.id, cap), o, MAX_OBS_PER_RUN);
    FirstOfAppend(AllOf(h, o.id), o, MAX_OBS_PER_RUN);
  }

  /** What an observation of a run not stored starts. */
  lemma NewStep(h: seq<Observation>, o: Observation, cap: int)
    ensures o.id !in Retained(h, cap) ==>
              && Retained(h + [o], cap) == LastOf(Retained(h, cap) + [o.id], cap)
              && (cap >= 1 ==> o.id in Retained(h + [o], cap))
              && SinceBirth(h + [o], o.id, cap) == [o]
    ensures o.id !in Ids(h) ==> AllOf(h + [o], o.id) == [o]
  {
    assert (h + [o])[..|h|] == h;
    var b := Births(h, cap);
    LastOfAppend(b, o.id, cap);
    LastOfAppend(LastOf(b, cap), o.id, cap);
    if o.id !in Ids(h) {
      NoneOf(h, o.id);
    }
  }

  lemma {:induction false} NoneOf(h: seq<Observation>, id: string)
    requires id !in Ids(h)
    ensures AllOf(h, id) == []
  {
    if h != [] {
      assert h[|h| - 1].id in Ids(h);
      assert Ids(h[..|h| - 1]) <= Ids(h);
      NoneOf(h[..|h| - 1], id);
    }
  }

  /** Other runs are not touched. */
  lemma SameElsewhere(h: seq<Observation>, o: Observation, cap: int)
    ensures forall id :: id != o.id ==> SinceBirth(h + [o], id, cap) == SinceBirth(h, id, cap)
    ensures forall id :: id != o.id ==> AllOf(h + [o], id) == AllOf(h, id)
    ensures Ids(h + [o]) == Ids(h) + {o.id}
  {
    assert (h + [o])[..|h|] == h;
    assert forall i :: 0 <= i < |h| ==> (h + [o])[i] == h[i];
    assert (h + [o])[|h|].id == o.id;
  }

  /** The tail of `add`: append unless the run is full. */
  function Stored(runs: Runs, o: Observation): Runs {
    var have := if o.id in runs then runs[o.id] else [];
    if |have| >= MAX_OBS_PER_RUN then runs else runs[o.id := have + [o]]
  }

  lemma KnownRefines(runs: Runs, order: seq<string>, h: seq<Observation>, o: Observation, cap: int)
    requires Refines(runs, order, h, cap) && o.id in runs
    ensures Refines(Stored(runs, o), order, h + [o], cap) && cap >= 0
  {
    hide FirstOf, SinceBirth, AllOf, Retained, Ids;
    KnownStep(h, o, cap);
    SameElsewhere(h, o, cap);
  }

  lemma NewRefines(runs: Runs, order: seq<string>, h: seq<Observation>, o: Observation, cap: int, left: Runs)
    requires Refines(runs, order, h, cap) && o.id !in runs && cap >= 0
    requires left.Keys == runs.Keys - (ToSet(order + [o.id]) - ToSet(LastOf(order + [o.id], cap)))
    requires forall id :: id in left ==> left[id] == runs[id]
    ensures Refines(Stored(left, o), LastOf(order + [o.id], cap), h + [o], cap)
  {
    hide SinceBirth, AllOf, Retained, Ids;
    NewStep(h, o, cap);
    SameElsewhere(h, o, cap);
    var order1 := LastOf(order + [o.id], cap);
    if cap >= 1 {
      assert forall id :: id in order1 ==> id in order || id == o.id;
      assert Stored(left, o).Keys == ToSet(order1);
    } else {
      assert ToSet(order + [o.id]) == {o.id};
      assert left.Keys == runs.Keys;
    }
  }

  class Store {
    var runs: map<string, seq<Observation>>
    var order: seq<string>
    const cap: int
    ghost var history: seq<Observation>

    ghost predicate Valid()
      reads this
    {
      Refines(runs, order, history, cap)
    }

    constructor (cap: int)
      ensures Valid() && history == [] && this.cap == cap
    {
      this.cap := cap;
      runs, order, history := map[], [], [];
    }

    /** The eviction loop: oldest first. With a negative cap it runs off the empty list and panics. */
    method Evict() returns (panicked: bool)
      requires Distinct(order)
      modifies this`runs, this`order
      ensures panicked <==> cap < 0
      ensures order == LastOf(old(order), cap)
      ensures runs.Keys == old(runs).Keys - (ToSet(old(order)) - ToSet(order))
      ensures forall id :: id in runs ==> runs[id] == old(runs)[id]
    {
      ghost var order0, runs0, start := order, runs, 0;
      while |order| > cap
        invariant 0 <= start <= |order0| && order == order0[start..]
        invariant start > 0 ==> |order| >= cap
        invariant runs.Keys == runs0.Keys - ToSet(order0[..start])
        invariant forall id :: id in runs ==> runs[id] == runs0[id]
        decreases |order|
      {
        if |order| == 0 {
          SplitDistinct(order0, start);
          return true;
        }
        var oldest := order[0];
        order := order[1..];
        runs := runs - {oldest};
        start := start + 1;
        assert order0[..start] == order0[..start - 1] + [oldest];
      }
      SplitDistinct(order0, start);
      panicked := false;
    }

    /** `add`. */
    method Add(o: Observation) returns (panicked: bool)
      requires Valid()
      modifies this`runs, this`order, this`history
      ensures Valid() && history == old(history) + [o]
      ensures panicked <==> cap < 0
    {
      hide Refines, Distinct, ToSet, LastOf;
      ghost var h0, runs0, order0 := history, runs, order;
      history := history + [o];
      panicked := false;
      if o.id !in runs {
        FreshDistinct(runs0, order0, h0, o.id, cap);
        order := order + [o.id];
        panicked := Evict();
        if panicked {
          NothingStored(runs0, order0, h0, o, cap, runs);
          return;
        }
        NewRefines(runs0, order0, h0, o, cap, runs);
      } else {
        KnownRefines(runs0, order0, h0, o, cap);
      }
      var have := if o.id in runs then runs[o.id] else [];
      if |have| >= MAX_OBS_PER_RUN { return; }
      runs := runs[o.id := have + [o]];
    }

    /**
     * `path`: a copy of the run, sorted in place by (hop, timestamp text). Any stable sort gives this result
     * (Paths.StableSortUnique); this one is the insertion sort SliceStable starts from.
     */
    method Path(id: string) returns (out: seq<Observation>)
      ensures var run := if id in runs then runs[id] else [];
              Sorted(out) && StableOf(out, run)
    {
      var run := if id in runs then runs[id] else [];
      var obs := new Observation[|run|](i requires 0 <= i < |run| => run[i]);
      assert obs[..] == run;
      SortStable(obs);
      out := obs[..];
    }

    /** `ids`: the retained ids, oldest first, with what each holds. */
    method ListIds() returns (out: seq<(string, nat)>)
      requires Valid()
      ensures |out| == |order|
      ensures forall i :: 0 <= i < |order| ==> order[i] in runs
      ensures forall i :: 0 <= i < |order| ==> out[i] == (order[i], |runs[order[i]]|)
    {
      hide Refines;
      OrderStored(runs, order, history, cap);
      out := [];
      for i := 0 to |order|
        invariant |out| == i
        invariant forall j :: 0 <= j < i ==> out[j] == (order[j], |runs[order[j]]|)
      {
        out := out + [(order[i], |runs[order[i]]|)];
      }
    }
  }

  lemma OrderStored(runs: Runs, order: seq<string>, h: seq<Observation>, cap: int)
    requires Refines(runs, order, h, cap)
    ensures forall i :: 0 <= i < |order| ==> order[i] in runs
  {
    forall i | 0 <= i < |order| ensures order[i] in runs {
      assert order[i] in ToSet(order);
    }
  }

  // ---- what a stored run holds ----

  /** A stored run holds everything observed of it since its birth, up to 4096 observations and then the first 4096. */
  lemma RunIsKept(runs: Runs, order: seq<string>, h: seq<Observation>, cap: int, id: string)
    requires Refines(runs, order, h, cap) && id in runs
    ensures var all := if cap >= 1 then SinceBirth(h, id, cap) else AllOf(h, id);
            && (|all| <= 4096 ==> runs[id] == all)
            && (|all| > 4096 ==> runs[id] == all[..4096])
  {
    hide SinceBirth, AllOf, Retained;
  }

  /** While no more runs have been seen than the cap allows, none is ever born twice and none evicted. */
  lemma {:induction false} BirthsBelowCap(h: seq<Observation>, cap: int)
    requires |Ids(h)| <= cap
    ensures Distinct(Births(h, cap)) && ToSet(Births(h, cap)) == Ids(h)
    ensures |Births(h, cap)| <= cap && Retained(h, cap) == Births(h, cap)
  {
    if h != [] {
      var before, id := h[..|h| - 1], h[|h| - 1].id;
      assert h == before + [h[|h| - 1]];
      SameElsewhere(before, h[|h| - 1], cap);
      SubsetSize(Ids(before), Ids(h));
      BirthsBelowCap(before, cap);
      var b := Births(before, cap);
      if id in b {
        assert id in ToSet(b);
        assert Ids(h) == Ids(before);
      } else {
        assert ToSet(b + [id]) == ToSet(b) + {id};
      }
    }
    DistinctSize(Births(h, cap));
  }

  lemma SubsetSize<T>(a: set<T>, b: set<T>)
    requires a <= b
    ensures |a| <= |b|
  {
    assert b == a + (b - a);
  }

  lemma {:induction false} DistinctSize<T(!new)>(s: seq<T>)
    requires Distinct(s)
    ensures |ToSet(s)| == |s|
  {
    if s != [] {
      var t, x := s[..|s| - 1], s[|s| - 1];
      DistinctSize(t);
      assert s == t + [x];
      assert ToSet(s) == ToSet(t) + {x};
    }
  }

  /** Below the cap, what a run has seen since its birth is all that was ever ingested of it. */
  lemma {:induction false} NothingLostBelowCap(h: seq<Observation>, cap: int, id: string)
    requires |Ids(h)| <= cap
    ensures SinceBirth(h, id, cap) == AllOf(h, id)
    ensures id in Ids(h) ==> id in Retained(h, cap)
  {
    hide Births, Retained, LastOf;
    BirthsBelowCap(h, cap);
    if id in Ids(h) {
      assert id in ToSet(Births(h, cap));
    }
    if h != [] {
      var before, o := h[..|h| - 1], h[|h| - 1];
      assert h == before + [o];
      SameElsewhere(before, o, cap);
      SubsetSize(Ids(before), Ids(h));
      NothingLostBelowCap(before, cap, id);
      BirthsBelowCap(before, cap);
      if o.id == id && id !in Retained(before, cap) {
        assert id !in ToSet(Births(before, cap));
        NoneOf(before, id);
      }
    }
  }

  /**
   * `path` returns every observation: of a run with at most 4096 since its birth, a permutation of them all; and below
   * the cap on runs these are all that were ever ingested of it.
   */
  lemma PathHoldsAll(
      runs: Runs, order: seq<string>, h: seq<Observation>, cap: int, id: string, out: seq<Observation>)
    requires Refines(runs, order, h, cap) && id in runs && StableOf(out, runs[id])
    ensures cap >= 1 && |SinceBirth(h, id, cap)| <= 4096 ==> multiset(out) == multiset(SinceBirth(h, id, cap))
    ensures (cap == 0 || |Ids(h)| <= cap) && |AllOf(h, id)| <= 4096 ==> multiset(out) == multiset(AllOf(h, id))
    ensures |out| == |runs[id]| <= 4096
  {
    hide SinceBirth, AllOf, Retained, Ids, WithKey;
    RunIsKept(runs, order, h, cap, id);
    StableIsPermutation(out, runs[id]);
    assert |multiset(out)| == |out| && |multiset(runs[id])| == |runs[id]|;
    if cap >= 1 && |Ids(h)| <= cap {
      NothingLostBelowCap(h, cap, id);
    }
  }

  // ---- insertion order against least-recently-used order ----

  function Dropping(s: seq<string>, id: string): seq<string> {
    if s == [] then []
    else Dropping(s[..|s| - 1], id) + if s[|s| - 1] == id then [] else [s[|s| - 1]]
  }

  /** What least-recently-used eviction would retain: a run moves to the end whenever it is observed. */
  function LruOrder(h: seq<Observation>, cap: int): seq<string> {
    if h == [] then []
    else
      var order, id := LruOrder(h[..|h| - 1], cap), h[|h| - 1].id;
      if id in order then Dropping(order, id) + [id] else LastOf(order + [id], cap)
  }

  lemma {:induction false} DroppingAbsent(s: seq<string>, id: string)
    requires id !in s
    ensures Dropping(s, id) == s
  {
    if s != [] {
      DroppingAbsent(s[..|s| - 1], id);
    }
  }

  /** The observation is of a run that is not retained, or of the youngest one. */
  predicate TouchesYoungest(h: seq<Observation>, i: nat, cap: int)
    requires i < |h|
  {
    var r := Retained(h[..i], cap);
    h[i].id in r ==> h[i].id == r[|r| - 1]
  }

  lemma RetainedStep(h: seq<Observation>, cap: int)
    requires h != []
    ensures var r, id := Retained(h[..|h| - 1], cap), h[|h| - 1].id;
            Retained(h, cap) == if id in r then r else LastOf(r + [id], cap)
  {
    hide Births, LastOf;
    var before, o := h[..|h| - 1], h[|h| - 1];
    assert before + [o] == h;
    KnownStep(before, o, cap);
    NewStep(before, o, cap);
  }

  lemma MovedToEnd(r: seq<string>, id: string)
    requires Distinct(r) && id in r
    ensures Dropping(r, id) + [id] == r <==> id == r[|r| - 1]
  {
    var n := |r| - 1;
    if id == r[n] {
      DroppingAbsent(r[..n], id);
    } else {
      assert (Dropping(r, id) + [id])[|Dropping(r, id)|] == id;
    }
  }

  lemma {:induction false} YoungestAgrees(h: seq<Observation>, cap: int)
    requires cap >= 1 && forall i :: 0 <= i < |h| ==> TouchesYoungest(h, i, cap)
    ensures LruOrder(h, cap) == Retained(h, cap)
  {
    hide Births, LastOf, Dropping;
    if h != [] {
      var n := |h| - 1;
      var before := h[..n];
      forall i | 0 <= i < n ensures TouchesYoungest(before, i, cap) {
        assert TouchesYoungest(h, i, cap) && before[..i] == h[..i];
      }
      YoungestAgrees(before, cap);
      RetainedStep(h, cap);
      RetainedDistinct(before, cap);
      assert TouchesYoungest(h, n, cap);
      if h[n].id in Retained(before, cap) {
        MovedToEnd(Retained(before, cap), h[n].id);
      }
    } else {
      NothingRetained(cap);
    }
  }

  lemma NothingRetained(cap: int)
    ensures Retained([], cap) == []
  {
  }

  /** The documented least-recently-used order and the order the store keeps coincide all along the history. */
  ghost predicate LruThroughout(h: seq<Observation>, cap: int) {
    forall n :: 0 <= n <= |h| ==> LruOrder(h[..n], cap) == Retained(h[..n], cap)
  }

  /**
   * Exactly when eviction in insertion order is least-recently-used eviction: every observation of a retained run
   * is of the youngest one.
   */
  lemma FifoIsLruIff(h: seq<Observation>, cap: int)
    requires cap >= 1
    ensures LruThroughout(h, cap) <==> forall i :: 0 <= i < |h| ==> TouchesYoungest(h, i, cap)
  {
    hide Births, LastOf, Dropping, Retained;
    if LruThroughout(h, cap) {
      forall i | 0 <= i < |h| ensures TouchesYoungest(h, i, cap) {
        var before, now := h[..i], h[..i + 1];
        assert now[..|now| - 1] == before && now[|now| - 1] == h[i];
        assert LruOrder(before, cap) == Retained(before, cap) && LruOrder(now, cap) == Retained(now, cap);
        RetainedStep(now, cap);
        RetainedDistinct(before, cap);
        if h[i].id in Retained(before, cap) {
          MovedToEnd(Retained(before, cap), h[i].id);
        }
      }
    }
    if forall i :: 0 <= i < |h| ==> TouchesYoungest(h, i, cap) {
      forall n | 0 <= n <= |h| ensures LruOrder(h[..n], cap) == Retained(h[..n], cap) {
        forall i | 0 <= i < n ensures TouchesYoungest(h[..n], i, cap) {
          assert TouchesYoungest(h, i, cap) && h[..n][..i] == h[..i];
        }
        YoungestAgrees(h[..n], cap);
      }
    }
  }

  lemma FourRetained(a: Observation, b: Observation, c: Observation)
    requires a.id != b.id && b.id != c.id && a.id != c.id
    ensures Retained([a, b, a, c], 2) == [b.id, c.id]
  {
    assert [a, b, a, c][..3] == [a, b, a] && [a, b, a][..2] == [a, b] && [a, b][..1] == [a] && [a][..0] == [];
    assert Births([a], 2) == [a.id];
    assert Births([a, b], 2) == [a.id, b.id];
    assert Births([a, b, a], 2) == [a.id, b.id];
  }

  lemma LruStep(h: seq<Observation>, o: Observation, cap: int)
    ensures var order := LruOrder(h, cap);
            LruOrder(h + [o], cap) ==
            if o.id in order then Dropping(order, o.id) + [o.id] else LastOf(order + [o.id], cap)
  {
    hide Dropping, LastOf;
    assert (h + [o])[..|h|] == h;
  }

  lemma LastTwo(x: string, y: string, z: string)
    ensures LastOf([] + [x], 2) == [x] && LastOf([x] + [y], 2) == [x, y] && LastOf([x, y] + [z], 2) == [y, z]
  {
  }

  lemma FourLru(a: Observation, b: Observation, c: Observation)
    requires a.id != b.id && b.id != c.id && a.id != c.id
    ensures LruOrder([a, b, a, c], 2) == [a.id, c.id]
  {
    hide *;
    assert LruOrder([], 2) == [] by { NoLru(); }
    assert LruOrder([a], 2) == [a.id] by {
      LruStep([], a, 2);
      LastTwo(a.id, b.id, c.id);
      assert [] + [a] == [a];
    }
    assert LruOrder([a, b], 2) == [a.id, b.id] by {
      LruStep([a], b, 2);
      LastTwo(a.id, b.id, c.id);
      assert [a] + [b] == [a, b];
    }
    assert LruOrder([a, b, a], 2) == [b.id, a.id] by {
      LruStep([a, b], a, 2);
      DroppingFirst(a.id, b.id);
      assert [a, b] + [a] == [a, b, a];
    }
    LruStep([a, b, a], c, 2);
    LastTwo(b.id, a.id, c.id);
    assert [a, b, a] + [c] == [a, b, a, c];
  }

  lemma NoLru()
    ensures LruOrder([], 2) == []
  {
  }

  /** A store of two runs: one just touched is evicted, one that has been idle is kept. */
  lemma FifoNotLru(runs: Runs, order: seq<string>, a: Observation, b: Observation, c: Observation)
    requires a.id != b.id && b.id != c.id && a.id != c.id && Refines(runs, order, [a, b, a, c], 2)
    ensures order == [b.id, c.id] && a.id !in runs && b.id in runs
    ensures LruOrder([a, b, a, c], 2) == [a.id, c.id]
  {
    hide Retained, SinceBirth, FirstOf, LruOrder;
    FourRetained(a, b, c);
    FourLru(a, b, c);
    assert order[0] == b.id && order[1] == c.id;
    assert b.id in ToSet(order) && a.id !in ToSet(order);
  }

  lemma DroppingFirst(x: string, y: string)
    requires x != y
    ensures Dropping([x, y], x) == [y]
  {
    assert [x, y][..1] == [x] && [x][..0] == [];
    assert Dropping([x], x) == [];
  }

  lemma {:induction false} AllOfConcat(h: seq<Observation>, g: seq<Observation>, id: string)
    ensures AllOf(h + g, id) == AllOf(h, id) + AllOf(g, id)
  {
    if g == [] {
      assert h + g == h;
    } else {
      AllOfConcat(h, g[..|g| - 1], id);
      assert (h + g)[..|h + g| - 1] == h + g[..|g| - 1];
    }
  }

  lemma FirstOfPrefix<T>(s: seq<T>, t: seq<T>, n: nat)
    ensures FirstOf(s, n) <= FirstOf(s + t, n)
  {
  }

  /**
   * With cap zero nothing is ever evicted: whatever is ingested later, every run stored stays and only grows, and
   * every run seen is stored, although the order list that drives eviction stays empty.
   */
  lemma ZeroCapNeverEvicts(
      runs: Runs, order: seq<string>, runs2: Runs, order2: seq<string>, h: seq<Observation>, g: seq<Observation>)
    requires Refines(runs, order, h, 0) && Refines(runs2, order2, h + g, 0)
    ensures runs2.Keys == runs.Keys + Ids(g) && order2 == []
    ensures forall id :: id in runs ==> id in runs2 && runs[id] <= runs2[id]
  {
    hide AllOf, FirstOf;
    assert forall i :: 0 <= i < |h| ==> (h + g)[i] == h[i];
    assert forall i :: 0 <= i < |g| ==> (h + g)[|h| + i] == g[i];
    forall id | id in runs ensures id in runs2 && runs[id] <= runs2[id] {
      AllOfConcat(h, g, id);
      FirstOfPrefix(AllOf(h, id), AllOf(g, id), MAX_OBS_PER_RUN);
    }
  }

  lemma FreshDistinct(runs: Runs, order: seq<string>, h: seq<Observation>, id: string, cap: int)
    requires Refines(runs, order, h, cap) && id !in runs
    ensures Distinct(order + [id])
  {
    RetainedDistinct(h, cap);
    assert id !in ToSet(order);
  }

  lemma NothingStored(runs: Runs, order: seq<string>, h: seq<Observation>, o: Observation, cap: int, left: Runs)
    requires Refines(runs, order, h, cap) && cap < 0
    requires left.Keys == runs.Keys - (ToSet(order + [o.id]) - ToSet(LastOf(order + [o.id], cap)))
    ensures Refines(left, LastOf(order + [o.id], cap), h + [o], cap)
  {
    assert left.Keys == {};
  }

  lemma SplitDistinct<T(!new)>(s: seq<T>, n: nat)
    requires Distinct(s) && n <= |s|
    ensures ToSet(s[..n]) == ToSet(s) - ToSet(s[n..])
  {
    assert s == s[..n] + s[n..];
  }
}
