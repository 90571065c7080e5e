/** The order in which a run's observations are returned: stable, by hop and then timestamp text. */
module Paths {
  import opened Wire

  /** The fields of an observation the store and `path` look at; `node` stands for the rest. */
  datatype Observation = Observation(id: string, hop: byte, timestamp: string, node: string)

  /** Go's `<` on strings. */
  predicate LexLess(a: string, b: string) {
    b != [] && (a == [] || a[0] < b[0] || (a[0] == b[0] && LexLess(a[1..], b[1..])))
  }

  predicate Less(o: Observation, p: Observation) {
    o.hop < p.hop || (o.hop == p.hop && LexLess(o.timestamp, p.timestamp))
  }

  predicate SameKey(o: Observation, p: Observation) {
    o.hop == p.hop && o.timestamp == p.timestamp
  }

  ghost predicate Sorted(s: seq<Observation>) {
    forall i, j :: 0 <= i < j < |s| ==> !Less(s[j], s[i])
  }

  /** The observations with the key of `k`, in order. */
  function WithKey(s: seq<Observation>, k: Observation): seq<Observation> {
    if s == [] then [] else (if SameKey(s[0], k) then [s[0]] else []) + WithKey(s[1..], k)
  }

  /** A rearrangement that keeps observations of equal key in their order. */
  ghost predicate StableOf(s: seq<Observation>, t: seq<Observation>) {
    forall k: Observation :: WithKey(s, k) == WithKey(t, k)
  }

  // ---- the order is a strict weak order ----

  lemma {:induction false} LexTotal(a: string, b: string)
    ensures LexLess(a, b) || LexLess(b, a) || a == b
    ensures !(LexLess(a, b) && LexLess(b, a)) && !LexLess(a, a)
  {
    if a != [] {
      LexTotal(a[1..], a[1..]);
      if b != [] {
        LexTotal(a[1..], b[1..]);
        assert a == [a[0]] + a[1..] && b == [b[0]] + b[1..];
      }
    }
  }

  lemma {:induction false} LexTransitive(a: string, b: string, c: string)
    requires LexLess(a, b) && LexLess(b, c)
    ensures LexLess(a, c)
  {
    if a != [] && a[0] == b[0] == c[0] {
      LexTransitive(a[1..], b[1..], c[1..]);
    }
  }

  lemma LessTotal(o: Observation, p: Observation)
    ensures Less(o, p) || Less(p, o) || SameKey(o, p)
    ensures SameKey(o, p) ==> !Less(o, p)
    ensures !(Less(o, p) && Less(p, o))
  {
    LexTotal(o.timestamp, p.timestamp);
  }

  lemma NotLessTransitive(x: Observation, y: Observation, z: Observation)
    requires !Less(y, x) && !Less(z, y)
    ensures !Less(z, x)
  {
    hide LexLess;
    LexTotal(x.timestamp, y.timestamp);
    LexTotal(y.timestamp, z.timestamp);
    LexTotal(x.timestamp, z.timestamp);
    if LexLess(x.timestamp, y.timestamp) && LexLess(y.timestamp, z.timestamp) {
      LexTransitive(x.timestamp, y.timestamp, z.timestamp);
    }
  }

  // ---- sorting in place ----

  lemma {:induction false} WithKeyConcat(a: seq<Observation>, b: seq<Observation>, k: Observation)
    ensures WithKey(a + b, k) == WithKey(a, k) + WithKey(b, k)
  {
    if a == [] {
      assert a + b == b;
    } else {
      WithKeyConcat(a[1..], b, k);
      assert (a + b)[1..] == a[1..] + b;
    }
  }

  lemma PairSwap(x: Observation, y: Observation, k: Observation)
    requires !SameKey(x, y)
    ensures WithKey([x, y], k) == WithKey([y, x], k)
  {
    assert [x, y][1..] == [y] && [y, x][1..] == [x];
    assert [y][1..] == [] && [x][1..] == [];
  }

  /** Exchanging neighbours of different key moves no key class. */
  lemma SwapKeepsClasses(s: seq<Observation>, t: seq<Observation>, j: nat)
    requires 0 < j < |s| && t == s[j - 1 := s[j]][j := s[j - 1]] && !SameKey(s[j - 1], s[j])
    ensures StableOf(t, s)
  {
    var p, q, x, y := s[..j - 1], s[j + 1..], s[j - 1], s[j];
    forall k: Observation ensures WithKey(t, k) == WithKey(s, k) {
      assert s == p + ([x, y] + q) && t == p + ([y, x] + q);
      WithKeyConcat(p, [x, y] + q, k);
      WithKeyConcat(p, [y, x] + q, k);
      WithKeyConcat([x, y], q, k);
      WithKeyConcat([y, x], q, k);
      PairSwap(x, y, k);
    }
  }

  /** Everything up to `i` is in order, except possibly that `j` should be further left. */
  ghost predicate SortedBut(s: seq<Observation>, i: nat, j: nat)
    requires i < |s|
  {
    forall p, q :: 0 <= p < q <= i && q != j ==> !Less(s[q], s[p])
  }

  lemma SwapSortedBut(s: seq<Observation>, t: seq<Observation>, i: nat, j: nat)
    requires 0 < j <= i < |s| && SortedBut(s, i, j) && Less(s[j], s[j - 1])
    requires t == s[j - 1 := s[j]][j := s[j - 1]]
    ensures SortedBut(t, i, j - 1)
  {
    hide Less;
    forall p, q | 0 <= p < q <= i && q != j - 1 ensures !Less(t[q], t[p]) {
      if q == j && p == j - 1 {
        LessTotal(s[j], s[j - 1]);
      }
    }
  }

  lemma SettledSorted(s: seq<Observation>, i: nat, j: nat)
    requires j <= i < |s| && SortedBut(s, i, j) && (j == 0 || !Less(s[j], s[j - 1]))
    ensures Sorted(s[..i + 1])
  {
    hide Less;
    forall p, q | 0 <= p < q <= i ensures !Less(s[q], s[p]) {
      if q == j && p < j - 1 {
        NotLessTransitive(s[p], s[j - 1], s[j]);
      }
    }
  }

  /** Insert position `i` into the sorted prefix before it, by exchanging neighbours. */
  method Insert(a: array<Observation>, i: nat)
    requires i < a.Length && Sorted(a[..i])
    modifies a
    ensures Sorted(a[..i + 1]) && StableOf(a[..], old(a[..]))
  {
    hide Less, WithKey;
    var j := i;
    assert SortedBut(a[..], i, i) by {
      assert forall p :: 0 <= p < i ==> a[..][p] == a[..i][p];
    }
    while j > 0 && Less(a[j], a[j - 1])
      invariant 0 <= j <= i
      invariant SortedBut(a[..], i, j)
      invariant StableOf(a[..], old(a[..]))
    {
      ghost var s := a[..];
      a[j - 1], a[j] := a[j], a[j - 1];
      ghost var t := a[..];
      assert t == s[j - 1 := s[j]][j := s[j - 1]];
      SwapSortedBut(s, t, i, j);
      LessTotal(s[j], s[j - 1]);
      NotSame(s[j], s[j - 1]);
      SwapKeepsClasses(s, t, j);
      j := j - 1;
    }
    SettledSorted(a[..], i, j);
    assert a[..][..i + 1] == a[..i + 1];
  }

  lemma NotSame(o: Observation, p: Observation)
    requires Less(o, p)
    ensures !SameKey(p, o)
  {
    LessTotal(o, p);
  }

  method SortStable(a: array<Observation>)
    modifies a
    ensures Sorted(a[..]) && StableOf(a[..], old(a[..]))
  {
    hide Less, WithKey;
    for i := 0 to a.Length
      invariant Sorted(a[..i]) && StableOf(a[..], old(a[..]))
    {
      Insert(a, i);
    }
    assert a[..a.Length] == a[..];
  }

  // ---- what the result is ----

  lemma {:induction false} CountInClass(s: seq<Observation>, x: Observation)
    ensures multiset(s)[x] == multiset(WithKey(s, x))[x]
  {
    if s != [] {
      CountInClass(s[1..], x);
      assert s == [s[0]] + s[1..];
    }
  }

  /** A stable rearrangement is a permutation. */
  lemma StableIsPermutation(s: seq<Observation>, t: seq<Observation>)
    requires StableOf(s, t)
    ensures multiset(s) == multiset(t)
  {
    hide WithKey;
    forall x: Observation ensures multiset(s)[x] == multiset(t)[x] {
      CountInClass(s, x);
      CountInClass(t, x);
      assert WithKey(s, x) == WithKey(t, x);
    }
  }

  lemma {:induction false} ClassMember(s: seq<Observation>, k: Observation, i: nat)
    requires i < |WithKey(s, k)|
    ensures SameKey(WithKey(s, k)[i], k) && WithKey(s, k)[i] in s
  {
    if SameKey(s[0], k) {
      if i > 0 {
        ClassMember(s[1..], k, i - 1);
      }
    } else {
      ClassMember(s[1..], k, i);
    }
  }

  /** The least key of a sorted sequence comes first. */
  lemma HeadIsLeast(s: seq<Observation>, x: Observation)
    requires Sorted(s) && x in s
    ensures !Less(x, s[0])
  {
    LessTotal(x, x);
  }

  /** There is only one stable sort of a run, whatever algorithm computes it. */
  lemma {:induction false} StableSortUnique(s: seq<Observation>, t: seq<Observation>)
    requires Sorted(s) && Sorted(t) && StableOf(s, t)
    ensures s == t
  {
    StableIsPermutation(s, t);
    assert |s| == |multiset(s)| && |t| == |multiset(t)|;
    if s != [] {
      assert WithKey(s, s[0]) == WithKey(t, s[0]) && WithKey(t, t[0]) == WithKey(s, t[0]);
      ClassMember(t, s[0], 0);
      ClassMember(s, t[0], 0);
      HeadsAgree(s, t);
      forall k: Observation ensures WithKey(s[1..], k) == WithKey(t[1..], k) {
        TailClass(s, t, k);
      }
      StableSortUnique(s[1..], t[1..]);
      assert s == [s[0]] + s[1..] && t == [t[0]] + t[1..];
    }
  }

  lemma TailClass(s: seq<Observation>, t: seq<Observation>, k: Observation)
    requires s != [] && t != [] && s[0] == t[0] && WithKey(s, k) == WithKey(t, k)
    ensures WithKey(s[1..], k) == WithKey(t[1..], k)
  {
    var head := if SameKey(s[0], k) then [s[0]] else [];
    assert WithKey(s, k)[|head|..] == WithKey(s[1..], k);
    assert WithKey(t, k)[|head|..] == WithKey(t[1..], k);
  }

  lemma HeadsAgree(s: seq<Observation>, t: seq<Observation>)
    requires s != [] && t != [] && Sorted(s) && Sorted(t)
    requires WithKey(s, s[0]) == WithKey(t, s[0]) && WithKey(s, t[0]) == WithKey(t, t[0])
    requires exists x :: x in t && SameKey(x, s[0])
    requires exists y :: y in s && SameKey(y, t[0])
    ensures s[0] == t[0]
  {
    var x :| x in t && SameKey(x, s[0]);
    var y :| y in s && SameKey(y, t[0]);
    HeadIsLeast(t, x);
    HeadIsLeast(s, y);
    LessTotal(s[0], t[0]);
    assert SameKey(s[0], t[0]);
    assert WithKey(s, s[0])[0] == s[0] && WithKey(t, t[0])[0] == t[0];
    SameClass(t, s[0], t[0]);
  }

  lemma {:induction false} SameClass(s: seq<Observation>, k: Observation, l: Observation)
    requires SameKey(k, l)
    ensures WithKey(s, k) == WithKey(s, l)
  {
    if s != [] {
      SameClass(s[1..], k, l);
    }
  }
}
