/**
 * The attribute-timeline generators, which expand segment durations into one
 * entry per image (orientations) or per segment second (flip codes):
 * `orisurpgenerator` and `flipgenerator` of the ophys rig, the multi-block
 * `oriparsurpgenerator` and `flipdirecgenerator` of the habituation rig and
 * the two parameter modules, and the kappa shuffles `setblock_order` and
 * `setkaps`.
 *
 * Orientations come in "bags": each bag is the caller's orientation list
 * after one more in-place shuffle, and a segment is as many whole bags as it
 * needs, cut to its length. Shuffles are Fisher–Yates passes whose drawn
 * positions come from the oracle `rand`.
 */
module Timelines {
  import opened Common
  import SeqLen

  // ---------------------------------------------------------------------
  // In-place shuffle

  function Swap<T>(s: seq<T>, i: nat, j: nat): (r: seq<T>)
    requires i < |s| && j < |s|
    ensures |r| == |s|
  {
    s[i := s[j]][j := s[i]]
  }

  lemma SwapPermutes<T>(s: seq<T>, i: nat, j: nat)
    requires i < |s| && j < |s|
    ensures multiset(Swap(s, i, j)) == multiset(s)
  {
    var t := s[i := s[j]];
    assert multiset(t) == multiset(s) - multiset{s[i]} + multiset{s[j]};
    assert multiset(t[j := s[i]]) == multiset(t) - multiset{t[j]} + multiset{s[i]};
  }

  /**
   * The passes of numpy's and Python's `shuffle` from index i down to 1:
   * pass i swaps position i with a drawn position in [0, i].
   */
  function FisherYates<T>(s: seq<T>, i: nat, rand: nat -> nat, cur: nat): (r: seq<T>)
    requires i < |s|
    ensures |r| == |s|
    decreases i
  {
    if i == 0 then s
    else FisherYates(Swap(s, i, Pick(0, i, rand(cur))), i - 1, rand, cur + 1)
  }

  /** The list after one `shuffle`, reading its draws from `cur` on. */
  function Shuffled<T>(s: seq<T>, rand: nat -> nat, cur: nat): (r: seq<T>)
    ensures |r| == |s|
  {
    if |s| <= 1 then s else FisherYates(s, |s| - 1, rand, cur)
  }

  /** Number of draws one shuffle of n items takes. */
  function ShuffleDraws(n: nat): nat { if n <= 1 then 0 else n - 1 }

  lemma {:induction false} FisherYatesPermutes<T>(s: seq<T>, i: nat, rand: nat -> nat, cur: nat)
    requires i < |s|
    ensures multiset(FisherYates(s, i, rand, cur)) == multiset(s)
    decreases i
  {
    if i > 0 {
      var j := Pick(0, i, rand(cur));
      SwapPermutes(s, i, j);
      FisherYatesPermutes(Swap(s, i, j), i - 1, rand, cur + 1);
    }
  }

  /** Pass i of a shuffle: the rest of the passes continue from the swapped list. */
  lemma FisherYatesStep<T>(s: seq<T>, t: seq<T>, i: nat, rand: nat -> nat, cur: nat)
    requires 0 < i < |s| && t == Swap(s, i, Pick(0, i, rand(cur)))
    ensures FisherYates(s, i, rand, cur) == FisherYates(t, i - 1, rand, cur + 1)
  { }

  /** A shuffle only reorders: it is a permutation of its input. */
  lemma ShuffledPermutes<T>(s: seq<T>, rand: nat -> nat, cur: nat)
    ensures multiset(Shuffled(s, rand, cur)) == multiset(s)
  {
    if |s| > 1 {
      FisherYatesPermutes(s, |s| - 1, rand, cur);
    }
  }

  /** Exchanges two positions of the array. */
  method SwapAt<T>(a: array<T>, i: nat, j: nat)
    requires i < a.Length && j < a.Length
    modifies a
    ensures a[..] == Swap(old(a[..]), i, j)
  {
    var t := a[i];
    a[i] := a[j];
    a[j] := t;
  }

  /** `rng.shuffle(a)` / `random.shuffle(a)`, in place. */
  method Shuffle<T>(a: array<T>, rand: nat -> nat, cur: nat) returns (next: nat)
    modifies a
    ensures a[..] == Shuffled(old(a[..]), rand, cur)
    ensures multiset(a[..]) == multiset(old(a[..]))
    ensures next == cur + ShuffleDraws(a.Length)
  {
    next := cur;
    if a.Length > 1 {
      next := FisherYatesPasses(a, rand, cur);
    }
    ShuffledPermutes(old(a[..]), rand, cur);
  }

  /** The passes of a shuffle of at least two items, in place. */
  method FisherYatesPasses<T>(a: array<T>, rand: nat -> nat, cur: nat) returns (next: nat)
    requires a.Length > 1
    modifies a
    ensures a[..] == FisherYates(old(a[..]), a.Length - 1, rand, cur)
    ensures next == cur + (a.Length - 1)
  {
    ghost var target := FisherYates(a[..], a.Length - 1, rand, cur);
    ghost var g := a[..];
    next := cur;
    var i := a.Length - 1;
    while i > 0
      invariant 0 <= i < a.Length && |g| == a.Length
      invariant next == cur + (a.Length - 1 - i)
      invariant a[..] == g
      invariant FisherYates(g, i, rand, next) == target
    {
      var j := Pick(0, i, rand(next));
      SwapAt(a, i, j);
      FisherYatesStep(g, Swap(g, i, j), i, rand, next);
      g := Swap(g, i, j);
      i := i - 1;
      next := next + 1;
    }
  }

  // ---------------------------------------------------------------------
  // Bags of orientations

  /** Concatenation of lists, front to back. */
  function Flatten<T>(ss: seq<seq<T>>): seq<T>
  {
    if ss == [] then [] else ss[0] + Flatten(ss[1..])
  }

  lemma {:induction false} FlattenAppend<T>(ss: seq<seq<T>>, t: seq<T>)
    ensures Flatten(ss + [t]) == Flatten(ss) + t
    decreases |ss|
  {
    if ss == [] {
      assert [t][1..] == [];
    } else {
      assert (ss + [t])[1..] == ss[1..] + [t];
      FlattenAppend(ss[1..], t);
    }
  }

  /** Every bag is a permutation of the pool. */
  predicate AllBags<T(==)>(bags: seq<seq<T>>, pool: multiset<T>)
  {
    forall b :: 0 <= b < |bags| ==> multiset(bags[b]) == pool
  }

  lemma {:induction false} FlattenLength<T>(bags: seq<seq<T>>, pool: multiset<T>)
    requires AllBags(bags, pool)
    ensures |Flatten(bags)| == |bags| * |pool|
    decreases |bags|
  {
    if bags != [] {
      assert |bags[0]| == |multiset(bags[0])| == |pool|;
      assert AllBags(bags[1..], pool) by {
        forall b | 0 <= b < |bags| - 1 ensures multiset(bags[1..][b]) == pool {
          assert bags[1..][b] == bags[b + 1];
        }
      }
      FlattenLength(bags[1..], pool);
      MulSucc(|bags| - 1, |pool|);
    }
  }

  /**
   * Each value appears in `seg` as often as the whole bags in it allow and at
   * most one bag more: with n = |pool| and L = |seg|, a value held m times by
   * the pool appears between (L / n) * m and (L / n + 1) * m times.
   */
  ghost predicate Balanced<T(!new)>(seg: seq<T>, pool: multiset<T>)
    requires |pool| > 0
  {
    forall v :: (|seg| / |pool|) * pool[v] <= multiset(seg)[v] <= (|seg| / |pool| + 1) * pool[v]
  }

  lemma PrefixCount<T>(s: seq<T>, len: nat, v: T)
    requires len <= |s|
    ensures multiset(s[..len])[v] <= multiset(s)[v]
  {
    assert s == s[..len] + s[len..];
  }

  lemma SmallMultiple(k: int, n: int, d: int)
    requires n > 0 && k * n == d && -n < d < n
    ensures k == 0
  {
    assert (k - 1) * n + n == k * n;
    assert (-k - 1) * n + n == -(k * n);
    assert k >= 1 ==> (k - 1) * n >= 0;
    assert k <= -1 ==> (-k - 1) * n >= 0;
  }

  lemma ShiftBounds(q: int, m: int, c: int)
    requires (q - 1) * m <= c <= q * m
    ensures q * m <= m + c <= (q + 1) * m
  {
    assert (q - 1) * m + m == q * m;
    assert q * m + m == (q + 1) * m;
  }

  /** Removing one whole bag removes one from the quotient. */
  lemma DivStep(a: int, n: int)
    requires n > 0 && a >= n
    ensures (a - n) / n == a / n - 1
  {
    var q, r := a / n, a % n;
    var q', r' := (a - n) / n, (a - n) % n;
    assert (q' - q + 1) * n == r - r';
    SmallMultiple(q' - q + 1, n, r - r');
  }

  lemma PartialBag<T>(bag: seq<T>, pool: multiset<T>, len: nat, v: T)
    requires multiset(bag) == pool && len < |pool|
    ensures (len / |pool|) * pool[v] <= multiset(bag[..len])[v] <= (len / |pool| + 1) * pool[v]
  {
    assert |bag| == |pool|;
    PrefixCount(bag, len, v);
    ZeroQuotientBounds(len, |pool|, pool[v], multiset(bag[..len])[v]);
  }

  /** Below one whole bag the bounds are 0 and one bag's count. */
  lemma ZeroQuotientBounds(len: nat, n: nat, m: nat, c: nat)
    requires len < n && c <= m
    ensures (len / n) * m <= c <= (len / n + 1) * m
  {
    var q := len / n;
    assert q == 0 by {
      SmallMultiple(q, n, len % n - len);
    }
  }

  /** The count bound of a cut, for its part after the first bag. */
  ghost predicate CutBound<T(!new)>(all: seq<T>, pool: multiset<T>, len: nat, v: T)
    requires |pool| > 0 && len <= |all|
  {
    (len / |pool|) * pool[v] <= multiset(all[..len])[v] <= (len / |pool| + 1) * pool[v]
  }

  lemma ConsBag<T(!new)>(first: seq<T>, tail: seq<T>, pool: multiset<T>, len: nat, v: T)
    requires |pool| > 0 && multiset(first) == pool
    requires |first| <= len <= |first| + |tail|
    requires CutBound(tail, pool, len - |first|, v)
    ensures CutBound(first + tail, pool, len, v)
  {
    var n, m := |pool|, pool[v];
    assert |first| == n;
    var cut := tail[..len - n];
    assert (first + tail)[..len] == first + cut;
    assert multiset((first + tail)[..len])[v] == m + multiset(cut)[v];
    DivStep(len, n);
    ShiftBounds(len / n, m, multiset(cut)[v]);
  }

  /** Cutting whole bags to any length gives the bag-count bound. */
  lemma {:induction false} BagPrefixCount<T(!new)>(bags: seq<seq<T>>, pool: multiset<T>, len: nat, v: T)
    requires |pool| > 0 && AllBags(bags, pool)
    requires len <= |Flatten(bags)|
    ensures CutBound(Flatten(bags), pool, len, v)
    decreases |bags|
  {
    var all := Flatten(bags);
    if len == 0 {
      assert all[..0] == [];
    } else {
      var first, rest := bags[0], bags[1..];
      assert all == first + Flatten(rest);
      assert |first| == |multiset(first)| == |pool|;
      if len < |pool| {
        assert all[..len] == first[..len];
        PartialBag(first, pool, len, v);
      } else {
        assert AllBags(rest, pool) by {
          forall b | 0 <= b < |rest| ensures multiset(rest[b]) == pool {
            assert rest[b] == bags[b + 1];
          }
        }
        BagPrefixCount(rest, pool, len - |pool|, v);
        ConsBag(first, Flatten(rest), pool, len, v);
      }
    }
  }

  /** A balanced segment holds only values of the pool. */
  lemma BalancedMembers<T(!new)>(seg: seq<T>, pool: multiset<T>)
    requires |pool| > 0 && Balanced(seg, pool)
    ensures forall x :: x in seg ==> x in pool
  {
    forall x | x in seg ensures x in pool {
      assert multiset(seg)[x] <= (|seg| / |pool| + 1) * pool[x];
    }
  }

  /** Any cut of whole bags is balanced. */
  lemma CutBalanced<T(!new)>(bags: seq<seq<T>>, pool: multiset<T>, len: nat)
    requires |pool| > 0 && AllBags(bags, pool)
    requires len <= |Flatten(bags)|
    ensures Balanced(Flatten(bags)[..len], pool)
  {
    var seg := Flatten(bags)[..len];
    forall v
      ensures (|seg| / |pool|) * pool[v] <= multiset(seg)[v] <= (|seg| / |pool| + 1) * pool[v]
    {
      BagPrefixCount(bags, pool, len, v);
    }
  }

  /** `ceil(len / n)` bags of n cover len entries. */
  lemma CeilCovers(len: int, n: int)
    requires n > 0
    ensures Nat(len) <= (if len <= 0 then 0 else (len + n - 1) / n) * n
  {
    if len > 0 {
      var k, r := (len + n - 1) / n, (len + n - 1) % n;
      assert len + n - 1 == k * n + r;
    }
  }

  /** k bags, each the list `oris` after one more in-place shuffle. */
  method ShuffledBags(oris: array<real>, k: nat, rand: nat -> nat, cur: nat)
    returns (acc: seq<real>, next: nat, ghost bags: seq<seq<real>>)
    modifies oris
    ensures multiset(oris[..]) == multiset(old(oris[..]))
    ensures |bags| == k && acc == Flatten(bags) && AllBags(bags, multiset(old(oris[..])))
    ensures cur <= next
  {
    ghost var pool := multiset(oris[..]);
    acc, next, bags := [], cur, [];
    var j := 0;
    while j < k
      invariant 0 <= j <= k
      invariant |bags| == j && acc == Flatten(bags) && AllBags(bags, pool)
      invariant multiset(oris[..]) == pool
      invariant cur <= next
    {
      next := Shuffle(oris, rand, next);
      FlattenAppend(bags, oris[..]);
      acc := acc + oris[..];
      bags := bags + [oris[..]];
      j := j + 1;
    }
  }

  /**
   * One segment of `len` orientations: `ceil(len / n)` bags, each the list
   * `oris` after one more in-place shuffle, concatenated and cut to `len`.
   */
  method FillSegment(oris: array<real>, len: int, rand: nat -> nat, cur: nat)
    returns (seg: seq<real>, next: nat)
    requires oris.Length > 0
    modifies oris
    ensures multiset(oris[..]) == multiset(old(oris[..]))
    ensures |seg| == Nat(len) && Balanced(seg, multiset(old(oris[..])))
    ensures cur <= next
  {
    var n := oris.Length;
    var k := if len <= 0 then 0 else (len + n - 1) / n;
    var acc;
    ghost var bags;
    acc, next, bags := ShuffledBags(oris, k, rand, cur);
    CeilCovers(len, n);
    FlattenLength(bags, multiset(old(oris[..])));
    seg := acc[..Nat(len)];
    CutBalanced(bags, multiset(old(oris[..])), Nat(len));
  }

  // ---------------------------------------------------------------------
  // Segment timelines

  /** The segments as `zip(regs, surps)` pairs them. */
  function Pairs(b: SeqLen.Block): (ps: seq<(int, int)>)
    ensures |ps| == if |b.regs| < |b.surps| then |b.regs| else |b.surps|
  {
    var n := if |b.regs| < |b.surps| then |b.regs| else |b.surps|;
    seq(n, i requires 0 <= i < n => (b.regs[i], b.surps[i]))
  }

  /** Number of entries a list of segments expands to. */
  function TotalLen(ps: seq<(int, int)>): nat
  {
    if ps == [] then 0
    else TotalLen(ps[..|ps| - 1]) + Nat(ps[|ps| - 1].0) + Nat(ps[|ps| - 1].1)
  }

  /**
   * The code timeline: segment by segment, `regCode` once per regular entry,
   * then that segment's surprise code once per surprise entry.
   */
  function Tags<C>(ps: seq<(int, int)>, regCode: C, surpCodes: seq<C>): seq<C>
    requires |ps| <= |surpCodes|
  {
    if ps == [] then []
    else
      var i := |ps| - 1;
      Tags(ps[..i], regCode, surpCodes) + Repeat(regCode, Nat(ps[i].0)) + Repeat(surpCodes[i], Nat(ps[i].1))
  }

  lemma {:induction false} TagsLength<C>(ps: seq<(int, int)>, regCode: C, surpCodes: seq<C>)
    requires |ps| <= |surpCodes|
    ensures |Tags(ps, regCode, surpCodes)| == TotalLen(ps)
    decreases |ps|
  {
    if ps != [] {
      TagsLength(ps[..|ps| - 1], regCode, surpCodes);
    }
  }

  lemma {:induction false} TotalLenPrefix(ps: seq<(int, int)>, j: nat)
    requires j <= |ps|
    ensures TotalLen(ps[..j]) <= TotalLen(ps)
    decreases |ps|
  {
    if j < |ps| {
      var last := |ps| - 1;
      assert ps[..last][..j] == ps[..j];
      TotalLenPrefix(ps[..last], j);
    } else {
      assert ps[..j] == ps;
    }
  }

  /**
   * Per-segment tagging: segment i starts at the total length of the
   * segments before it; its first Nat(reg) entries carry `regCode` and the
   * next Nat(surp) entries carry `surpCodes[i]`.
   */
  lemma {:induction false} TagsAt<C>(ps: seq<(int, int)>, regCode: C, surpCodes: seq<C>, i: nat, p: nat)
    requires |ps| <= |surpCodes| && i < |ps|
    requires p < Nat(ps[i].0) + Nat(ps[i].1)
    ensures TotalLen(ps[..i]) + p < |Tags(ps, regCode, surpCodes)|
    ensures Tags(ps, regCode, surpCodes)[TotalLen(ps[..i]) + p]
            == if p < Nat(ps[i].0) then regCode else surpCodes[i]
    decreases |ps|
  {
    var last := |ps| - 1;
    var init := ps[..last];
    TagsLength(ps, regCode, surpCodes);
    TagsLength(init, regCode, surpCodes);
    if i == last {
      assert ps[..i] == init;
    } else {
      assert init[..i] == ps[..i];
      assert init[..i + 1] == ps[..i + 1];
      TotalLenPrefix(init, i + 1);
      assert ps[..i + 1][..i] == ps[..i];
      TagsAt(init, regCode, surpCodes, i, p);
    }
  }

  /** With non-negative durations the timeline has exactly sum(regs) + sum(surps) entries. */
  lemma {:induction false} TotalLenSum(b: SeqLen.Block)
    requires |b.regs| == |b.surps|
    requires forall i :: 0 <= i < |b.regs| ==> 0 <= b.regs[i] && 0 <= b.surps[i]
    ensures TotalLen(Pairs(b)) == Sum(b.regs) + Sum(b.surps)
    decreases |b.regs|
  {
    if b.regs != [] {
      var k := |b.regs| - 1;
      var b' := SeqLen.Block(b.regs[..k], b.surps[..k]);
      assert Pairs(b)[..k] == Pairs(b');
      TotalLenSum(b');
    }
  }

  /** Segment i's orientations: `.0` for its regular part, `.1` for its surprise part. */
  ghost predicate SegmentsOk(segs: seq<(seq<real>, seq<real>)>, ps: seq<(int, int)>, pool: multiset<real>)
    requires |pool| > 0
  {
    && |segs| == |ps|
    && (forall i :: 0 <= i < |ps| ==> |segs[i].0| == Nat(ps[i].0) && |segs[i].1| == Nat(ps[i].1))
    && (forall i :: 0 <= i < |segs| ==> Balanced(segs[i].0, pool) && Balanced(segs[i].1, pool))
  }

  /** The orientation timeline of a list of segments. */
  function Joined(segs: seq<(seq<real>, seq<real>)>): seq<real>
  {
    if segs == [] then []
    else Joined(segs[..|segs| - 1]) + segs[|segs| - 1].0 + segs[|segs| - 1].1
  }

  lemma TagsSnoc<C>(ps: seq<(int, int)>, i: nat, regCode: C, surpCodes: seq<C>)
    requires i < |ps| <= |surpCodes|
    ensures Tags(ps[..i + 1], regCode, surpCodes)
            == Tags(ps[..i], regCode, surpCodes) + Repeat(regCode, Nat(ps[i].0)) + Repeat(surpCodes[i], Nat(ps[i].1))
  {
    assert ps[..i + 1][..i] == ps[..i];
  }

  lemma ExtendSegments(segs: seq<(seq<real>, seq<real>)>, ps: seq<(int, int)>, i: nat, pool: multiset<real>,
                       regAdd: seq<real>, surpAdd: seq<real>)
    requires |pool| > 0 && i < |ps| && SegmentsOk(segs, ps[..i], pool)
    requires |regAdd| == Nat(ps[i].0) && |surpAdd| == Nat(ps[i].1)
    requires Balanced(regAdd, pool) && Balanced(surpAdd, pool)
    ensures SegmentsOk(segs + [(regAdd, surpAdd)], ps[..i + 1], pool)
    ensures Joined(segs + [(regAdd, surpAdd)]) == Joined(segs) + regAdd + surpAdd
  {
    assert (segs + [(regAdd, surpAdd)])[..i] == segs;
  }

  /**
   * The segment loop shared by the orientation generators: per segment, a
   * regular run tagged 0 and a surprise run tagged with that segment's code.
   */
  method ExpandBlock(oris: array<real>, ps: seq<(int, int)>, surpCodes: seq<int>, rand: nat -> nat, cur: nat)
    returns (oriList: seq<real>, codeList: seq<int>, next: nat, ghost segs: seq<(seq<real>, seq<real>)>)
    requires oris.Length > 0 && |ps| <= |surpCodes|
    modifies oris
    ensures multiset(oris[..]) == multiset(old(oris[..]))
    ensures oriList == Joined(segs) && SegmentsOk(segs, ps, multiset(old(oris[..])))
    ensures codeList == Tags(ps, 0, surpCodes)
    ensures |oriList| == |codeList| == TotalLen(ps)
    ensures cur <= next
  {
    ghost var pool := multiset(oris[..]);
    oriList, codeList, next, segs := [], [], cur, [];
    var i := 0;
    while i < |ps|
      invariant 0 <= i <= |ps|
      invariant multiset(oris[..]) == pool
      invariant oriList == Joined(segs) && SegmentsOk(segs, ps[..i], pool)
      invariant codeList == Tags(ps[..i], 0, surpCodes)
      invariant |oriList| == |codeList|
      invariant cur <= next
    {
      var regAdd, surpAdd;
      regAdd, next := FillSegment(oris, ps[i].0, rand, next);
      surpAdd, next := FillSegment(oris, ps[i].1, rand, next);
      TagsSnoc(ps, i, 0, surpCodes);
      ExtendSegments(segs, ps, i, pool, regAdd, surpAdd);
      oriList := oriList + regAdd + surpAdd;
      codeList := codeList + Repeat(0, |regAdd|) + Repeat(surpCodes[i], |surpAdd|);
      segs := segs + [(regAdd, surpAdd)];
      i := i + 1;
    }
    assert ps[..|ps|] == ps;
    TagsLength(ps, 0, surpCodes);
  }

  function Zip<A, B>(a: seq<A>, b: seq<B>): (z: seq<(A, B)>)
    requires |a| == |b|
    ensures |z| == |a|
  {
    seq(|a|, i requires 0 <= i < |a| => (a[i], b[i]))
  }

  // ---------------------------------------------------------------------
  // orisurpgenerator (ophys rig)

  /** The `surp` argument: 1, 2 or "both". */
  datatype SurpArg = Both | Code(code: int)

  predicate Recognized(mode: SurpArg)
  {
    mode.Both? || mode.code == 1 || mode.code == 2
  }

  /**
   * What the surprise types of k segments must be: all 1, all 2, or for
   * "both" exactly k / 2 ones and the rest twos, in any order.
   */
  predicate TypesFor(mode: SurpArg, k: nat, t: seq<int>)
  {
    && |t| == k
    && match mode
       case Both => multiset(t)[1] == k / 2 && multiset(t)[2] == k - k / 2
       case Code(c) => t == Repeat(c, k)
  }

  lemma {:induction false} RepeatCount<T>(x: T, n: nat, y: T)
    ensures multiset(Repeat(x, n))[y] == if y == x then n else 0
    decreases n
  {
    if n > 0 {
      assert Repeat(x, n) == Repeat(x, n - 1) + [x];
      RepeatCount(x, n - 1, y);
    }
  }

  /** The unshuffled "both" types: k / 2 ones, then twos. */
  function BothTypes(k: nat): seq<int>
  {
    Repeat(1, k / 2) + Repeat(2, k - k / 2)
  }

  /** The preselected surprise types, one per surprise segment. */
  method SurpTypes(mode: SurpArg, k: nat, rand: nat -> nat, cur: nat) returns (r: Result<seq<int>>, next: nat)
    ensures r.Ok? <==> Recognized(mode)
    ensures r.Ok? ==> TypesFor(mode, k, r.value)
    ensures r.Err? ==> r.error.ValueError?
    ensures cur <= next
  {
    next := cur;
    match mode
    case Both =>
      var both := BothTypes(k);
      var a := new int[k](i requires 0 <= i < k => both[i]);
      assert a[..] == both;
      next := Shuffle(a, rand, cur);
      RepeatCount(1, k / 2, 1);
      RepeatCount(2, k - k / 2, 1);
      RepeatCount(1, k / 2, 2);
      RepeatCount(2, k - k / 2, 2);
      r := Ok(a[..]);
    case Code(c) =>
      if c == 1 || c == 2 {
        r := Ok(Repeat(c, k));
      } else {
        r := Err(ValueError);
      }
  }

  /**
   * `orisurpgenerator`: one (orientation, surprise code) entry per image.
   * Regular entries carry 0 and the entries of surprise segment i carry the
   * i-th preselected type; each run of orientations is balanced over `oris`.
   * An unknown `surp` raises ValueError, and an empty `oris` divides by zero
   * as soon as there is a segment.
   */
  method OriSurpGenerator(oris: array<real>, block: SeqLen.Block, mode: SurpArg, rand: nat -> nat, cur: nat)
    returns (r: Result<seq<(real, int)>>, next: nat,
             ghost types: seq<int>, ghost segs: seq<(seq<real>, seq<real>)>)
    modifies oris
    ensures multiset(oris[..]) == multiset(old(oris[..]))
    ensures r.Err? <==> !Recognized(mode) || (oris.Length == 0 && Pairs(block) != [])
    ensures r.Err? ==> (r.error.ValueError? <==> !Recognized(mode))
    ensures r.Ok? && oris.Length > 0 ==>
              && TypesFor(mode, |block.surps|, types)
              && SegmentsOk(segs, Pairs(block), multiset(old(oris[..])))
              && |Joined(segs)| == |Tags(Pairs(block), 0, types)|
              && r.value == Zip(Joined(segs), Tags(Pairs(block), 0, types))
    ensures r.Ok? && oris.Length == 0 ==> r.value == []
    ensures cur <= next
  {
    var t;
    t, next := SurpTypes(mode, |block.surps|, rand, cur);
    types, segs := [], [];
    if t.Err? {
      return Err(t.error), next, types, segs;
    }
    var tv := t.value;
    types := tv;
    var ps := Pairs(block);
    if oris.Length == 0 {
      if ps != [] {
        return Err(ZeroDivisionError), next, types, segs;
      }
      return Ok([]), next, types, segs;
    }
    var oriList, codeList;
    oriList, codeList, next, segs := ExpandBlock(oris, ps, tv, rand, next);
    r := Ok(Zip(oriList, codeList));
  }

  // ---------------------------------------------------------------------
  // oriparsurpgenerator (habituation rig and parameter modules)

  datatype OriEntry = OriEntry(ori: real, kappa: real, surp: int)

  /** One block's entries: its orientations and codes, with the block's kappa. */
  function WithKappa(oris: seq<real>, kappa: real, codes: seq<int>): (es: seq<OriEntry>)
    requires |oris| == |codes|
    ensures |es| == |oris|
  {
    seq(|oris|, i requires 0 <= i < |oris| => OriEntry(oris[i], kappa, codes[i]))
  }

  /**
   * Block entries made of balanced runs of orientations over `ps`, coded 0
   * (regular) and 1 (surprise), all carrying `kappa`.
   */
  ghost predicate KappaBlock(entries: seq<OriEntry>, bsegs: seq<(seq<real>, seq<real>)>,
                             ps: seq<(int, int)>, kappa: real, pool: multiset<real>)
    requires |pool| > 0
  {
    && SegmentsOk(bsegs, ps, pool)
    && |Joined(bsegs)| == |Tags(ps, 0, Repeat(1, |ps|))|
    && entries == WithKappa(Joined(bsegs), kappa, Tags(ps, 0, Repeat(1, |ps|)))
  }

  predicate HasSegments(blocks: seq<SeqLen.Block>)
  {
    exists k :: 0 <= k < |blocks| && Pairs(blocks[k]) != []
  }

  /**
   * `oriparsurpgenerator` with no orientations: the first segment divides by
   * zero and the first block without a kappa raises IndexError, whichever
   * comes first; without either the timeline is empty.
   */
  method NoOriBlocks(blockOrder: seq<real>, blocks: seq<SeqLen.Block>) returns (r: Result<seq<OriEntry>>)
    ensures r.Err? <==> |blockOrder| < |blocks| || HasSegments(blocks)
    ensures r.Ok? ==> r.value == []
  {
    var k := 0;
    while k < |blocks|
      invariant 0 <= k <= |blocks| && k <= |blockOrder|
      invariant forall j :: 0 <= j < k ==> Pairs(blocks[j]) == []
    {
      if Pairs(blocks[k]) != [] {
        return Err(ZeroDivisionError);
      }
      if k >= |blockOrder| {
        return Err(IndexError);
      }
      k := k + 1;
    }
    return Ok([]);
  }

  /** Appending a block that satisfies KappaBlock keeps every block satisfying it. */
  lemma KappaBlocksSnoc(perBlock: seq<seq<OriEntry>>, segs: seq<seq<(seq<real>, seq<real>)>>,
                        entries: seq<OriEntry>, blockSegs: seq<(seq<real>, seq<real>)>,
                        blocks: seq<SeqLen.Block>, blockOrder: seq<real>, pool: multiset<real>, k: nat)
    requires |pool| > 0 && |perBlock| == |segs| == k < |blocks| && k < |blockOrder|
    requires forall j :: 0 <= j < k ==> KappaBlock(perBlock[j], segs[j], Pairs(blocks[j]), blockOrder[j], pool)
    requires KappaBlock(entries, blockSegs, Pairs(blocks[k]), blockOrder[k], pool)
    ensures forall j :: 0 <= j < k + 1 ==>
              KappaBlock((perBlock + [entries])[j], (segs + [blockSegs])[j], Pairs(blocks[j]), blockOrder[j], pool)
  {
  }

  /**
   * `oriparsurpgenerator`: block by block, the orientation timeline with
   * surprise code 0 on regular and 1 on surprise entries, every entry of
   * block k carrying `blockOrder[k]`. A block without a kappa raises
   * IndexError (after its orientations are drawn); an empty `oris` divides
   * by zero at the first segment.
   */
  method OriParSurpGenerator(oris: array<real>, blockOrder: seq<real>, blocks: seq<SeqLen.Block>,
                             rand: nat -> nat, cur: nat)
    returns (r: Result<seq<OriEntry>>, next: nat,
             ghost perBlock: seq<seq<OriEntry>>, ghost segs: seq<seq<(seq<real>, seq<real>)>>)
    modifies oris
    ensures multiset(oris[..]) == multiset(old(oris[..]))
    ensures r.Err? <==> |blockOrder| < |blocks| || (oris.Length == 0 && HasSegments(blocks))
    ensures r.Ok? && oris.Length == 0 ==> r.value == []
    ensures r.Ok? && oris.Length > 0 ==>
              && |perBlock| == |blocks| && |segs| == |blocks|
              && r.value == Flatten(perBlock)
              && forall k :: 0 <= k < |blocks| ==>
                   KappaBlock(perBlock[k], segs[k], Pairs(blocks[k]), blockOrder[k], multiset(old(oris[..])))
    ensures cur <= next
  {
    perBlock, segs, next := [], [], cur;
    if oris.Length == 0 {
      r := NoOriBlocks(blockOrder, blocks);
      return;
    }
    ghost var pool := multiset(oris[..]);
    assert pool == multiset(old(oris[..]));
    var out: seq<OriEntry> := [];
    var k := 0;
    while k < |blocks|
      invariant 0 <= k <= |blocks| && k <= |blockOrder|
      invariant multiset(oris[..]) == pool
      invariant |perBlock| == k && |segs| == k && out == Flatten(perBlock)
      invariant forall j :: 0 <= j < k ==> KappaBlock(perBlock[j], segs[j], Pairs(blocks[j]), blockOrder[j], pool)
      invariant cur <= next
    {
      var ps := Pairs(blocks[k]);
      var oriList, codeList;
      ghost var blockSegs;
      oriList, codeList, next, blockSegs := ExpandBlock(oris, ps, Repeat(1, |ps|), rand, next);
      if k >= |blockOrder| {
        assert |blockOrder| < |blocks|;
        return Err(IndexError), next, perBlock, segs;
      }
      var entries := WithKappa(oriList, blockOrder[k], codeList);
      assert KappaBlock(entries, blockSegs, ps, blockOrder[k], pool);
      KappaBlocksSnoc(perBlock, segs, entries, blockSegs, blocks, blockOrder, pool, k);
      FlattenAppend(perBlock, entries);
      out := out + entries;
      perBlock, segs := perBlock + [entries], segs + [blockSegs];
      k := k + 1;
    }
    assert !(|blockOrder| < |blocks|);
    return Ok(out), next, perBlock, segs;
  }

  // ---------------------------------------------------------------------
  // flipgenerator and flipdirecgenerator

  /** `flipcode[0]` per regular entry and `flipcode[1]` per surprise entry. */
  function FlipTags(flipCode: seq<int>, ps: seq<(int, int)>): seq<int>
    requires ps == [] || |flipCode| >= 2
  {
    if ps == [] then [] else Tags(ps, flipCode[0], Repeat(flipCode[1], |ps|))
  }

  /**
   * `flipgenerator`: the flip code of every segment second. The codes are
   * read per segment, so a short `flipcode` raises IndexError only when
   * there is a segment.
   */
  method FlipGenerator(flipCode: seq<int>, block: SeqLen.Block) returns (r: Result<seq<int>>)
    ensures r.Err? <==> Pairs(block) != [] && |flipCode| < 2
    ensures r.Err? ==> r.error == IndexError
    ensures r.Ok? ==> r.value == FlipTags(flipCode, Pairs(block))
  {
    var ps := Pairs(block);
    var flips: seq<int> := [];
    var i := 0;
    while i < |ps|
      invariant 0 <= i <= |ps|
      invariant i > 0 ==> |flipCode| >= 2
      invariant i > 0 ==> flips == Tags(ps[..i], flipCode[0], Repeat(flipCode[1], |ps|))
      invariant i == 0 ==> flips == []
    {
      if |flipCode| < 2 {
        return Err(IndexError);
      }
      assert ps[..i + 1][..i] == ps[..i];
      flips := flips + Repeat(flipCode[0], Nat(ps[i].0)) + Repeat(flipCode[1], Nat(ps[i].1));
      i := i + 1;
    }
    assert ps[..|ps|] == ps;
    return Ok(flips);
  }

  /** The parameters of one square block: ((size, count), direction). */
  datatype SetParams = SetParams(size: real, count: int, direc: Direction)

  datatype FlipEntry = FlipEntry(flip: int, size: real, count: int, direc: Direction)

  /** One block's entries: its flip codes with the block's parameters. */
  function Stamp(flips: seq<int>, p: SetParams): (es: seq<FlipEntry>)
    ensures |es| == |flips|
  {
    seq(|flips|, i requires 0 <= i < |flips| => FlipEntry(flips[i], p.size, p.count, p.direc))
  }

  /** Block b's entries are its flip codes stamped with its parameters p. */
  predicate Stamped(flipCode: seq<int>, p: SetParams, b: SeqLen.Block, entries: seq<FlipEntry>)
  {
    (Pairs(b) == [] || |flipCode| >= 2) && entries == Stamp(FlipTags(flipCode, Pairs(b)), p)
  }

  /**
   * `flipdirecgenerator`: block by block, the flip codes of `flipgenerator`
   * with block s's size, element count and direction repeated alongside. A
   * block without parameters raises IndexError.
   */
  method FlipDirecGenerator(flipCode: seq<int>, blockOrder: seq<SetParams>, blocks: seq<SeqLen.Block>)
    returns (r: Result<seq<FlipEntry>>, ghost perBlock: seq<seq<FlipEntry>>)
    ensures r.Err? <==> |blockOrder| < |blocks| || (|flipCode| < 2 && HasSegments(blocks))
    ensures r.Err? ==> r.error == IndexError
    ensures r.Ok? ==> |perBlock| == |blocks| && r.value == Flatten(perBlock)
    ensures r.Ok? ==> forall s :: 0 <= s < |blocks| ==> Stamped(flipCode, blockOrder[s], blocks[s], perBlock[s])
  {
    var out: seq<FlipEntry> := [];
    perBlock := [];
    var s := 0;
    while s < |blocks|
      invariant 0 <= s <= |blocks|
      invariant s <= |blockOrder|
      invariant |perBlock| == s && out == Flatten(perBlock)
      invariant forall j :: 0 <= j < s ==> Stamped(flipCode, blockOrder[j], blocks[j], perBlock[j])
    {
      var flips := FlipGenerator(flipCode, blocks[s]);
      if flips.Err? {
        assert Pairs(blocks[s]) != [];
        return Err(IndexError), perBlock;
      }
      if s >= |blockOrder| {
        return Err(IndexError), perBlock;
      }
      var entries := Stamp(flips.value, blockOrder[s]);
      FlattenAppend(perBlock, entries);
      out := out + entries;
      perBlock := perBlock + [entries];
      s := s + 1;
    }
    assert |flipCode| < 2 ==> forall j :: 0 <= j < |blocks| ==> Pairs(blocks[j]) == [];
    return Ok(out), perBlock;
  }

  // ---------------------------------------------------------------------
  // setblock_order / setkaps

  /** `[1.0 / x**2 for x in ori_std]`: every kappa is positive. */
  function Kappas(oriStd: seq<real>): (ks: seq<real>)
    requires 0.0 !in oriStd
    ensures |ks| == |oriStd|
    ensures forall i :: 0 <= i < |ks| ==> ks[i] > 0.0 && ks[i] * (oriStd[i] * oriStd[i]) == 1.0
  {
    seq(|oriStd|, i requires 0 <= i < |oriStd| => 1.0 / (oriStd[i] * oriStd[i]))
  }

  /**
   * `setblock_order` / `setkaps`: the kappas of the standard deviations in
   * shuffled order. A zero deviation divides by zero.
   */
  method SetBlockOrder(oriStd: seq<real>, rand: nat -> nat, cur: nat) returns (r: Result<seq<real>>, next: nat)
    ensures r.Err? <==> 0.0 in oriStd
    ensures r.Err? ==> r.error == ZeroDivisionError
    ensures r.Ok? ==> multiset(r.value) == multiset(Kappas(oriStd))
    ensures r.Ok? ==> forall k :: k in r.value ==> k > 0.0
    ensures next == cur + (if r.Ok? then ShuffleDraws(|oriStd|) else 0)
  {
    if 0.0 in oriStd {
      return Err(ZeroDivisionError), cur;
    }
    var ks := Kappas(oriStd);
    var a := new real[|ks|](i requires 0 <= i < |ks| => ks[i]);
    assert a[..] == ks;
    next := Shuffle(a, rand, cur);
    r := Ok(a[..]);
    forall k | k in r.value ensures k > 0.0 {
      assert k in multiset(a[..]);
      assert k in multiset(ks);
    }
  }
}
