/**
 * The sequence-length synthesizer `createseqlen`: lists of regular and
 * surprise segment durations whose total is exactly a block length.
 *
 * The single-block version (ophys rig) and the multi-block versions
 * (habituation rig, the 2p parameter module and the original parameter
 * module) share one fill procedure, `FillBlock`. Integer draws come from an
 * oracle `rand` read at a cursor, in the order numpy makes them.
 */
module SeqLen {
  import opened Common

  /** Inclusive duration ranges `regs` and `surps`. */
  datatype Ranges = Ranges(regMin: int, regMax: int, surpMin: int, surpMax: int)
  {
    /** Smallest possible regular + surprise pair. */
    function Minim(): int { regMin + surpMin }
    /** Largest possible regular + surprise pair. */
    function Maxim(): int { regMax + surpMax }
    /** Both ranges are non-empty, so numpy can draw from them. */
    predicate Drawable() { regMin <= regMax && surpMin <= surpMax }
  }

  /** One block: the regular and the surprise durations, pair by pair. */
  datatype Block = Block(regs: seq<int>, surps: seq<int>)

  predicate InRange(s: seq<int>, lo: int, hi: int)
  {
    forall i :: 0 <= i < |s| ==> lo <= s[i] <= hi
  }

  /** What the source promises of a block: paired lists, exact total, ranges kept. */
  predicate Exact(b: Block, target: int, rg: Ranges)
  {
    && |b.regs| == |b.surps|
    && Sum(b.regs) + Sum(b.surps) == target
    && InRange(b.regs, rg.regMin, rg.regMax)
    && InRange(b.surps, rg.surpMin, rg.surpMax)
  }

  /**
   * `int(a / b)` on integers: Python 2's `/` floors, so the quotient is the
   * largest integer whose multiple does not pass `a`.
   */
  function FloorDiv(a: int, b: int): (q: int)
    requires b != 0
    ensures 0 < b ==> q * b <= a < q * b + b
    ensures b < 0 ==> q * b + b < a <= q * b
  {
    if b > 0 then DivBracket(a, b); a / b
    else DivBracket(-a, -b); (-a) / (-b)
  }

  lemma DivBracket(a: int, b: int)
    requires b > 0
    ensures (a / b) * b <= a < (a / b) * b + b
  {
    assert a == (a / b) * b + a % b;
  }

  /** `rng.randint(lo, hi + 1, n).tolist()`: n draws read from `cur` on. */
  function Draws(lo: int, hi: int, rand: nat -> nat, cur: nat, n: nat): (s: seq<int>)
    requires lo <= hi
    ensures |s| == n && InRange(s, lo, hi)
  {
    var s := seq(n, i requires 0 <= i < n => Pick(lo, hi, rand(cur + i)));
    assert forall i :: 0 <= i < n ==> s[i] == Pick(lo, hi, rand(cur + i));
    s
  }

  lemma SumPop(s: seq<int>)
    requires s != []
    ensures Sum(s) == Sum(s[..|s| - 1]) + s[|s| - 1]
  {
  }

  /**
   * The inner loop of `createseqlen`: drop the last pair while less than the
   * smallest pair is left. It stops at the latest when the lists are empty,
   * because the block itself holds at least the smallest pair.
   */
  method DropTail(regs: seq<int>, surps: seq<int>, blockSegs: int, rg: Ranges)
    returns (regs': seq<int>, surps': seq<int>)
    requires |regs| == |surps|
    requires Sum(regs) + Sum(surps) < blockSegs
    requires rg.Minim() <= blockSegs
    requires InRange(regs, rg.regMin, rg.regMax) && InRange(surps, rg.surpMin, rg.surpMax)
    ensures |regs'| == |surps'| <= |regs|
    ensures regs' == regs[..|regs'|] && surps' == surps[..|regs'|]
    ensures InRange(regs', rg.regMin, rg.regMax) && InRange(surps', rg.surpMin, rg.surpMax)
    ensures rg.Minim() <= blockSegs - Sum(regs') - Sum(surps')
  {
    regs', surps' := regs, surps;
    var rem := blockSegs - Sum(regs') - Sum(surps');
    while rem < rg.Minim()
      invariant |regs'| == |surps'| <= |regs|
      invariant regs' == regs[..|regs'|] && surps' == surps[..|regs'|]
      invariant rem == blockSegs - Sum(regs') - Sum(surps') > 0
      invariant InRange(regs', rg.regMin, rg.regMax) && InRange(surps', rg.surpMin, rg.surpMax)
      decreases |regs'|
    {
      if regs' == [] {
        assert false;
      }
      SumPop(regs');
      SumPop(surps');
      regs' := regs'[..|regs'| - 1];
      surps' := surps'[..|surps'| - 1];
      rem := blockSegs - Sum(regs') - Sum(surps');
    }
  }

  /**
   * The closing pair when what is left fits one pair: the regular duration
   * comes from `[max(regMin, rem - surpMax), min(regMax, rem - surpMin)]` and
   * the surprise duration is the rest. numpy refuses the draw when that range
   * is empty, which happens only when the ranges themselves are empty.
   */
  function ClosingPair(rem: int, rg: Ranges, d: nat): (r: Result<(int, int)>)
    requires rg.Minim() <= rem <= rg.Maxim()
    ensures r.Ok? ==> r.value.0 + r.value.1 == rem
    ensures r.Ok? ==> rg.regMin <= r.value.0 <= rg.regMax && rg.surpMin <= r.value.1 <= rg.surpMax
    ensures r.Ok? <==> rg.Drawable()
  {
    var lo := if rg.regMin < rem - rg.surpMax then rem - rg.surpMax else rg.regMin;
    var hi := if rg.regMax < rem - rg.surpMin then rg.regMax else rem - rg.surpMin;
    if hi < lo then Err(ValueError)
    else
      var reg := Pick(lo, hi, d);
      Ok((reg, rem - reg))
  }

  /** The initial batch of n pairs cannot overshoot, since n * maxim <= blockSegs. */
  lemma BatchFits(regs: seq<int>, surps: seq<int>, n: nat, rg: Ranges, blockSegs: int)
    requires |regs| == |surps| == n > 0
    requires InRange(regs, rg.regMin, rg.regMax) && InRange(surps, rg.surpMin, rg.surpMax)
    requires 0 <= blockSegs && n * rg.Maxim() <= blockSegs
    ensures Sum(regs) + Sum(surps) <= blockSegs
    ensures rg.Minim() <= blockSegs
  {
    assert rg.regMin <= regs[0] <= rg.regMax && rg.surpMin <= surps[0] <= rg.surpMax;
    SumBounds(regs, rg.regMin, rg.regMax);
    SumBounds(surps, rg.surpMin, rg.surpMax);
    MulSplit(n, rg.regMax, rg.surpMax);
    if rg.Maxim() >= 0 {
      MulAtLeast(n, rg.Maxim());
    }
  }

  lemma MulSplit(n: int, a: int, b: int)
    ensures n * a + n * b == n * (a + b)
  {
  }

  lemma MulAtLeast(n: int, m: int)
    requires 1 <= n && 0 <= m
    ensures m <= n * m
  {
    assert n * m == m + (n - 1) * m;
  }

  /**
   * The body of `createseqlen` for one block once `n` is known: an initial
   * batch of n pairs, then the fill loop. The source's loop may run forever
   * on unlucky draws; `budget` bounds its iterations and yields
   * `BudgetExceeded` instead.
   */
  method FillBlock(blockSegs: int, rg: Ranges, n: nat, rand: nat -> nat, cur: nat, budget: nat)
    returns (r: Result<Block>, next: nat)
    requires 0 <= blockSegs
    requires blockSegs == 0 || rg.Minim() <= blockSegs
    requires n * rg.Maxim() <= blockSegs
    ensures cur <= next
    ensures r.Ok? ==> Exact(r.value, blockSegs, rg)
    ensures r.Err? ==> r.error == BudgetExceeded || (r.error.ValueError? && !rg.Drawable())
  {
    next := cur;
    var regs: seq<int> := [];
    var surps: seq<int> := [];
    if n > 0 {
      if !rg.Drawable() {
        return Err(ValueError), next;
      }
      regs := Draws(rg.regMin, rg.regMax, rand, next, n);
      surps := Draws(rg.surpMin, rg.surpMax, rand, next + n, n);
      next := next + 2 * n;
      BatchFits(regs, surps, n, rg, blockSegs);
    }
    var fuel := budget;
    while Sum(regs) + Sum(surps) < blockSegs
      invariant cur <= next
      invariant |regs| == |surps|
      invariant Sum(regs) + Sum(surps) <= blockSegs
      invariant InRange(regs, rg.regMin, rg.regMax) && InRange(surps, rg.surpMin, rg.surpMax)
      invariant regs == [] || rg.Minim() <= blockSegs
      decreases fuel
    {
      if fuel == 0 {
        return Err(BudgetExceeded), next;
      }
      fuel := fuel - 1;
      regs, surps := DropTail(regs, surps, blockSegs, rg);
      var rem := blockSegs - Sum(regs) - Sum(surps);
      var newReg, newSurp;
      if rem <= rg.Maxim() {
        // Use up what is left.
        var pair := ClosingPair(rem, rg, rand(next));
        if pair.Err? {
          return Err(pair.error), next;
        }
        newReg, newSurp := pair.value.0, pair.value.1;
        next := next + 1;
      } else {
        // Otherwise one more pair from the full ranges, which stays below rem.
        if !rg.Drawable() {
          return Err(ValueError), next;
        }
        newReg := Pick(rg.regMin, rg.regMax, rand(next));
        newSurp := Pick(rg.surpMin, rg.surpMax, rand(next + 1));
        next := next + 2;
      }
      SumAppend(regs, newReg);
      SumAppend(surps, newSurp);
      regs := regs + [newReg];
      surps := surps + [newSurp];
    }
    return Ok(Block(regs, surps)), next;
  }

  /**
   * `createseqlen` of the ophys rig: one block of `blockSegs` segments.
   * A zero largest pair divides by zero; a negative batch size is refused by
   * numpy; the source spins forever when 0 < blockSegs < the smallest pair,
   * which the precondition rules out.
   */
  method CreateSeqLen(blockSegs: int, rg: Ranges, rand: nat -> nat, cur: nat, budget: nat)
    returns (r: Result<Block>, next: nat)
    requires 0 <= blockSegs
    requires blockSegs == 0 || rg.Minim() <= blockSegs
    ensures cur <= next
    ensures r.Ok? ==> Exact(r.value, blockSegs, rg)
    ensures r == Err(ZeroDivisionError) <==> rg.Maxim() == 0
    ensures rg.Drawable() && rg.Maxim() > 0 ==> r.Ok? || r.error == BudgetExceeded
  {
    if rg.Maxim() == 0 {
      return Err(ZeroDivisionError), cur;
    }
    var n := FloorDiv(blockSegs, rg.Maxim());
    if n < 0 {
      return Err(ValueError), cur;
    }
    r, next := FillBlock(blockSegs, rg, n, rand, cur, budget);
  }

  /** All blocks are exact. */
  predicate AllExact(bs: seq<Block>, target: int, rg: Ranges)
  {
    forall k :: 0 <= k < |bs| ==> Exact(bs[k], target, rg)
  }

  /**
   * The multi-block `createseqlen` (habituation rig, 2p parameters, original
   * parameters): `n` is computed once, then every block is filled in turn.
   */
  method CreateSeqLenBlocks(blockSegs: int, rg: Ranges, nBlocks: nat, rand: nat -> nat, cur: nat, budget: nat)
    returns (r: Result<seq<Block>>, next: nat)
    requires 0 <= blockSegs
    requires blockSegs == 0 || rg.Minim() <= blockSegs
    ensures cur <= next
    ensures r.Ok? ==> |r.value| == nBlocks && AllExact(r.value, blockSegs, rg)
    ensures r == Err(ZeroDivisionError) <==> rg.Maxim() == 0
    ensures rg.Drawable() && rg.Maxim() > 0 ==> r.Ok? || r.error == BudgetExceeded
  {
    next := cur;
    if rg.Maxim() == 0 {
      return Err(ZeroDivisionError), next;
    }
    var n := FloorDiv(blockSegs, rg.Maxim());
    if n < 0 && nBlocks > 0 {
      return Err(ValueError), next;
    }
    var blocks: seq<Block> := [];
    var k := 0;
    while k < nBlocks
      invariant 0 <= k <= nBlocks
      invariant cur <= next
      invariant |blocks| == k
      invariant AllExact(blocks, blockSegs, rg)
    {
      var b;
      b, next := FillBlock(blockSegs, rg, n as nat, rand, next, budget);
      if b.Err? {
        return Err(b.error), next;
      }
      blocks := blocks + [b.value];
      k := k + 1;
    }
    return Ok(blocks), next;
  }
}
