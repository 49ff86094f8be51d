/**
 How reservePackage cuts the ordered backlog into packages: the selection loop, its meaning as the
 longest admissible prefix, and the optimality of a whole draining round.
 */
module Draining {
  import opened Sequences

  /** Packaging configuration of a mergewarc project, as validated at load time. */
  datatype Merge = Merge(trigger: int, target: int, maxWait: int)

  ghost predicate ValidMerge(cfg: Merge) {
    cfg.trigger >= cfg.target >= 1
  }

  /** A package may hold these sizes: one artifact of any size, or no more than the target. */
  ghost predicate Admissible(sizes: seq<int>, target: int) {
    |sizes| == 1 || (sizes != [] && Sum(sizes) <= target)
  }

  // ---------- The selection loop ----------

  /** How many sizes from position n on still join a package that already holds acc bytes. */
  function SelectFrom(sizes: seq<int>, target: int, n: nat, acc: int): (r: nat)
    requires n <= |sizes|
    ensures n <= r <= |sizes|
    ensures n == 0 && sizes != [] ==> r >= 1
    decreases |sizes| - n
  {
    if n == |sizes| || (n > 0 && acc + sizes[n] > target) then n
    else if acc + sizes[n] >= target then n + 1
    else SelectFrom(sizes, target, n + 1, acc + sizes[n])
  }

  function GreedyLength(sizes: seq<int>, target: int): (r: nat)
    ensures r <= |sizes|
    ensures sizes != [] ==> r >= 1
  {
    SelectFrom(sizes, target, 0, 0)
  }

  /** The loop with its two exits. */
  method SelectMembers(sizes: seq<int>, target: int) returns (count: nat, bytes: int)
    ensures count == GreedyLength(sizes, target)
    ensures bytes == Sum(sizes[..count])
  {
    count, bytes := 0, 0;
    while count < |sizes|
      invariant count <= |sizes|
      invariant bytes == Sum(sizes[..count])
      invariant SelectFrom(sizes, target, count, bytes) == GreedyLength(sizes, target)
    {
      if count > 0 && bytes + sizes[count] > target {
        break;
      }
      SumSnoc(sizes, count);
      count, bytes := count + 1, bytes + sizes[count];
      if bytes >= target {
        break;
      }
    }
  }

  ghost predicate LongestAdmissible(sizes: seq<int>, target: int, n: nat) {
    && 1 <= n <= |sizes|
    && Admissible(sizes[..n], target)
    && forall m :: n < m <= |sizes| ==> !Admissible(sizes[..m], target)
  }

  lemma {:induction false} SelectFromLongest(sizes: seq<int>, target: int, n: nat)
    requires AllPositive(sizes) && sizes != [] && n <= |sizes|
    requires n > 0 ==> Sum(sizes[..n]) < target
    ensures LongestAdmissible(sizes, target, SelectFrom(sizes, target, n, Sum(sizes[..n])))
    decreases |sizes| - n
  {
    var acc := Sum(sizes[..n]);
    if n < |sizes| {
      SumSnoc(sizes, n);
      forall m | n + 1 < m <= |sizes| ensures Sum(sizes[..m]) > Sum(sizes[..n + 1]) {
        assert sizes[..m][..n + 1] == sizes[..n + 1];
        SumPrefixLe(sizes[..m], n + 1);
      }
      if !(n > 0 && acc + sizes[n] > target) && acc + sizes[n] < target {
        SelectFromLongest(sizes, target, n + 1);
      }
    }
  }

  /** The greedy loop takes exactly the longest admissible prefix. */
  lemma GreedyIsLongest(sizes: seq<int>, target: int)
    requires AllPositive(sizes) && sizes != []
    ensures LongestAdmissible(sizes, target, GreedyLength(sizes, target))
  {
    assert sizes[..0] == [];
    SelectFromLongest(sizes, target, 0);
  }

  // ---------- Cuts and the greedy cut ----------

  /** A cut of the backlog into consecutive admissible blocks, given by their lengths. */
  ghost predicate IsCut(cut: seq<nat>, sizes: seq<int>, target: int)
    decreases |cut|
  {
    if cut == [] then sizes == []
    else
      && 1 <= cut[0] <= |sizes|
      && Admissible(sizes[..cut[0]], target)
      && IsCut(cut[1..], sizes[cut[0]..], target)
  }

  function GreedyCut(sizes: seq<int>, target: int): seq<nat>
    decreases |sizes|
  {
    if sizes == [] then []
    else
      var n := GreedyLength(sizes, target);
      [n] + GreedyCut(sizes[n..], target)
  }

  lemma {:induction false} GreedyCutIsCut(sizes: seq<int>, target: int)
    requires AllPositive(sizes)
    ensures IsCut(GreedyCut(sizes, target), sizes, target)
    decreases |sizes|
  {
    if sizes != [] {
      GreedyIsLongest(sizes, target);
      GreedyCutIsCut(sizes[GreedyLength(sizes, target)..], target);
    }
  }

  lemma GreedyCutSize(sizes: seq<int>, target: int)
    requires sizes != []
    ensures |GreedyCut(sizes, target)| == 1 + |GreedyCut(sizes[GreedyLength(sizes, target)..], target)|
  {
  }

  /** The rest of a greedy block, started later, still fits into one block. */
  lemma LaterStartReachesFurther(sizes: seq<int>, d: nat, target: int)
    requires AllPositive(sizes) && d < GreedyLength(sizes, target)
    ensures d + GreedyLength(sizes[d..], target) >= GreedyLength(sizes, target)
  {
    var n := GreedyLength(sizes, target);
    var tail := sizes[d..];
    GreedyIsLongest(sizes, target);
    GreedyIsLongest(tail, target);
    assert sizes[..d] + tail[..n - d] == sizes[..n];
    SumAppend(sizes[..d], tail[..n - d]);
    SumAtLeastLength(sizes[..d]);
    assert Admissible(tail[..n - d], target);
  }

  lemma SliceOfSlice(s: seq<int>, a: nat, b: nat)
    requires a + b <= |s|
    ensures s[a..][b..] == s[a + b..]
  {
  }

  /** The blocks that the greedy cut makes from a position on. */
  ghost function BlocksFrom(sizes: seq<int>, target: int, start: nat): nat
    requires start <= |sizes|
    decreases |sizes| - start
  {
    if start == |sizes| then 0 else 1 + BlocksFrom(sizes, target, start + GreedyLength(sizes[start..], target))
  }

  lemma {:induction false} BlocksFromCounts(sizes: seq<int>, target: int, start: nat)
    requires start <= |sizes|
    ensures |GreedyCut(sizes[start..], target)| == BlocksFrom(sizes, target, start)
    decreases |sizes| - start
  {
    if start < |sizes| {
      var n := GreedyLength(sizes[start..], target);
      GreedyCutSize(sizes[start..], target);
      SliceOfSlice(sizes, start, n);
      BlocksFromCounts(sizes, target, start + n);
    }
  }

  /** Starting later never makes more blocks. */
  lemma {:induction false} LaterMakesNoMore(sizes: seq<int>, target: int, start: nat, later: nat)
    requires AllPositive(sizes) && start <= later <= |sizes|
    ensures BlocksFrom(sizes, target, later) <= BlocksFrom(sizes, target, start)
    decreases |sizes| - start
  {
    if later < |sizes| {
      var next := start + GreedyLength(sizes[start..], target);
      if next <= later {
        LaterMakesNoMore(sizes, target, next, later);
      } else {
        ReachesFurther(sizes, target, start, later);
        LaterMakesNoMore(sizes, target, next, later + GreedyLength(sizes[later..], target));
      }
    }
  }

  lemma ReachesFurther(sizes: seq<int>, target: int, start: nat, later: nat)
    requires AllPositive(sizes) && start <= later < |sizes|
    requires later < start + GreedyLength(sizes[start..], target)
    ensures later + GreedyLength(sizes[later..], target) >= start + GreedyLength(sizes[start..], target)
  {
    LaterStartReachesFurther(sizes[start..], later - start, target);
    SliceOfSlice(sizes, start, later - start);
  }

  /** Dropping the front of the backlog never costs the greedy cut an extra block. */
  lemma SuffixNeedsNoMore(sizes: seq<int>, d: nat, target: int)
    requires AllPositive(sizes) && d <= |sizes|
    ensures |GreedyCut(sizes[d..], target)| <= |GreedyCut(sizes, target)|
  {
    BlocksFromCounts(sizes, target, d);
    BlocksFromCounts(sizes, target, 0);
    assert sizes[0..] == sizes;
    LaterMakesNoMore(sizes, target, 0, d);
  }

  /** No cut into admissible consecutive blocks has fewer blocks than the greedy one. */
  lemma {:induction false} GreedyCutOptimal(sizes: seq<int>, cut: seq<nat>, target: int)
    requires AllPositive(sizes) && IsCut(cut, sizes, target)
    ensures |GreedyCut(sizes, target)| <= |cut|
    decreases |cut|
  {
    if cut != [] {
      var n := GreedyLength(sizes, target);
      var c := cut[0];
      var rest := sizes[c..];
      FirstBlockFits(sizes, cut, target);
      GreedyCutOptimal(rest, cut[1..], target);
      assert |GreedyCut(rest, target)| <= |cut| - 1;
      SuffixNeedsNoMore(rest, n - c, target);
      SliceOfSlice(sizes, c, n - c);
      assert |GreedyCut(sizes[n..], target)| <= |cut| - 1;
      GreedyCutSize(sizes, target);
    }
  }

  /** The first block of any cut is no longer than the greedy one. */
  lemma FirstBlockFits(sizes: seq<int>, cut: seq<nat>, target: int)
    requires AllPositive(sizes) && IsCut(cut, sizes, target) && cut != []
    ensures 1 <= cut[0] <= GreedyLength(sizes, target) <= |sizes|
    ensures IsCut(cut[1..], sizes[cut[0]..], target)
  {
    GreedyIsLongest(sizes, target);
  }

  /** Any two neighbouring blocks of the greedy cut hold more than one target together. */
  lemma {:induction false} NeighboursExceedTarget(sizes: seq<int>, target: int, i: nat)
    requires AllPositive(sizes) && i + 1 < |GreedyCut(sizes, target)|
    ensures
      var cut := GreedyCut(sizes, target);
      var start := Sum(cut[..i]);
      && 0 <= start && start + cut[i] + cut[i + 1] <= |sizes|
      && Sum(sizes[start..start + cut[i] + cut[i + 1]]) > target
    decreases i
  {
    var n := GreedyLength(sizes, target);
    var cut := GreedyCut(sizes, target);
    var rest := GreedyCut(sizes[n..], target);
    GreedyCutSize(sizes, target);
    assert cut == [n] + rest;
    if i == 0 {
      GreedyIsLongest(sizes, target);
      assert !Admissible(sizes[..n + cut[1]], target);
      assert sizes[0..n + cut[1]] == sizes[..n + cut[1]];
    } else {
      NeighboursExceedTarget(sizes[n..], target, i - 1);
      ShiftedSlice(sizes, n, rest, i - 1);
      assert cut[..i] == [n] + rest[..i - 1];
    }
  }

  lemma ShiftedSlice(sizes: seq<int>, n: nat, rest: seq<nat>, i: nat)
    requires n <= |sizes| && i + 1 < |rest|
    requires 0 <= Sum(rest[..i]) && Sum(rest[..i]) + rest[i] + rest[i + 1] <= |sizes| - n
    ensures Sum([n] + rest[..i]) == n + Sum(rest[..i])
    ensures
      var start := Sum(rest[..i]);
      sizes[n..][start..start + rest[i] + rest[i + 1]] == sizes[n + start..n + start + rest[i] + rest[i + 1]]
  {
    SumAppend([n], rest[..i]);
    assert [n][..0] == [];
  }

  // ---------- The decision of one reservePackage call ----------

  /** What one call does with a nonempty backlog: nothing, or reserve the first `count` candidates
      and persist `draining`. */
  datatype Decision = Wait | Reserve(count: nat, draining: bool)

  function Decide(cfg: Merge, draining: bool, sizes: seq<int>, aged: bool): (r: Decision)
    requires sizes != []
    ensures r.Reserve? ==> 1 <= r.count <= |sizes|
  {
    var total := Sum(sizes);
    var started := draining || total >= cfg.trigger;
    var drains := started && total >= cfg.target;
    if !drains && !aged then Wait
    else
      var n := GreedyLength(sizes, cfg.target);
      Reserve(n, drains && total - Sum(sizes[..n]) >= cfg.target)
  }

  /** The packages a run of calls reserves from a fixed backlog that is not old enough to flush. */
  function Round(cfg: Merge, draining: bool, sizes: seq<int>): seq<nat>
    decreases |sizes|
  {
    if sizes == [] then []
    else
      match Decide(cfg, draining, sizes, false)
      case Wait => []
      case Reserve(n, keep) => [n] + Round(cfg, keep, sizes[n..])
  }

  /** What the round leaves behind. */
  function Tail(cfg: Merge, draining: bool, sizes: seq<int>): seq<int>
    decreases |sizes|
  {
    if sizes == [] then []
    else
      match Decide(cfg, draining, sizes, false)
      case Wait => sizes
      case Reserve(n, keep) => Tail(cfg, keep, sizes[n..])
  }

  /** The blocks of the age-triggered flush of the tail. */
  function Flush(cfg: Merge, tail: seq<int>): seq<nat> {
    if tail == [] then []
    else
      match Decide(cfg, false, tail, true)
      case Wait => []
      case Reserve(n, _) => [n]
  }

  /** A backlog under one target fits in one package. */
  lemma SmallBacklogIsOneBlock(sizes: seq<int>, target: int)
    requires AllPositive(sizes) && sizes != [] && Sum(sizes) < target
    ensures GreedyLength(sizes, target) == |sizes|
    ensures GreedyCut(sizes, target) == [|sizes|]
  {
    GreedyIsLongest(sizes, target);
    assert sizes[..|sizes|] == sizes;
    assert GreedyCut(sizes[|sizes|..], target) == [];
  }

  /** Once draining, the round goes on exactly while a target's worth is left, and the round plus
      the flush is the greedy cut. */
  lemma {:induction false} RoundIsGreedy(cfg: Merge, draining: bool, sizes: seq<int>)
    requires ValidMerge(cfg) && AllPositive(sizes)
    requires draining ==> Sum(sizes) >= cfg.target
    requires !draining && Sum(sizes) >= cfg.target ==> Sum(sizes) >= cfg.trigger
    ensures
      var tail := Tail(cfg, draining, sizes);
      && AllPositive(tail) && Sum(tail) < cfg.target
      && Round(cfg, draining, sizes) + Flush(cfg, tail) == GreedyCut(sizes, cfg.target)
    decreases |sizes|
  {
    if sizes != [] {
      if Sum(sizes) < cfg.target {
        SmallBacklogIsOneBlock(sizes, cfg.target);
      } else {
        var n := GreedyLength(sizes, cfg.target);
        SumSplit(sizes, n);
        var keep := Sum(sizes[n..]) >= cfg.target;
        assert Decide(cfg, draining, sizes, false) == Reserve(n, keep);
        RoundIsGreedy(cfg, keep, sizes[n..]);
      }
    }
  }

  /** A draining round started by the trigger, with one later flush of its tail, uses the fewest
      packages of any admissible cut of the same backlog, and its packages are themselves such a
      cut. */
  lemma RoundOptimal(cfg: Merge, draining: bool, sizes: seq<int>, cut: seq<nat>)
    requires ValidMerge(cfg) && AllPositive(sizes) && Sum(sizes) >= cfg.trigger
    requires IsCut(cut, sizes, cfg.target)
    ensures
      var round := Round(cfg, draining, sizes) + Flush(cfg, Tail(cfg, draining, sizes));
      && IsCut(round, sizes, cfg.target)
      && |round| <= |cut|
  {
    RoundIsGreedy(cfg, draining, sizes);
    GreedyCutIsCut(sizes, cfg.target);
    GreedyCutOptimal(sizes, cut, cfg.target);
  }
}
