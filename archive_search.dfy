/** Architecture search with a cumulative archive (optimize_ga.py): every architecture
    scored in a generation that gets past the post-scoring stop check is archived as a
    record; the next population is the champion followed by children of the five
    lowest-MAE individuals, mutated with probability 0.6 and redrawn once more when the
    child equals a parent; the run returns the archived records that no other archived
    record covers. */
module ArchiveSearch {
  import opened Search
  import opened Architecture

  /** An archive record `{"mae", "rmse", "n_params", "arch"}`; two records are equal when
      every field is. */
  type Record = ScoredArch

  // ---------------------------------------------------------------------------
  // The archive front

  /** `t` knocks `s` out of the front: no worse on both errors, and a different record. */
  predicate Covers(t: Record, s: Record) {
    t.mae <= s.mae && t.rmse <= s.rmse && t != s
  }

  predicate CoveredIn(pool: seq<Record>, s: Record) {
    exists i :: 0 <= i < |pool| && Covers(pool[i], s)
  }

  function Uncovered(pool: seq<Record>): Record -> bool {
    s => !CoveredIn(pool, s)
  }

  /** The records of `solutions` that no record of `solutions` covers, in archive order. */
  function ArchiveFront(solutions: seq<Record>): seq<Record> {
    Filter(solutions, Uncovered(solutions))
  }

  /** `pareto_front`: for each record, scan the archive until a covering record turns up;
      keep the record when none does. */
  method ParetoFront(solutions: seq<Record>) returns (front: seq<Record>)
    ensures front == ArchiveFront(solutions)
  {
    front := [];
    for i := 0 to |solutions|
      invariant front == Filter(solutions[..i], Uncovered(solutions))
    {
      var s := solutions[i];
      var dominated := false;
      var j := 0;
      while j < |solutions| && !dominated
        invariant 0 <= j <= |solutions|
        invariant dominated <==> exists k :: 0 <= k < j && Covers(solutions[k], s)
      {
        if Covers(solutions[j], s) {
          dominated := true;
        }
        j := j + 1;
      }
      assert solutions[..i + 1][..i] == solutions[..i];
      if !dominated {
        front := front + [s];
      }
    }
    assert solutions[..|solutions|] == solutions;
  }

  /** The front is an order-preserving sub-list of the archive. */
  lemma ArchiveFrontIsSublist(solutions: seq<Record>) returns (idx: seq<nat>)
    ensures SublistAt(ArchiveFront(solutions), solutions, idx)
  {
    idx := FilterIsSublist(solutions, Uncovered(solutions));
  }

  /** A record is dropped iff some other archived record is no worse on both errors; so no
      kept record covers another. */
  lemma ArchiveFrontMembers(solutions: seq<Record>)
    ensures forall s :: s in ArchiveFront(solutions) <==>
              s in solutions && forall t :: t in solutions ==> !Covers(t, s)
    ensures forall a, b :: a in ArchiveFront(solutions) && b in ArchiveFront(solutions) ==> !Covers(a, b)
  {
    forall s ensures s in ArchiveFront(solutions) <==> s in solutions && forall t :: t in solutions ==> !Covers(t, s) {
      if s in solutions && CoveredIn(solutions, s) {
        var i :| 0 <= i < |solutions| && Covers(solutions[i], s);
        assert solutions[i] in solutions;
      }
    }
  }

  /** Exact duplicates do not knock each other out: a kept record is kept as many times as
      it was archived. */
  lemma DuplicatesKept(solutions: seq<Record>, s: Record)
    requires s in ArchiveFront(solutions)
    ensures multiset(ArchiveFront(solutions))[s] == multiset(solutions)[s]
  {
    FilterCount(solutions, Uncovered(solutions), s);
  }

  /** Two archived records with equal errors and different architectures cover each other,
      so both are dropped. */
  lemma TiedRecordsDropped(solutions: seq<Record>, a: Record, b: Record)
    requires a in solutions && b in solutions
    requires a.mae == b.mae && a.rmse == b.rmse && a.info.arch != b.info.arch
    ensures a !in ArchiveFront(solutions) && b !in ArchiveFront(solutions)
  {
    ArchiveFrontMembers(solutions);
    assert Covers(b, a) && Covers(a, b);
  }

  /** The smallest case: an archive of two such records has an empty front. */
  lemma TiedPairFrontEmpty()
    ensures var a := Eval(0.5, 0.7, ArchInfo(16.0, [8, 8]));
            var b := Eval(0.5, 0.7, ArchInfo(16.0, [9, 7]));
            ArchiveFront([a, b]) == []
  {
    var a := Eval(0.5, 0.7, ArchInfo(16.0, [8, 8]));
    var b := Eval(0.5, 0.7, ArchInfo(16.0, [9, 7]));
    assert [a, b][..1] == [a];
    assert [a, b][1] == b && [a, b][0] == a;
    assert Covers(b, a) && Covers(a, b);
  }

  /** `pareto_front` is idempotent: no kept record is covered by another kept record. */
  lemma {:induction false} ArchiveFrontIdempotent(solutions: seq<Record>)
    ensures ArchiveFront(ArchiveFront(solutions)) == ArchiveFront(solutions)
  {
    var f := ArchiveFront(solutions);
    ArchiveFrontMembers(solutions);
    forall x | x in f ensures Uncovered(f)(x) {
      forall i | 0 <= i < |f| ensures !Covers(f[i], x) {
        assert f[i] in f;
      }
    }
    FilterKeepsAll(f, Uncovered(f));
  }

  // ---------------------------------------------------------------------------
  // Breeding

  /** Probability of the first width redraw. */
  const MutationRate: real := 0.6

  /** The draws behind one child: both parents' positions in `scored[:5]`, the cut or the
      parent pick, the mutation draw with its position and width, and the position and
      width of the anti-stagnation redraw. Draws a child does not make hold any in-range
      value. */
  datatype Draws = Draws(i1: nat, i2: nat, cut: int, pick: nat, u: real, idx: nat, width: int, idx2: nat, width2: int)

  /** The draws lie in the ranges numpy and `random` give them for these parents. */
  ghost predicate Fits(d: Draws, p1: seq<int>, p2: seq<int>)
    requires ValidArch(p1) && ValidArch(p2)
  {
    (MinLen(p1, p2) > 1 ==> 1 <= d.cut < MinLen(p1, p2)) && d.pick < 2 &&
    d.idx < |Crossover(p1, p2, d.cut, d.pick)| && 8 <= d.width < 64 &&
    d.idx2 < |Crossover(p1, p2, d.cut, d.pick)| && 8 <= d.width2 < 64
  }

  /** The child after crossover and the 0.6 mutation, before the anti-stagnation check. */
  function Mutated(p1: seq<int>, p2: seq<int>, d: Draws): (m: seq<int>)
    requires ValidArch(p1) && ValidArch(p2) && Fits(d, p1, p2)
    ensures ValidArch(m) && |m| == |Crossover(p1, p2, d.cut, d.pick)|
    ensures d.u >= MutationRate ==> m == Crossover(p1, p2, d.cut, d.pick)
    ensures d.u < MutationRate ==>
              (m[d.idx] == d.width &&
               forall i :: 0 <= i < |m| && i != d.idx ==> m[i] == Crossover(p1, p2, d.cut, d.pick)[i])
  {
    var base := Crossover(p1, p2, d.cut, d.pick);
    if d.u < MutationRate then Redraw(base, d.idx, d.width) else base
  }

  /** The child appended to the new population: a mutated child that equals a parent has
      one more width redrawn. */
  function Child(p1: seq<int>, p2: seq<int>, d: Draws): (child: seq<int>)
    requires ValidArch(p1) && ValidArch(p2) && Fits(d, p1, p2)
    ensures ValidArch(child) && |child| == |Crossover(p1, p2, d.cut, d.pick)|
    ensures Mutated(p1, p2, d) != p1 && Mutated(p1, p2, d) != p2 ==> child == Mutated(p1, p2, d)
    ensures Mutated(p1, p2, d) == p1 || Mutated(p1, p2, d) == p2 ==>
              (child[d.idx2] == d.width2 &&
               forall i :: 0 <= i < |child| && i != d.idx2 ==> child[i] == Mutated(p1, p2, d)[i])
  {
    var m := Mutated(p1, p2, d);
    if m == p1 || m == p2 then Redraw(m, d.idx2, d.width2) else m
  }

  /** When the redraw changes the width it replaces, the child differs from the parent the
      mutated child had copied. */
  lemma RedrawLeavesParent(p1: seq<int>, p2: seq<int>, d: Draws, parent: seq<int>)
    requires ValidArch(p1) && ValidArch(p2) && Fits(d, p1, p2)
    requires parent == p1 || parent == p2
    requires Mutated(p1, p2, d) == parent && d.width2 != parent[d.idx2]
    ensures Child(p1, p2, d) != parent
  {
    assert Child(p1, p2, d)[d.idx2] == d.width2;
  }

  /** The one-shot redraw does not guarantee a change: a single-layer child copied from one
      parent can be redrawn into the other parent. */
  lemma RedrawMayHitOtherParent()
    ensures var d := Draws(0, 1, 0, 0, 0.9, 0, 8, 0, 9);
            Fits(d, [8], [9]) && Child([8], [9], d) == [9]
  {
    var d := Draws(0, 1, 0, 0, 0.9, 0, 8, 0, 9);
    assert Mutated([8], [9], d) == [8];
  }

  /** `child` was bred from two of the five lowest-MAE entries of `sorted` with the draws `d`. */
  ghost predicate Bred(child: seq<int>, d: Draws, sorted: seq<ScoredArch>)
    requires forall i :: 0 <= i < |sorted| ==> ValidArch(sorted[i].info.arch)
  {
    d.i1 < WindowSize(|sorted|) && d.i2 < WindowSize(|sorted|) &&
    Fits(d, sorted[d.i1].info.arch, sorted[d.i2].info.arch) &&
    child == Child(sorted[d.i1].info.arch, sorted[d.i2].info.arch, d)
  }

  /** One child of the breeding loop, with the next positions in the numpy and `random`
      streams. */
  method Mate(sorted: seq<ScoredArch>, rng: Rng, rpos: nat, choice: Choice, cpos: nat)
    returns (child: seq<int>, rnext: nat, cnext: nat, ghost d: Draws)
    requires rng.Valid() && ValidChoice(choice)
    requires |sorted| > 0 && forall i :: 0 <= i < |sorted| ==> ValidArch(sorted[i].info.arch)
    ensures ValidArch(child) && Bred(child, d, sorted)
  {
    var top := WindowSize(|sorted|);
    var i1, i2 := choice(cpos, top), choice(cpos + 1, top);
    rnext, cnext := rpos, cpos + 2;
    var p1, p2 := sorted[i1].info.arch, sorted[i2].info.arch;
    var cut, pick := 0, 0;
    if MinLen(p1, p2) > 1 {
      cut := rng.randint(rnext, 1, MinLen(p1, p2));
      rnext := rnext + 1;
    } else {
      pick := choice(cnext, 2);
      cnext := cnext + 1;
    }
    child := Crossover(p1, p2, cut, pick);
    var u := rng.rand(rnext);
    rnext := rnext + 1;
    var idx, width := 0, 8;
    if u < MutationRate {
      idx := rng.randint(rnext, 0, |child|);
      width := rng.randint(rnext + 1, 8, 64);
      rnext := rnext + 2;
      child := Redraw(child, idx, width);
    }
    ghost var d0 := Draws(i1, i2, cut, pick, u, idx, width, 0, 8);
    assert child == Mutated(p1, p2, d0);
    ghost var mutated := child;
    var idx2, width2 := 0, 8;
    if child == p1 || child == p2 {
      idx2 := rng.randint(rnext, 0, |child|);
      width2 := rng.randint(rnext + 1, 8, 64);
      rnext := rnext + 2;
      child := Redraw(child, idx2, width2);
    }
    d := Draws(i1, i2, cut, pick, u, idx, width, idx2, width2);
    assert Mutated(p1, p2, d) == mutated;
    assert Child(p1, p2, d) == if mutated == p1 || mutated == p2 then Redraw(mutated, idx2, width2) else mutated;
  }

  /** The breeding loop: the champion first, then children until there are `popSize`
      individuals, polling the stop flag (from poll `at`) before each child and leaving
      the loop at the first raised poll. */
  method Breed(sorted: seq<ScoredArch>, popSize: nat, rng: Rng, rpos: nat, choice: Choice, cpos: nat, stop: StopFlag, at: nat)
    returns (next: seq<seq<int>>, rnext: nat, cnext: nat, used: nat, ghost draws: seq<Draws>)
    requires rng.Valid() && ValidChoice(choice)
    requires |sorted| > 0 && forall i :: 0 <= i < |sorted| ==> ValidArch(sorted[i].info.arch)
    ensures 1 <= |next| && next[0] == sorted[0].info.arch && AllValid(next)
    ensures |next| <= if popSize < 1 then 1 else popSize
    ensures (forall k :: at <= k < at + used ==> !stop(k)) ==> |next| == if popSize < 1 then 1 else popSize
    ensures |draws| == |next| - 1
    ensures forall j :: 0 <= j < |draws| ==> Bred(next[j + 1], draws[j], sorted)
  {
    var children: seq<seq<int>> := [];
    rnext, cnext, used, draws := rpos, cpos, 0, [];
    var stopped := false;
    while 1 + |children| < popSize && !stopped
      invariant 1 + |children| <= if popSize < 1 then 1 else popSize
      invariant |draws| == |children|
      invariant forall j :: 0 <= j < |children| ==> Bred(children[j], draws[j], sorted)
      invariant stopped ==> used >= 1 && stop(at + used - 1)
      decreases popSize - |children|, if stopped then 0 else 1
    {
      if stop(at + used) {
        stopped, used := true, used + 1;
      } else {
        used := used + 1;
        var child; ghost var d;
        child, rnext, cnext, d := Mate(sorted, rng, rnext, choice, cnext);
        children, draws := children + [child], draws + [d];
      }
    }
    next := [sorted[0].info.arch] + children;
    assert next[1..] == children;
    forall j | 0 <= j < |next| ensures ValidArch(next[j]) {
      if j > 0 {
        assert Bred(children[j - 1], draws[j - 1], sorted);
      }
    }
  }

  // ---------------------------------------------------------------------------
  // The generation loop

  /** An archived record: a valid architecture with its sentinel or completed evaluation. */
  ghost predicate Archived(r: Record, splits: nat, fold: (seq<int>, nat) -> FoldError)
    requires splits > 0
  {
    ValidArch(r.info.arch) && ScoredAs(r, r.info.arch, splits, fold)
  }

  /** The architecture of the lowest-MAE entry, the elite of the next population. */
  function ChampionArch(scored: seq<ScoredArch>): seq<int>
    requires |scored| > 0
  {
    SortByMae(scored)[0].info.arch
  }

  /** `scored` is the scored list of the non-empty population `pop`, entry by entry. */
  ghost predicate ScoredGen(scored: seq<Record>, pop: seq<seq<int>>, popSize: nat, splits: nat, fold: (seq<int>, nat) -> FoldError)
    requires splits > 0
  {
    1 <= |pop| <= popSize && AllValid(pop) && |scored| == |pop| &&
    forall i :: 0 <= i < |scored| ==> ScoredAs(scored[i], pop[i], splits, fold)
  }

  /** The archive: the archived scored lists, concatenated in order. */
  function Concat(history: seq<seq<Record>>): seq<Record> {
    if history == [] then [] else Concat(history[..|history| - 1]) + history[|history| - 1]
  }

  /** `history[g]` is the scored list of the population `pops[g]`, for every `g`. */
  ghost predicate AllScored(history: seq<seq<Record>>, pops: seq<seq<seq<int>>>, popSize: nat, splits: nat,
                            fold: (seq<int>, nat) -> FoldError)
    requires splits > 0
  {
    |history| == |pops| && forall g :: 0 <= g < |history| ==> ScoredGen(history[g], pops[g], popSize, splits, fold)
  }

  /** Every population after the first is led by the previous generation's champion. */
  ghost predicate Led(history: seq<seq<Record>>, pops: seq<seq<seq<int>>>)
    requires |history| == |pops| && (forall g :: 0 <= g < |history| ==> |history[g]| > 0) && (forall g :: 0 <= g < |pops| ==> |pops[g]| > 0)
  {
    forall g :: 0 < g < |pops| ==> pops[g][0] == ChampionArch(history[g - 1])
  }

  /** Every entry of every scored list holds its completed evaluation. */
  ghost predicate AllCompletedHistory(history: seq<seq<Record>>, splits: nat, fold: (seq<int>, nat) -> FoldError)
    requires splits > 0
  {
    forall g :: 0 <= g < |history| ==> AllCompleted(history[g], splits, fold)
  }

  /** Every scored list holds `popSize` entries. */
  ghost predicate Full(history: seq<seq<Record>>, popSize: nat) {
    forall g :: 0 <= g < |history| ==> |history[g]| == popSize
  }

  /** The archive holds at most `popSize` entries per scored list, and exactly that many
      when every list is full. */
  lemma {:induction false} ConcatLength(history: seq<seq<Record>>, popSize: nat)
    requires forall g :: 0 <= g < |history| ==> |history[g]| <= popSize
    ensures |Concat(history)| <= popSize * |history|
    ensures Full(history, popSize) ==> |Concat(history)| == popSize * |history|
  {
    if history != [] {
      var front := history[..|history| - 1];
      assert forall g :: 0 <= g < |front| ==> front[g] == history[g];
      ConcatLength(front, popSize);
      assert popSize * |history| == popSize * |front| + popSize;
    }
  }

  /** When every archived generation holds completed scores, so does the whole archive. */
  lemma {:induction false} ConcatCompleted(history: seq<seq<Record>>, splits: nat, fold: (seq<int>, nat) -> FoldError)
    requires splits > 0 && AllCompletedHistory(history, splits, fold)
    ensures AllCompleted(Concat(history), splits, fold)
  {
    if history != [] {
      var front, last := history[..|history| - 1], history[|history| - 1];
      assert forall g :: 0 <= g < |front| ==> front[g] == history[g];
      ConcatCompleted(front, splits, fold);
      assert AllCompleted(last, splits, fold);
      var c, cf := Concat(history), Concat(front);
      forall i | 0 <= i < |c| ensures ArchScore(c[i].mae, c[i].rmse, c[i].info.nParams) == Completed(c[i].info.arch, splits, fold) {
        if i < |cf| {
          assert c[i] == cf[i];
        } else {
          assert c[i] == last[i - |cf|];
        }
      }
    }
  }

  /** An archive built over `gens` generations holds at most `popSize` entries per
      generation, and exactly that many in a quiet run that archived every generation. */
  lemma {:induction false} ArchiveSize(history: seq<seq<Record>>, pops: seq<seq<seq<int>>>, popSize: nat, gens: nat,
                                       splits: nat, fold: (seq<int>, nat) -> FoldError, quiet: bool)
    requires splits > 0 && Lineage(history, pops, popSize, splits, fold, quiet) && |history| <= gens
    ensures |Concat(history)| <= popSize * gens
    ensures quiet && |history| == gens ==> |Concat(history)| == popSize * gens
  {
    AllScoredBound(history, pops, popSize, splits, fold);
    ConcatLength(history, popSize);
    ScaleMonotone(popSize, |history|, gens);
  }

  lemma ScaleMonotone(k: nat, a: nat, b: nat)
    requires a <= b
    ensures k * a <= k * b
  {
    assert k * b == k * a + k * (b - a);
  }

  /** `history[g]` is the scored list of the population `pops[g]`; every population after
      the first is led by the previous generation's champion; in a `quiet` run every list
      is full and every entry holds its completed evaluation. */
  ghost predicate Lineage(history: seq<seq<Record>>, pops: seq<seq<seq<int>>>, popSize: nat, splits: nat,
                          fold: (seq<int>, nat) -> FoldError, quiet: bool)
    requires splits > 0
  {
    AllScored(history, pops, popSize, splits, fold) && Led(history, pops) &&
    (quiet ==> AllCompletedHistory(history, splits, fold) && Full(history, popSize))
  }

  lemma {:induction false} AllScoredStep(history: seq<seq<Record>>, pops: seq<seq<seq<int>>>, scored: seq<Record>, pop: seq<seq<int>>,
                                         popSize: nat, splits: nat, fold: (seq<int>, nat) -> FoldError)
    requires splits > 0 && AllScored(history, pops, popSize, splits, fold) && ScoredGen(scored, pop, popSize, splits, fold)
    ensures AllScored(history + [scored], pops + [pop], popSize, splits, fold)
  {
    var h: seq<seq<Record>>, p: seq<seq<seq<int>>> := history + [scored], pops + [pop];
    forall g | 0 <= g < |h| ensures ScoredGen(h[g], p[g], popSize, splits, fold) {
      if g < |history| {
        assert h[g] == history[g] && p[g] == pops[g];
      } else {
        assert h[g] == scored && p[g] == pop;
      }
    }
  }

  lemma {:induction false} LedStep(history: seq<seq<Record>>, pops: seq<seq<seq<int>>>, scored: seq<Record>, pop: seq<seq<int>>)
    requires |history| == |pops| && (forall g :: 0 <= g < |history| ==> |history[g]| > 0) && (forall g :: 0 <= g < |pops| ==> |pops[g]| > 0)
    requires Led(history, pops) && |scored| > 0 && |pop| > 0
    requires history != [] ==> pop[0] == ChampionArch(history[|history| - 1])
    ensures (forall g :: 0 <= g < |history| + 1 ==> |(history + [scored])[g]| > 0) &&
            (forall g :: 0 <= g < |pops| + 1 ==> |(pops + [pop])[g]| > 0)
    ensures Led(history + [scored], pops + [pop])
  {
    var h: seq<seq<Record>>, p: seq<seq<seq<int>>> := history + [scored], pops + [pop];
    forall g | 0 <= g < |h| ensures |h[g]| > 0 {
      if g < |history| {
        assert h[g] == history[g];
      }
    }
    forall g | 0 <= g < |p| ensures |p[g]| > 0 {
      if g < |pops| {
        assert p[g] == pops[g];
      }
    }
    forall g | 0 < g < |p| ensures p[g][0] == ChampionArch(h[g - 1]) {
      assert h[g - 1] == history[g - 1];
      if g < |pops| {
        assert p[g] == pops[g];
      }
    }
  }

  lemma {:induction false} CompletedStep(history: seq<seq<Record>>, scored: seq<Record>, popSize: nat, splits: nat,
                                         fold: (seq<int>, nat) -> FoldError)
    requires splits > 0 && AllCompletedHistory(history, splits, fold) && AllCompleted(scored, splits, fold)
    requires Full(history, popSize) && |scored| == popSize
    ensures AllCompletedHistory(history + [scored], splits, fold) && Full(history + [scored], popSize)
  {
    var h: seq<seq<Record>> := history + [scored];
    forall g | 0 <= g < |h| ensures AllCompleted(h[g], splits, fold) && |h[g]| == popSize {
      if g < |history| {
        assert h[g] == history[g];
      }
    }
  }

  /** Every scored list of an archive with `AllScored` is non-empty, as is its population. */
  lemma {:induction false} AllScoredNonEmpty(history: seq<seq<Record>>, pops: seq<seq<seq<int>>>, popSize: nat, splits: nat,
                                             fold: (seq<int>, nat) -> FoldError)
    requires splits > 0 && AllScored(history, pops, popSize, splits, fold)
    ensures |history| == |pops| && (forall g :: 0 <= g < |history| ==> |history[g]| > 0) && (forall g :: 0 <= g < |pops| ==> |pops[g]| > 0)
  {
    forall g | 0 <= g < |pops| ensures |history[g]| > 0 && |pops[g]| > 0 {
      assert ScoredGen(history[g], pops[g], popSize, splits, fold);
    }
  }

  /** Every scored list of an archive with `AllScored` holds at most `popSize` entries. */
  lemma {:induction false} AllScoredBound(history: seq<seq<Record>>, pops: seq<seq<seq<int>>>, popSize: nat, splits: nat,
                                          fold: (seq<int>, nat) -> FoldError)
    requires splits > 0 && AllScored(history, pops, popSize, splits, fold)
    ensures forall g :: 0 <= g < |history| ==> |history[g]| <= popSize
  {
    forall g | 0 <= g < |history| ensures |history[g]| <= popSize {
      assert ScoredGen(history[g], pops[g], popSize, splits, fold);
    }
  }

  /** Archiving one more scored population, led by the last champion, keeps `Lineage`
      and appends its entries to the archive. */
  lemma {:induction false} LineageStep(history: seq<seq<Record>>, pops: seq<seq<seq<int>>>, scored: seq<Record>, pop: seq<seq<int>>,
                                       popSize: nat, splits: nat, fold: (seq<int>, nat) -> FoldError, quiet: bool)
    requires splits > 0 && Lineage(history, pops, popSize, splits, fold, quiet) && ScoredGen(scored, pop, popSize, splits, fold)
    requires history != [] ==> |history[|history| - 1]| > 0 && pop[0] == ChampionArch(history[|history| - 1])
    requires quiet ==> AllCompleted(scored, splits, fold) && |scored| == popSize
    ensures Lineage(history + [scored], pops + [pop], popSize, splits, fold, quiet)
    ensures Concat(history + [scored]) == Concat(history) + scored
  {
    AllScoredNonEmpty(history, pops, popSize, splits, fold);
    AllScoredStep(history, pops, scored, pop, popSize, splits, fold);
    LedStep(history, pops, scored, pop);
    if quiet {
      CompletedStep(history, scored, popSize, splits, fold);
    }
    assert (history + [scored])[..|history|] == history;
  }

  /** One pass of the generation loop: stop poll, `Started` report, scoring, stop poll,
      ranking, `Scored` report with its veto, breeding. The caller appends the scored list
      to the archive on every outcome but `Stopped` and `Empty`. */
  method Generation(gen: nat, pop: seq<seq<int>>, popSize: nat, splits: nat, fold: (seq<int>, nat) -> FoldError,
                    cb: Callback, stop: StopFlag, rng: Rng, choice: Choice, cur: Cursor, reports: seq<Report<ArchInfo>>)
    returns (step: Step, scored: seq<ScoredArch>, next: seq<seq<int>>, after: Cursor, r: seq<Report<ArchInfo>>)
    requires rng.Valid() && ValidChoice(choice) && splits >= 2 && AllValid(pop) && |pop| <= popSize
    ensures stop(cur.polls) ==> step == Stopped && r == reports
    ensures step == Stopped ==> scored == []
    ensures |scored| == if step == Stopped then 0 else |pop|
    ensures step == Empty <==> step != Stopped && pop == []
    ensures step == Vetoed || step == Continued ==> ScoredGen(scored, pop, popSize, splits, fold)
    ensures forall i :: 0 <= i < |scored| ==> scored[i].info.arch == pop[i] && Archived(scored[i], splits, fold)
    ensures Quiet(stop, cb) ==> AllCompleted(scored, splits, fold)
    ensures step == Continued ==>
              1 <= |next| <= (if popSize < 1 then 1 else popSize) && AllValid(next) &&
              next[0] == SortByMae(scored)[0].info.arch && next[0] == ChampionArch(scored)
    ensures cb.Absent? ==> r == reports && step != Vetoed
    ensures cb.Present? && !stop(cur.polls) ==>
              r == reports + [Started(gen)] +
                   (if step == Stopped || step == Empty then [] else [Scored(gen, SortByMae(scored)[0].mae, SortByMae(scored)[0].rmse, SortByMae(scored)[0].info)])
    ensures Quiet(stop, cb) ==>
              step == (if pop == [] then Empty else Continued) &&
              (step == Continued ==> |next| == if popSize < 1 then 1 else popSize)
  {
    next := pop;
    var stopped;
    scored, stopped, after, r := ScorePass(gen, pop, splits, fold, cb, stop, cur, reports);
    if stopped {
      step := Stopped;
      return;
    }
    var polls, calls, rpos, cpos := after.polls, after.calls, after.draws, after.choices;
    if |scored| == 0 {
      step := Empty;
      return;
    }
    var sorted := SortByMae(scored);
    SortKeepsValid(scored);
    if cb.Present? {
      r := r + [Scored(gen, sorted[0].mae, sorted[0].rmse, sorted[0].info)];
      var vetoed := cb.returnsFalse(calls);
      calls := calls + 1;
      if vetoed {
        step, after := Vetoed, Cursor(polls, calls, rpos, cpos);
        return;
      }
    }
    var bredPolls; ghost var draws;
    next, rpos, cpos, bredPolls, draws := Breed(sorted, popSize, rng, rpos, choice, cpos, stop, polls);
    step, after := Continued, Cursor(polls + bredPolls, calls, rpos, cpos);
  }

  /** The first half of a pass of the generation loop: the stop poll, the start report,
      scoring every member (polling the stop flag before each) and the stop poll after
      scoring; `stopped` says one of those polls was raised. */
  method ScorePass(gen: nat, pop: seq<seq<int>>, splits: nat, fold: (seq<int>, nat) -> FoldError,
                   cb: Callback, stop: StopFlag, cur: Cursor, reports: seq<Report<ArchInfo>>)
    returns (scored: seq<ScoredArch>, stopped: bool, after: Cursor, r: seq<Report<ArchInfo>>)
    requires splits >= 2
    ensures after.draws == cur.draws && after.choices == cur.choices
    ensures after.calls == if cb.Present? && !stop(cur.polls) then cur.calls + 1 else cur.calls
    ensures stop(cur.polls) ==> stopped
    ensures stopped ==> scored == []
    ensures !stopped ==> |scored| == |pop| && forall i :: 0 <= i < |pop| ==> ScoredAs(scored[i], pop[i], splits, fold)
    ensures r == if cb.Absent? || stop(cur.polls) then reports else reports + [Started(gen)]
    ensures Quiet(stop, cb) ==> !stopped && AllCompleted(scored, splits, fold)
  {
    var polls, calls := cur.polls, cur.calls;
    r, scored, stopped := reports, [], true;
    if stop(polls) {
      return scored, stopped, Cursor(polls + 1, calls, cur.draws, cur.choices), r;
    }
    polls := polls + 1;
    if cb.Present? {
      r, calls := r + [Started(gen)], calls + 1;
    }
    var used;
    scored, used := ScoreAll(pop, splits, fold, stop, polls);
    polls := polls + used;
    if stop(polls) {
      return [], stopped, Cursor(polls + 1, calls, cur.draws, cur.choices), r;
    }
    stopped, after := false, Cursor(polls + 1, calls, cur.draws, cur.choices);
  }

  /** The generation loop of `ga_optimize_structure`, from the initial population `pop0`
      whose draws end at `draws`. `pareto` is the archive: the scored lists `history` of the
      generations that got past the post-scoring stop check, concatenated in order, each
      entry scored from its member of the population `pops[g]`, every population after the
      first led by the previous champion, every entry a completed evaluation when no stop
      poll is raised and the callback never vetoes. `raised` says the empty population
      raised `IndexError`. */
  method Generations(pop0: seq<seq<int>>, draws: nat, popSize: nat, nGen: int, splits: nat, fold: (seq<int>, nat) -> FoldError,
                     cb: Callback, stop: StopFlag, rng: Rng, choice: Choice)
    returns (raised: bool, pareto: seq<Record>, reports: seq<Report<ArchInfo>>,
             ghost gens: nat, ghost history: seq<seq<Record>>, ghost pops: seq<seq<seq<int>>>)
    requires rng.Valid() && ValidChoice(choice) && splits >= 2
    requires |pop0| == popSize && AllValid(pop0)
    ensures raised ==> popSize == 0
    ensures (nGen <= 0 || stop(0)) ==> !raised && pareto == [] && reports == []
    ensures forall r :: r in pareto ==> Archived(r, splits, fold)
    ensures pareto == Concat(history) && Lineage(history, pops, popSize, splits, fold, Quiet(stop, cb))
    ensures |history| <= gens && (popSize > 0 && Quiet(stop, cb) ==> |history| == gens)
    ensures gens <= (if nGen < 0 then 0 else nGen)
    ensures cb.Absent? ==> reports == []
    ensures popSize > 0 && Quiet(stop, cb) ==> gens == (if nGen < 0 then 0 else nGen)
  {
    var pop := pop0;
    var cur := Cursor(0, 0, draws, 0);
    var gen: nat := 0;
    raised, pareto, reports, history, pops := false, [], [], [], [];
    while gen < nGen
      invariant (popSize == 0 ==> pop == []) && (popSize > 0 ==> 1 <= |pop| <= popSize)
      invariant AllValid(pop)
      invariant gen <= (if nGen < 0 then 0 else nGen)
      invariant forall r :: r in pareto ==> Archived(r, splits, fold)
      invariant pareto == Concat(history) && Lineage(history, pops, popSize, splits, fold, Quiet(stop, cb))
      invariant history != [] ==> |history[|history| - 1]| > 0 && pop[0] == ChampionArch(history[|history| - 1])
      invariant |history| == gen
      invariant cb.Absent? ==> reports == []
      invariant gen == 0 ==> reports == [] && pareto == [] && cur.polls == 0
      invariant stop(0) ==> gen == 0
      invariant Quiet(stop, cb) ==> |pop| == popSize
      decreases nGen - gen
    {
      var step, scored, next;
      step, scored, next, cur, reports := Generation(gen, pop, popSize, splits, fold, cb, stop, rng, choice, cur, reports);
      if step == Vetoed || step == Continued {
        LineageStep(history, pops, scored, pop, popSize, splits, fold, Quiet(stop, cb));
        pareto, history, pops := pareto + scored, history + [scored], pops + [pop];
        assert history[|history| - 1] == scored;
      }
      if step != Continued {
        assert stop(0) ==> step == Stopped && pareto == [] && reports == [];
        raised, gens := step == Empty, gen + 1;
        return;
      }
      pop := next;
      gen := gen + 1;
    }
    gens := gen;
  }

  /** `ga_optimize_structure`. `archive` is the `pareto` list built by the generation loop
      (see `Generations`). The result is the archive front, empty when the run stops before
      generation 0 is scored, and an `IndexError` when the population is empty. */
  method Run(popSize: nat, nGen: int, splits: nat, fold: (seq<int>, nat) -> FoldError,
             cb: Callback, stop: StopFlag, rng: Rng, choice: Choice)
    returns (outcome: Outcome<seq<Record>>, reports: seq<Report<ArchInfo>>,
             ghost archive: seq<Record>, ghost gens: nat, ghost history: seq<seq<Record>>, ghost pops: seq<seq<seq<int>>>)
    requires rng.Valid() && ValidChoice(choice) && splits >= 2
    ensures outcome.Raised? ==> popSize == 0 && outcome.error == IndexError
    ensures outcome.Returned? ==> outcome.value == ArchiveFront(archive)
    ensures popSize > 0 ==> outcome.Returned?
    ensures (nGen <= 0 || stop(0)) ==> outcome == Returned([]) && archive == [] && reports == []
    ensures forall r :: r in archive ==> Archived(r, splits, fold)
    ensures archive == Concat(history) && Lineage(history, pops, popSize, splits, fold, Quiet(stop, cb))
    ensures |history| <= gens && (popSize > 0 && Quiet(stop, cb) ==> |history| == gens)
    ensures gens <= (if nGen < 0 then 0 else nGen) && |archive| <= popSize * gens
    ensures Quiet(stop, cb) ==> AllCompleted(archive, splits, fold)
    ensures cb.Absent? ==> reports == []
    ensures popSize > 0 && Quiet(stop, cb) ==>
              gens == (if nGen < 0 then 0 else nGen) && |archive| == popSize * gens
  {
    var pop, draws := InitialPopulation(rng, popSize);
    var raised, pareto;
    raised, pareto, reports, gens, history, pops := Generations(pop, draws, popSize, nGen, splits, fold, cb, stop, rng, choice);
    archive := pareto;
    ArchiveSize(history, pops, popSize, gens, splits, fold, Quiet(stop, cb));
    if Quiet(stop, cb) {
      ConcatCompleted(history, splits, fold);
    }
    if raised {
      outcome := Raised(IndexError);
    } else {
      var front := ParetoFront(pareto);
      outcome := Returned(front);
    }
  }
}
