/** Single-objective architecture search (structure_ga.py): the population is scored,
    sorted by MAE, the best-so-far record is replaced only on a strictly smaller MAE,
    and the next population is the generation's champion followed by children of
    parents drawn from the five lowest-MAE individuals. */
module StructureSearch {
  import opened Search
  import opened Architecture

  /** Probability of redrawing one layer width of a child. */
  const MutationRate: real := 0.3

  /** The draws behind one child: positions of both parents in `scored[:5]`, the cut (used
      when both parents have two or more layers) or the parent pick (otherwise), the
      mutation draw, and the redrawn position and width (used when that draw is below 0.3). */
  datatype Mating = Mating(i1: nat, i2: nat, cut: int, pick: nat, u: real, idx: nat, width: int)

  /** The draws of `m` lie in the ranges numpy and `random` give them for these parents. */
  ghost predicate Fits(m: Mating, p1: seq<int>, p2: seq<int>)
    requires ValidArch(p1) && ValidArch(p2)
  {
    (MinLen(p1, p2) > 1 ==> 1 <= m.cut < MinLen(p1, p2)) && m.pick < 2 &&
    (m.u < MutationRate ==> m.idx < |Crossover(p1, p2, m.cut, m.pick)| && 8 <= m.width < 64)
  }

  /** The child the loop body builds from two parents and its draws: crossover, then with
      probability 0.3 one width redrawn. */
  function Child(p1: seq<int>, p2: seq<int>, m: Mating): (child: seq<int>)
    requires ValidArch(p1) && ValidArch(p2) && Fits(m, p1, p2)
    ensures ValidArch(child)
    ensures |child| == |Crossover(p1, p2, m.cut, m.pick)|
    ensures m.u >= MutationRate ==> child == Crossover(p1, p2, m.cut, m.pick)
    ensures m.u < MutationRate ==>
              (child[m.idx] == m.width &&
               forall i :: 0 <= i < |child| && i != m.idx ==> child[i] == Crossover(p1, p2, m.cut, m.pick)[i])
  {
    var base := Crossover(p1, p2, m.cut, m.pick);
    if m.u < MutationRate then Redraw(base, m.idx, m.width) else base
  }

  /** `child` was bred from two of the five lowest-MAE entries of `sorted` with the draws `m`. */
  ghost predicate Bred(child: seq<int>, m: Mating, sorted: seq<ScoredArch>)
    requires forall i :: 0 <= i < |sorted| ==> ValidArch(sorted[i].info.arch)
  {
    m.i1 < WindowSize(|sorted|) && m.i2 < WindowSize(|sorted|) &&
    Fits(m, sorted[m.i1].info.arch, sorted[m.i2].info.arch) &&
    child == Child(sorted[m.i1].info.arch, sorted[m.i2].info.arch, m)
  }

  /** One child of the breeding loop: two parents by `random.choice(scored[:5])`, the
      crossover, then with probability 0.3 one width redrawn; returns the next positions in
      the numpy and `random` streams. */
  method Mate(sorted: seq<ScoredArch>, rng: Rng, rpos: nat, choice: Choice, cpos: nat)
    returns (child: seq<int>, rnext: nat, cnext: nat, ghost m: Mating)
    requires rng.Valid() && ValidChoice(choice)
    requires |sorted| > 0 && forall i :: 0 <= i < |sorted| ==> ValidArch(sorted[i].info.arch)
    ensures ValidArch(child) && Bred(child, m, sorted)
  {
    var top := WindowSize(|sorted|);
    var i1, i2 := choice(cpos, top), choice(cpos + 1, top);
    rnext, cnext := rpos, cpos + 2;
    var p1, p2 := sorted[i1].info.arch, sorted[i2].info.arch;
    var cut, pick := 0, 0;
    if MinLen(p1, p2) > 1 {
      cut := rng.randint(rnext, 1, MinLen(p1, p2));
      rnext := rnext + 1;
    } else {
      pick := choice(cnext, 2);
      cnext := cnext + 1;
    }
    child := Crossover(p1, p2, cut, pick);
    ghost var base := child;
    var u := rng.rand(rnext);
    rnext := rnext + 1;
    var idx, width := 0, 0;
    if u < MutationRate {
      idx := rng.randint(rnext, 0, |child|);
      width := rng.randint(rnext + 1, 8, 64);
      rnext := rnext + 2;
      child := Redraw(child, idx, width);
    }
    m := Mating(i1, i2, cut, pick, u, idx, width);
    assert Fits(m, p1, p2) && child == if u < MutationRate then Redraw(base, idx, width) else base;
  }

  /** The breeding loop: the champion first, then children until there are `popSize`
      individuals, polling the stop flag (from poll `at`) before each child and leaving
      the loop early at the first raised poll. */
  method Breed(sorted: seq<ScoredArch>, popSize: nat, rng: Rng, rpos: nat, choice: Choice, cpos: nat, stop: StopFlag, at: nat)
    returns (next: seq<seq<int>>, rnext: nat, cnext: nat, used: nat, ghost matings: seq<Mating>)
    requires rng.Valid() && ValidChoice(choice)
    requires |sorted| > 0 && forall i :: 0 <= i < |sorted| ==> ValidArch(sorted[i].info.arch)
    ensures 1 <= |next| && next[0] == sorted[0].info.arch && AllValid(next)
    ensures |next| <= if popSize < 1 then 1 else popSize
    ensures (forall k :: at <= k < at + used ==> !stop(k)) ==> |next| == if popSize < 1 then 1 else popSize
    ensures |matings| == |next| - 1
    ensures forall j :: 0 <= j < |matings| ==> Bred(next[j + 1], matings[j], sorted)
  {
    var children: seq<seq<int>> := [];
    rnext, cnext, used, matings := rpos, cpos, 0, [];
    var stopped := false;
    while 1 + |children| < popSize && !stopped
      invariant 1 + |children| <= if popSize < 1 then 1 else popSize
      invariant |matings| == |children|
      invariant forall j :: 0 <= j < |children| ==> Bred(children[j], matings[j], sorted)
      invariant stopped ==> used >= 1 && stop(at + used - 1)
      decreases popSize - |children|, if stopped then 0 else 1
    {
      if stop(at + used) {
        stopped, used := true, used + 1;
      } else {
        used := used + 1;
        var child; ghost var m;
        child, rnext, cnext, m := Mate(sorted, rng, rnext, choice, cnext);
        children, matings := children + [child], matings + [m];
      }
    }
    next := [sorted[0].info.arch] + children;
    assert next[1..] == children;
    forall j | 0 <= j < |next| ensures ValidArch(next[j]) {
      if j > 0 {
        assert Bred(children[j - 1], matings[j - 1], sorted);
      }
    }
  }

  /** A ranked generation: a non-empty scored list of valid architectures, each holding the
      sentinel triple or its own completed evaluation, no larger than the population, and
      its champion, the head of the list sorted by MAE, whose MAE is at most every entry's. */
  ghost predicate Ranked(scored: seq<ScoredArch>, champ: ScoredArch, popSize: nat, splits: nat, fold: (seq<int>, nat) -> FoldError)
    requires splits > 0
  {
    0 < |scored| <= popSize && champ == SortByMae(scored)[0] &&
    forall i :: 0 <= i < |scored| ==>
      ValidArch(scored[i].info.arch) && ScoredAs(scored[i], scored[i].info.arch, splits, fold) && champ.mae <= scored[i].mae
  }

  /** A scored list of valid architectures is ranked by its sorted head, and sorting keeps
      every entry a valid architecture. */
  lemma RankedHead(scored: seq<ScoredArch>, popSize: nat, splits: nat, fold: (seq<int>, nat) -> FoldError)
    requires splits > 0 && 0 < |scored| <= popSize
    requires forall i :: 0 <= i < |scored| ==>
               ValidArch(scored[i].info.arch) && ScoredAs(scored[i], scored[i].info.arch, splits, fold)
    ensures Ranked(scored, SortByMae(scored)[0], popSize, splits, fold)
    ensures forall i :: 0 <= i < |scored| ==> ValidArch(SortByMae(scored)[i].info.arch)
  {
    var sorted := SortByMae(scored);
    SortKeepsValid(scored);
    SortHeadIsMinimal(scored);
    forall i | 0 <= i < |scored| ensures sorted[0].mae <= scored[i].mae {
      assert scored[i] in scored;
    }
  }

  /** What the generation loop has established about the generations ranked so far: each
      is ranked by its champion, each after the first starts with the previous champion's
      architecture (the elite), and, when `quiet` holds, every entry is a completed
      evaluation. */
  ghost predicate Progress(history: seq<seq<ScoredArch>>, champs: seq<ScoredArch>, popSize: nat,
                           splits: nat, fold: (seq<int>, nat) -> FoldError, quiet: bool)
    requires splits > 0
  {
    |history| == |champs| &&
    (forall g :: 0 <= g < |history| ==> Ranked(history[g], champs[g], popSize, splits, fold)) &&
    (forall g :: 0 < g < |history| ==> |history[g]| > 0 && history[g][0].info.arch == champs[g - 1].info.arch) &&
    (quiet ==> forall g :: 0 <= g < |history| ==> AllCompleted(history[g], splits, fold))
  }

  lemma {:induction false} RankedStep(history: seq<seq<ScoredArch>>, champs: seq<ScoredArch>, scored: seq<ScoredArch>, champ: ScoredArch,
                                      popSize: nat, splits: nat, fold: (seq<int>, nat) -> FoldError)
    requires splits > 0 && |history| == |champs| && Ranked(scored, champ, popSize, splits, fold)
    requires forall g :: 0 <= g < |history| ==> Ranked(history[g], champs[g], popSize, splits, fold)
    ensures forall g :: 0 <= g < |history| + 1 ==> Ranked((history + [scored])[g], (champs + [champ])[g], popSize, splits, fold)
  {
    var h: seq<seq<ScoredArch>>, c: seq<ScoredArch> := history + [scored], champs + [champ];
    forall g | 0 <= g < |h| ensures Ranked(h[g], c[g], popSize, splits, fold) {
      if g < |history| {
        assert h[g] == history[g] && c[g] == champs[g];
      }
    }
  }

  lemma {:induction false} EliteStep(history: seq<seq<ScoredArch>>, champs: seq<ScoredArch>, scored: seq<ScoredArch>, champ: ScoredArch)
    requires |history| == |champs| && |scored| > 0
    requires forall g :: 0 < g < |history| ==> |history[g]| > 0 && history[g][0].info.arch == champs[g - 1].info.arch
    requires history != [] ==> scored[0].info.arch == champs[|champs| - 1].info.arch
    ensures forall g :: 0 < g < |history| + 1 ==>
              |(history + [scored])[g]| > 0 && (history + [scored])[g][0].info.arch == (champs + [champ])[g - 1].info.arch
  {
    var h: seq<seq<ScoredArch>>, c: seq<ScoredArch> := history + [scored], champs + [champ];
    forall g | 0 < g < |h| ensures |h[g]| > 0 && h[g][0].info.arch == c[g - 1].info.arch {
      if g < |history| {
        assert h[g] == history[g] && c[g - 1] == champs[g - 1];
      }
    }
  }

  /** Ranking one more generation whose population starts with the last champion keeps
      `Progress`. */
  lemma {:induction false} ProgressStep(history: seq<seq<ScoredArch>>, champs: seq<ScoredArch>, scored: seq<ScoredArch>, champ: ScoredArch, popSize: nat,
                     splits: nat, fold: (seq<int>, nat) -> FoldError, quiet: bool)
    requires splits > 0 && Progress(history, champs, popSize, splits, fold, quiet) && |scored| > 0
    requires Ranked(scored, champ, popSize, splits, fold)
    requires history != [] ==> scored[0].info.arch == champs[|champs| - 1].info.arch
    requires quiet ==> AllCompleted(scored, splits, fold)
    ensures Progress(history + [scored], champs + [champ], popSize, splits, fold, quiet)
  {
    RankedStep(history, champs, scored, champ, popSize, splits, fold);
    EliteStep(history, champs, scored, champ);
    if quiet {
      var h: seq<seq<ScoredArch>> := history + [scored];
      forall g | 0 <= g < |h| ensures AllCompleted(h[g], splits, fold) {
        if g < |history| {
          assert h[g] == history[g];
        }
      }
    }
  }

  /** One pass of the generation loop: stop poll, `Started` report, scoring, stop poll,
      ranking, best-so-far update, `Scored` report with its veto, breeding. `history` and
      `champs` are the generations ranked before this one and their champions; the pass
      appends its own when it ranks one. */
  method Generation(gen: nat, pop: seq<seq<int>>, popSize: nat, splits: nat, fold: (seq<int>, nat) -> FoldError,
                    cb: Callback, stop: StopFlag, rng: Rng, choice: Choice, cur: Cursor, reports: seq<Report<ArchInfo>>,
                    best: Option<ScoredArch>, ghost history: seq<seq<ScoredArch>>, ghost champs: seq<ScoredArch>, ghost quiet: bool)
    returns (step: Step, scored: seq<ScoredArch>, champ: ScoredArch, next: seq<seq<int>>, after: Cursor, r: seq<Report<ArchInfo>>,
             best': Option<ScoredArch>, ghost history': seq<seq<ScoredArch>>, ghost champs': seq<ScoredArch>)
    requires rng.Valid() && ValidChoice(choice) && splits >= 2 && AllValid(pop) && |pop| <= popSize
    requires quiet == Quiet(stop, cb)
    requires best == RunningBest(champs) && Progress(history, champs, popSize, splits, fold, quiet)
    requires history != [] ==> |pop| > 0 && pop[0] == champs[|champs| - 1].info.arch
    ensures best' == RunningBest(champs') && Progress(history', champs', popSize, splits, fold, quiet)
    ensures (step == Stopped || step == Empty) ==> history' == history && champs' == champs
    ensures |champs'| == |history'| == |champs| + (if step == Vetoed || step == Continued then 1 else 0)
    ensures (step == Vetoed || step == Continued) ==> history' == history + [scored] && champs' == champs + [champ]
    ensures step == Empty ==> pop == []
    ensures stop(cur.polls) ==> step == Stopped && r == reports
    ensures (step == Vetoed || step == Continued) ==>
              |scored| == |pop| > 0 && Ranked(scored, champ, popSize, splits, fold) &&
              (forall i :: 0 <= i < |pop| ==> ScoredAs(scored[i], pop[i], splits, fold)) &&
              (quiet ==> AllCompleted(scored, splits, fold))
    ensures step == Continued ==>
              1 <= |next| <= (if popSize < 1 then 1 else popSize) && AllValid(next) &&
              next[0] == champ.info.arch
    ensures cb.Absent? ==> r == reports && step != Vetoed
    ensures cb.Present? && !stop(cur.polls) ==>
              r == reports + [Started(gen)] +
                   (if step == Stopped || step == Empty then [] else [Scored(gen, champ.mae, champ.rmse, champ.info)])
    ensures quiet ==>
              step == (if pop == [] then Empty else Continued) &&
              (step == Continued ==> |next| == if popSize < 1 then 1 else popSize)
  {
    var polls, calls, rpos, cpos := cur.polls, cur.calls, cur.draws, cur.choices;
    r, scored, champ, next := reports, [], Eval(0.0, 0.0, ArchInfo(0.0, [])), pop;
    best', history', champs' := best, history, champs;
    if stop(polls) {
      return Stopped, scored, champ, next, Cursor(polls + 1, calls, rpos, cpos), r, best', history', champs';
    }
    polls := polls + 1;
    if cb.Present? {
      r, calls := r + [Started(gen)], calls + 1;
    }
    var used;
    scored, used := ScoreAll(pop, splits, fold, stop, polls);
    if quiet {
      assert forall k :: polls <= k < polls + used ==> !stop(k);
      assert AllCompleted(scored, splits, fold);
    }
    polls := polls + used;
    if stop(polls) {
      return Stopped, scored, champ, next, Cursor(polls + 1, calls, rpos, cpos), r, best', history', champs';
    }
    polls := polls + 1;
    if |scored| == 0 {
      return Empty, scored, champ, next, Cursor(polls, calls, rpos, cpos), r, best', history', champs';
    }
    var sorted := SortByMae(scored);
    champ := sorted[0];
    RankedHead(scored, popSize, splits, fold);
    ImproveIsRunningBest(champs, champ);
    ProgressStep(history, champs, scored, champ, popSize, splits, fold, quiet);
    best', history', champs' := Improve(best, champ), history + [scored], champs + [champ];
    if cb.Present? {
      r := r + [Scored(gen, champ.mae, champ.rmse, champ.info)];
      var vetoed := cb.returnsFalse(calls);
      calls := calls + 1;
      if vetoed {
        return Vetoed, scored, champ, next, Cursor(polls, calls, rpos, cpos), r, best', history', champs';
      }
    }
    var bredPolls; ghost var matings;
    next, rpos, cpos, bredPolls, matings := Breed(sorted, popSize, rng, rpos, choice, cpos, stop, polls);
    step, after := Continued, Cursor(polls + bredPolls, calls, rpos, cpos);
  }

  /** The running best of the ranked generations is one of their scored tuples: the
      sentinel or the completed score of its own architecture, and the completed score
      when the run is quiet. */
  lemma {:induction false} BestScored(outcome: Outcome<Option<ScoredArch>>, history: seq<seq<ScoredArch>>, champs: seq<ScoredArch>,
                                      popSize: nat, splits: nat, fold: (seq<int>, nat) -> FoldError, quiet: bool)
    requires splits > 0 && Progress(history, champs, popSize, splits, fold, quiet)
    requires outcome.Returned? ==> outcome.value == RunningBest(champs)
    ensures outcome.Returned? && outcome.value.Some? ==>
              var o := outcome.value.value;
              ScoredAs(o, o.info.arch, splits, fold) &&
              (quiet ==> ArchScore(o.mae, o.rmse, o.info.nParams) == Completed(o.info.arch, splits, fold))
  {
    if outcome.Returned? && outcome.value.Some? {
      var b := outcome.value.value;
      var g :| 0 <= g < |champs| && champs[g] == b;
      assert Ranked(history[g], champs[g], popSize, splits, fold);
      SortHeadIsMinimal(history[g]);
      var i :| 0 <= i < |history[g]| && history[g][i] == b;
      if quiet {
        assert AllCompleted(history[g], splits, fold);
      }
    }
  }

  /** The generation loop of `ga_structure_search`, from the initial population `pop0` whose
      draws end at `draws`. `history` holds the scored list of every ranked generation and
      `champs` the head of each one sorted by MAE; `best` is their running best. `raised`
      says the empty population raised `IndexError`. */
  method Generations(pop0: seq<seq<int>>, draws: nat, popSize: nat, nGen: int, splits: nat, fold: (seq<int>, nat) -> FoldError,
                     cb: Callback, stop: StopFlag, rng: Rng, choice: Choice)
    returns (raised: bool, best: Option<ScoredArch>, reports: seq<Report<ArchInfo>>,
             ghost history: seq<seq<ScoredArch>>, ghost champs: seq<ScoredArch>)
    requires rng.Valid() && ValidChoice(choice) && splits >= 2
    requires |pop0| == popSize && AllValid(pop0)
    ensures best == RunningBest(champs) && Progress(history, champs, popSize, splits, fold, Quiet(stop, cb))
    ensures raised ==> popSize == 0
    ensures (nGen <= 0 || stop(0)) ==> !raised && reports == [] && champs == []
    ensures |champs| == |history| && |history| <= if nGen < 0 then 0 else nGen
    ensures cb.Absent? ==> reports == []
    ensures popSize > 0 && Quiet(stop, cb) ==>
              |champs| == if nGen < 0 then 0 else nGen
  {
    var pop := pop0;
    var cur := Cursor(0, 0, draws, 0);
    best, raised := None, false;
    reports, history, champs := [], [], [];
    var gen: nat := 0;
    while gen < nGen
      invariant (popSize == 0 ==> pop == []) && (popSize > 0 ==> 1 <= |pop| <= popSize)
      invariant AllValid(pop)
      invariant best == RunningBest(champs) && Progress(history, champs, popSize, splits, fold, Quiet(stop, cb))
      invariant |champs| == |history| == gen <= (if nGen < 0 then 0 else nGen)
      invariant history != [] ==> pop[0] == champs[|champs| - 1].info.arch
      invariant cb.Absent? ==> reports == []
      invariant gen == 0 ==> reports == [] && cur.polls == 0
      invariant stop(0) ==> gen == 0
      invariant popSize > 0 && Quiet(stop, cb) ==> |pop| == popSize
      decreases nGen - gen
    {
      var step, scored, champ, next;
      step, scored, champ, next, cur, reports, best, history, champs :=
        Generation(gen, pop, popSize, splits, fold, cb, stop, rng, choice, cur, reports, best, history, champs, Quiet(stop, cb));
      if step != Continued {
        assert stop(0) ==> step == Stopped && reports == [] && champs == [];
        assert popSize > 0 ==> step != Empty;
        raised := step == Empty;
        return;
      }
      pop := next;
      gen := gen + 1;
    }
  }

  /** `ga_structure_search`. `history` holds the scored list of every generation that was
      ranked, `champs` the head of each one sorted by MAE. The result is the earliest
      champion of smallest MAE (so the tracked best never worsens and is at most every
      ranked generation's minimum), `None` exactly when no generation was ranked (in
      particular when the first stop poll is raised), and an `IndexError` when the
      population is empty. */
  method Run(popSize: nat, nGen: int, splits: nat, fold: (seq<int>, nat) -> FoldError,
             cb: Callback, stop: StopFlag, rng: Rng, choice: Choice)
    returns (outcome: Outcome<Option<ScoredArch>>, reports: seq<Report<ArchInfo>>,
             ghost history: seq<seq<ScoredArch>>, ghost champs: seq<ScoredArch>)
    requires rng.Valid() && ValidChoice(choice) && splits >= 2
    ensures nGen <= 0 ==> outcome == Returned(None) && reports == [] && champs == []
    ensures stop(0) ==> outcome == Returned(None) && reports == [] && champs == []
    ensures outcome.Raised? ==> popSize == 0 && outcome.error == IndexError
    ensures popSize > 0 ==> outcome == Returned(RunningBest(champs))
    ensures popSize > 0 ==> (outcome == Returned(None) <==> champs == [])
    ensures |champs| == |history| && |history| <= if nGen < 0 then 0 else nGen
    ensures Progress(history, champs, popSize, splits, fold, Quiet(stop, cb))
    ensures outcome.Returned? && outcome.value.Some? ==>
              var o := outcome.value.value;
              ScoredAs(o, o.info.arch, splits, fold) &&
              (Quiet(stop, cb) ==> ArchScore(o.mae, o.rmse, o.info.nParams) == Completed(o.info.arch, splits, fold))
    ensures cb.Absent? ==> reports == []
    ensures popSize > 0 && Quiet(stop, cb) ==>
              |champs| == if nGen < 0 then 0 else nGen
  {
    var pop, draws := InitialPopulation(rng, popSize);
    var raised, best;
    raised, best, reports, history, champs := Generations(pop, draws, popSize, nGen, splits, fold, cb, stop, rng, choice);
    outcome := if raised then Raised(IndexError) else Returned(best);
    BestScored(outcome, history, champs, popSize, splits, fold, Quiet(stop, cb));
  }
}
