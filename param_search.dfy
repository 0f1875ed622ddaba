/** Hyperparameter search (params_ga.py): an individual is `[hidden, lr, alpha]`, the
    population is scored and sorted by MAE, the best-so-far record is replaced only on a
    strictly smaller MAE, and the next population is the generation's champion followed by
    children whose fields are picked one by one from two parents drawn from the five
    lowest-MAE individuals, each field then redrawn with probability 0.3. */
module ParamSearch {
  import opened Search

  /** An individual `[hidden, lr, alpha]`. */
  datatype Params = Params(hidden: int, lr: real, alpha: real)

  /** The ranges `random_ind` draws from: a hidden width from `rng.randint(16, 64)`, a
      learning rate `10 ** rng.uniform(-4, -2)` and a penalty `10 ** rng.uniform(-6, -3)`. */
  predicate ValidParams(p: Params) {
    16 <= p.hidden < 64 && Pow10(-4) <= p.lr <= Pow10(-2) && Pow10(-6) <= p.alpha <= Pow10(-3)
  }

  ghost predicate AllValid(pop: seq<Params>) {
    forall i :: 0 <= i < |pop| ==> ValidParams(pop[i])
  }

  /** `random_ind()` from draw `at`: its three draws are numbers `at`, `at + 1`, `at + 2`. */
  function RandomInd(rng: Rng, at: nat): (p: Params)
    requires rng.Valid()
    ensures ValidParams(p)
  {
    Params(rng.randint(at, 16, 64), rng.logUniform(at + 1, -4, -2), rng.logUniform(at + 2, -6, -3))
  }

  /** `pop = [random_ind() for _ in range(pop_size)]`. */
  function InitialPopulation(rng: Rng, popSize: nat): (pop: seq<Params>)
    requires rng.Valid()
    ensures |pop| == popSize && AllValid(pop)
  {
    seq(popSize, (i: int) requires 0 <= i => RandomInd(rng, 3 * i))
  }

  // ---------------------------------------------------------------------------
  // Evaluation

  /** `(mae, rmse)` as the evaluator returns it. */
  datatype ParamScore = ParamScore(mae: real, rmse: real)

  /** The pair `(1e9, 1e9)` of a cancelled evaluation. */
  const Cancelled: ParamScore := ParamScore(Sentinel, Sentinel)

  /** The evaluation of an individual that ran through every fold. */
  function Completed(p: Params, splits: nat, fold: (Params, nat) -> FoldError): ParamScore
    requires splits > 0
  {
    ParamScore(Mean(FoldMaes(p, splits, fold)), Mean(FoldRmses(p, splits, fold)))
  }

  /** `evaluate_params`: polls the stop flag at entry and before each fold (polls numbered
      from `at`). The first raised poll yields the sentinel pair; with every poll down, the
      means of the fold errors. */
  method EvaluateParams(p: Params, splits: nat, fold: (Params, nat) -> FoldError, stop: StopFlag, at: nat)
    returns (score: ParamScore, used: nat)
    requires splits >= 2
    ensures 1 <= used <= splits + 1
    ensures forall k :: at <= k < at + used - 1 ==> !stop(k)
    ensures (exists k :: at <= k <= at + splits && stop(k)) ==> score == Cancelled && stop(at + used - 1)
    ensures (forall k :: at <= k <= at + splits ==> !stop(k)) ==> used == splits + 1 && score == Completed(p, splits, fold)
  {
    if stop(at) {
      return Cancelled, 1;
    }
    var cancelled, maes, rmses, n := CrossValidate(p, splits, fold, stop, at + 1);
    used := 1 + n;
    if cancelled {
      score := Cancelled;
    } else {
      score := ParamScore(Mean(maes), Mean(rmses));
    }
  }

  /** A scored tuple `(mae, rmse, ind)`. */
  type ScoredParams = Eval<Params>

  /** A scored tuple holds its individual and either the sentinel pair or its completed
      evaluation. */
  ghost predicate ScoredAs(e: ScoredParams, p: Params, splits: nat, fold: (Params, nat) -> FoldError)
    requires splits > 0
  {
    e.info == p && (ParamScore(e.mae, e.rmse) == Cancelled || ParamScore(e.mae, e.rmse) == Completed(p, splits, fold))
  }

  /** The threaded `Parallel` map of the evaluator over the population, taken in order; the
      polls of the individual evaluations follow one another. */
  method ScoreAll(pop: seq<Params>, splits: nat, fold: (Params, nat) -> FoldError, stop: StopFlag, at: nat)
    returns (scored: seq<ScoredParams>, used: nat)
    requires splits >= 2
    ensures |scored| == |pop|
    ensures forall i :: 0 <= i < |pop| ==> ScoredAs(scored[i], pop[i], splits, fold)
    ensures (forall k :: at <= k < at + used ==> !stop(k)) ==>
              forall i :: 0 <= i < |pop| ==> ParamScore(scored[i].mae, scored[i].rmse) == Completed(pop[i], splits, fold)
  {
    scored, used := [], 0;
    for i := 0 to |pop|
      invariant |scored| == i
      invariant forall j :: 0 <= j < i ==> ScoredAs(scored[j], pop[j], splits, fold)
      invariant (forall k :: at <= k < at + used ==> !stop(k)) ==>
                  forall j :: 0 <= j < i ==> ParamScore(scored[j].mae, scored[j].rmse) == Completed(pop[j], splits, fold)
    {
      var s, n := EvaluateParams(pop[i], splits, fold, stop, at + used);
      used := used + n;
      scored := scored + [Eval(s.mae, s.rmse, pop[i])];
    }
  }

  /** Sorting a scored list by MAE keeps every individual in range. */
  lemma SortKeepsValid(scored: seq<ScoredParams>)
    requires forall i :: 0 <= i < |scored| ==> ValidParams(scored[i].info)
    ensures forall i :: 0 <= i < |SortByMae(scored)| ==> ValidParams(SortByMae(scored)[i].info)
  {
    var sorted := SortByMae(scored);
    forall i | 0 <= i < |sorted| ensures ValidParams(sorted[i].info) {
      assert sorted[i] in multiset(scored);
    }
  }

  // ---------------------------------------------------------------------------
  // Crossover and mutation

  /** Probability of redrawing each field of a child. */
  const MutationRate: real := 0.3

  /** The draws behind one child: positions of both parents in `scored[:5]`, the parent each
      field is picked from (0 for `p1`, 1 for `p2`), the three mutation draws and the three
      redrawn values (used only when their draw is below 0.3). */
  datatype Mating = Mating(i1: nat, i2: nat, f0: nat, f1: nat, f2: nat,
                           u0: real, u1: real, u2: real, hidden: int, lr: real, alpha: real)

  /** The draws of `m` lie in the ranges numpy and `random` give them. */
  ghost predicate Fits(m: Mating) {
    m.f0 < 2 && m.f1 < 2 && m.f2 < 2 &&
    (m.u0 < MutationRate ==> 16 <= m.hidden < 64) &&
    (m.u1 < MutationRate ==> Pow10(-4) <= m.lr <= Pow10(-2)) &&
    (m.u2 < MutationRate ==> Pow10(-6) <= m.alpha <= Pow10(-3))
  }

  /** `[random.choice([p1[0], p2[0]]), random.choice([p1[1], p2[1]]), random.choice([p1[2], p2[2]])]`. */
  function Mix(p1: Params, p2: Params, m: Mating): (c: Params)
    requires Fits(m)
    ensures c.hidden == p1.hidden || c.hidden == p2.hidden
    ensures c.lr == p1.lr || c.lr == p2.lr
    ensures c.alpha == p1.alpha || c.alpha == p2.alpha
  {
    Params(if m.f0 == 0 then p1.hidden else p2.hidden,
           if m.f1 == 0 then p1.lr else p2.lr,
           if m.f2 == 0 then p1.alpha else p2.alpha)
  }

  /** The child the loop body builds: the field-wise mix, then each field redrawn when its
      draw is below 0.3. */
  function Child(p1: Params, p2: Params, m: Mating): (c: Params)
    requires Fits(m)
  {
    var base := Mix(p1, p2, m);
    Params(if m.u0 < MutationRate then m.hidden else base.hidden,
           if m.u1 < MutationRate then m.lr else base.lr,
           if m.u2 < MutationRate then m.alpha else base.alpha)
  }

  /** Every field of a child is its parents' field unless that field's draw was below 0.3,
      and a child of two valid individuals is valid. */
  lemma ChildFields(p1: Params, p2: Params, m: Mating)
    requires Fits(m)
    ensures m.u0 >= MutationRate ==> Child(p1, p2, m).hidden in {p1.hidden, p2.hidden}
    ensures m.u1 >= MutationRate ==> Child(p1, p2, m).lr in {p1.lr, p2.lr}
    ensures m.u2 >= MutationRate ==> Child(p1, p2, m).alpha in {p1.alpha, p2.alpha}
    ensures ValidParams(p1) && ValidParams(p2) ==> ValidParams(Child(p1, p2, m))
  {
    var base := Mix(p1, p2, m);
    assert base.hidden in {p1.hidden, p2.hidden};
    assert base.lr in {p1.lr, p2.lr};
    assert base.alpha in {p1.alpha, p2.alpha};
  }

  /** `child` was bred from two of the five lowest-MAE entries of `sorted` with the draws `m`. */
  ghost predicate Bred(child: Params, m: Mating, sorted: seq<ScoredParams>) {
    m.i1 < WindowSize(|sorted|) && m.i2 < WindowSize(|sorted|) && Fits(m) &&
    child == Child(sorted[m.i1].info, sorted[m.i2].info, m)
  }

  /** One child of the breeding loop: two parents by `random.choice(scored[:5])`, one
      `random.choice` per field, then per field a `rng.rand()` and, below 0.3, the field
      redrawn in place. Returns the next positions in the numpy and `random` streams. */
  method Mate(sorted: seq<ScoredParams>, rng: Rng, rpos: nat, choice: Choice, cpos: nat)
    returns (child: Params, rnext: nat, cnext: nat, ghost m: Mating)
    requires rng.Valid() && ValidChoice(choice)
    requires |sorted| > 0 && forall i :: 0 <= i < |sorted| ==> ValidParams(sorted[i].info)
    ensures ValidParams(child)
    ensures cnext == cpos + 5 && rpos + 3 <= rnext <= rpos + 6
    ensures Bred(child, m, sorted)
  {
    var top := WindowSize(|sorted|);
    var i1, i2 := choice(cpos, top), choice(cpos + 1, top);
    var p1, p2 := sorted[i1].info, sorted[i2].info;
    var f0, f1, f2 := choice(cpos + 2, 2), choice(cpos + 3, 2), choice(cpos + 4, 2);
    cnext := cpos + 5;
    child := Params(if f0 == 0 then p1.hidden else p2.hidden,
                    if f1 == 0 then p1.lr else p2.lr,
                    if f2 == 0 then p1.alpha else p2.alpha);
    rnext := rpos;
    var u0, u1, u2 := rng.rand(rnext), 0.0, 0.0;
    var hidden, lr, alpha := child.hidden, child.lr, child.alpha;
    rnext := rnext + 1;
    if u0 < MutationRate {
      hidden := rng.randint(rnext, 16, 64);
      rnext := rnext + 1;
      child := child.(hidden := hidden);
    }
    u1 := rng.rand(rnext);
    rnext := rnext + 1;
    if u1 < MutationRate {
      lr := rng.logUniform(rnext, -4, -2);
      rnext := rnext + 1;
      child := child.(lr := lr);
    }
    u2 := rng.rand(rnext);
    rnext := rnext + 1;
    if u2 < MutationRate {
      alpha := rng.logUniform(rnext, -6, -3);
      rnext := rnext + 1;
      child := child.(alpha := alpha);
    }
    m := Mating(i1, i2, f0, f1, f2, u0, u1, u2, hidden, lr, alpha);
    ChildFields(p1, p2, m);
  }

  /** The breeding loop: the champion first, then children until there are `popSize`
      individuals, polling the stop flag (from poll `at`) before each child and leaving
      the loop early at the first raised poll. */
  method Breed(sorted: seq<ScoredParams>, popSize: nat, rng: Rng, rpos: nat, choice: Choice, cpos: nat, stop: StopFlag, at: nat)
    returns (next: seq<Params>, rnext: nat, cnext: nat, used: nat, ghost matings: seq<Mating>)
    requires rng.Valid() && ValidChoice(choice)
    requires |sorted| > 0 && forall i :: 0 <= i < |sorted| ==> ValidParams(sorted[i].info)
    ensures 1 <= |next| && next[0] == sorted[0].info && AllValid(next)
    ensures |next| <= if popSize < 1 then 1 else popSize
    ensures (forall k :: at <= k < at + used ==> !stop(k)) ==> |next| == if popSize < 1 then 1 else popSize
    ensures |matings| == |next| - 1
    ensures forall j :: 0 <= j < |matings| ==> Bred(next[j + 1], matings[j], sorted)
  {
    var children: seq<Params> := [];
    rnext, cnext, used, matings := rpos, cpos, 0, [];
    var stopped := false;
    while 1 + |children| < popSize && !stopped
      invariant 1 + |children| <= if popSize < 1 then 1 else popSize
      invariant |matings| == |children|
      invariant forall j :: 0 <= j < |children| ==> Bred(children[j], matings[j], sorted)
      invariant stopped ==> used >= 1 && stop(at + used - 1)
      decreases popSize - |children|, if stopped then 0 else 1
    {
      if stop(at + used) {
        stopped, used := true, used + 1;
      } else {
        used := used + 1;
        var child; ghost var m;
        child, rnext, cnext, m := Mate(sorted, rng, rnext, choice, cnext);
        children, matings := children + [child], matings + [m];
      }
    }
    next := [sorted[0].info] + children;
    assert next[1..] == children;
    forall j | 0 <= j < |next| ensures ValidParams(next[j]) {
      if j > 0 {
        var m := matings[j - 1];
        assert Bred(children[j - 1], m, sorted);
        ChildFields(sorted[m.i1].info, sorted[m.i2].info, m);
      }
    }
  }

  // ---------------------------------------------------------------------------
  // The generation loop

  /** A ranked generation: a non-empty scored list of valid individuals, each holding the
      sentinel pair or its own completed evaluation, no larger than the population, and its
      champion, the head of the list sorted by MAE, whose MAE is at most every entry's. */
  ghost predicate Ranked(scored: seq<ScoredParams>, champ: ScoredParams, popSize: nat, splits: nat, fold: (Params, nat) -> FoldError)
    requires splits > 0
  {
    0 < |scored| <= popSize && champ == SortByMae(scored)[0] &&
    forall i :: 0 <= i < |scored| ==>
      ValidParams(scored[i].info) && ScoredAs(scored[i], scored[i].info, splits, fold) && champ.mae <= scored[i].mae
  }

  /** Every entry of a scored list holds the completed evaluation of its individual. */
  ghost predicate AllCompleted(scored: seq<ScoredParams>, splits: nat, fold: (Params, nat) -> FoldError)
    requires splits > 0
  {
    forall i :: 0 <= i < |scored| ==> ParamScore(scored[i].mae, scored[i].rmse) == Completed(scored[i].info, splits, fold)
  }

  /** A scored list of valid individuals is ranked by its sorted head, and sorting keeps
      every entry valid. */
  lemma RankedHead(scored: seq<ScoredParams>, popSize: nat, splits: nat, fold: (Params, nat) -> FoldError)
    requires splits > 0 && 0 < |scored| <= popSize
    requires forall i :: 0 <= i < |scored| ==> ValidParams(scored[i].info) && ScoredAs(scored[i], scored[i].info, splits, fold)
    ensures Ranked(scored, SortByMae(scored)[0], popSize, splits, fold)
    ensures forall i :: 0 <= i < |scored| ==> ValidParams(SortByMae(scored)[i].info)
  {
    var sorted := SortByMae(scored);
    SortKeepsValid(scored);
    SortHeadIsMinimal(scored);
    forall i | 0 <= i < |scored| ensures sorted[0].mae <= scored[i].mae {
      assert scored[i] in scored;
    }
  }

  /** What the generation loop has established about the generations ranked so far: each
      is ranked by its champion, each after the first starts with the previous champion
      (the elite), and, when `quiet` holds, every entry is a completed evaluation. */
  ghost predicate Progress(history: seq<seq<ScoredParams>>, champs: seq<ScoredParams>, popSize: nat,
                           splits: nat, fold: (Params, nat) -> FoldError, quiet: bool)
    requires splits > 0
  {
    |history| == |champs| &&
    (forall g :: 0 <= g < |history| ==> Ranked(history[g], champs[g], popSize, splits, fold)) &&
    (forall g :: 0 < g < |history| ==> |history[g]| > 0 && history[g][0].info == champs[g - 1].info) &&
    (quiet ==> forall g :: 0 <= g < |history| ==> AllCompleted(history[g], splits, fold))
  }

  lemma {:induction false} RankedStep(history: seq<seq<ScoredParams>>, champs: seq<ScoredParams>, scored: seq<ScoredParams>, champ: ScoredParams,
                                      popSize: nat, splits: nat, fold: (Params, nat) -> FoldError)
    requires splits > 0 && |history| == |champs| && Ranked(scored, champ, popSize, splits, fold)
    requires forall g :: 0 <= g < |history| ==> Ranked(history[g], champs[g], popSize, splits, fold)
    ensures forall g :: 0 <= g < |history| + 1 ==> Ranked((history + [scored])[g], (champs + [champ])[g], popSize, splits, fold)
  {
    var h: seq<seq<ScoredParams>>, c: seq<ScoredParams> := history + [scored], champs + [champ];
    forall g | 0 <= g < |h| ensures Ranked(h[g], c[g], popSize, splits, fold) {
      if g < |history| {
        assert h[g] == history[g] && c[g] == champs[g];
      }
    }
  }

  lemma {:induction false} EliteStep(history: seq<seq<ScoredParams>>, champs: seq<ScoredParams>, scored: seq<ScoredParams>, champ: ScoredParams)
    requires |history| == |champs| && |scored| > 0
    requires forall g :: 0 < g < |history| ==> |history[g]| > 0 && history[g][0].info == champs[g - 1].info
    requires history != [] ==> scored[0].info == champs[|champs| - 1].info
    ensures forall g :: 0 < g < |history| + 1 ==>
              |(history + [scored])[g]| > 0 && (history + [scored])[g][0].info == (champs + [champ])[g - 1].info
  {
    var h: seq<seq<ScoredParams>>, c: seq<ScoredParams> := history + [scored], champs + [champ];
    forall g | 0 < g < |h| ensures |h[g]| > 0 && h[g][0].info == c[g - 1].info {
      if g < |history| {
        assert h[g] == history[g] && c[g - 1] == champs[g - 1];
      }
    }
  }

  /** Ranking one more generation whose population starts with the last champion keeps
      `Progress`. */
  lemma {:induction false} ProgressStep(history: seq<seq<ScoredParams>>, champs: seq<ScoredParams>, scored: seq<ScoredParams>, champ: ScoredParams,
                                        popSize: nat, splits: nat, fold: (Params, nat) -> FoldError, quiet: bool)
    requires splits > 0 && Progress(history, champs, popSize, splits, fold, quiet) && |scored| > 0
    requires Ranked(scored, champ, popSize, splits, fold)
    requires history != [] ==> scored[0].info == champs[|champs| - 1].info
    requires quiet ==> AllCompleted(scored, splits, fold)
    ensures Progress(history + [scored], champs + [champ], popSize, splits, fold, quiet)
  {
    RankedStep(history, champs, scored, champ, popSize, splits, fold);
    EliteStep(history, champs, scored, champ);
    if quiet {
      var h: seq<seq<ScoredParams>> := history + [scored];
      forall g | 0 <= g < |h| ensures AllCompleted(h[g], splits, fold) {
        if g < |history| {
          assert h[g] == history[g];
        }
      }
    }
  }

  /** One pass of the generation loop: stop poll, `Started` report, scoring, stop poll,
      ranking, best-so-far update, `Scored` report with its veto, breeding. `history` and
      `champs` are the generations ranked before this one and their champions; the pass
      appends its own when it ranks one. */
  method Generation(gen: nat, pop: seq<Params>, popSize: nat, splits: nat, fold: (Params, nat) -> FoldError,
                    cb: Callback, stop: StopFlag, rng: Rng, choice: Choice, cur: Cursor, reports: seq<Report<Params>>,
                    best: Option<ScoredParams>, ghost history: seq<seq<ScoredParams>>, ghost champs: seq<ScoredParams>, ghost quiet: bool)
    returns (step: Step, scored: seq<ScoredParams>, champ: ScoredParams, next: seq<Params>, after: Cursor, r: seq<Report<Params>>,
             best': Option<ScoredParams>, ghost history': seq<seq<ScoredParams>>, ghost champs': seq<ScoredParams>)
    requires rng.Valid() && ValidChoice(choice) && splits >= 2 && AllValid(pop) && |pop| <= popSize
    requires quiet == Quiet(stop, cb)
    requires best == RunningBest(champs) && Progress(history, champs, popSize, splits, fold, quiet)
    requires history != [] ==> |pop| > 0 && pop[0] == champs[|champs| - 1].info
    ensures best' == RunningBest(champs') && Progress(history', champs', popSize, splits, fold, quiet)
    ensures (step == Stopped || step == Empty) ==> history' == history && champs' == champs
    ensures |champs'| == |history'| == |champs| + (if step == Vetoed || step == Continued then 1 else 0)
    ensures (step == Vetoed || step == Continued) ==> history' == history + [scored] && champs' == champs + [champ]
    ensures step == Empty ==> pop == []
    ensures stop(cur.polls) ==> step == Stopped && r == reports
    ensures (step == Vetoed || step == Continued) ==>
              |scored| == |pop| > 0 && Ranked(scored, champ, popSize, splits, fold) &&
              (forall i :: 0 <= i < |pop| ==> ScoredAs(scored[i], pop[i], splits, fold)) &&
              (quiet ==> AllCompleted(scored, splits, fold))
    ensures step == Continued ==>
              1 <= |next| <= (if popSize < 1 then 1 else popSize) && AllValid(next) &&
              next[0] == champ.info
    ensures cb.Absent? ==> r == reports && step != Vetoed
    ensures cb.Present? && !stop(cur.polls) ==>
              r == reports + [Started(gen)] +
                   (if step == Stopped || step == Empty then [] else [Scored(gen, champ.mae, champ.rmse, champ.info)])
    ensures quiet ==>
              step == (if pop == [] then Empty else Continued) &&
              (step == Continued ==> |next| == if popSize < 1 then 1 else popSize)
  {
    var polls, calls, rpos, cpos := cur.polls, cur.calls, cur.draws, cur.choices;
    r, scored, champ, next := reports, [], Eval(0.0, 0.0, Params(0, 0.0, 0.0)), pop;
    best', history', champs' := best, history, champs;
    if stop(polls) {
      return Stopped, scored, champ, next, Cursor(polls + 1, calls, rpos, cpos), r, best', history', champs';
    }
    polls := polls + 1;
    if cb.Present? {
      r, calls := r + [Started(gen)], calls + 1;
    }
    var used;
    scored, used := ScoreAll(pop, splits, fold, stop, polls);
    if quiet {
      assert forall k :: polls <= k < polls + used ==> !stop(k);
      assert AllCompleted(scored, splits, fold);
    }
    polls := polls + used;
    if stop(polls) {
      return Stopped, scored, champ, next, Cursor(polls + 1, calls, rpos, cpos), r, best', history', champs';
    }
    polls := polls + 1;
    if |scored| == 0 {
      return Empty, scored, champ, next, Cursor(polls, calls, rpos, cpos), r, best', history', champs';
    }
    var sorted := SortByMae(scored);
    champ := sorted[0];
    RankedHead(scored, popSize, splits, fold);
    ImproveIsRunningBest(champs, champ);
    ProgressStep(history, champs, scored, champ, popSize, splits, fold, quiet);
    best', history', champs' := Improve(best, champ), history + [scored], champs + [champ];
    if cb.Present? {
      r := r + [Scored(gen, champ.mae, champ.rmse, champ.info)];
      var vetoed := cb.returnsFalse(calls);
      calls := calls + 1;
      if vetoed {
        return Vetoed, scored, champ, next, Cursor(polls, calls, rpos, cpos), r, best', history', champs';
      }
    }
    var bredPolls; ghost var matings;
    next, rpos, cpos, bredPolls, matings := Breed(sorted, popSize, rng, rpos, choice, cpos, stop, polls);
    step, after := Continued, Cursor(polls + bredPolls, calls, rpos, cpos);
  }

  /** The running best of the ranked generations is one of their scored tuples: the
      sentinel or the completed score of its own individual, and the completed score when
      the run is quiet. */
  lemma {:induction false} BestScored(outcome: Outcome<Option<ScoredParams>>, history: seq<seq<ScoredParams>>, champs: seq<ScoredParams>,
                                      popSize: nat, splits: nat, fold: (Params, nat) -> FoldError, quiet: bool)
    requires splits > 0 && Progress(history, champs, popSize, splits, fold, quiet)
    requires outcome.Returned? ==> outcome.value == RunningBest(champs)
    ensures outcome.Returned? && outcome.value.Some? ==>
              var o := outcome.value.value;
              ScoredAs(o, o.info, splits, fold) && (quiet ==> ParamScore(o.mae, o.rmse) == Completed(o.info, splits, fold))
  {
    if outcome.Returned? && outcome.value.Some? {
      var b := outcome.value.value;
      var g :| 0 <= g < |champs| && champs[g] == b;
      assert Ranked(history[g], champs[g], popSize, splits, fold);
      SortHeadIsMinimal(history[g]);
      var i :| 0 <= i < |history[g]| && history[g][i] == b;
      if quiet {
        assert AllCompleted(history[g], splits, fold);
      }
    }
  }

  /** The generation loop of `ga_param_search`, from the initial population `pop0` whose
      draws end at `draws`. `history` holds the scored list of every ranked generation and
      `champs` the head of each one sorted by MAE; `best` is their running best. `raised`
      says the empty population raised `IndexError`. */
  method Generations(pop0: seq<Params>, draws: nat, popSize: nat, nGen: int, splits: nat, fold: (Params, nat) -> FoldError,
                     cb: Callback, stop: StopFlag, rng: Rng, choice: Choice)
    returns (raised: bool, best: Option<ScoredParams>, reports: seq<Report<Params>>,
             ghost history: seq<seq<ScoredParams>>, ghost champs: seq<ScoredParams>)
    requires rng.Valid() && ValidChoice(choice) && splits >= 2
    requires |pop0| == popSize && AllValid(pop0)
    ensures best == RunningBest(champs) && Progress(history, champs, popSize, splits, fold, Quiet(stop, cb))
    ensures raised ==> popSize == 0
    ensures (nGen <= 0 || stop(0)) ==> !raised && reports == [] && champs == []
    ensures |champs| == |history| && |history| <= if nGen < 0 then 0 else nGen
    ensures cb.Absent? ==> reports == []
    ensures popSize > 0 && Quiet(stop, cb) ==>
              |champs| == if nGen < 0 then 0 else nGen
  {
    var pop := pop0;
    var cur := Cursor(0, 0, draws, 0);
    best, raised := None, false;
    reports, history, champs := [], [], [];
    var gen: nat := 0;
    while gen < nGen
      invariant (popSize == 0 ==> pop == []) && (popSize > 0 ==> 1 <= |pop| <= popSize)
      invariant AllValid(pop)
      invariant best == RunningBest(champs) && Progress(history, champs, popSize, splits, fold, Quiet(stop, cb))
      invariant |champs| == |history| == gen <= (if nGen < 0 then 0 else nGen)
      invariant history != [] ==> pop[0] == champs[|champs| - 1].info
      invariant cb.Absent? ==> reports == []
      invariant gen == 0 ==> reports == [] && cur.polls == 0
      invariant stop(0) ==> gen == 0
      invariant popSize > 0 && Quiet(stop, cb) ==> |pop| == popSize
      decreases nGen - gen
    {
      var step, scored, champ, next;
      step, scored, champ, next, cur, reports, best, history, champs :=
        Generation(gen, pop, popSize, splits, fold, cb, stop, rng, choice, cur, reports, best, history, champs, Quiet(stop, cb));
      if step != Continued {
        raised := step == Empty;
        return;
      }
      pop := next;
      gen := gen + 1;
    }
  }

  /** `ga_param_search`. `history` holds the scored list of every generation that was
      ranked, `champs` the head of each one sorted by MAE. The result is the earliest
      champion of smallest MAE (so the tracked best never worsens and is at most every
      ranked generation's minimum), `None` exactly when no generation was ranked (in
      particular when the first stop poll is raised), and an `IndexError` when the
      population is empty. */
  method Run(popSize: nat, nGen: int, splits: nat, fold: (Params, nat) -> FoldError,
             cb: Callback, stop: StopFlag, rng: Rng, choice: Choice)
    returns (outcome: Outcome<Option<ScoredParams>>, reports: seq<Report<Params>>,
             ghost history: seq<seq<ScoredParams>>, ghost champs: seq<ScoredParams>)
    requires rng.Valid() && ValidChoice(choice) && splits >= 2
    ensures nGen <= 0 ==> outcome == Returned(None) && reports == [] && champs == []
    ensures stop(0) ==> outcome == Returned(None) && reports == [] && champs == []
    ensures outcome.Raised? ==> popSize == 0 && outcome.error == IndexError
    ensures popSize > 0 ==> outcome == Returned(RunningBest(champs))
    ensures popSize > 0 ==> (outcome == Returned(None) <==> champs == [])
    ensures |champs| == |history| && |history| <= if nGen < 0 then 0 else nGen
    ensures Progress(history, champs, popSize, splits, fold, Quiet(stop, cb))
    ensures outcome.Returned? && outcome.value.Some? ==>
              var o := outcome.value.value;
              ScoredAs(o, o.info, splits, fold) && (Quiet(stop, cb) ==> ParamScore(o.mae, o.rmse) == Completed(o.info, splits, fold))
    ensures cb.Absent? ==> reports == []
    ensures popSize > 0 && Quiet(stop, cb) ==>
              |champs| == if nGen < 0 then 0 else nGen
  {
    var pop := InitialPopulation(rng, popSize);
    var raised, best;
    raised, best, reports, history, champs := Generations(pop, 3 * popSize, popSize, nGen, splits, fold, cb, stop, rng, choice);
    outcome := if raised then Raised(IndexError) else Returned(best);
    BestScored(outcome, history, champs, popSize, splits, fold, Quiet(stop, cb));
  }
}
