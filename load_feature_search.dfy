/** Feature-subset search for the power-system load model (ga_load_features.py): the same
    0/1 masks as the cancellable search, but every mask is scored through all folds, there
    is no stop flag, the callback is called once per generation after ranking and its
    answer is ignored, and breeding happens after every generation, the last included. */
module LoadFeatureSearch {
  import opened Search
  import opened Mask

  /** `evaluate_load_features`: the sentinel triple for an empty mask, otherwise the means
      of the fold errors and the spread of the fold MAEs. */
  method EvaluateLoadFeatures(m: seq<int>, splits: nat, fold: (seq<int>, nat) -> FoldError, std: seq<real> -> real)
    returns (score: SubsetScore)
    requires splits >= 2
    ensures score == MaskScore(m, splits, fold, std)
  {
    if |Where(m)| == 0 {
      return Cancelled;
    }
    var cancelled, maes, rmses, used := CrossValidate(m, splits, fold, NeverStop(), 0);
    score := SubsetScore(Mean(maes), Mean(rmses), std(maes));
  }

  /** The scoring loop: one tuple per mask, in population order. */
  method EvaluatePopulation(pop: seq<seq<int>>, splits: nat, fold: (seq<int>, nat) -> FoldError, std: seq<real> -> real)
    returns (evals: seq<ScoredMask>)
    requires splits >= 2
    ensures |evals| == |pop|
    ensures forall i :: 0 <= i < |pop| ==> evals[i] == Tuple(MaskScore(pop[i], splits, fold, std), pop[i])
  {
    evals := [];
    while |evals| < |pop|
      invariant |evals| <= |pop|
      invariant forall i :: 0 <= i < |evals| ==> evals[i] == Tuple(MaskScore(pop[i], splits, fold, std), pop[i])
    {
      var s := EvaluateLoadFeatures(pop[|evals|], splits, fold, std);
      evals := evals + [Tuple(s, pop[|evals|])];
    }
  }

  /** The breeding loop: the champion's mask first, then children of two masks drawn from
      the sorted evaluations until there are `popSize` masks. The cut draw
      `rng.randint(1, n - 1)` raises `ValueError` when `n <= 2`, after both parent draws. */
  method Breed(sorted: seq<ScoredMask>, popSize: nat, n: nat, rate: real, rng: Rng, rpos: nat, choice: Choice, cpos: nat)
    returns (next: seq<seq<int>>, rnext: nat, cnext: nat, failed: bool, ghost matings: seq<Mating>)
    requires rng.Valid() && ValidChoice(choice)
    requires |sorted| > 0 && forall i :: 0 <= i < |sorted| ==> IsMask(sorted[i].info.mask, n)
    ensures failed <==> n <= 2 && popSize > 1
    ensures 1 <= |next| && next[0] == sorted[0].info.mask && AllMasks(next, n)
    ensures !failed ==> |next| == if popSize < 1 then 1 else popSize
    ensures |matings| == |next| - 1
    ensures forall j :: 0 <= j < |matings| ==> Bred(next[j + 1], matings[j], sorted, n, rate)
  {
    var children: seq<seq<int>> := [];
    rnext, cnext, failed, matings := rpos, cpos, false, [];
    while 1 + |children| < popSize && !failed
      invariant 1 + |children| <= if popSize < 1 then 1 else popSize
      invariant |matings| == |children|
      invariant forall j :: 0 <= j < |children| ==> IsMask(children[j], n)
      invariant forall j :: 0 <= j < |children| ==> Bred(children[j], matings[j], sorted, n, rate)
      invariant n <= 2 ==> children == []
      invariant failed ==> n <= 2 && 1 < popSize
      decreases popSize - |children|, if failed then 0 else 1
    {
      var i1, i2 := choice(cnext, |sorted|), choice(cnext + 1, |sorted|);
      cnext := cnext + 2;
      if n <= 2 {
        failed := true;
      } else {
        var child, cx, u;
        child, cx, u, rnext := Offspring(sorted[i1].info.mask, sorted[i2].info.mask, n, rate, rng, rnext);
        children, matings := children + [child], matings + [Mating(i1, i2, cx, u)];
      }
    }
    next := [sorted[0].info.mask] + children;
    assert next[1..] == children;
  }

  /** `progress_cb(gen, mae, rmse, nf)` with the champion of one generation. */
  function ChampionReport(gen: nat, evals: seq<ScoredMask>): Report<int>
    requires |evals| > 0
  {
    var champ := SortByMae(evals)[0];
    Scored(gen, champ.mae, champ.rmse, champ.info.nf)
  }

  /** The callback calls of a run that ranked the generations of `history`. */
  function ChampionReports(history: seq<seq<ScoredMask>>): (r: seq<Report<int>>)
    requires forall g :: 0 <= g < |history| ==> |history[g]| > 0
    ensures |r| == |history|
  {
    seq(|history|, g requires 0 <= g < |history| => ChampionReport(g, history[g]))
  }

  /** Each report carries its generation's number and the smallest MAE scored in it, with
      the RMSE and feature count of a mask that reached it. */
  lemma ChampionReportsMinimal(history: seq<seq<ScoredMask>>, g: nat)
    requires forall g :: 0 <= g < |history| ==> |history[g]| > 0
    requires g < |history|
    ensures ChampionReports(history)[g].Scored? && ChampionReports(history)[g].gen == g
    ensures forall e :: e in history[g] ==> ChampionReports(history)[g].mae <= e.mae
    ensures exists e :: e in history[g] && ChampionReports(history)[g] == Scored(g, e.mae, e.rmse, e.info.nf)
  {
    SortHeadIsMinimal(history[g]);
    var champ := SortByMae(history[g])[0];
    assert ChampionReports(history)[g] == Scored(g, champ.mae, champ.rmse, champ.info.nf);
  }

  /** Ranking one more generation adds its champion's report. */
  lemma ChampionReportsStep(history: seq<seq<ScoredMask>>, evals: seq<ScoredMask>)
    requires forall g :: 0 <= g < |history| ==> |history[g]| > 0
    requires |evals| > 0
    ensures forall g :: 0 <= g < |history + [evals]| ==> |(history + [evals])[g]| > 0
    ensures ChampionReports(history + [evals]) == ChampionReports(history) + [ChampionReport(|history|, evals)]
  {
    var h := history + [evals];
    assert forall g :: 0 <= g < |history| ==> h[g] == history[g];
    assert h[|history|] == evals;
  }

  /** What holds after the generations of `history`: each one a full list of exact
      evaluations of masks, `best` the last one's champion and the reports so far. */
  ghost predicate Progress(history: seq<seq<ScoredMask>>, best: Option<BestRecord<string>>, reports: seq<Report<int>>,
                           popSize: nat, n: nat, splits: nat, fold: (seq<int>, nat) -> FoldError, std: seq<real> -> real,
                           cols: seq<string>, cb: Callback)
    requires splits > 0 && |cols| == n
  {
    History(history, popSize, n) && FullGenerations(history, popSize) && ExactHistory(history, splits, fold, std) &&
    (forall g :: 0 <= g < |history| ==> |history[g]| > 0) && Led(history) &&
    best == LastBest(history, cols, n) && reports == (if cb.Absent? then [] else ChampionReports(history))
  }

  /** Ranking one more full generation of exact evaluations keeps `Progress`, with its
      champion as `best` and its report added. */
  lemma {:induction false} ProgressStep(history: seq<seq<ScoredMask>>, evals: seq<ScoredMask>, reports: seq<Report<int>>,
                     popSize: nat, n: nat, splits: nat, fold: (seq<int>, nat) -> FoldError, std: seq<real> -> real,
                     cols: seq<string>, cb: Callback)
    requires splits > 0 && |cols| == n && |evals| == popSize > 0
    requires forall i :: 0 <= i < |evals| ==> IsMask(evals[i].info.mask, n)
    requires Exact(evals, splits, fold, std)
    requires History(history, popSize, n) && Progress(history, LastBest(history, cols, n), reports, popSize, n, splits, fold, std, cols, cb)
    requires history != [] ==> evals[0].info.mask == ChampionMask(history[|history| - 1])
    ensures |SortByMae(evals)| > 0 && IsMask(SortByMae(evals)[0].info.mask, n)
    ensures Progress(history + [evals], Some(BestOf(SortByMae(evals)[0], cols)),
                     if cb.Absent? then reports else reports + [ChampionReport(|history|, evals)],
                     popSize, n, splits, fold, std, cols, cb)
  {
    SortKeepsMasks(evals, n);
    assert MaskEvals(evals, n);
    LastBestStep(history, evals, cols, n, popSize);
    ChampionReportsStep(history, evals);
    ExactHistoryStep(history, evals, splits, fold, std);
    LedStep(history, evals);
  }

  /** `ga_load_feature_selection` over the columns `cols` of an `n`-column feature matrix.
      `history` holds the evaluations of every generation that was ranked, each after the
      first led by the previous champion's mask. */
  method Run(cols: seq<string>, n: nat, popSize: nat, nGen: int, rate: real, splits: nat,
             fold: (seq<int>, nat) -> FoldError, std: seq<real> -> real,
             cb: Callback, rng: Rng, choice: Choice)
    returns (outcome: Outcome<Option<BestRecord<string>>>, reports: seq<Report<int>>, ghost history: seq<seq<ScoredMask>>)
    requires rng.Valid() && ValidChoice(choice) && splits >= 2 && |cols| == n
    ensures History(history, popSize, n)
    ensures Progress(history, LastBest(history, cols, n), reports, popSize, n, splits, fold, std, cols, cb)
    ensures outcome.Returned? ==> outcome.value == LastBest(history, cols, n) && |history| == if nGen < 0 then 0 else nGen
    ensures nGen <= 0 ==> outcome == Returned(None)
    ensures nGen > 0 && popSize == 0 ==> outcome == Raised(IndexError) && history == []
    ensures nGen > 0 && popSize > 1 && n <= 2 ==> outcome == Raised(ValueError) && |history| == 1
    ensures nGen > 0 && popSize > 0 && (popSize == 1 || n > 2) ==> outcome.Returned?
  {
    var pop := InitialMasks(rng, popSize, n);
    var rpos: nat, cpos: nat := popSize * n, 0;
    var best: Option<BestRecord<string>> := None;
    reports, history := [], [];
    if nGen > 0 && popSize == 0 {
      // `evals[0]` of the first generation's empty list
      return Raised(IndexError), reports, history;
    }
    var gen: nat := 0;
    while gen < nGen
      invariant |history| == gen <= if nGen < 0 then 0 else nGen
      invariant popSize > 0 || gen == 0
      invariant gen > 0 ==> popSize == 1 || n > 2
      invariant AllMasks(pop, n) && |pop| == popSize
      invariant Progress(history, best, reports, popSize, n, splits, fold, std, cols, cb)
      invariant history != [] ==> pop[0] == ChampionMask(history[|history| - 1])
      decreases nGen - gen
    {
      var evals := EvaluatePopulation(pop, splits, fold, std);
      var failed;
      ghost var matings;
      best, pop, rpos, cpos, failed, reports, matings :=
        Generation(gen, evals, history, popSize, n, rate, splits, fold, std, cols, cb, rng, rpos, choice, cpos, reports);
      history := history + [evals];
      assert history[|history| - 1] == evals;
      if failed {
        // the cut draw `rng.randint(1, n_features - 1)` has an empty range when `n_features <= 2`
        return Raised(ValueError), reports, history;
      }
      gen := gen + 1;
    }
    outcome := Returned(best);
  }

  /** One generation after scoring: rank, overwrite `best`, report the champion, breed a
      population led by the champion's mask, each child recorded by its `matings` entry. */
  method Generation(gen: nat, evals: seq<ScoredMask>, ghost history: seq<seq<ScoredMask>>, popSize: nat, n: nat, rate: real,
                    splits: nat, fold: (seq<int>, nat) -> FoldError, std: seq<real> -> real, cols: seq<string>,
                    cb: Callback, rng: Rng, rpos: nat, choice: Choice, cpos: nat, reports: seq<Report<int>>)
    returns (best: Option<BestRecord<string>>, next: seq<seq<int>>, rnext: nat, cnext: nat, failed: bool, r: seq<Report<int>>,
             ghost matings: seq<Mating>)
    requires rng.Valid() && ValidChoice(choice) && splits >= 2 && |cols| == n
    requires |evals| == popSize > 0 && gen == |history|
    requires forall i :: 0 <= i < |evals| ==> IsMask(evals[i].info.mask, n)
    requires Exact(evals, splits, fold, std)
    requires History(history, popSize, n) && Progress(history, LastBest(history, cols, n), reports, popSize, n, splits, fold, std, cols, cb)
    requires history != [] ==> evals[0].info.mask == ChampionMask(history[|history| - 1])
    ensures Progress(history + [evals], best, r, popSize, n, splits, fold, std, cols, cb)
    ensures failed <==> n <= 2 && popSize > 1
    ensures AllMasks(next, n) && (!failed ==> |next| == popSize)
    ensures 1 <= |next| && next[0] == ChampionMask(evals) && MaskEvals(SortByMae(evals), n)
    ensures |matings| == |next| - 1 && forall j :: 0 <= j < |matings| ==> Bred(next[j + 1], matings[j], SortByMae(evals), n, rate)
  {
    ProgressStep(history, evals, reports, popSize, n, splits, fold, std, cols, cb);
    var sorted := SortByMae(evals);
    SortKeepsMasks(evals, n);
    best := Some(BestOf(sorted[0], cols));
    r := reports;
    if cb.Present? {
      r := r + [Scored(gen, sorted[0].mae, sorted[0].rmse, sorted[0].info.nf)];
    }
    next, rnext, cnext, failed, matings := Breed(sorted, popSize, n, rate, rng, rpos, choice, cpos);
  }
}
