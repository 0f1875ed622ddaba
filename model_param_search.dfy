/** Parametric synthesis of the load-forecast model (ga_model_params.py): individuals are
    `(hidden, lr, alpha)` triples drawn from fixed choice lists, every individual is scored
    through all folds, `best` is overwritten with each generation's champion, and a child
    is a copy of its first parent with each field redrawn from its list with probability
    `mutation_rate`. There is no stop flag and the callback's answer is ignored. */
module ModelParamSearch {
  import opened Search
  import opened ParamSearch

  const HiddenChoices: seq<int> := [16, 32, 64, 128]
  const LrChoices: seq<real> := [0.001, 0.01, 0.05]
  const AlphaChoices: seq<real> := [0.0001, 0.001, 0.01]

  /** Every field is a member of its choice list. */
  predicate InLists(p: Params) {
    p.hidden in HiddenChoices && p.lr in LrChoices && p.alpha in AlphaChoices
  }

  ghost predicate AllInLists(pop: seq<Params>) {
    forall i :: 0 <= i < |pop| ==> InLists(pop[i])
  }

  /** The individual built from three `random.choice` calls numbered from `at`. */
  function Pick(choice: Choice, at: nat): (p: Params)
    requires ValidChoice(choice)
    ensures InLists(p)
  {
    Params(HiddenChoices[choice(at, |HiddenChoices|)], LrChoices[choice(at + 1, |LrChoices|)],
           AlphaChoices[choice(at + 2, |AlphaChoices|)])
  }

  /** The initial population: individual `i` from `random.choice` calls `3i` to `3i + 2`. */
  function InitialPopulation(choice: Choice, popSize: nat): (pop: seq<Params>)
    requires ValidChoice(choice)
    ensures |pop| == popSize && AllInLists(pop)
  {
    seq(popSize, (i: int) requires 0 <= i => Pick(choice, 3 * i))
  }

  // ---------------------------------------------------------------------------
  // Evaluation

  /** `evaluate_params` of this file: no stop flag, so every fold is trained and the result
      is the means of the fold errors. */
  method EvaluateModelParams(p: Params, splits: nat, fold: (Params, nat) -> FoldError) returns (score: ParamScore)
    requires splits >= 2
    ensures score == Completed(p, splits, fold)
  {
    var cancelled, maes, rmses, used := CrossValidate(p, splits, fold, NeverStop(), 0);
    score := ParamScore(Mean(maes), Mean(rmses));
  }

  /** The tuple `(mae, rmse, hidden, lr, alpha)` of a completed evaluation. */
  function Evaluated(p: Params, splits: nat, fold: (Params, nat) -> FoldError): (e: ScoredParams)
    requires splits > 0
  {
    var s := Completed(p, splits, fold);
    Eval(s.mae, s.rmse, p)
  }

  /** The scoring loop: one tuple per individual, in population order. */
  method EvaluatePopulation(pop: seq<Params>, splits: nat, fold: (Params, nat) -> FoldError)
    returns (evals: seq<ScoredParams>)
    requires splits >= 2
    ensures |evals| == |pop|
    ensures forall i :: 0 <= i < |pop| ==> evals[i] == Evaluated(pop[i], splits, fold)
  {
    evals := [];
    for i := 0 to |pop|
      invariant |evals| == i
      invariant forall j :: 0 <= j < i ==> evals[j] == Evaluated(pop[j], splits, fold)
    {
      var s := EvaluateModelParams(pop[i], splits, fold);
      evals := evals + [Eval(s.mae, s.rmse, pop[i])];
    }
  }

  // ---------------------------------------------------------------------------
  // Breeding

  /** The draws behind one child: positions of both parents in `evals` (the second is drawn
      and never used), the three mutation draws, and the list positions of the redrawn
      fields (used only when their draw is below the rate). */
  datatype Draws = Draws(i1: nat, i2: nat, u0: real, u1: real, u2: real, h: nat, l: nat, a: nat)

  ghost predicate Fits(m: Draws) {
    m.h < |HiddenChoices| && m.l < |LrChoices| && m.a < |AlphaChoices|
  }

  /** `child = [p1[2], p1[3], p1[4]]`, then each field replaced by a list member when its
      draw is below `rate`. */
  function Child(p1: Params, m: Draws, rate: real): (c: Params)
    requires Fits(m)
  {
    Params(if m.u0 < rate then HiddenChoices[m.h] else p1.hidden,
           if m.u1 < rate then LrChoices[m.l] else p1.lr,
           if m.u2 < rate then AlphaChoices[m.a] else p1.alpha)
  }

  /** A child keeps each field of its first parent unless that field's draw is below the
      rate, in which case the field is a member of its list; so children of individuals
      within the lists stay within them. */
  lemma ChildFields(p1: Params, m: Draws, rate: real)
    requires Fits(m)
    ensures Child(p1, m, rate).hidden == (if m.u0 < rate then HiddenChoices[m.h] else p1.hidden)
    ensures m.u0 < rate ==> Child(p1, m, rate).hidden in HiddenChoices
    ensures m.u1 < rate ==> Child(p1, m, rate).lr in LrChoices
    ensures m.u2 < rate ==> Child(p1, m, rate).alpha in AlphaChoices
    ensures m.u0 >= rate && m.u1 >= rate && m.u2 >= rate ==> Child(p1, m, rate) == p1
    ensures InLists(p1) ==> InLists(Child(p1, m, rate))
  {
  }

  /** `child` was bred from the entry `m.i1` of `sorted` with the draws `m`. */
  ghost predicate Bred(child: Params, m: Draws, sorted: seq<ScoredParams>, rate: real) {
    m.i1 < |sorted| && m.i2 < |sorted| && Fits(m) && child == Child(sorted[m.i1].info, m, rate)
  }

  /** One child of the breeding loop: two `random.choice(evals)` calls, the copy of the
      first parent, then per field an `rng.rand()` and, below the rate, the field
      overwritten in place by a `random.choice` from its list. */
  method Mate(sorted: seq<ScoredParams>, rate: real, rng: Rng, rpos: nat, choice: Choice, cpos: nat)
    returns (child: Params, rnext: nat, cnext: nat, ghost m: Draws)
    requires rng.Valid() && ValidChoice(choice)
    requires |sorted| > 0 && forall i :: 0 <= i < |sorted| ==> InLists(sorted[i].info)
    ensures InLists(child)
    ensures rnext == rpos + 3 && cpos + 2 <= cnext <= cpos + 5
    ensures Bred(child, m, sorted, rate)
  {
    var i1, i2 := choice(cpos, |sorted|), choice(cpos + 1, |sorted|);
    cnext := cpos + 2;
    child := sorted[i1].info;
    var h, l, a := 0, 0, 0;
    var u0 := rng.rand(rpos);
    if u0 < rate {
      h := choice(cnext, |HiddenChoices|);
      cnext := cnext + 1;
      child := child.(hidden := HiddenChoices[h]);
    }
    var u1 := rng.rand(rpos + 1);
    if u1 < rate {
      l := choice(cnext, |LrChoices|);
      cnext := cnext + 1;
      child := child.(lr := LrChoices[l]);
    }
    var u2 := rng.rand(rpos + 2);
    if u2 < rate {
      a := choice(cnext, |AlphaChoices|);
      cnext := cnext + 1;
      child := child.(alpha := AlphaChoices[a]);
    }
    rnext := rpos + 3;
    m := Draws(i1, i2, u0, u1, u2, h, l, a);
    ChildFields(sorted[i1].info, m, rate);
  }

  /** The breeding loop: the champion first, then children until there are `popSize`
      individuals. */
  method Breed(sorted: seq<ScoredParams>, popSize: nat, rate: real, rng: Rng, rpos: nat, choice: Choice, cpos: nat)
    returns (next: seq<Params>, rnext: nat, cnext: nat, ghost draws: seq<Draws>)
    requires rng.Valid() && ValidChoice(choice) && |sorted| > 0
    requires forall i :: 0 <= i < |sorted| ==> InLists(sorted[i].info)
    ensures |next| == (if popSize < 1 then 1 else popSize) && next[0] == sorted[0].info && AllInLists(next)
    ensures |draws| == |next| - 1
    ensures forall j :: 0 <= j < |draws| ==> Bred(next[j + 1], draws[j], sorted, rate)
  {
    var children: seq<Params> := [];
    rnext, cnext, draws := rpos, cpos, [];
    while 1 + |children| < popSize
      invariant 1 + |children| <= if popSize < 1 then 1 else popSize
      invariant |draws| == |children|
      invariant forall j :: 0 <= j < |children| ==> InLists(children[j])
      invariant forall j :: 0 <= j < |children| ==> Bred(children[j], draws[j], sorted, rate)
      decreases popSize - |children|
    {
      var child; ghost var m;
      child, rnext, cnext, m := Mate(sorted, rate, rng, rnext, choice, cnext);
      ChildFields(sorted[m.i1].info, m, rate);
      children, draws := children + [child], draws + [m];
    }
    next := [sorted[0].info] + children;
    assert next[1..] == children;
  }

  // ---------------------------------------------------------------------------
  // The generation loop

  /** The head of a generation's evaluations sorted by MAE: the `best` of that generation. */
  function Champion(evals: seq<ScoredParams>): (c: ScoredParams)
    requires |evals| > 0
    ensures c in evals && forall e :: e in evals ==> c.mae <= e.mae
  {
    SortHeadIsMinimal(evals);
    SortByMae(evals)[0]
  }

  /** Every generation of `history` has a champion. */
  ghost predicate HasChampions(history: seq<seq<ScoredParams>>) {
    forall g :: 0 <= g < |history| ==> |history[g]| > 0
  }

  /** `progress_cb(gen, mae, rmse, ...)` for every generation of `history`, with the
      champion's fields standing for the formatted label. */
  function ChampionReports(history: seq<seq<ScoredParams>>): (r: seq<Report<Params>>)
    requires HasChampions(history)
    ensures |r| == |history|
    ensures forall g :: 0 <= g < |history| ==>
              r[g] == Scored(g, Champion(history[g]).mae, Champion(history[g]).rmse, Champion(history[g]).info)
  {
    seq(|history|, g requires 0 <= g < |history| => Scored(g, Champion(history[g]).mae, Champion(history[g]).rmse, Champion(history[g]).info))
  }

  /** The run's result after the generations of `history`: the last one's champion, or
      `None` when there was none. */
  function LastChampion(history: seq<seq<ScoredParams>>): (b: Option<ScoredParams>)
    requires HasChampions(history)
    ensures b.None? <==> history == []
    ensures b.Some? ==> b.value in history[|history| - 1] && forall e :: e in history[|history| - 1] ==> b.value.mae <= e.mae
  {
    if history == [] then None else Some(Champion(history[|history| - 1]))
  }

  /** Overwriting `best` every generation is not a running minimum: a later generation
      with a worse champion replaces a better one. */
  lemma OverwriteIsNotRunningBest()
    ensures exists history: seq<seq<ScoredParams>> ::
              |history| == 2 && |history[0]| > 0 && |history[1]| > 0 &&
              LastChampion(history).Some? && RunningBest([Champion(history[0]), Champion(history[1])]).Some? &&
              LastChampion(history).value.mae > RunningBest([Champion(history[0]), Champion(history[1])]).value.mae
  {
    var p := Params(16, 0.001, 0.0001);
    var h := [[Eval(1.0, 1.0, p)], [Eval(2.0, 2.0, p)]];
    assert Champion(h[0]).mae == 1.0 && Champion(h[1]).mae == 2.0;
    var best := RunningBest([Champion(h[0]), Champion(h[1])]);
    assert best.value.mae <= Champion(h[0]).mae;
    assert LastChampion(h).value.mae == 2.0;
  }

  /** A generation of `history`: `popSize` complete evaluations of individuals within the
      lists, in population order. */
  ghost predicate Generated(evals: seq<ScoredParams>, popSize: nat, splits: nat, fold: (Params, nat) -> FoldError)
    requires splits > 0
  {
    |evals| == popSize && forall i :: 0 <= i < |evals| ==> InLists(evals[i].info) && evals[i] == Evaluated(evals[i].info, splits, fold)
  }

  /** Every generation of `history` is generated, and each one after the first starts with
      the champion of the one before. */
  ghost predicate Lineage(history: seq<seq<ScoredParams>>, popSize: nat, splits: nat, fold: (Params, nat) -> FoldError)
    requires splits > 0
  {
    (forall g :: 0 <= g < |history| ==> Generated(history[g], popSize, splits, fold)) &&
    (popSize > 0 ==> forall g :: 0 < g < |history| ==> history[g][0].info == Champion(history[g - 1]).info)
  }

  /** One generation: scoring, ranking, `best` overwritten, the report, breeding. */
  method Generation(gen: nat, pop: seq<Params>, popSize: nat, rate: real, splits: nat, fold: (Params, nat) -> FoldError,
                    cb: Callback, rng: Rng, rpos: nat, choice: Choice, cpos: nat, reports: seq<Report<Params>>)
    returns (evals: seq<ScoredParams>, best: ScoredParams, next: seq<Params>, rnext: nat, cnext: nat, r: seq<Report<Params>>)
    requires rng.Valid() && ValidChoice(choice) && splits >= 2
    requires |pop| == popSize > 0 && AllInLists(pop)
    ensures Generated(evals, popSize, splits, fold) && forall i :: 0 <= i < |pop| ==> evals[i].info == pop[i]
    ensures best == Champion(evals) && InLists(best.info)
    ensures |next| == popSize && AllInLists(next) && next[0] == best.info
    ensures r == if cb.Absent? then reports else reports + [Scored(gen, best.mae, best.rmse, best.info)]
  {
    evals := EvaluatePopulation(pop, splits, fold);
    var sorted := SortByMae(evals);
    best := sorted[0];
    r := reports;
    if cb.Present? {
      r := r + [Scored(gen, best.mae, best.rmse, best.info)];
    }
    forall i | 0 <= i < |sorted| ensures InLists(sorted[i].info) {
      assert sorted[i] in multiset(evals);
    }
    ghost var draws;
    next, rnext, cnext, draws := Breed(sorted, popSize, rate, rng, rpos, choice, cpos);
  }

  /** Appending a generated list that starts with the previous champion keeps the lineage. */
  lemma LineageStep(history: seq<seq<ScoredParams>>, evals: seq<ScoredParams>, popSize: nat, splits: nat, fold: (Params, nat) -> FoldError)
    requires splits > 0 && popSize > 0 && Lineage(history, popSize, splits, fold) && Generated(evals, popSize, splits, fold)
    requires history != [] ==> evals[0].info == Champion(history[|history| - 1]).info
    ensures Lineage(history + [evals], popSize, splits, fold)
  {
    var h := history + [evals];
    assert h[..|history|] == history && h[|history|] == evals;
    forall g | 0 <= g < |h| ensures Generated(h[g], popSize, splits, fold) {
      if g < |history| {
        assert h[g] == history[g];
      }
    }
    forall g | 0 < g < |h| ensures h[g][0].info == Champion(h[g - 1]).info {
      if g < |history| {
        assert h[g] == history[g] && h[g - 1] == history[g - 1];
      } else {
        assert h[g - 1] == history[|history| - 1];
      }
    }
  }

  /** Appending a generation extends the reports by its champion's and makes its champion
      the result. */
  lemma ReportsStep(history: seq<seq<ScoredParams>>, evals: seq<ScoredParams>)
    requires HasChampions(history)
    requires |evals| > 0
    ensures HasChampions(history + [evals])
    ensures ChampionReports(history + [evals]) == ChampionReports(history) + [Scored(|history|, Champion(evals).mae, Champion(evals).rmse, Champion(evals).info)]
    ensures LastChampion(history + [evals]) == Some(Champion(evals))
  {
    var h := history + [evals];
    assert forall g :: 0 <= g < |history| ==> h[g] == history[g];
    assert h[|history|] == evals;
    var r, pr := ChampionReports(h), ChampionReports(history);
    assert |r| == |pr| + 1;
    forall g | 0 <= g < |history| ensures r[g] == pr[g] {
      assert h[g] == history[g];
    }
  }

  /** What holds of the run after the generations of `history`: the lineage, the live
      population `pop` headed by the last champion, `best` and the reports so far. */
  ghost predicate Progress(history: seq<seq<ScoredParams>>, pop: seq<Params>, best: Option<ScoredParams>,
                           reports: seq<Report<Params>>, popSize: nat, splits: nat, fold: (Params, nat) -> FoldError, cb: Callback)
    requires splits > 0
  {
    |pop| == popSize && AllInLists(pop) && Lineage(history, popSize, splits, fold) && HasChampions(history) &&
    (history != [] ==> |pop| > 0 && pop[0] == Champion(history[|history| - 1]).info) &&
    best == LastChampion(history) && (best.Some? ==> InLists(best.value.info)) &&
    reports == (if cb.Absent? then [] else ChampionReports(history))
  }

  /** One pass of the generation loop keeps `Progress`. */
  lemma ProgressStep(history: seq<seq<ScoredParams>>, pop: seq<Params>, best: Option<ScoredParams>, reports: seq<Report<Params>>,
                     evals: seq<ScoredParams>, next: seq<Params>,
                     popSize: nat, splits: nat, fold: (Params, nat) -> FoldError, cb: Callback)
    requires splits > 0 && popSize > 0 && Progress(history, pop, best, reports, popSize, splits, fold, cb)
    requires Generated(evals, popSize, splits, fold) && evals[0].info == pop[0]
    requires |next| == popSize && AllInLists(next) && next[0] == Champion(evals).info
    ensures Progress(history + [evals], next, Some(Champion(evals)),
                     if cb.Absent? then reports else reports + [Scored(|history|, Champion(evals).mae, Champion(evals).rmse, Champion(evals).info)],
                     popSize, splits, fold, cb)
  {
    LineageStep(history, evals, popSize, splits, fold);
    ReportsStep(history, evals);
  }

  /** `ga_model_param_synthesis`. `history` holds every generation's evaluations. The result
      is the last generation's champion, `None` when `nGen <= 0`, and an `IndexError` when
      there are generations but the population is empty. */
  method Run(popSize: nat, nGen: int, rate: real, splits: nat, fold: (Params, nat) -> FoldError,
             cb: Callback, rng: Rng, choice: Choice)
    returns (outcome: Outcome<Option<ScoredParams>>, reports: seq<Report<Params>>, ghost history: seq<seq<ScoredParams>>)
    requires rng.Valid() && ValidChoice(choice) && splits >= 2
    ensures Lineage(history, popSize, splits, fold)
    ensures popSize > 0 || history == []
    ensures HasChampions(history)
    ensures reports == if cb.Absent? then [] else ChampionReports(history)
    ensures outcome == Returned(None) <==> nGen <= 0
    ensures outcome.Raised? <==> nGen > 0 && popSize == 0
    ensures outcome.Raised? ==> outcome.error == IndexError
    ensures outcome.Returned? && outcome.value.Some? ==> InLists(outcome.value.value.info)
    ensures |reports| == if cb.Absent? || popSize == 0 || nGen <= 0 then 0 else nGen
    ensures nGen <= 0 ==> history == []
    ensures nGen > 0 && popSize == 0 ==> outcome == Raised(IndexError) && history == []
    ensures nGen > 0 && popSize > 0 ==> outcome == Returned(LastChampion(history)) && |history| == nGen
  {
    var pop := InitialPopulation(choice, popSize);
    var rpos: nat, cpos: nat := 0, 3 * popSize;
    var best: Option<ScoredParams> := None;
    reports, history := [], [];
    if nGen > 0 && popSize == 0 {
      // `evals[0]` of the first generation's empty list
      return Raised(IndexError), reports, history;
    }
    var gen: nat := 0;
    while gen < nGen
      invariant |history| == gen <= if nGen < 0 then 0 else nGen
      invariant popSize > 0 || gen == 0
      invariant Progress(history, pop, best, reports, popSize, splits, fold, cb)
      decreases nGen - gen
    {
      var evals, champ, next, r;
      evals, champ, next, rpos, cpos, r := Generation(gen, pop, popSize, rate, splits, fold, cb, rng, rpos, choice, cpos, reports);
      ProgressStep(history, pop, best, reports, evals, next, popSize, splits, fold, cb);
      history, pop, best, reports := history + [evals], next, Some(champ), r;
      gen := gen + 1;
    }
    outcome := Returned(best);
  }
}
