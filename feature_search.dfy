/** Cancellable feature-subset search (features_ga.py): masks are scored one at a time
    with a stop poll before each, the population is sorted by MAE, `best` is overwritten
    with the generation's champion, and the next population is the champion's mask
    followed by spliced and bit-flipped children of any two scored masks. The callback is
    called before scoring and after ranking, and either call can end the run. */
module FeatureSearch {
  import opened Search
  import opened Mask

  /** An evaluation tuple holds its mask and either the sentinel triple or the mask's
      completed evaluation. */
  ghost predicate Evaluated(e: ScoredMask, m: seq<int>, splits: nat, fold: (seq<int>, nat) -> FoldError, std: seq<real> -> real)
    requires splits > 0
  {
    e == Tuple(Cancelled, m) || e == Tuple(MaskScore(m, splits, fold, std), m)
  }

  /** Every evaluation tuple belongs to the mask at its position. */
  ghost predicate EvaluatedAll(evals: seq<ScoredMask>, pop: seq<seq<int>>, splits: nat, fold: (seq<int>, nat) -> FoldError, std: seq<real> -> real)
    requires splits > 0 && |evals| <= |pop|
  {
    forall i :: 0 <= i < |evals| ==> Evaluated(evals[i], pop[i], splits, fold, std)
  }

  /** An evaluation tuple carries the mask it evaluated. */
  lemma EvaluatedMask(e: ScoredMask, m: seq<int>, splits: nat, fold: (seq<int>, nat) -> FoldError, std: seq<real> -> real)
    requires splits > 0 && Evaluated(e, m, splits, fold, std)
    ensures e.info.mask == m
  {
  }

  /** Every tuple of `evals` evaluates its own mask. */
  ghost predicate SelfEvaluated(evals: seq<ScoredMask>, splits: nat, fold: (seq<int>, nat) -> FoldError, std: seq<real> -> real)
    requires splits > 0
  {
    forall i :: 0 <= i < |evals| ==> Evaluated(evals[i], evals[i].info.mask, splits, fold, std)
  }

  /** Evaluations made at the positions of a population evaluate their own masks, and the
      first of them carries the population's first mask. */
  lemma {:induction false} SelfEvaluatedOf(evals: seq<ScoredMask>, pop: seq<seq<int>>, splits: nat,
                                           fold: (seq<int>, nat) -> FoldError, std: seq<real> -> real)
    requires splits > 0 && 0 < |evals| <= |pop| && EvaluatedAll(evals, pop, splits, fold, std)
    ensures SelfEvaluated(evals, splits, fold, std) && evals[0].info.mask == pop[0]
  {
    forall i | 0 <= i < |evals| ensures Evaluated(evals[i], evals[i].info.mask, splits, fold, std) {
      EvaluatedMask(evals[i], pop[i], splits, fold, std);
    }
    EvaluatedMask(evals[0], pop[0], splits, fold, std);
  }

  /** Every generation of `history` is a non-empty list of evaluations of their own masks. */
  ghost predicate AllSelfEvaluated(history: seq<seq<ScoredMask>>, splits: nat, fold: (seq<int>, nat) -> FoldError, std: seq<real> -> real)
    requires splits > 0
  {
    forall g :: 0 <= g < |history| ==> |history[g]| > 0 && SelfEvaluated(history[g], splits, fold, std)
  }

  /** Every ranked generation holds evaluations of its own masks, and every generation
      after the first was scored from a population led by the previous champion's mask. */
  ghost predicate Lineage(history: seq<seq<ScoredMask>>, splits: nat, fold: (seq<int>, nat) -> FoldError, std: seq<real> -> real)
    requires splits > 0
  {
    AllSelfEvaluated(history, splits, fold, std) && Led(history)
  }

  lemma {:induction false} SelfEvaluatedStep(history: seq<seq<ScoredMask>>, evals: seq<ScoredMask>, splits: nat,
                                             fold: (seq<int>, nat) -> FoldError, std: seq<real> -> real)
    requires splits > 0 && AllSelfEvaluated(history, splits, fold, std)
    requires |evals| > 0 && SelfEvaluated(evals, splits, fold, std)
    ensures AllSelfEvaluated(history + [evals], splits, fold, std)
  {
    var h: seq<seq<ScoredMask>> := history + [evals];
    forall g | 0 <= g < |h| ensures |h[g]| > 0 && SelfEvaluated(h[g], splits, fold, std) {
      if g < |history| {
        assert h[g] == history[g];
      } else {
        assert h[g] == evals;
      }
    }
  }

  /** Ranking the evaluations of a population led by the last champion's mask keeps
      `Lineage`. */
  lemma {:induction false} LineageStep(history: seq<seq<ScoredMask>>, evals: seq<ScoredMask>, pop: seq<seq<int>>,
                                       splits: nat, fold: (seq<int>, nat) -> FoldError, std: seq<real> -> real)
    requires splits > 0 && Lineage(history, splits, fold, std)
    requires 0 < |evals| <= |pop| && EvaluatedAll(evals, pop, splits, fold, std)
    requires history != [] ==> pop[0] == ChampionMask(history[|history| - 1])
    ensures Lineage(history + [evals], splits, fold, std)
  {
    SelfEvaluatedOf(evals, pop, splits, fold, std);
    SelfEvaluatedStep(history, evals, splits, fold, std);
    LedStep(history, evals);
  }

  /** What holds after the generations of `history`: each of them ranked and in its lineage,
      `best` the last one's champion, and, in a `quiet` run, every evaluation exact. */
  ghost predicate Progress(history: seq<seq<ScoredMask>>, best: Option<BestRecord<string>>, cols: seq<string>,
                           popSize: nat, n: nat, splits: nat, fold: (seq<int>, nat) -> FoldError, std: seq<real> -> real,
                           quiet: bool)
    requires splits > 0 && |cols| == n
  {
    History(history, popSize, n) && Lineage(history, splits, fold, std) && best == LastBest(history, cols, n) &&
    (quiet ==> ExactHistory(history, splits, fold, std))
  }

  /** Ranking the evaluations of a population led by the last champion's mask keeps
      `Progress`, with that generation's champion as `best`. */
  lemma {:induction false} ProgressStep(history: seq<seq<ScoredMask>>, evals: seq<ScoredMask>, pop: seq<seq<int>>,
                                        best: Option<BestRecord<string>>, cols: seq<string>, popSize: nat, n: nat, splits: nat,
                                        fold: (seq<int>, nat) -> FoldError, std: seq<real> -> real, quiet: bool)
    requires splits > 0 && |cols| == n && Progress(history, best, cols, popSize, n, splits, fold, std, quiet)
    requires MaskEvals(evals, n) && |evals| <= popSize && |evals| <= |pop| && EvaluatedAll(evals, pop, splits, fold, std)
    requires history != [] ==> pop[0] == ChampionMask(history[|history| - 1])
    requires quiet ==> Exact(evals, splits, fold, std)
    ensures |SortByMae(evals)| > 0 && |SortByMae(evals)[0].info.mask| == |cols|
    ensures Progress(history + [evals], Some(BestOf(SortByMae(evals)[0], cols)), cols, popSize, n, splits, fold, std, quiet)
    ensures FullGenerations(history, popSize) && |evals| == popSize ==> FullGenerations(history + [evals], popSize)
  {
    LastBestStep(history, evals, cols, n, popSize);
    LineageStep(history, evals, pop, splits, fold, std);
    if quiet {
      ExactHistoryStep(history, evals, splits, fold, std);
    }
  }

  /** `evaluate_subset`: polls the stop flag at entry (poll `at`), returns the sentinel for
      an empty mask, and otherwise polls before each fold. */
  method EvaluateSubset(m: seq<int>, splits: nat, fold: (seq<int>, nat) -> FoldError, std: seq<real> -> real, stop: StopFlag, at: nat)
    returns (score: SubsetScore, used: nat)
    requires splits >= 2
    ensures 1 <= used <= splits + 1
    ensures stop(at) || Where(m) == [] ==> score == Cancelled && used == 1
    ensures (exists k :: at <= k < at + used && stop(k)) ==> score == Cancelled
    ensures (forall k :: at <= k < at + used ==> !stop(k)) ==> score == MaskScore(m, splits, fold, std)
    ensures (forall k :: at <= k <= at + splits ==> !stop(k)) ==> used == if Where(m) == [] then 1 else splits + 1
  {
    if stop(at) {
      return Cancelled, 1;
    }
    if |Where(m)| == 0 {
      return Cancelled, 1;
    }
    var cancelled, maes, rmses, n := CrossValidate(m, splits, fold, stop, at + 1);
    used := 1 + n;
    if cancelled {
      score := Cancelled;
    } else {
      score := SubsetScore(Mean(maes), Mean(rmses), std(maes));
    }
  }

  /** The scoring loop: a stop poll before each mask, leaving the loop at the first raised
      one; the evaluations are in population order. */
  method EvaluateAll(pop: seq<seq<int>>, splits: nat, fold: (seq<int>, nat) -> FoldError, std: seq<real> -> real, stop: StopFlag, at: nat)
    returns (evals: seq<ScoredMask>, used: nat)
    requires splits >= 2
    ensures |evals| <= |pop|
    ensures forall i :: 0 <= i < |evals| ==> Evaluated(evals[i], pop[i], splits, fold, std)
    ensures (forall k :: at <= k < at + used ==> !stop(k)) ==>
              |evals| == |pop| && forall i :: 0 <= i < |pop| ==> evals[i] == Tuple(MaskScore(pop[i], splits, fold, std), pop[i])
  {
    evals, used := [], 0;
    var stopped := false;
    while |evals| < |pop| && !stopped
      invariant |evals| <= |pop|
      invariant forall i :: 0 <= i < |evals| ==> Evaluated(evals[i], pop[i], splits, fold, std)
      invariant stopped ==> used >= 1 && stop(at + used - 1)
      invariant (forall k :: at <= k < at + used ==> !stop(k)) ==>
                  forall i :: 0 <= i < |evals| ==> evals[i] == Tuple(MaskScore(pop[i], splits, fold, std), pop[i])
      decreases |pop| - |evals|, if stopped then 0 else 1
    {
      if stop(at + used) {
        stopped, used := true, used + 1;
      } else {
        var s, n := EvaluateSubset(pop[|evals|], splits, fold, std, stop, at + used + 1);
        used := used + 1 + n;
        evals := evals + [Tuple(s, pop[|evals|])];
      }
    }
  }

  /** The breeding loop: the champion's mask first, then children until there are `popSize`
      masks, polling the stop flag (from poll `at`) before each child. The cut draw
      `rng.randint(1, n - 1)` raises `ValueError` when `n <= 2`. */
  method Breed(sorted: seq<ScoredMask>, popSize: nat, n: nat, rate: real, rng: Rng, rpos: nat, choice: Choice, cpos: nat, stop: StopFlag, at: nat)
    returns (next: seq<seq<int>>, rnext: nat, cnext: nat, used: nat, failed: bool, ghost matings: seq<Mating>)
    requires rng.Valid() && ValidChoice(choice)
    requires |sorted| > 0 && forall i :: 0 <= i < |sorted| ==> IsMask(sorted[i].info.mask, n)
    ensures 1 <= |next| && next[0] == sorted[0].info.mask && AllMasks(next, n)
    ensures |next| <= if popSize < 1 then 1 else popSize
    ensures failed ==> n <= 2 && |next| == 1 < popSize
    ensures n > 2 ==> !failed
    ensures (forall k :: at <= k < at + used ==> !stop(k)) ==>
              (failed <==> n <= 2 && popSize > 1) && (!failed ==> |next| == if popSize < 1 then 1 else popSize)
    ensures |matings| == |next| - 1
    ensures forall j :: 0 <= j < |matings| ==> Bred(next[j + 1], matings[j], sorted, n, rate)
  {
    var children: seq<seq<int>> := [];
    rnext, cnext, used, failed, matings := rpos, cpos, 0, false, [];
    var stopped := false;
    while 1 + |children| < popSize && !stopped && !failed
      invariant 1 + |children| <= if popSize < 1 then 1 else popSize
      invariant |matings| == |children|
      invariant forall j :: 0 <= j < |children| ==> IsMask(children[j], n)
      invariant forall j :: 0 <= j < |children| ==> Bred(children[j], matings[j], sorted, n, rate)
      invariant n <= 2 ==> children == []
      invariant failed ==> n <= 2 && 1 < popSize && !stopped
      invariant stopped ==> used >= 1 && stop(at + used - 1)
      decreases popSize - |children|, if stopped || failed then 0 else 1
    {
      if stop(at + used) {
        stopped, used := true, used + 1;
      } else {
        used := used + 1;
        var i1, i2 := choice(cnext, |sorted|), choice(cnext + 1, |sorted|);
        cnext := cnext + 2;
        if n <= 2 {
          failed := true;
        } else {
          var child, cx, u;
          child, cx, u, rnext := Offspring(sorted[i1].info.mask, sorted[i2].info.mask, n, rate, rng, rnext);
          children, matings := children + [child], matings + [Mating(i1, i2, cx, u)];
        }
      }
    }
    next := [sorted[0].info.mask] + children;
    assert next[1..] == children;
  }

  /** How one pass of the generation loop ended. `ranked` says the evaluations were sorted
      and `best` overwritten; `bred` says the next population was built; `failed` says the
      cut draw raised. */
  datatype Pass = Pass(ranked: bool, bred: bool, failed: bool)

  /** The first half of a pass of the generation loop: stop poll, pre-scoring callback with
      its veto, the scoring loop and the `stop or not evals` check. `scored` says the pass
      goes on to ranking; the draw positions are not moved. */
  method ScorePass(gen: nat, pop: seq<seq<int>>, splits: nat, fold: (seq<int>, nat) -> FoldError, std: seq<real> -> real,
                   cb: Callback, stop: StopFlag, cur: Cursor, reports: seq<Report<int>>)
    returns (scored: bool, evals: seq<ScoredMask>, after: Cursor, r: seq<Report<int>>)
    requires splits >= 2
    ensures after.draws == cur.draws && after.choices == cur.choices
    ensures scored ==> 0 < |evals| <= |pop| && EvaluatedAll(evals, pop, splits, fold, std)
    ensures stop(cur.polls) ==> !scored && r == reports
    ensures !stop(cur.polls) && cb.Present? && cb.returnsFalse(cur.calls) ==> !scored && r == reports + [Started(gen)]
    ensures r == if cb.Absent? || stop(cur.polls) then reports else reports + [Started(gen)]
    ensures Quiet(stop, cb) ==> (scored <==> pop != []) && (scored ==> |evals| == |pop| && Exact(evals, splits, fold, std))
  {
    var polls, calls := cur.polls, cur.calls;
    scored, r, evals := false, reports, [];
    if stop(polls) {
      return scored, evals, Cursor(polls + 1, calls, cur.draws, cur.choices), r;
    }
    polls := polls + 1;
    if cb.Present? {
      r := r + [Started(gen)];
      var vetoed := cb.returnsFalse(calls);
      calls := calls + 1;
      if vetoed {
        return scored, evals, Cursor(polls, calls, cur.draws, cur.choices), r;
      }
    }
    var used;
    evals, used := EvaluateAll(pop, splits, fold, std, stop, polls);
    polls := polls + used;
    if stop(polls) || |evals| == 0 {
      return scored, evals, Cursor(polls + 1, calls, cur.draws, cur.choices), r;
    }
    scored, after := true, Cursor(polls + 1, calls, cur.draws, cur.choices);
  }

  /** The second half of a pass of the generation loop, once the evaluations are sorted:
      the post-ranking callback with its veto, then breeding. */
  method BreedPass(gen: nat, sorted: seq<ScoredMask>, popSize: nat, n: nat, rate: real,
                   cb: Callback, stop: StopFlag, rng: Rng, choice: Choice, cur: Cursor, reports: seq<Report<int>>)
    returns (pass: Pass, next: seq<seq<int>>, after: Cursor, r: seq<Report<int>>)
    requires rng.Valid() && ValidChoice(choice)
    requires |sorted| > 0 && forall i :: 0 <= i < |sorted| ==> IsMask(sorted[i].info.mask, n)
    ensures pass.ranked && (pass.bred ==> !pass.failed)
    ensures pass.failed ==> n <= 2 && popSize > 1
    ensures pass.bred ==>
              1 <= |next| <= (if popSize < 1 then 1 else popSize) && AllMasks(next, n) && next[0] == sorted[0].info.mask
    ensures r == if cb.Absent? then reports else reports + [Scored(gen, sorted[0].mae, sorted[0].rmse, sorted[0].info.nf)]
    ensures Quiet(stop, cb) ==>
              (pass.failed <==> n <= 2 && popSize > 1) && (n > 2 ==> pass.bred && |next| == if popSize < 1 then 1 else popSize)
  {
    var polls, calls, rpos, cpos := cur.polls, cur.calls, cur.draws, cur.choices;
    pass, next, after, r := Pass(true, false, false), [], cur, reports;
    if cb.Present? {
      r := r + [Scored(gen, sorted[0].mae, sorted[0].rmse, sorted[0].info.nf)];
      var vetoed := cb.returnsFalse(calls);
      calls := calls + 1;
      if vetoed {
        after := Cursor(polls, calls, rpos, cpos);
        return;
      }
    }
    var bredPolls, failed; ghost var matings;
    next, rpos, cpos, bredPolls, failed, matings := Breed(sorted, popSize, n, rate, rng, rpos, choice, cpos, stop, polls);
    pass, after := Pass(true, !failed, failed), Cursor(polls + bredPolls, calls, rpos, cpos);
  }

  /** One pass of the generation loop: stop poll, pre-scoring callback with its veto, the
      scoring loop, the `stop or not evals` check, ranking (which overwrites `best` with the
      champion's dictionary), the post-ranking callback with its veto, breeding. `history`
      holds the generations ranked so far and `quiet` says whether the run is `Quiet`. */
  method Generation(gen: nat, pop: seq<seq<int>>, popSize: nat, n: nat, rate: real, splits: nat,
                    fold: (seq<int>, nat) -> FoldError, std: seq<real> -> real, cols: seq<string>,
                    cb: Callback, stop: StopFlag, rng: Rng, choice: Choice, cur: Cursor, reports: seq<Report<int>>,
                    best: Option<BestRecord<string>>, ghost history: seq<seq<ScoredMask>>, ghost quiet: bool)
    returns (pass: Pass, evals: seq<ScoredMask>, next: seq<seq<int>>, after: Cursor, r: seq<Report<int>>,
             best': Option<BestRecord<string>>, ghost history': seq<seq<ScoredMask>>)
    requires rng.Valid() && ValidChoice(choice) && splits >= 2 && AllMasks(pop, n) && |pop| <= popSize && |cols| == n
    requires quiet == Quiet(stop, cb)
    requires Progress(history, best, cols, popSize, n, splits, fold, std, quiet)
    requires history != [] ==> |pop| > 0 && pop[0] == ChampionMask(history[|history| - 1])
    ensures Progress(history', best', cols, popSize, n, splits, fold, std, quiet)
    ensures history' == if pass.ranked then history + [evals] else history
    ensures FullGenerations(history, popSize) && (pass.ranked ==> |evals| == popSize) ==> FullGenerations(history', popSize)
    ensures pass.bred ==> pass.ranked && !pass.failed
    ensures pass.failed ==> pass.ranked && n <= 2 && popSize > 1
    ensures pass.ranked ==> 0 < |evals| <= |pop| && EvaluatedAll(evals, pop, splits, fold, std) && MaskEvals(evals, n)
    ensures pass.bred ==>
              1 <= |next| <= (if popSize < 1 then 1 else popSize) && AllMasks(next, n) &&
              next[0] == ChampionMask(history'[|history'| - 1])
    ensures stop(cur.polls) ==> pass == Pass(false, false, false) && r == reports
    ensures !stop(cur.polls) && cb.Present? && cb.returnsFalse(cur.calls) ==>
              pass == Pass(false, false, false) && r == reports + [Started(gen)]
    ensures cb.Absent? ==> r == reports
    ensures cb.Present? && !stop(cur.polls) && !pass.ranked ==> r == reports + [Started(gen)]
    ensures cb.Present? && pass.ranked ==>
              r == reports + [Started(gen)] + [Scored(gen, SortByMae(evals)[0].mae, SortByMae(evals)[0].rmse, SortByMae(evals)[0].info.nf)]
    ensures quiet ==>
              (pass.ranked <==> pop != []) &&
              (pass.ranked ==> |evals| == |pop| && (pass.failed <==> n <= 2 && popSize > 1)) &&
              (pass.ranked && n > 2 ==> pass.bred && |next| == if popSize < 1 then 1 else popSize)
  {
    pass, next, best', history' := Pass(false, false, false), pop, best, history;
    var scored;
    scored, evals, after, r := ScorePass(gen, pop, splits, fold, std, cb, stop, cur, reports);
    if !scored {
      return;
    }
    forall i | 0 <= i < |evals| ensures IsMask(evals[i].info.mask, n) {
      assert Evaluated(evals[i], pop[i], splits, fold, std);
    }
    var sorted := SortByMae(evals);
    SortKeepsMasks(evals, n);
    ProgressStep(history, evals, pop, best, cols, popSize, n, splits, fold, std, quiet);
    best', history' := Some(BestOf(sorted[0], cols)), history + [evals];
    assert history'[|history'| - 1] == evals;
    assert cb.Present? ==> r == reports + [Started(gen)];
    pass, next, after, r := BreedPass(gen, sorted, popSize, n, rate, cb, stop, rng, choice, after, r);
  }

  /** The returned `best` record carries the evaluation of its own mask: the sentinel or
      the mask's full score, and the full score when the run is quiet. */
  lemma {:induction false} BestEvaluated(outcome: Outcome<Option<BestRecord<string>>>, history: seq<seq<ScoredMask>>,
                                         best: Option<BestRecord<string>>, cols: seq<string>, popSize: nat, n: nat, splits: nat,
                                         fold: (seq<int>, nat) -> FoldError, std: seq<real> -> real, quiet: bool)
    requires splits > 0 && |cols| == n && Progress(history, best, cols, popSize, n, splits, fold, std, quiet)
    requires outcome.Returned? ==> outcome.value == best
    ensures outcome.Returned? && outcome.value.Some? ==>
              var b := outcome.value.value;
              var s := SubsetScore(b.mae, b.rmse, b.stdMae);
              b.nFeatures == Total(b.mask) && (s == Cancelled || s == MaskScore(b.mask, splits, fold, std)) &&
              (quiet ==> s == MaskScore(b.mask, splits, fold, std))
  {
    if outcome.Returned? && outcome.value.Some? {
      var last := history[|history| - 1];
      SortHeadIsMinimal(last);
      var h := SortByMae(last)[0];
      var i :| 0 <= i < |last| && last[i] == h;
      assert SelfEvaluated(last, splits, fold, std);
      assert Evaluated(h, h.info.mask, splits, fold, std);
      assert outcome.value.value == BestOf(h, cols);
      if quiet {
        assert Exact(last, splits, fold, std);
      }
    }
  }

  /** The generation loop of `ga_feature_selection`, from the initial masks `pop0` whose
      draws end at `draws`. `history` holds the evaluations of every ranked generation,
      each of its own mask and, after the first, scored from a population led by the
      previous champion's mask; `best` is the best dictionary of the last one. `failed`
      says breeding raised the `ValueError` of the cut draw. */
  method Generations(pop0: seq<seq<int>>, draws: nat, cols: seq<string>, n: nat, popSize: nat, nGen: int, rate: real,
                     splits: nat, fold: (seq<int>, nat) -> FoldError, std: seq<real> -> real,
                     cb: Callback, stop: StopFlag, rng: Rng, choice: Choice)
    returns (failed: bool, best: Option<BestRecord<string>>, reports: seq<Report<int>>, ghost history: seq<seq<ScoredMask>>)
    requires rng.Valid() && ValidChoice(choice) && splits >= 2 && |cols| == n
    requires |pop0| == popSize && AllMasks(pop0, n)
    ensures Progress(history, best, cols, popSize, n, splits, fold, std, Quiet(stop, cb))
    ensures stop(0) ==> !failed && reports == [] && history == []
    ensures nGen > 0 && !stop(0) && cb.Present? && cb.returnsFalse(0) ==>
              !failed && reports == [Started(0)] && history == []
    ensures failed ==> n <= 2 && popSize > 1 && history != []
    ensures nGen <= 0 ==> !failed && reports == [] && history == []
    ensures |history| <= if nGen < 0 then 0 else nGen
    ensures cb.Absent? ==> reports == []
    ensures popSize > 0 && n > 2 && Quiet(stop, cb) ==>
              |history| == (if nGen < 0 then 0 else nGen) && FullGenerations(history, popSize)
  {
    var pop := pop0;
    var cur := Cursor(0, 0, draws, 0);
    best, failed := None, false;
    reports, history := [], [];
    var gen: nat := 0;
    while gen < nGen
      invariant |pop| <= popSize && AllMasks(pop, n)
      invariant |history| <= gen <= (if nGen < 0 then 0 else nGen)
      invariant Progress(history, best, cols, popSize, n, splits, fold, std, Quiet(stop, cb))
      invariant history != [] ==> |pop| > 0 && pop[0] == ChampionMask(history[|history| - 1])
      invariant cb.Absent? ==> reports == []
      invariant gen == 0 ==> reports == [] && history == [] && cur.polls == 0 && cur.calls == 0
      invariant stop(0) ==> gen == 0
      invariant !stop(0) && cb.Present? && cb.returnsFalse(0) ==> gen == 0
      invariant popSize > 0 && n > 2 && Quiet(stop, cb) ==>
                  |history| == gen && |pop| == popSize && FullGenerations(history, popSize)
      decreases nGen - gen
    {
      var pass, evals, next;
      pass, evals, next, cur, reports, best, history :=
        Generation(gen, pop, popSize, n, rate, splits, fold, std, cols, cb, stop, rng, choice, cur, reports, best, history, Quiet(stop, cb));
      if !pass.bred {
        assert stop(0) ==> history == [] && reports == [];
        assert !stop(0) && cb.Present? && cb.returnsFalse(0) ==> history == [] && reports == [Started(0)];
        failed := pass.failed;
        return;
      }
      pop := next;
      gen := gen + 1;
    }
  }

  /** `ga_feature_selection` over the columns `cols` of an `n`-column feature matrix.
      `history` holds the evaluations of every ranked generation, each of its own mask and,
      after the first, scored from a population led by the previous champion's mask. The
      result is the best dictionary of the last ranked generation (`None` when none was
      ranked, as when the first poll is raised or the first pre-scoring callback vetoes),
      or the `ValueError` of the cut draw when there are at most two columns. */
  method Run(cols: seq<string>, n: nat, popSize: nat, nGen: int, rate: real, splits: nat,
             fold: (seq<int>, nat) -> FoldError, std: seq<real> -> real,
             cb: Callback, stop: StopFlag, rng: Rng, choice: Choice)
    returns (outcome: Outcome<Option<BestRecord<string>>>, reports: seq<Report<int>>, ghost history: seq<seq<ScoredMask>>)
    requires rng.Valid() && ValidChoice(choice) && splits >= 2 && |cols| == n
    ensures History(history, popSize, n) && Lineage(history, splits, fold, std)
    ensures Quiet(stop, cb) ==> ExactHistory(history, splits, fold, std)
    ensures stop(0) ==> outcome == Returned(None) && reports == [] && history == []
    ensures nGen > 0 && !stop(0) && cb.Present? && cb.returnsFalse(0) ==>
              outcome == Returned(None) && reports == [Started(0)] && history == []
    ensures outcome.Raised? ==> outcome.error == ValueError && n <= 2 && popSize > 1 && history != []
    ensures n > 2 ==> outcome.Returned?
    ensures outcome.Returned? ==> outcome.value == LastBest(history, cols, n)
    ensures nGen <= 0 ==> outcome == Returned(None) && reports == []
    ensures |history| <= if nGen < 0 then 0 else nGen
    ensures outcome.Returned? && outcome.value.Some? ==>
              var b := outcome.value.value;
              var s := SubsetScore(b.mae, b.rmse, b.stdMae);
              b.nFeatures == Total(b.mask) && (s == Cancelled || s == MaskScore(b.mask, splits, fold, std)) &&
              (Quiet(stop, cb) ==> s == MaskScore(b.mask, splits, fold, std))
    ensures cb.Absent? ==> reports == []
    ensures popSize > 0 && n > 2 && Quiet(stop, cb) ==>
              |history| == (if nGen < 0 then 0 else nGen) && FullGenerations(history, popSize)
  {
    var pop := InitialMasks(rng, popSize, n);
    var failed, best;
    failed, best, reports, history := Generations(pop, popSize * n, cols, n, popSize, nGen, rate, splits, fold, std, cb, stop, rng, choice);
    outcome := if failed then Raised(ValueError) else Returned(best);
    BestEvaluated(outcome, history, best, cols, popSize, n, splits, fold, std, Quiet(stop, cb));
  }
}
