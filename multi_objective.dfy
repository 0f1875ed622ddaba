/** Multi-objective architecture search (ga_multiobjective_opt.py): individuals are
    (layers, neurons) shapes scored on MAE and RMSE together; each generation keeps the
    strict-dominance front of its own evaluations, reports it, and rebuilds the
    population from the front's shapes followed by uniform-crossover children. */
module MultiObjective {
  import opened Search

  const LayerChoices: seq<int> := [1, 2, 3]
  const NeuronChoices: seq<int> := [16, 32, 64, 128]

  /** A network of `layers` hidden layers with `neurons` units each. */
  datatype Shape = Shape(layers: int, neurons: int)

  predicate ValidShape(s: Shape) {
    s.layers in LayerChoices && s.neurons in NeuronChoices
  }

  ghost predicate AllValid(pop: seq<Shape>) {
    forall i :: 0 <= i < |pop| ==> ValidShape(pop[i])
  }

  /** One entry of `evals`: {"mae", "rmse", "layers", "neurons"}. */
  type Candidate = Eval<Shape>

  /** The hidden-layer sizes `(neurons,) * layers` handed to the model. */
  function Hidden(s: Shape): (h: seq<int>)
    requires s.layers >= 0
    ensures |h| == s.layers && forall i :: 0 <= i < |h| ==> h[i] == s.neurons
  {
    seq(s.layers, _ => s.neurons)
  }

  /** What `evaluate_architecture` returns for a shape: the means of its fold errors. */
  function Score(s: Shape, splits: nat, fold: (seq<int>, nat) -> FoldError): Candidate
    requires s.layers >= 0 && splits > 0
  {
    Eval(Mean(FoldMaes(Hidden(s), splits, fold)), Mean(FoldRmses(Hidden(s), splits, fold)), s)
  }

  /** `evaluate_architecture`: cross-validates the shape over all folds (it takes no stop flag). */
  method EvaluateArchitecture(s: Shape, splits: nat, fold: (seq<int>, nat) -> FoldError) returns (c: Candidate)
    requires s.layers >= 0 && splits >= 2
    ensures c.info == s
    ensures c.mae == Mean(FoldMaes(Hidden(s), splits, fold))
    ensures c.rmse == Mean(FoldRmses(Hidden(s), splits, fold))
  {
    var cancelled, maes, rmses, used := CrossValidate(Hidden(s), splits, fold, NeverStop(), 0);
    c := Eval(Mean(maes), Mean(rmses), s);
  }

  // ---------------------------------------------------------------------------
  // Dominance and the per-generation front

  /** `dominates(a, b)`: no worse on both objectives and strictly better on one. */
  predicate Dominates(a: Candidate, b: Candidate) {
    (a.mae <= b.mae && a.rmse <= b.rmse) && (a.mae < b.mae || a.rmse < b.rmse)
  }

  /** Dominance is a strict partial order: irreflexive, asymmetric and transitive; records
      with equal MAE and RMSE do not dominate each other. */
  lemma DominanceIsStrictOrder()
    ensures forall a :: !Dominates(a, a)
    ensures forall a, b :: !(Dominates(a, b) && Dominates(b, a))
    ensures forall a, b, c :: Dominates(a, b) && Dominates(b, c) ==> Dominates(a, c)
    ensures forall a: Candidate, b: Candidate :: a.mae == b.mae && a.rmse == b.rmse ==> !Dominates(a, b)
  {
  }

  /** `any(dominates(other, cand) for other in pool)`. */
  predicate DominatedIn(pool: seq<Candidate>, c: Candidate) {
    exists i :: 0 <= i < |pool| && Dominates(pool[i], c)
  }

  function Undominated(pool: seq<Candidate>): Candidate -> bool {
    c => !DominatedIn(pool, c)
  }

  /** The front of one generation: the evaluations no evaluation of the same generation dominates. */
  function Front(evals: seq<Candidate>): seq<Candidate> {
    Filter(evals, Undominated(evals))
  }

  /** The loop that builds `new_front`: a candidate is appended when no member of `evals`
      dominates it. */
  method NonDominated(evals: seq<Candidate>) returns (front: seq<Candidate>)
    ensures front == Front(evals)
    ensures |front| <= |evals|
  {
    front := [];
    for i := 0 to |evals|
      invariant front == Filter(evals[..i], Undominated(evals))
    {
      assert evals[..i + 1][..i] == evals[..i];
      if !DominatedIn(evals, evals[i]) {
        front := front + [evals[i]];
      }
    }
    assert evals[..|evals|] == evals;
  }

  /** The front is an order-preserving sub-list of the generation's evaluations. */
  lemma FrontIsSublist(evals: seq<Candidate>) returns (idx: seq<nat>)
    ensures SublistAt(Front(evals), evals, idx)
  {
    idx := FilterIsSublist(evals, Undominated(evals));
  }

  /** A candidate is in the front iff it was evaluated and no evaluation dominates it;
      so no member of the front dominates another. */
  lemma FrontMembers(evals: seq<Candidate>)
    ensures forall c :: c in Front(evals) <==> c in evals && !DominatedIn(evals, c)
    ensures forall a, b :: a in Front(evals) && b in Front(evals) ==> !Dominates(a, b)
  {
    forall a, b | a in Front(evals) && b in Front(evals) ensures !Dominates(a, b) {
      var i :| 0 <= i < |evals| && evals[i] == a;
      assert !DominatedIn(evals, b);
    }
  }

  /** Records equal in MAE and RMSE stand or fall together. */
  lemma TiesSurviveTogether(evals: seq<Candidate>, a: Candidate, b: Candidate)
    requires a in Front(evals) && b in evals
    requires a.mae == b.mae && a.rmse == b.rmse
    ensures b in Front(evals)
  {
    if DominatedIn(evals, b) {
      var i :| 0 <= i < |evals| && Dominates(evals[i], b);
      assert Dominates(evals[i], a);
      assert false;
    }
  }

  /** The index of the evaluation with the smallest (MAE, RMSE) in lexicographic order. */
  function LexMinIndex(s: seq<Candidate>): (k: nat)
    requires |s| > 0
    ensures k < |s|
    ensures forall j :: 0 <= j < |s| ==> s[k].mae < s[j].mae || (s[k].mae == s[j].mae && s[k].rmse <= s[j].rmse)
  {
    if |s| == 1 then 0
    else
      var t := LexMinIndex(s[..|s| - 1]);
      var last := s[|s| - 1];
      if last.mae < s[t].mae || (last.mae == s[t].mae && last.rmse < s[t].rmse) then |s| - 1 else t
  }

  /** A non-empty generation has a non-empty front: its lexicographic minimum is undominated. */
  lemma FrontNonEmpty(evals: seq<Candidate>)
    requires |evals| > 0
    ensures |Front(evals)| > 0
  {
    var k := LexMinIndex(evals);
    assert !DominatedIn(evals, evals[k]);
    assert evals[k] in Front(evals);
  }

  // ---------------------------------------------------------------------------
  // Population

  /** `[(random.choice(LAYER_CHOICES), random.choice(NEURON_CHOICES)) for _ in range(n)]`,
      the k-th choice call being number `at + k`. */
  function InitialShapes(choice: Choice, at: nat, n: nat): (pop: seq<Shape>)
    requires ValidChoice(choice)
    ensures |pop| == n && AllValid(pop)
  {
    seq(n, (i: int) requires 0 <= i =>
      Shape(LayerChoices[choice(at + 2 * i, |LayerChoices|)], NeuronChoices[choice(at + 2 * i + 1, |NeuronChoices|)]))
  }

  /** Scores every shape of the population, in order. */
  method EvaluatePopulation(pop: seq<Shape>, splits: nat, fold: (seq<int>, nat) -> FoldError)
    returns (evals: seq<Candidate>)
    requires splits >= 2 && AllValid(pop)
    ensures |evals| == |pop|
    ensures forall i :: 0 <= i < |pop| ==> evals[i] == Score(pop[i], splits, fold)
  {
    evals := [];
    for i := 0 to |pop|
      invariant |evals| == i
      invariant forall j :: 0 <= j < i ==> evals[j] == Score(pop[j], splits, fold)
    {
      var c := EvaluateArchitecture(pop[i], splits, fold);
      evals := evals + [c];
    }
  }

  /** The next population: the front's shapes in front order, then children until there
      are `popSize`. Each child takes each gene from the first parent when its draw exceeds
      0.5 and from the second otherwise, then redraws each gene from its choice list when
      a draw falls below `rate`; parents are drawn from all evaluations. */
  method NextPopulation(front: seq<Candidate>, evals: seq<Candidate>, popSize: nat, rate: real,
                        rng: Rng, rpos: nat, choice: Choice, cpos: nat)
    returns (pop: seq<Shape>, rnext: nat, cnext: nat)
    requires rng.Valid() && ValidChoice(choice)
    requires |front| <= popSize && (|front| < popSize ==> |evals| > 0)
    requires forall j :: 0 <= j < |front| ==> ValidShape(front[j].info)
    requires forall j :: 0 <= j < |evals| ==> ValidShape(evals[j].info)
    ensures |pop| == popSize
    ensures forall j :: 0 <= j < |front| ==> pop[j] == front[j].info
    ensures AllValid(pop)
  {
    pop := seq(|front|, (j: int) requires 0 <= j < |front| => front[j].info);
    rnext, cnext := rpos, cpos;
    while |pop| < popSize
      invariant |front| <= |pop| <= popSize
      invariant forall j :: 0 <= j < |front| ==> pop[j] == front[j].info
      invariant AllValid(pop)
    {
      var p1 := evals[choice(cnext, |evals|)].info;
      var p2 := evals[choice(cnext + 1, |evals|)].info;
      cnext := cnext + 2;
      var layers := if rng.rand(rnext) > 0.5 then p1.layers else p2.layers;
      var neurons := if rng.rand(rnext + 1) > 0.5 then p1.neurons else p2.neurons;
      rnext := rnext + 2;
      if rng.rand(rnext) < rate {
        layers := LayerChoices[choice(cnext, |LayerChoices|)];
        cnext := cnext + 1;
      }
      rnext := rnext + 1;
      if rng.rand(rnext) < rate {
        neurons := NeuronChoices[choice(cnext, |NeuronChoices|)];
        cnext := cnext + 1;
      }
      rnext := rnext + 1;
      pop := pop + [Shape(layers, neurons)];
    }
  }

  // ---------------------------------------------------------------------------
  // The search

  /** The callback calls for one generation's front, in front order. */
  function FrontReports(gen: nat, front: seq<Candidate>): (r: seq<Report<Shape>>)
    ensures |r| == |front|
  {
    if front == [] then []
    else
      var last := front[|front| - 1];
      FrontReports(gen, front[..|front| - 1]) + [Scored(gen, last.mae, last.rmse, last.info)]
  }

  /** The callback calls of a run whose generations evaluated `history`. */
  function RunReports(history: seq<seq<Candidate>>): seq<Report<Shape>> {
    if history == [] then []
    else RunReports(history[..|history| - 1]) + FrontReports(|history| - 1, Front(history[|history| - 1]))
  }

  /** One generation's evaluations: `popSize` valid shapes, each scored by cross-validation. */
  ghost predicate ScoredGeneration(evals: seq<Candidate>, popSize: nat, splits: nat, fold: (seq<int>, nat) -> FoldError)
    requires splits > 0
  {
    |evals| == popSize &&
    forall i :: 0 <= i < |evals| ==> ValidShape(evals[i].info) && evals[i] == Score(evals[i].info, splits, fold)
  }

  /** Every generation of `history` is a scored generation of `popSize` shapes. */
  ghost predicate ScoredHistory(history: seq<seq<Candidate>>, popSize: nat, splits: nat, fold: (seq<int>, nat) -> FoldError)
    requires splits > 0
  {
    forall g :: 0 <= g < |history| ==> ScoredGeneration(history[g], popSize, splits, fold)
  }

  /** The front of the last generation of `history`; empty when there is none. */
  function LastFront(history: seq<seq<Candidate>>): seq<Candidate> {
    if history == [] then [] else Front(history[|history| - 1])
  }

  /** Appending one more scored generation keeps the history scored. */
  lemma ScoredHistoryStep(history: seq<seq<Candidate>>, evals: seq<Candidate>, popSize: nat, splits: nat, fold: (seq<int>, nat) -> FoldError)
    requires splits > 0 && ScoredHistory(history, popSize, splits, fold) && ScoredGeneration(evals, popSize, splits, fold)
    ensures ScoredHistory(history + [evals], popSize, splits, fold)
  {
    var h := history + [evals];
    forall g | 0 <= g < |h| ensures ScoredGeneration(h[g], popSize, splits, fold) {
      if g < |history| {
        var e := history[g];
        assert ScoredGeneration(e, popSize, splits, fold);
        assert h[g] == e;
      } else {
        assert h[g] == evals;
      }
    }
  }

  /** Appending one more generation extends the reports by that generation's front, which
      becomes the run's result and is non-empty when the generation is. */
  lemma ReportsStep(history: seq<seq<Candidate>>, evals: seq<Candidate>)
    ensures RunReports(history + [evals]) == RunReports(history) + FrontReports(|history|, Front(evals))
    ensures LastFront(history + [evals]) == Front(evals)
    ensures |evals| > 0 ==> |Front(evals)| > 0
  {
    if |evals| > 0 {
      FrontNonEmpty(evals);
    }
    var h := history + [evals];
    assert h[..|h| - 1] == history;
    assert h[|h| - 1] == evals;
  }

  /** `for cand in pareto_front: progress_cb(gen, cand["mae"], cand["rmse"], ...)`. */
  method ReportFront(gen: nat, front: seq<Candidate>, reports: seq<Report<Shape>>) returns (r: seq<Report<Shape>>)
    ensures r == reports + FrontReports(gen, front)
  {
    r := reports;
    for i := 0 to |front|
      invariant r == reports + FrontReports(gen, front[..i])
    {
      assert front[..i + 1][..i] == front[..i];
      r := r + [Scored(gen, front[i].mae, front[i].rmse, front[i].info)];
    }
    assert front[..|front|] == front;
  }

  /** `evals` scores the shapes of `pop`, in order. */
  ghost predicate ScoresOf(evals: seq<Candidate>, pop: seq<Shape>) {
    |evals| == |pop| && forall i :: 0 <= i < |pop| ==> evals[i].info == pop[i]
  }

  /** `next` starts with the shapes of `front`, in order. */
  ghost predicate ElitesFirst(next: seq<Shape>, front: seq<Candidate>) {
    |front| <= |next| && forall j :: 0 <= j < |front| ==> next[j] == front[j].info
  }

  /** One pass of the generation loop: score the population, keep its front, report the
      front, and breed the next population. */
  method Generation(gen: nat, pop: seq<Shape>, popSize: nat, rate: real, splits: nat, fold: (seq<int>, nat) -> FoldError,
                    cb: Callback, rng: Rng, rpos: nat, choice: Choice, cpos: nat, reports: seq<Report<Shape>>)
    returns (evals: seq<Candidate>, front: seq<Candidate>, next: seq<Shape>, rnext: nat, cnext: nat, r: seq<Report<Shape>>)
    requires rng.Valid() && ValidChoice(choice) && splits >= 2
    requires |pop| == popSize && AllValid(pop)
    ensures ScoredGeneration(evals, popSize, splits, fold)
    ensures ScoresOf(evals, pop)
    ensures front == Front(evals)
    ensures |next| == popSize && AllValid(next)
    ensures ElitesFirst(next, front)
    ensures r == if cb.Absent? then reports else reports + FrontReports(gen, front)
  {
    evals := EvaluatePopulation(pop, splits, fold);
    assert forall j :: 0 <= j < |evals| ==> ValidShape(evals[j].info);
    front := NonDominated(evals);
    FrontMembers(evals);
    forall j | 0 <= j < |front| ensures ValidShape(front[j].info) {
      assert front[j] in evals;
    }
    r := reports;
    if cb.Present? {
      r := ReportFront(gen, front, reports);
    }
    next, rnext, cnext := NextPopulation(front, evals, popSize, rate, rng, rpos, choice, cpos);
  }

  /** `ga_multiobjective_optimization`: `history` holds each generation's evaluations. The
      result is the last generation's front (empty when `nGen <= 0`); every generation
      scores exactly `popSize` valid shapes, and the callback sees each front in order. */
  method Optimize(popSize: nat, nGen: int, rate: real, splits: nat, fold: (seq<int>, nat) -> FoldError,
                  cb: Callback, rng: Rng, choice: Choice)
    returns (front: seq<Candidate>, reports: seq<Report<Shape>>, ghost history: seq<seq<Candidate>>)
    requires rng.Valid() && ValidChoice(choice) && splits >= 2
    ensures |history| == if nGen < 0 then 0 else nGen
    ensures ScoredHistory(history, popSize, splits, fold)
    ensures front == LastFront(history)
    ensures popSize > 0 && nGen > 0 ==> |front| > 0
    ensures reports == if cb.Absent? then [] else RunReports(history)
  {
    var pop := InitialShapes(choice, 0, popSize);
    var rpos: nat, cpos: nat := 0, 2 * popSize;
    front, reports, history := [], [], [];
    var gen := 0;
    while gen < nGen
      invariant gen == |history| <= if nGen < 0 then 0 else nGen
      invariant |pop| == popSize && AllValid(pop)
      invariant ScoredHistory(history, popSize, splits, fold)
      invariant front == LastFront(history)
      invariant popSize > 0 && gen > 0 ==> |front| > 0
      invariant reports == if cb.Absent? then [] else RunReports(history)
    {
      var evals;
      evals, front, pop, rpos, cpos, reports := Generation(gen, pop, popSize, rate, splits, fold, cb, rng, rpos, choice, cpos, reports);
      ScoredHistoryStep(history, evals, popSize, splits, fold);
      ReportsStep(history, evals);
      history := history + [evals];
      gen := gen + 1;
    }
  }
}
