/** The layer-width encoding shared by the structure searches (optimize_ga.py and
    structure_ga.py, which define `random_arch`, the evaluator and the crossover and
    mutation steps identically): an architecture is a tuple of 1 to 3 hidden-layer
    widths, each drawn from `randint(8, 64)`. */
module Architecture {
  import opened Search

  /** 1 to 3 hidden layers, each 8 to 63 units wide. */
  predicate ValidArch(a: seq<int>) {
    1 <= |a| <= 3 && forall i :: 0 <= i < |a| ==> 8 <= a[i] < 64
  }

  ghost predicate AllValid(pop: seq<seq<int>>) {
    forall i :: 0 <= i < |pop| ==> ValidArch(pop[i])
  }

  /** `sum(arch)`, the total number of hidden units: the complexity the evaluator reports. */
  function Units(a: seq<int>): int {
    if a == [] then 0 else Units(a[..|a| - 1]) + a[|a| - 1]
  }

  /** Every valid architecture has between 8 and 189 hidden units. */
  lemma {:induction false} UnitsBounds(a: seq<int>)
    requires forall i :: 0 <= i < |a| ==> 8 <= a[i] < 64
    ensures 8 * |a| <= Units(a) <= 63 * |a|
  {
    if a != [] {
      UnitsBounds(a[..|a| - 1]);
    }
  }

  /** `random_arch(rng)`: a depth from `rng.randint(1, 4)`, then one `rng.randint(8, 64)` per
      layer; the draws are numbered from `at`, and it uses `1 + |arch|` of them. */
  function RandomArch(rng: Rng, at: nat): (arch: seq<int>)
    requires rng.Valid()
    ensures ValidArch(arch)
  {
    var n := rng.randint(at, 1, 4);
    seq(n, (j: int) requires 0 <= j => rng.randint(at + 1 + j, 8, 64))
  }

  /** `pop = [random_arch(rng) for _ in range(pop_size)]`; returns the next draw number. */
  method InitialPopulation(rng: Rng, popSize: nat) returns (pop: seq<seq<int>>, draws: nat)
    requires rng.Valid()
    ensures |pop| == popSize && AllValid(pop)
  {
    pop, draws := [], 0;
    while |pop| < popSize
      invariant |pop| <= popSize && AllValid(pop)
    {
      var a := RandomArch(rng, draws);
      draws := draws + 1 + |a|;
      pop := pop + [a];
    }
  }

  // ---------------------------------------------------------------------------
  // Evaluation

  /** `(mae, rmse, n_params)` as the evaluator returns it. */
  datatype ArchScore = ArchScore(mae: real, rmse: real, complexity: real)

  /** The triple `(1e9, 1e9, 1e9)` of a cancelled evaluation. */
  const Cancelled: ArchScore := ArchScore(Sentinel, Sentinel, Sentinel)

  /** The evaluation of an architecture that ran through every fold. */
  function Completed(arch: seq<int>, splits: nat, fold: (seq<int>, nat) -> FoldError): ArchScore
    requires splits > 0
  {
    ArchScore(Mean(FoldMaes(arch, splits, fold)), Mean(FoldRmses(arch, splits, fold)), Units(arch) as real)
  }

  /** `evaluate_arch` / `evaluate_structure`: polls the stop flag at entry and before each
      fold (polls numbered from `at`). The first raised poll yields the sentinel triple;
      with every poll down, the means of the fold errors and `sum(arch)`. */
  method EvaluateArch(arch: seq<int>, splits: nat, fold: (seq<int>, nat) -> FoldError, stop: StopFlag, at: nat)
    returns (score: ArchScore, used: nat)
    requires splits >= 2
    ensures 1 <= used <= splits + 1
    ensures forall k :: at <= k < at + used - 1 ==> !stop(k)
    ensures (exists k :: at <= k <= at + splits && stop(k)) ==> score == Cancelled && stop(at + used - 1)
    ensures (forall k :: at <= k <= at + splits ==> !stop(k)) ==> used == splits + 1 && score == Completed(arch, splits, fold)
  {
    if stop(at) {
      return Cancelled, 1;
    }
    var cancelled, maes, rmses, n := CrossValidate(arch, splits, fold, stop, at + 1);
    used := 1 + n;
    if cancelled {
      score := Cancelled;
    } else {
      score := ArchScore(Mean(maes), Mean(rmses), Units(arch) as real);
    }
  }

  /** The `(n_params, arch)` part of a scored tuple `(mae, rmse, n_params, arch)`. */
  datatype ArchInfo = ArchInfo(nParams: real, arch: seq<int>)

  type ScoredArch = Eval<ArchInfo>

  /** A scored tuple holds its architecture and either the sentinel triple or its
      completed evaluation. */
  ghost predicate ScoredAs(e: ScoredArch, arch: seq<int>, splits: nat, fold: (seq<int>, nat) -> FoldError)
    requires splits > 0
  {
    var s := ArchScore(e.mae, e.rmse, e.info.nParams);
    e.info.arch == arch && (s == Cancelled || s == Completed(arch, splits, fold))
  }

  /** Every entry of a scored list holds the completed evaluation of its architecture. */
  ghost predicate AllCompleted(scored: seq<ScoredArch>, splits: nat, fold: (seq<int>, nat) -> FoldError)
    requires splits > 0
  {
    forall i :: 0 <= i < |scored| ==>
      ArchScore(scored[i].mae, scored[i].rmse, scored[i].info.nParams) == Completed(scored[i].info.arch, splits, fold)
  }

  /** The threaded `Parallel` map of the evaluator over the population, taken in order; the
      polls of the individual evaluations follow one another. */
  method ScoreAll(pop: seq<seq<int>>, splits: nat, fold: (seq<int>, nat) -> FoldError, stop: StopFlag, at: nat)
    returns (scored: seq<ScoredArch>, used: nat)
    requires splits >= 2
    ensures |scored| == |pop|
    ensures forall i :: 0 <= i < |pop| ==> ScoredAs(scored[i], pop[i], splits, fold)
    ensures (forall k :: at <= k < at + used ==> !stop(k)) ==>
              forall i :: 0 <= i < |pop| ==> ArchScore(scored[i].mae, scored[i].rmse, scored[i].info.nParams) == Completed(pop[i], splits, fold)
  {
    scored, used := [], 0;
    for i := 0 to |pop|
      invariant |scored| == i
      invariant forall j :: 0 <= j < i ==> ScoredAs(scored[j], pop[j], splits, fold)
      invariant (forall k :: at <= k < at + used ==> !stop(k)) ==>
                  forall j :: 0 <= j < i ==> ArchScore(scored[j].mae, scored[j].rmse, scored[j].info.nParams) == Completed(pop[j], splits, fold)
    {
      var s, n := EvaluateArch(pop[i], splits, fold, stop, at + used);
      used := used + n;
      scored := scored + [Eval(s.mae, s.rmse, ArchInfo(s.complexity, pop[i]))];
    }
  }

  /** Sorting a scored list by MAE keeps every architecture in it. */
  lemma SortKeepsValid(scored: seq<ScoredArch>)
    requires forall i :: 0 <= i < |scored| ==> ValidArch(scored[i].info.arch)
    ensures forall i :: 0 <= i < |SortByMae(scored)| ==> ValidArch(SortByMae(scored)[i].info.arch)
  {
    var sorted := SortByMae(scored);
    forall i | 0 <= i < |sorted| ensures ValidArch(sorted[i].info.arch) {
      assert sorted[i] in multiset(scored);
    }
  }

  // ---------------------------------------------------------------------------
  // Crossover and mutation

  function MinLen(p1: seq<int>, p2: seq<int>): nat {
    if |p1| < |p2| then |p1| else |p2|
  }

  /** The crossover step: when both parents have at least two layers, `p1[:cut] + p2[cut:]`
      with `cut` from `rng.randint(1, min_len)`; otherwise a copy of the parent that
      `random.choice([p1, p2])` picks (`pick` is 0 or 1). */
  function Crossover(p1: seq<int>, p2: seq<int>, cut: int, pick: nat): (child: seq<int>)
    requires ValidArch(p1) && ValidArch(p2)
    requires MinLen(p1, p2) > 1 ==> 1 <= cut < MinLen(p1, p2)
    requires pick < 2
    ensures ValidArch(child)
    ensures MinLen(p1, p2) > 1 ==>
              |child| == |p2| &&
              (forall i :: 0 <= i < cut ==> child[i] == p1[i]) &&
              (forall i :: cut <= i < |p2| ==> child[i] == p2[i])
    ensures MinLen(p1, p2) <= 1 ==> child == if pick == 0 then p1 else p2
  {
    if MinLen(p1, p2) > 1 then p1[..cut] + p2[cut..]
    else if pick == 0 then p1 else p2
  }

  /** `child = list(child); child[idx] = width; child = tuple(child)`. */
  function Redraw(child: seq<int>, idx: nat, width: int): (r: seq<int>)
    requires idx < |child|
    ensures |r| == |child| && r[idx] == width
    ensures forall i :: 0 <= i < |child| && i != idx ==> r[i] == child[i]
  {
    child[idx := width]
  }

  /** Redrawing one width from `randint(8, 64)` keeps an architecture valid and its depth. */
  lemma RedrawKeepsValid(child: seq<int>, idx: nat, width: int)
    requires ValidArch(child) && idx < |child| && 8 <= width < 64
    ensures ValidArch(Redraw(child, idx, width)) && |Redraw(child, idx, width)| == |child|
  {
  }
}
