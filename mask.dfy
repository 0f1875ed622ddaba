/** The 0/1 feature-mask encoding shared by the feature-selection searches
    (features_ga.py and ga_load_features.py): an individual is an integer vector with one
    entry per column of the feature matrix, 1 where the column is used. */
module Mask {
  import opened Search

  /** A 0/1 vector over `n` columns. */
  predicate IsMask(m: seq<int>, n: nat) {
    |m| == n && forall i :: 0 <= i < |m| ==> m[i] == 0 || m[i] == 1
  }

  ghost predicate AllMasks(pop: seq<seq<int>>, n: nat) {
    forall i :: 0 <= i < |pop| ==> IsMask(pop[i], n)
  }

  /** `ind.sum()`. */
  function Total(m: seq<int>): int {
    if m == [] then 0 else Total(m[..|m| - 1]) + m[|m| - 1]
  }

  /** `np.where(mask == 1)[0]`: the positions holding a 1, in increasing order. */
  function Where(m: seq<int>): (idx: seq<nat>)
    ensures forall i :: i in idx <==> 0 <= i < |m| && m[i] == 1
    ensures forall j :: 0 <= j < |idx| ==> idx[j] < |m|
    ensures forall i, j :: 0 <= i < j < |idx| ==> idx[i] < idx[j]
  {
    if m == [] then []
    else
      var init := Where(m[..|m| - 1]);
      if m[|m| - 1] == 1 then init + [|m| - 1] else init
  }

  /** A mask selects as many columns as it has ones. */
  lemma {:induction false} WhereCount(m: seq<int>)
    requires IsMask(m, |m|)
    ensures |Where(m)| == Total(m)
  {
    if m != [] {
      WhereCount(m[..|m| - 1]);
    }
  }

  /** A mask selects no column iff it is all zeros. */
  lemma WhereEmptyIffZero(m: seq<int>)
    requires IsMask(m, |m|)
    ensures Where(m) == [] <==> forall i :: 0 <= i < |m| ==> m[i] == 0
  {
    if Where(m) != [] {
      assert Where(m)[0] in Where(m);
    }
  }

  /** `[cols[i] for i in np.where(mask == 1)[0]]`. */
  function Features<C>(cols: seq<C>, m: seq<int>): (r: seq<C>)
    requires |cols| == |m|
    ensures |r| == |Where(m)|
  {
    var idx := Where(m);
    seq(|idx|, j requires 0 <= j < |idx| => cols[idx[j]])
  }

  /** The selected names are the columns whose mask entry is 1, in column order, and there
      are as many of them as the mask has ones. */
  lemma FeaturesSelected<C>(cols: seq<C>, m: seq<int>)
    requires IsMask(m, |cols|)
    ensures |Features(cols, m)| == Total(m)
    ensures forall j :: 0 <= j < |Features(cols, m)| ==>
              Where(m)[j] < |cols| && m[Where(m)[j]] == 1 && Features(cols, m)[j] == cols[Where(m)[j]]
    ensures forall x :: x in Features(cols, m) ==> x in cols
  {
    WhereCount(m);
    var idx := Where(m);
    forall j | 0 <= j < |idx| ensures m[idx[j]] == 1 {
      assert idx[j] in idx;
    }
  }

  // ---------------------------------------------------------------------------
  // Operators

  /** `np.concatenate([p1[:cx], p2[cx:]])`. */
  function Splice(p1: seq<int>, p2: seq<int>, cx: int): (child: seq<int>)
    requires |p1| == |p2| && 0 <= cx <= |p1|
    ensures |child| == |p2|
    ensures forall i :: 0 <= i < cx ==> child[i] == p1[i]
    ensures forall i :: cx <= i < |p2| ==> child[i] == p2[i]
  {
    p1[..cx] + p2[cx..]
  }

  /** A spliced child of two masks is a mask. */
  lemma SpliceIsMask(p1: seq<int>, p2: seq<int>, cx: int, n: nat)
    requires IsMask(p1, n) && IsMask(p2, n) && 0 <= cx <= n
    ensures IsMask(Splice(p1, p2, cx), n)
  {
  }

  /** `child[mut] = 1 - child[mut]` with `mut = u < rate`: on a mask, exactly the positions
      whose draw is below the rate change. */
  function Flipped(m: seq<int>, u: seq<real>, rate: real): (r: seq<int>)
    requires |u| == |m|
    ensures |r| == |m|
    ensures forall i :: 0 <= i < |m| && (m[i] == 0 || m[i] == 1) ==> (r[i] != m[i] <==> u[i] < rate)
    ensures forall i :: 0 <= i < |m| && (m[i] == 0 || m[i] == 1) ==> (r[i] == 0 || r[i] == 1)
  {
    seq(|m|, i requires 0 <= i < |m| => if u[i] < rate then 1 - m[i] else m[i])
  }

  /** Flipping with the same draws twice restores the mask. */
  lemma FlipTwice(m: seq<int>, u: seq<real>, rate: real)
    requires |u| == |m|
    ensures Flipped(Flipped(m, u, rate), u, rate) == m
  {
  }

  /** The in-place bit flip on the child array. */
  method FlipBits(child: array<int>, u: seq<real>, rate: real)
    requires child.Length == |u|
    modifies child
    ensures child[..] == Flipped(old(child[..]), u, rate)
  {
    ghost var before := child[..];
    for i := 0 to child.Length
      invariant forall j :: 0 <= j < i ==> child[j] == Flipped(before, u, rate)[j]
      invariant forall j :: i <= j < child.Length ==> child[j] == before[j]
    {
      if u[i] < rate {
        child[i] := 1 - child[i];
      }
    }
  }

  /** `rng.rand(n)` from draw `at`. */
  function Uniforms(rng: Rng, at: nat, n: nat): (u: seq<real>)
    requires rng.Valid()
    ensures |u| == n && forall i :: 0 <= i < n ==> 0.0 <= u[i] < 1.0
  {
    seq(n, (i: int) requires 0 <= i => rng.rand(at + i))
  }

  /** The child the breeding loop appends for cut `cx` and flip draws `u`. */
  function Child(p1: seq<int>, p2: seq<int>, cx: int, u: seq<real>, rate: real): (child: seq<int>)
    requires |p1| == |p2| == |u| && 0 <= cx <= |p1|
    ensures |child| == |p1|
  {
    Flipped(Splice(p1, p2, cx), u, rate)
  }

  /** A child of two masks is a mask over the same columns. */
  lemma ChildIsMask(p1: seq<int>, p2: seq<int>, cx: int, u: seq<real>, rate: real, n: nat)
    requires IsMask(p1, n) && IsMask(p2, n) && |u| == n && 0 <= cx <= n
    ensures IsMask(Child(p1, p2, cx, u, rate), n)
  {
    SpliceIsMask(p1, p2, cx, n);
  }

  /** One child: `cx = rng.randint(1, n - 1)`, the concatenation into a fresh array, then
      `rng.rand(n)` and the in-place flip. Returns the cut, the flip draws and the next draw
      position. */
  method Offspring(p1: seq<int>, p2: seq<int>, n: nat, rate: real, rng: Rng, rpos: nat)
    returns (child: seq<int>, cx: int, u: seq<real>, rnext: nat)
    requires rng.Valid() && IsMask(p1, n) && IsMask(p2, n) && n > 2
    ensures 1 <= cx < n - 1 && |u| == n && forall i :: 0 <= i < n ==> 0.0 <= u[i] < 1.0
    ensures child == Child(p1, p2, cx, u, rate) && IsMask(child, n)
  {
    cx := rng.randint(rpos, 1, n - 1);
    var a := new int[n](i requires 0 <= i < n => if i < cx then p1[i] else p2[i]);
    assert a[..] == Splice(p1, p2, cx);
    u := Uniforms(rng, rpos + 1, n);
    FlipBits(a, u, rate);
    child, rnext := a[..], rpos + 1 + n;
    ChildIsMask(p1, p2, cx, u, rate, n);
  }

  /** `rng.randint(0, 2, size=(pop_size, n_features))`, filled row by row from draw 0. */
  function InitialMasks(rng: Rng, popSize: nat, n: nat): (pop: seq<seq<int>>)
    requires rng.Valid()
    ensures |pop| == popSize && AllMasks(pop, n)
  {
    seq(popSize, (r: int) requires 0 <= r => seq(n, (c: int) requires 0 <= c => rng.randint(r * n + c, 0, 2)))
  }

  // ---------------------------------------------------------------------------
  // Evaluation

  /** `(mae, rmse, std_mae)` as the evaluators return it. */
  datatype SubsetScore = SubsetScore(mae: real, rmse: real, stdMae: real)

  /** The triple `(1e9, 1e9, 1e9)` of an empty mask or a cancelled evaluation. */
  const Cancelled: SubsetScore := SubsetScore(Sentinel, Sentinel, Sentinel)

  /** The evaluation that runs through every fold: the means of the fold errors and
      `np.std` (the parameter `std`) of the fold MAEs; an empty mask is not trained. */
  function MaskScore(m: seq<int>, splits: nat, fold: (seq<int>, nat) -> FoldError, std: seq<real> -> real): (s: SubsetScore)
    requires splits > 0
    ensures Where(m) == [] ==> s == Cancelled
    ensures Where(m) != [] ==> s.mae == Mean(FoldMaes(m, splits, fold)) && s.rmse == Mean(FoldRmses(m, splits, fold))
  {
    if Where(m) == [] then Cancelled
    else SubsetScore(Mean(FoldMaes(m, splits, fold)), Mean(FoldRmses(m, splits, fold)), std(FoldMaes(m, splits, fold)))
  }

  /** The `(std_mae, n_features, mask)` part of an evaluation tuple. */
  datatype MaskInfo = MaskInfo(stdMae: real, nf: int, mask: seq<int>)

  type ScoredMask = Eval<MaskInfo>

  /** The tuple `(mae, rmse, std_mae, ind.sum(), ind)` the scoring loops append. */
  function Tuple(s: SubsetScore, m: seq<int>): ScoredMask {
    Eval(s.mae, s.rmse, MaskInfo(s.stdMae, Total(m), m))
  }

  /** Every evaluation tuple holds the full evaluation of its own mask. */
  ghost predicate Exact(evals: seq<ScoredMask>, splits: nat, fold: (seq<int>, nat) -> FoldError, std: seq<real> -> real)
    requires splits > 0
  {
    forall i :: 0 <= i < |evals| ==> evals[i] == Tuple(MaskScore(evals[i].info.mask, splits, fold, std), evals[i].info.mask)
  }

  /** Every generation of `history` holds full evaluations of their masks. */
  ghost predicate ExactHistory(history: seq<seq<ScoredMask>>, splits: nat, fold: (seq<int>, nat) -> FoldError, std: seq<real> -> real)
    requires splits > 0
  {
    forall g :: 0 <= g < |history| ==> Exact(history[g], splits, fold, std)
  }

  /** Appending a generation of full evaluations keeps `ExactHistory`. */
  lemma {:induction false} ExactHistoryStep(history: seq<seq<ScoredMask>>, evals: seq<ScoredMask>, splits: nat,
                                            fold: (seq<int>, nat) -> FoldError, std: seq<real> -> real)
    requires splits > 0 && ExactHistory(history, splits, fold, std) && Exact(evals, splits, fold, std)
    ensures ExactHistory(history + [evals], splits, fold, std)
  {
    var h := history + [evals];
    forall g | 0 <= g < |h| ensures Exact(h[g], splits, fold, std) {
      if g < |history| {
        assert h[g] == history[g];
      } else {
        assert h[g] == evals;
      }
    }
  }

  /** The `best` dictionary. */
  datatype BestRecord<C> = BestRecord(mae: real, rmse: real, stdMae: real, nFeatures: int, features: seq<C>, mask: seq<int>)

  /** The `best` dictionary built from an evaluation tuple. */
  function BestOf<C>(e: ScoredMask, cols: seq<C>): (b: BestRecord<C>)
    requires |e.info.mask| == |cols|
    ensures IsMask(e.info.mask, |cols|) && e.info.nf == Total(e.info.mask) ==>
              b.nFeatures == |b.features| && forall x :: x in b.features ==> x in cols
  {
    var b := BestRecord(e.mae, e.rmse, e.info.stdMae, e.info.nf, Features(cols, e.info.mask), e.info.mask);
    assert IsMask(e.info.mask, |cols|) ==> |b.features| == Total(e.info.mask) && forall x :: x in b.features ==> x in cols by {
      if IsMask(e.info.mask, |cols|) {
        FeaturesSelected(cols, e.info.mask);
      }
    }
    b
  }

  /** Sorting evaluations by MAE keeps every mask. */
  lemma SortKeepsMasks(evals: seq<ScoredMask>, n: nat)
    requires forall i :: 0 <= i < |evals| ==> IsMask(evals[i].info.mask, n)
    ensures forall i :: 0 <= i < |SortByMae(evals)| ==> IsMask(SortByMae(evals)[i].info.mask, n)
  {
    var sorted := SortByMae(evals);
    forall i | 0 <= i < |sorted| ensures IsMask(sorted[i].info.mask, n) {
      assert sorted[i] in multiset(evals);
    }
  }

  // ---------------------------------------------------------------------------
  // Breeding and the returned record

  /** The draws behind one child: both parents' positions in the sorted evaluations, the
      cut and the flip draws. */
  datatype Mating = Mating(i1: nat, i2: nat, cx: int, u: seq<real>)

  /** `child` was bred from two scored masks with the draws `m`. */
  ghost predicate Bred(child: seq<int>, m: Mating, sorted: seq<ScoredMask>, n: nat, rate: real)
    requires forall i :: 0 <= i < |sorted| ==> IsMask(sorted[i].info.mask, n)
  {
    m.i1 < |sorted| && m.i2 < |sorted| && 1 <= m.cx < n - 1 && |m.u| == n &&
    (forall i :: 0 <= i < n ==> 0.0 <= m.u[i] < 1.0) &&
    IsMask(sorted[m.i1].info.mask, n) && IsMask(sorted[m.i2].info.mask, n) &&
    child == Child(sorted[m.i1].info.mask, sorted[m.i2].info.mask, m.cx, m.u, rate)
  }

  /** The `best` dictionary a run returns after ranking `history`: the champion of the last
      ranked generation, or `None` when no generation was ranked. */
  function LastBest<C>(history: seq<seq<ScoredMask>>, cols: seq<C>, n: nat): (b: Option<BestRecord<C>>)
    requires |cols| == n
    requires Ranked(history, n)
    ensures b.None? <==> history == []
    ensures b.Some? ==> IsMask(b.value.mask, n) && b.value.features == Features(cols, b.value.mask) &&
                        b.value.mask in Masks(history[|history| - 1]) &&
                        forall e :: e in history[|history| - 1] ==> b.value.mae <= e.mae
  {
    if history == [] then None
    else
      var last := history[|history| - 1];
      assert MaskEvals(last, n);
      SortHeadIsMinimal(last);
      SortKeepsMasks(last, n);
      assert SortByMae(last)[0] in last;
      Some(BestOf(SortByMae(last)[0], cols))
  }

  /** Ranking one more generation makes its champion the run's `best`. */
  lemma LastBestStep<C>(history: seq<seq<ScoredMask>>, evals: seq<ScoredMask>, cols: seq<C>, n: nat, popSize: nat)
    requires |cols| == n && History(history, popSize, n)
    requires MaskEvals(evals, n) && |evals| <= popSize
    ensures History(history + [evals], popSize, n)
    ensures FullGenerations(history, popSize) && |evals| == popSize ==> FullGenerations(history + [evals], popSize)
    ensures |SortByMae(evals)| > 0 && |SortByMae(evals)[0].info.mask| == |cols|
    ensures LastBest(history + [evals], cols, n) == Some(BestOf(SortByMae(evals)[0], cols))
  {
    SortKeepsMasks(evals, n);
    var h := history + [evals];
    assert forall g :: 0 <= g < |history| ==> h[g] == history[g];
    assert h[|h| - 1] == evals;
  }

  function Masks(evals: seq<ScoredMask>): set<seq<int>> {
    set e | e in evals :: e.info.mask
  }

  /** Evaluations of at least one mask over `n` columns. */
  ghost predicate MaskEvals(evals: seq<ScoredMask>, n: nat) {
    0 < |evals| && forall i :: 0 <= i < |evals| ==> IsMask(evals[i].info.mask, n)
  }

  /** Every generation of `history` evaluated at least one mask over `n` columns. */
  ghost predicate Ranked(history: seq<seq<ScoredMask>>, n: nat) {
    forall g :: 0 <= g < |history| ==> MaskEvals(history[g], n)
  }

  /** Every generation of `history` evaluated between one and `popSize` masks over `n`
      columns. */
  ghost predicate History(history: seq<seq<ScoredMask>>, popSize: nat, n: nat) {
    Ranked(history, n) && forall g :: 0 <= g < |history| ==> |history[g]| <= popSize
  }

  /** Every generation of `history` evaluated exactly `popSize` masks. */
  ghost predicate FullGenerations(history: seq<seq<ScoredMask>>, popSize: nat) {
    forall g :: 0 <= g < |history| ==> |history[g]| == popSize
  }

  /** The mask of the lowest-MAE evaluation, which leads the next population. */
  function ChampionMask(evals: seq<ScoredMask>): (m: seq<int>)
    requires |evals| > 0
    ensures exists i :: 0 <= i < |evals| && m == evals[i].info.mask
    ensures forall e :: e in evals ==> SortByMae(evals)[0].mae <= e.mae
  {
    SortHeadIsMinimal(evals);
    assert SortByMae(evals)[0] in multiset(evals);
    SortByMae(evals)[0].info.mask
  }

  /** Every generation of `history` after the first starts with the previous champion's mask. */
  ghost predicate Led(history: seq<seq<ScoredMask>>)
    requires forall g :: 0 <= g < |history| ==> |history[g]| > 0
  {
    forall g :: 0 < g < |history| ==> history[g][0].info.mask == ChampionMask(history[g - 1])
  }

  lemma {:induction false} LedStep(history: seq<seq<ScoredMask>>, evals: seq<ScoredMask>)
    requires (forall g :: 0 <= g < |history| ==> |history[g]| > 0) && Led(history)
    requires |evals| > 0 && (history != [] ==> evals[0].info.mask == ChampionMask(history[|history| - 1]))
    ensures forall g :: 0 <= g < |history + [evals]| ==> |(history + [evals])[g]| > 0
    ensures Led(history + [evals])
  {
    var h: seq<seq<ScoredMask>> := history + [evals];
    forall g | 0 <= g < |h| ensures |h[g]| > 0 {
      if g < |history| {
        assert h[g] == history[g];
      }
    }
    forall g | 0 < g < |h| ensures h[g][0].info.mask == ChampionMask(h[g - 1]) {
      assert h[g - 1] == history[g - 1];
      if g < |history| {
        assert h[g] == history[g];
      }
    }
  }
}
