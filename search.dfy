/** Shared vocabulary of the genetic-algorithm searches: scored individuals, the
    draw streams that stand for numpy's and Python's random generators, the stop
    flag and the progress callback, the cross-validation fold loop, the stable
    sort by MAE, and best-so-far tracking. */
module Search {

  datatype Option<T> = None | Some(value: T)

  /** The exceptions that can escape a search. */
  datatype Error =
    | IndexError   // indexing the first element of an empty list
    | ValueError   // numpy `randint(low, high)` with `low >= high`

  /** What a search call does: return a value or raise. */
  datatype Outcome<T> = Returned(value: T) | Raised(error: Error)

  /** The error every evaluator reports for a cancelled or degenerate candidate (1e9). */
  const Sentinel: real := 1000000000.0

  /** Validation errors of one freshly trained model on one time-series fold. */
  datatype FoldError = FoldError(mae: real, rmse: real)

  /** One scored individual: mean MAE and RMSE over the folds, plus what the variant keeps. */
  datatype Eval<I> = Eval(mae: real, rmse: real, info: I)

  /** The stop flag, given by the answers of its successive polls: `stop(k)` is what
      the k-th call of `stop_flag()` returns. */
  type StopFlag = nat -> bool

  /** A flag that is never raised: the evaluators and searches that take no stop flag. */
  function NeverStop(): (stop: StopFlag)
    ensures forall k :: !stop(k)
  {
    k => false
  }

  /** The optional progress callback; `returnsFalse(k)` says whether its k-th call returns `False`. */
  datatype Callback = Absent | Present(returnsFalse: nat -> bool)

  /** One call of the progress callback: the pre-scoring tick (all metrics `None`) or the
      generation's champion. */
  datatype Report<P> = Started(gen: nat) | Scored(gen: nat, mae: real, rmse: real, payload: P)

  /** How one pass of the generation loop ended: a stop poll was raised before the
      population was ranked, the scored list was empty (`scored[0]` raises), the callback
      vetoed after the report, or the next population was bred. */
  datatype Step = Stopped | Empty | Vetoed | Continued

  /** Positions in the four external streams: stop polls, callback calls, numpy draws
      and `random.choice` calls. */
  datatype Cursor = Cursor(polls: nat, calls: nat, draws: nat, choices: nat)

  /** No stop poll is ever raised and the callback, when there is one, never vetoes. */
  ghost predicate Quiet(stop: StopFlag, cb: Callback) {
    (forall k :: !stop(k)) && (cb.Present? ==> forall k :: !cb.returnsFalse(k))
  }

  function Pow10(e: int): real
    decreases if e < 0 then -e else e
  {
    if e == 0 then 1.0 else if e > 0 then 10.0 * Pow10(e - 1) else Pow10(e + 1) / 10.0
  }

  /** A seeded numpy `RandomState`, as the values of its successive draws: the k-th draw is
      `randint(k, lo, hi)` for `rng.randint(lo, hi)`, `rand(k)` for `rng.rand()` and
      `logUniform(k, lo, hi)` for `10 ** rng.uniform(lo, hi)`. */
  datatype Rng = Rng(randint: (nat, int, int) -> int, rand: nat -> real, logUniform: (nat, int, int) -> real)
  {
    ghost predicate Valid() {
      (forall k, lo, hi :: lo < hi ==> lo <= randint(k, lo, hi) < hi) &&
      (forall k :: 0.0 <= rand(k) < 1.0) &&
      (forall k, lo, hi :: lo <= hi ==> Pow10(lo) <= logUniform(k, lo, hi) <= Pow10(hi))
    }
  }

  /** Python's global `random.choice`: the k-th call on a list of length n picks index `choice(k, n)`. */
  type Choice = (nat, nat) -> nat

  ghost predicate ValidChoice(choice: Choice) {
    forall k, n :: 0 < n ==> choice(k, n) < n
  }

  function Sum(s: seq<real>): real {
    if s == [] then 0.0 else Sum(s[..|s| - 1]) + s[|s| - 1]
  }

  /** `np.mean` of a non-empty list, in exact arithmetic. */
  function Mean(s: seq<real>): real
    requires |s| > 0
  {
    Sum(s) / (|s| as real)
  }

  function FoldMaes<A>(cand: A, splits: nat, fold: (A, nat) -> FoldError): seq<real> {
    seq(splits, (f: int) requires 0 <= f => fold(cand, f).mae)
  }

  function FoldRmses<A>(cand: A, splits: nat, fold: (A, nat) -> FoldError): seq<real> {
    seq(splits, (f: int) requires 0 <= f => fold(cand, f).rmse)
  }

  /** The fold loop of every evaluator: before each of the `splits` folds it polls the stop
      flag (poll numbers from `at` on) and gives up at the first raised poll; otherwise it
      trains on the fold and appends its MAE and RMSE. */
  method CrossValidate<A>(cand: A, splits: nat, fold: (A, nat) -> FoldError, stop: StopFlag, at: nat)
    returns (cancelled: bool, maes: seq<real>, rmses: seq<real>, used: nat)
    ensures used <= splits
    ensures forall k :: at <= k < at + used && !(cancelled && k == at + used - 1) ==> !stop(k)
    ensures cancelled ==> 1 <= used && stop(at + used - 1)
    ensures !cancelled ==> used == splits && maes == FoldMaes(cand, splits, fold) && rmses == FoldRmses(cand, splits, fold)
    ensures cancelled <==> exists k :: at <= k < at + splits && stop(k)
  {
    cancelled, maes, rmses, used := false, [], [], 0;
    while used < splits
      invariant used <= splits
      invariant forall k :: at <= k < at + used ==> !stop(k)
      invariant maes == FoldMaes(cand, used, fold) && rmses == FoldRmses(cand, used, fold)
    {
      if stop(at + used) {
        cancelled, used := true, used + 1;
        return;
      }
      maes, rmses := maes + [fold(cand, used).mae], rmses + [fold(cand, used).rmse];
      used := used + 1;
    }
  }

  // ---------------------------------------------------------------------------
  // Stable sort by MAE (Python's `list.sort(key=lambda x: x[0])`)

  ghost predicate SortedByMae<I>(s: seq<Eval<I>>) {
    forall i, j :: 0 <= i < j < |s| ==> s[i].mae <= s[j].mae
  }

  ghost predicate AtLeast<I>(b: real, s: seq<Eval<I>>) {
    forall i :: 0 <= i < |s| ==> b <= s[i].mae
  }

  /** Inserts `x` before the first element whose MAE is not smaller: `x` stays ahead of the
      elements with equal MAE that follow it in the input. */
  function InsertByMae<I>(x: Eval<I>, s: seq<Eval<I>>): (r: seq<Eval<I>>)
    ensures |r| == |s| + 1
    ensures multiset(r) == multiset(s) + multiset{x}
  {
    if s == [] || x.mae <= s[0].mae then [x] + s
    else
      assert s == [s[0]] + s[1..];
      [s[0]] + InsertByMae(x, s[1..])
  }

  lemma {:induction false} InsertAtLeast<I>(b: real, x: Eval<I>, s: seq<Eval<I>>)
    requires AtLeast(b, s) && b <= x.mae
    ensures AtLeast(b, InsertByMae(x, s))
  {
    if s != [] && x.mae > s[0].mae {
      InsertAtLeast(b, x, s[1..]);
    }
  }

  lemma {:induction false} InsertSorted<I>(x: Eval<I>, s: seq<Eval<I>>)
    requires SortedByMae(s)
    ensures SortedByMae(InsertByMae(x, s))
  {
    if s != [] && x.mae > s[0].mae {
      InsertSorted(x, s[1..]);
      InsertAtLeast(s[0].mae, x, s[1..]);
    } else if s != [] {
      assert AtLeast(x.mae, s);
    }
  }

  function SortByMae<I>(s: seq<Eval<I>>): (r: seq<Eval<I>>)
    ensures |r| == |s|
    ensures multiset(r) == multiset(s)
    ensures SortedByMae(r)
  {
    if s == [] then []
    else
      assert s == [s[0]] + s[1..];
      InsertSorted(s[0], SortByMae(s[1..]));
      InsertByMae(s[0], SortByMae(s[1..]))
  }

  /** The index of the first element with the smallest MAE (the scan `best is None or
      x.mae < best.mae` keeps the earliest of equal minima). */
  function FirstMinIndex<I>(s: seq<Eval<I>>): (k: nat)
    requires |s| > 0
    ensures k < |s|
    ensures forall j :: 0 <= j < |s| ==> s[k].mae <= s[j].mae
    ensures forall j :: 0 <= j < k ==> s[k].mae < s[j].mae
  {
    if |s| == 1 then 0
    else
      var t := FirstMinIndex(s[..|s| - 1]);
      if s[|s| - 1].mae < s[t].mae then |s| - 1 else t
  }

  lemma FirstMinUnique<I>(s: seq<Eval<I>>, k: nat)
    requires k < |s|
    requires forall j :: 0 <= j < |s| ==> s[k].mae <= s[j].mae
    requires forall j :: 0 <= j < k ==> s[k].mae < s[j].mae
    ensures k == FirstMinIndex(s)
  {
  }

  /** The first minimum of `s` from the first minimum of its tail. */
  lemma FirstMinOfCons<I>(s: seq<Eval<I>>)
    requires |s| > 1
    ensures FirstMinIndex(s) == if s[0].mae <= s[1 + FirstMinIndex(s[1..])].mae then 0 else 1 + FirstMinIndex(s[1..])
  {
    var tail := s[1..];
    var m := FirstMinIndex(tail);
    if s[0].mae <= s[1 + m].mae {
      forall j | 0 <= j < |s| ensures s[0].mae <= s[j].mae {
        if j > 0 { assert s[j] == tail[j - 1]; }
      }
      FirstMinUnique(s, 0);
    } else {
      forall j | 0 <= j < |s| ensures s[1 + m].mae <= s[j].mae {
        if j > 0 { assert s[j] == tail[j - 1]; }
      }
      forall j | 0 <= j < 1 + m ensures s[1 + m].mae < s[j].mae {
        if j > 0 { assert s[j] == tail[j - 1]; }
      }
      FirstMinUnique(s, 1 + m);
    }
  }

  /** Stability at the head: after the sort, the first element is the earliest element of
      the input with the smallest MAE. */
  lemma {:induction false} SortHeadIsFirstMin<I>(s: seq<Eval<I>>)
    requires |s| > 0
    ensures SortByMae(s)[0] == s[FirstMinIndex(s)]
  {
    if |s| == 1 {
      FirstMinUnique(s, 0);
    } else {
      SortHeadIsFirstMin(s[1..]);
      FirstMinOfCons(s);
    }
  }

  /** The sorted list's first element has the smallest MAE of the list. */
  lemma SortHeadIsMinimal<I>(s: seq<Eval<I>>)
    requires |s| > 0
    ensures SortByMae(s)[0] in s
    ensures forall e :: e in s ==> SortByMae(s)[0].mae <= e.mae
  {
    SortHeadIsFirstMin(s);
  }

  /** How many of the best-scored individuals may become parents (`scored[:5]`). */
  const Window: nat := 5

  /** `len(scored[:5])`: parents drawn from a sorted list of `n` come from its first
      `WindowSize(n)` entries, of which there is at least one when the list is not empty. */
  function WindowSize(n: nat): (w: nat)
    ensures w <= n && w <= Window && (n > 0 ==> w > 0)
  {
    if n < Window then n else Window
  }

  // ---------------------------------------------------------------------------
  // Best-so-far tracking

  /** `if best is None or champ.mae < best.mae: best = champ`. */
  function Improve<I>(best: Option<Eval<I>>, champ: Eval<I>): (r: Option<Eval<I>>)
    ensures r.Some? && r.value.mae <= champ.mae
    ensures best.Some? ==> r.value.mae <= best.value.mae
    ensures r == Some(champ) || r == best
  {
    if best.None? || champ.mae < best.value.mae then Some(champ) else best
  }

  /** The best of a run of generation champions: the earliest one with the smallest MAE. */
  function RunningBest<I>(champs: seq<Eval<I>>): (r: Option<Eval<I>>)
    ensures r.None? <==> champs == []
    ensures r.Some? ==> r.value in champs
    ensures r.Some? ==> forall c :: c in champs ==> r.value.mae <= c.mae
  {
    if champs == [] then None else Some(champs[FirstMinIndex(champs)])
  }

  /** Strict-improvement tracking computes the running best: so the tracked MAE never
      increases and is at most every scored generation's minimum. */
  lemma {:induction false} ImproveIsRunningBest<I>(champs: seq<Eval<I>>, c: Eval<I>)
    ensures Improve(RunningBest(champs), c) == RunningBest(champs + [c])
  {
    var s := champs + [c];
    if champs == [] {
      FirstMinUnique(s, 0);
    } else {
      assert s[..|s| - 1] == champs;
    }
  }

  // ---------------------------------------------------------------------------
  // Order-preserving filters (both Pareto filters keep a sub-list of their input)

  /** `a` is the sub-list of `b` at the strictly increasing positions `idx`. */
  ghost predicate SublistAt<T>(a: seq<T>, b: seq<T>, idx: seq<nat>) {
    |idx| == |a| &&
    (forall j :: 0 <= j < |idx| ==> idx[j] < |b| && a[j] == b[idx[j]]) &&
    (forall i, j :: 0 <= i < j < |idx| ==> idx[i] < idx[j])
  }

  /** `[x for x in s if keep(x)]`. */
  function Filter<T(!new)>(s: seq<T>, keep: T -> bool): (r: seq<T>)
    ensures |r| <= |s|
    ensures forall x :: x in r <==> x in s && keep(x)
  {
    if s == [] then []
    else
      var init := Filter(s[..|s| - 1], keep);
      assert s == s[..|s| - 1] + [s[|s| - 1]];
      init + if keep(s[|s| - 1]) then [s[|s| - 1]] else []
  }

  /** A filter returns an order-preserving sub-list of its input. */
  lemma {:induction false} FilterIsSublist<T(!new)>(s: seq<T>, keep: T -> bool) returns (idx: seq<nat>)
    ensures SublistAt(Filter(s, keep), s, idx)
  {
    if s == [] {
      idx := [];
    } else {
      var init := s[..|s| - 1];
      var prev := FilterIsSublist(init, keep);
      var r, pr := Filter(s, keep), Filter(init, keep);
      if keep(s[|s| - 1]) {
        idx := prev + [|s| - 1];
        assert r == pr + [s[|s| - 1]];
        forall j | 0 <= j < |idx| ensures idx[j] < |s| && r[j] == s[idx[j]] {
          if j < |prev| {
            assert idx[j] == prev[j] && r[j] == pr[j] && init[prev[j]] == s[prev[j]];
          }
        }
      } else {
        idx := prev;
        assert r == pr;
        forall j | 0 <= j < |idx| ensures idx[j] < |s| && r[j] == s[idx[j]] {
          assert init[prev[j]] == s[prev[j]];
        }
      }
    }
  }

  /** A filter that keeps every element returns its input unchanged. */
  lemma {:induction false} FilterKeepsAll<T(!new)>(s: seq<T>, keep: T -> bool)
    requires forall x :: x in s ==> keep(x)
    ensures Filter(s, keep) == s
  {
    if s != [] {
      var init := s[..|s| - 1];
      assert s == init + [s[|s| - 1]];
      forall x | x in init ensures keep(x) {
        assert x in s;
      }
      FilterKeepsAll(init, keep);
      assert keep(s[|s| - 1]);
    }
  }

  /** A filter keeps every copy of an element it keeps and no copy of one it drops. */
  lemma {:induction false} FilterCount<T(!new)>(s: seq<T>, keep: T -> bool, x: T)
    ensures multiset(Filter(s, keep))[x] == if keep(x) then multiset(s)[x] else 0
  {
    if s != [] {
      var init := s[..|s| - 1];
      FilterCount(init, keep, x);
      assert s == init + [s[|s| - 1]];
    }
  }
}
