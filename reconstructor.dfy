/**
 * Reconstruction of an experiment by non-linear optimisation: the choice of
 * the reference, the functions that map parameter vectors to simulated
 * k-ratios, and the evaluation points and finite differences of the
 * Jacobians handed to the optimiser.  Simulation runs and the optimiser are
 * not modelled: the simulated experiments are an input.
 */
module Reconstructor {
  import opened Wrappers

  /** A simulated experiment: its parameter values and its k-ratios. */
  datatype Experiment = Experiment(values: seq<real>, kratios: seq<real>)

  /** Where the reference k-ratios come from. */
  datatype Reference =
    | GivenSimulated        // the reference experiment is already simulated
    | GivenToSimulate       // the reference experiment is simulated first
    | CreatedFrom(x: seq<real>)  // a reference experiment is created from `ref_x` and simulated

  /** The decisions of `reconstruct`: the reference, and the stopping argument passed to the optimiser. */
  datatype Plan = Plan(reference: Reference, stopping: Option<(seq<real>, real)>)

  /** `rel_err` is truthy: given and non-zero. */
  predicate Truthy(relErr: Option<real>)
  {
    relErr.Some? && relErr.value != 0.0
  }

  /**
   * `reconstruct`: ValueError without a reference experiment and without
   * `ref_x`; a given reference experiment wins over `ref_x`; the optimiser
   * receives `(ref_x, rel_err)` only when `ref_x` is given and `rel_err`
   * is truthy.
   */
  function PlanReconstruction(refExperiment: Option<bool>, refX: Option<seq<real>>, relErr: Option<real>): (r: Result<Plan>)
    ensures r.Err? <==> refExperiment.None? && refX.None?
    ensures r.Err? ==> r.error == ValueError
    ensures r.Ok? ==> (r.value.stopping.Some? <==> refX.Some? && Truthy(relErr))
    ensures r.Ok? && r.value.stopping.Some? ==> r.value.stopping.value == (refX.value, relErr.value)
    ensures r.Ok? && refExperiment.Some? ==>
              r.value.reference == (if refExperiment.value then GivenSimulated else GivenToSimulate)
    ensures r.Ok? && refExperiment.None? ==> r.value.reference == CreatedFrom(refX.value)
  {
    if refExperiment.None? && refX.None? then Err(ValueError)
    else
      var reference := if refExperiment.Some? then (if refExperiment.value then GivenSimulated else GivenToSimulate)
                       else CreatedFrom(refX.value);
      var stopping := if refX.Some? && Truthy(relErr) then Some((refX.value, relErr.value)) else None;
      Ok(Plan(reference, stopping))
  }

  /** NumPy subtraction of two 1-D arrays, with broadcasting of a length-1 operand. */
  function Subtract(a: seq<real>, b: seq<real>): (r: Result<seq<real>>)
    ensures |a| == |b| ==> r.Ok? && |r.value| == |a| && forall i :: 0 <= i < |a| ==> r.value[i] == a[i] - b[i]
    ensures r.Err? <==> |a| != |b| && |a| != 1 && |b| != 1
  {
    if |a| == |b| then Ok(seq(|a|, i requires 0 <= i < |a| => a[i] - b[i]))
    else if |b| == 1 then Ok(seq(|a|, i requires 0 <= i < |a| => a[i] - b[0]))
    else if |a| == 1 then Ok(seq(|b|, i requires 0 <= i < |b| => a[0] - b[i]))
    else Err(ValueError)
  }

  /** `kratios` are those of a simulated experiment whose values are one of `listValues`. */
  ghost predicate Produced(kratios: seq<real>, experiments: seq<Experiment>, listValues: seq<seq<real>>)
  {
    exists e :: e in experiments && e.values in listValues && e.kratios == kratios
  }

  /** The k-ratios of the simulated experiments whose values equal `values`, in result order. */
  function Matching(values: seq<real>, experiments: seq<Experiment>): (r: seq<seq<real>>)
    ensures |r| <= |experiments|
    ensures forall k :: 0 <= k < |r| ==> Produced(r[k], experiments, [values])
  {
    if experiments == [] then []
    else
      var head := if experiments[0].values == values then [experiments[0].kratios] else [];
      var rest := Matching(values, experiments[1..]);
      assert forall k :: 0 <= k < |rest| ==> (head + rest)[|head| + k] == rest[k];
      assert forall kr :: Produced(kr, experiments[1..], [values]) ==> Produced(kr, experiments, [values]);
      assert head != [] ==> experiments[0] in experiments;
      head + rest
  }

  /** Without a simulated experiment for `values`, nothing matches. */
  lemma {:induction false} MatchingEmpty(values: seq<real>, experiments: seq<Experiment>)
    ensures Matching(values, experiments) == [] <==> forall e :: e in experiments ==> e.values != values
  {
    if experiments != [] {
      MatchingEmpty(values, experiments[1..]);
      assert forall e :: e in experiments ==> e == experiments[0] || e in experiments[1..];
    }
  }

  /** `FunctionGetter.get_func`: for each input vector in order, the k-ratios of every experiment simulated with it. */
  function Func(listValues: seq<seq<real>>, experiments: seq<Experiment>): seq<seq<real>>
  {
    if listValues == [] then []
    else Matching(listValues[0], experiments) + Func(listValues[1..], experiments)
  }

  /** Produced with values from a smaller list is produced with values from a larger one. */
  lemma ProducedWiden(kratios: seq<real>, experiments: seq<Experiment>, small: seq<seq<real>>, large: seq<seq<real>>)
    requires Produced(kratios, experiments, small)
    requires forall v :: v in small ==> v in large
    ensures Produced(kratios, experiments, large)
  {
    var e :| e in experiments && e.values in small && e.kratios == kratios;
  }

  /** Every entry of the function is the k-ratios of an experiment simulated with one of the input vectors. */
  lemma {:induction false} FuncEntries(listValues: seq<seq<real>>, experiments: seq<Experiment>)
    ensures forall k :: 0 <= k < |Func(listValues, experiments)| ==> Produced(Func(listValues, experiments)[k], experiments, listValues)
  {
    if listValues != [] {
      var m := Matching(listValues[0], experiments);
      var rest := Func(listValues[1..], experiments);
      FuncEntries(listValues[1..], experiments);
      var r := m + rest;
      assert r == Func(listValues, experiments);
      forall k | 0 <= k < |r|
        ensures Produced(r[k], experiments, listValues)
      {
        if k < |m| {
          assert r[k] == m[k];
          ProducedWiden(m[k], experiments, [listValues[0]], listValues);
        } else {
          assert r[k] == rest[k - |m|];
          ProducedWiden(rest[k - |m|], experiments, listValues[1..], listValues);
        }
      }
    }
  }

  /** `FunctionGetter.get_targetfunc`: the same entries, each minus the reference k-ratios. */
  function TargetFunc(listValues: seq<seq<real>>, experiments: seq<Experiment>, reference: seq<real>): Result<seq<seq<real>>>
  {
    SubtractEach(Func(listValues, experiments), reference)
  }

  function SubtractEach(fs: seq<seq<real>>, reference: seq<real>): (r: Result<seq<seq<real>>>)
    ensures r.Ok? ==> |r.value| == |fs| && forall k :: 0 <= k < |fs| ==> Subtract(fs[k], reference) == Ok(r.value[k])
    ensures r.Err? <==> exists k :: 0 <= k < |fs| && Subtract(fs[k], reference).Err?
  {
    if fs == [] then Ok([])
    else
      var d := Subtract(fs[0], reference);
      var rest := SubtractEach(fs[1..], reference);
      if d.Err? then Err(d.error)
      else if rest.Err? then Err(rest.error)
      else Ok([d.value] + rest.value)
  }

  /**
   * When every simulated experiment has as many k-ratios as the reference,
   * the target function is the function minus the reference, entry by entry.
   */
  lemma TargetFuncDifferences(listValues: seq<seq<real>>, experiments: seq<Experiment>, reference: seq<real>)
    requires forall e :: e in experiments ==> |e.kratios| == |reference|
    ensures TargetFunc(listValues, experiments, reference).Ok?
    ensures var fs := Func(listValues, experiments);
            var ts := TargetFunc(listValues, experiments, reference).value;
            |ts| == |fs|
            && (forall k :: 0 <= k < |fs| ==> |fs[k]| == |ts[k]| == |reference|)
            && forall k, j :: 0 <= k < |fs| && 0 <= j < |reference| ==> ts[k][j] == fs[k][j] - reference[j]
  {
    var fs := Func(listValues, experiments);
    FuncEntries(listValues, experiments);
    forall k | 0 <= k < |fs|
      ensures |fs[k]| == |reference|
    {
      var e :| e in experiments && e.values in listValues && e.kratios == fs[k];
    }
  }

  /** The entries are grouped by input vector: those of earlier vectors come first. */
  lemma {:induction false} FuncAppend(listValues: seq<seq<real>>, values: seq<real>, experiments: seq<Experiment>)
    ensures Func(listValues + [values], experiments) == Func(listValues, experiments) + Matching(values, experiments)
  {
    if listValues == [] {
      assert [values][1..] == [];
    } else {
      assert (listValues + [values])[1..] == listValues[1..] + [values];
      FuncAppend(listValues[1..], values, experiments);
    }
  }

  /** `fs[0]`: IndexError when the function returned nothing. */
  function First(fs: seq<seq<real>>): (r: Result<seq<real>>)
    ensures r.Ok? <==> |fs| > 0
    ensures r.Ok? ==> r.value == fs[0]
  {
    if fs == [] then Err(IndexError) else Ok(fs[0])
  }

  /**
   * `FunctionHandler.get_func` at `x` evaluates the function on `[x]` and
   * keeps its first entry: the k-ratios of the first experiment simulated
   * with `x`, or IndexError when there is none.
   */
  lemma HandlerFuncAt(x: seq<real>, experiments: seq<Experiment>)
    ensures First(Func([x], experiments)).Ok? <==> exists e :: e in experiments && e.values == x
    ensures First(Func([x], experiments)) == First(Matching(x, experiments))
  {
    assert Func([x], experiments) == Matching(x, experiments) + Func([], experiments);
    MatchingEmpty(x, experiments);
  }

  /** The signed finite-difference step for coordinate value `xi`. */
  function Step(xi: real, eps: real): real
  {
    if xi <= 0.5 then eps else -eps
  }

  /** `xph` is `x` moved by `d` at coordinate `i` and nowhere else. */
  predicate MovedAt(xph: seq<real>, x: seq<real>, i: nat, d: real)
  {
    i < |x| && |xph| == |x| && xph[i] == x[i] + d && forall j :: 0 <= j < |x| && j != i ==> xph[j] == x[j]
  }

  /**
   * The evaluation points of `get_jacobian`: `x` itself, then for each
   * coordinate `i` the vector `x` moved at coordinate `i` by `+eps` when
   * `x[i] <= 0.5` and by `-eps` otherwise; `dxs[i]` is that signed step.
   */
  method JacobianPoints(x: seq<real>, eps: real) returns (xphs: seq<seq<real>>, dxs: seq<real>)
    ensures |xphs| == |x| + 1 && xphs[0] == x && |dxs| == |x|
    ensures forall i :: 0 <= i < |x| ==> MovedAt(xphs[i + 1], x, i, Step(x[i], eps)) && dxs[i] == xphs[i + 1][i] - x[i]
    ensures forall i :: 0 <= i < |x| ==> (dxs[i] == eps || dxs[i] == -eps)
  {
    xphs := [x];
    dxs := [];
    var i := 0;
    while i < |x|
      invariant 0 <= i <= |x|
      invariant |xphs| == i + 1 && xphs[0] == x && |dxs| == i
      invariant forall k :: 0 <= k < i ==> MovedAt(xphs[k + 1], x, k, Step(x[k], eps)) && dxs[k] == xphs[k + 1][k] - x[k]
    {
      var xph := x;
      if xph[i] <= 0.5 {
        xph := xph[i := xph[i] + eps];
      } else {
        xph := xph[i := xph[i] - eps];
      }
      assert MovedAt(xph, x, i, Step(x[i], eps));
      xphs := xphs + [xph];
      dxs := dxs + [xph[i] - x[i]];
      i := i + 1;
    }
  }

  /**
   * `fs[i+1] - fs[0]` fits row `i` of the Jacobian, which has `|fs[0]|`
   * columns: the lengths agree, or the evaluation has one value that
   * NumPy broadcasts.
   */
  predicate Fits(f: seq<real>, f0: seq<real>)
  {
    |f| == |f0| || |f| == 1
  }

  /** The value of `f` at column `k` after broadcasting. */
  function At(f: seq<real>, k: nat): real
    requires |f| == 1 || k < |f|
  {
    if |f| == 1 then f[0] else f[k]
  }

  /** The forward-difference row of coordinate `i`, before transposition. */
  function DifferenceRow(f: seq<real>, f0: seq<real>, dx: real): (r: seq<real>)
    requires Fits(f, f0) && dx != 0.0
    ensures |r| == |f0| && forall k :: 0 <= k < |f0| ==> r[k] == (At(f, k) - f0[k]) / dx
  {
    seq(|f0|, k requires 0 <= k < |f0| => (At(f, k) - f0[k]) / dx)
  }

  /** Coordinate `i` has an evaluation that fits. */
  predicate RowOk(fs: seq<seq<real>>, i: nat)
    requires |fs| > 0
  {
    i + 1 < |fs| && Fits(fs[i + 1], fs[0])
  }

  /** The first coordinate whose evaluation is missing or does not fit, checked in order. */
  predicate FailsFirstAt(fs: seq<seq<real>>, n: nat, i: nat)
    requires |fs| > 0
  {
    i < n && !RowOk(fs, i) && forall j :: 0 <= j < i ==> RowOk(fs, j)
  }

  /**
   * The forward-difference Jacobian from the evaluations `fs` of those
   * points: after transposition `J[k][i] = (fs[i+1][k] - fs[0][k]) / dxs[i]`,
   * a one-value evaluation being broadcast.  Without evaluations, or when
   * the first coordinate that fails has no evaluation, IndexError; when it
   * has one of another length, ValueError.
   */
  method Jacobian(fs: seq<seq<real>>, dxs: seq<real>) returns (r: Result<seq<seq<real>>>)
    requires forall i :: 0 <= i < |dxs| ==> dxs[i] != 0.0
    ensures r.Err? <==> |fs| == 0 || exists i :: FailsFirstAt(fs, |dxs|, i)
    ensures r.Err? ==> (r.error == IndexError <==>
              |fs| == 0 || exists i: nat :: FailsFirstAt(fs, |dxs|, i) && i + 1 >= |fs|)
    ensures r.Err? ==> r.error == IndexError || r.error == ValueError
    ensures r.Ok? ==> |fs| > 0 && forall i :: 0 <= i < |dxs| ==> RowOk(fs, i)
    ensures r.Ok? ==> |r.value| == |fs[0]|
                      && forall k :: 0 <= k < |fs[0]| ==>
                           |r.value[k]| == |dxs|
                           && forall i :: 0 <= i < |dxs| ==>
                                RowOk(fs, i) && r.value[k][i] == (At(fs[i + 1], k) - fs[0][k]) / dxs[i]
  {
    if |fs| == 0 {
      return Err(IndexError);
    }
    var n := |dxs|;
    var m := |fs[0]|;
    var rows: seq<seq<real>> := [];
    var i := 0;
    while i < n
      invariant 0 <= i <= n && |rows| == i
      invariant forall j :: 0 <= j < i ==> RowOk(fs, j)
      invariant forall j :: 0 <= j < i ==> RowOk(fs, j) && rows[j] == DifferenceRow(fs[j + 1], fs[0], dxs[j])
    {
      if i + 1 >= |fs| {
        assert FailsFirstAt(fs, n, i);
        return Err(IndexError);
      }
      if !Fits(fs[i + 1], fs[0]) {
        assert FailsFirstAt(fs, n, i);
        return Err(ValueError);
      }
      rows := rows + [DifferenceRow(fs[i + 1], fs[0], dxs[i])];
      i := i + 1;
    }
    var t: seq<seq<real>> := [];
    var k := 0;
    while k < m
      invariant 0 <= k <= m && |t| == k
      invariant forall k' :: 0 <= k' < k ==>
                  |t[k']| == n && forall i' :: 0 <= i' < n ==> t[k'][i'] == rows[i'][k']
    {
      t := t + [seq(n, i' requires 0 <= i' < n => rows[i'][k])];
      k := k + 1;
    }
    r := Ok(t);
  }

  /** The multiple of `eps` of the `t`-th extra point of a coordinate: `-n..-1`, then `1..n`. */
  function Offset(t: nat, n: nat): int
    requires t < 2 * n
  {
    if t < n then t - n else t - n + 1
  }

  /** Offsets run through `-n..-1` then `1..n`: never zero, and each one once. */
  lemma OffsetsDistinct(n: nat)
    ensures forall t :: 0 <= t < 2 * n ==> Offset(t, n) != 0 && -(n as int) <= Offset(t, n) <= n
    ensures forall s, t :: 0 <= s < t < 2 * n ==> Offset(s, n) < Offset(t, n)
  {
  }

  /** The position in the flat list of point `t` of the block of coordinate `i`, after the first point and `i` blocks of `w`. */
  function Slot(i: nat, t: nat, w: nat): (r: nat)
    ensures r > t
  {
    if i == 0 then 1 + t else Slot(i - 1, t, w) + w
  }

  /** The closed form of a slot: `1 + i * w + t`. */
  lemma {:induction false} SlotIs(i: nat, t: nat, w: nat)
    ensures Slot(i, t, w) == 1 + i * w + t
  {
    if i > 0 {
      SlotIs(i - 1, t, w);
      assert (i - 1) * w + w == i * w;
    }
  }

  /** `x` moved by `j * eps` at coordinate `i`. */
  function Shifted(x: seq<real>, i: nat, j: int, eps: real): seq<real>
    requires i < |x|
  {
    x[i := x[i] + (j as real) * eps]
  }

  /** Blocks follow one another: every slot of block `i'` lies before block `i` when `i' < i`. */
  lemma {:induction false} SlotBefore(i': nat, t: nat, i: nat, w: nat)
    requires i' < i && t < w
    ensures Slot(i', t, w) < Slot(i, 0, w)
  {
    if i' < i - 1 {
      SlotBefore(i', t, i - 1, w);
    } else {
      SlotShift(i', t, w);
    }
  }

  lemma {:induction false} SlotShift(i: nat, t: nat, w: nat)
    ensures Slot(i, t, w) == Slot(i, 0, w) + t
  {
    if i > 0 {
      SlotShift(i - 1, t, w);
    }
  }

  /** The first `i` blocks of `xphs` hold the shifted points of coordinates `0..i-1`. */
  ghost predicate BlocksFilled(xphs: seq<seq<real>>, x: seq<real>, eps: real, n: nat, i: nat)
    requires i <= |x|
  {
    forall i', t :: 0 <= i' < i && 0 <= t < 2 * n ==>
      Slot(i', t, 2 * n) < |xphs| && xphs[Slot(i', t, 2 * n)] == Shifted(x, i', Offset(t, n), eps)
  }

  /** Appending block `i` after the first `i` blocks fills the first `i + 1`. */
  lemma BlocksExtend(prev: seq<seq<real>>, xphs: seq<seq<real>>, x: seq<real>, eps: real, n: nat, i: nat)
    requires i < |x| && |prev| == Slot(i, 0, 2 * n) && BlocksFilled(prev, x, eps, n, i)
    requires |xphs| == |prev| + 2 * n && xphs[..|prev|] == prev
    requires forall t :: 0 <= t < 2 * n ==> xphs[|prev| + t] == Shifted(x, i, Offset(t, n), eps)
    ensures |xphs| == Slot(i + 1, 0, 2 * n) && xphs[0] == prev[0]
    ensures BlocksFilled(xphs, x, eps, n, i + 1)
  {
    var w := 2 * n;
    assert xphs[0] == xphs[..|prev|][0];
    forall i', t | 0 <= i' < i + 1 && 0 <= t < w
      ensures Slot(i', t, w) < |xphs| && xphs[Slot(i', t, w)] == Shifted(x, i', Offset(t, n), eps)
    {
      if i' < i {
        SlotBefore(i', t, i, w);
        assert xphs[Slot(i', t, w)] == xphs[..|prev|][Slot(i', t, w)];
      } else {
        SlotShift(i, t, w);
      }
    }
  }

  /** Appends the block of coordinate `i`: `x` shifted at `i` by each offset in turn. */
  method AppendBlock(xphs: seq<seq<real>>, x: seq<real>, i: nat, eps: real, n: nat) returns (ys: seq<seq<real>>)
    requires i < |x|
    ensures |ys| == |xphs| + 2 * n && ys[..|xphs|] == xphs
    ensures forall t :: 0 <= t < 2 * n ==> ys[|xphs| + t] == Shifted(x, i, Offset(t, n), eps)
  {
    ys := xphs;
    var t := 0;
    while t < 2 * n
      invariant 0 <= t <= 2 * n
      invariant |ys| == |xphs| + t && ys[..|xphs|] == xphs
      invariant forall t' :: 0 <= t' < t ==> ys[|xphs| + t'] == Shifted(x, i, Offset(t', n), eps)
    {
      ys := ys + [Shifted(x, i, Offset(t, n), eps)];
      t := t + 1;
    }
  }

  /**
   * The evaluation points of `get_jacobian_regression`: `x`, then for each
   * coordinate `i` a block of `2n` vectors, `x` with `x[i] += j * eps` for
   * `j` in `-n..-1` then `1..n`, so there are `1 + 2n * |x|` points.
   */
  method RegressionPoints(x: seq<real>, eps: real, n: nat) returns (xphs: seq<seq<real>>)
    ensures |xphs| == Slot(|x|, 0, 2 * n) && xphs[0] == x
    ensures forall i, t :: 0 <= i < |x| && 0 <= t < 2 * n ==>
              Slot(i, t, 2 * n) < |xphs| && xphs[Slot(i, t, 2 * n)] == Shifted(x, i, Offset(t, n), eps)
  {
    xphs := [x];
    var i := 0;
    while i < |x|
      invariant 0 <= i <= |x|
      invariant |xphs| == Slot(i, 0, 2 * n) && xphs[0] == x
      invariant BlocksFilled(xphs, x, eps, n, i)
    {
      ghost var prev := xphs;
      xphs := AppendBlock(xphs, x, i, eps, n);
      BlocksExtend(prev, xphs, x, eps, n, i);
      i := i + 1;
    }
  }
}
