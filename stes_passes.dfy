/** The three per-layer loops inside an hour of `simulate_stratified`, as
    methods on the array of heat per layer and on the hour's row of the
    layer-temperature array. Each is proved against the pass function of
    `StesLayers` it implements, and touches no other row. */
module StesPasses {
  import opened Common
  import opened StesLayers

  /** Row `r` of a two-dimensional array. */
  function Row(a: array2<real>, r: nat): (s: seq<real>)
    reads a
    requires r < a.Length0
    ensures |s| == a.Length1 && forall j :: 0 <= j < a.Length1 ==> s[j] == a[r, j]
  {
    RowPrefix(a, r, a.Length1)
  }

  /** The first `k` entries of row `r`. */
  function RowPrefix(a: array2<real>, r: nat, k: nat): (s: seq<real>)
    reads a
    requires r < a.Length0 && k <= a.Length1
    ensures |s| == k && forall j :: 0 <= j < k ==> s[j] == a[r, j]
  {
    if k == 0 then [] else RowPrefix(a, r, k - 1) + [a[r, k - 1]]
  }

  /** Every row of `a` other than `t` holds what it held in `old`. */
  twostate predicate OtherRowsUnchanged(a: array2<real>, t: nat)
    reads a
  {
    forall r :: 0 <= r < a.Length0 && r != t ==> Row(a, r) == old(Row(a, r))
  }

  /** `n` layers all at `x`: a row as `np.full` writes it. */
  function Uniform(n: nat, x: real): (r: seq<real>)
    ensures |r| == n && forall j :: 0 <= j < n ==> r[j] == x
  {
    if n == 0 then [] else Uniform(n - 1, x) + [x]
  }

  /** A row of `n >= 1` equal entries has that entry as its mean. */
  lemma MeanUniform(n: nat, x: real)
    requires n >= 1
    ensures Mean(Uniform(n, x)) == x
  {
    PartialSumConstant(Uniform(n, x), x, n);
    assert n as real * x / n as real == x;
  }

  /** Spreading `total` evenly over `n >= 1` layers keeps it whole. */
  lemma SumOfShares(n: nat, total: real)
    requires n >= 1
    ensures Sum(Uniform(n, total / n as real)) == total
  {
    PartialSumConstant(Uniform(n, total / n as real), total / n as real, n);
    assert n as real * (total / n as real) == total;
  }

  /** `np.full((rows, cols), x)`: a fresh array with every row at `x`. */
  method Full(rows: nat, cols: nat, x: real) returns (a: array2<real>)
    ensures fresh(a) && a.Length0 == rows && a.Length1 == cols
    ensures forall r :: 0 <= r < rows ==> Row(a, r) == Uniform(cols, x)
  {
    a := new real[rows, cols]((_, _) => x);
    forall r | 0 <= r < rows
      ensures Row(a, r) == Uniform(cols, x)
    {
    }
  }

  /** The body of an hour after the first: the discharge, the charge and
      the exchange pass, one after the other, on row `t`. */
  method HourPasses(p: LayerParams, heat: array<real>, a: array2<real>, t: nat, prev: seq<real>,
                    losses: seq<real>, net: real)
    returns (remaining: real)
    requires ValidParams(p) && heat.Length == a.Length1 == |prev| == |losses| >= 1 && t < a.Length0
    modifies heat, a
    ensures Layers(heat[..], Row(a, t), remaining) == Hour(p, old(heat[..]), old(Row(a, t)), prev, losses, net)
    ensures OtherRowsUnchanged(a, t)
  {
    ghost var s0 := Layers(heat[..], Row(a, t), net);
    remaining := DischargePass(p, heat, a, t, prev, net);
    ghost var s1 := Layers(heat[..], Row(a, t), remaining);
    remaining := ChargePass(p, heat, a, t, prev, losses, remaining);
    ghost var s2 := Layers(heat[..], Row(a, t), remaining);
    DiffusePass(p, heat, a, t, remaining);
    assert s1 == Discharge(p, s0, prev, |prev|);
    assert s2 == Charge(p, s1, prev, losses, |prev|);
    assert Layers(heat[..], Row(a, t), remaining) == Diffuse(p, s2, |prev| - 1);
  }

  /** The discharge loop: from the top layer down, while heat is still
      wanted each layer gives what it holds above `T_min` or just the need.
      `prev` is the previous hour's row and `net` is `Q_in[t] - Q_out[t]`. */
  method DischargePass(p: LayerParams, heat: array<real>, a: array2<real>, t: nat, prev: seq<real>, net: real)
    returns (remaining: real)
    requires ValidParams(p) && heat.Length == a.Length1 == |prev| && t < a.Length0
    modifies heat, a
    ensures var d := Discharge(p, Layers(old(heat[..]), old(Row(a, t)), net), prev, |prev|);
      heat[..] == d.heat && Row(a, t) == d.temps && remaining == d.remaining
    ensures OtherRowsUnchanged(a, t)
  {
    ghost var start := Layers(heat[..], Row(a, t), net);
    remaining := net;
    var i := 0;
    while i < |prev|
      invariant 0 <= i <= |prev|
      invariant Layers(heat[..], Row(a, t), remaining) == Discharge(p, start, prev, i)
      invariant OtherRowsUnchanged(a, t)
    {
      remaining := DischargeStep(p, heat, a, t, prev, remaining, i);
      i := i + 1;
    }
  }

  /** One layer of the discharge loop. */
  method DischargeStep(p: LayerParams, heat: array<real>, a: array2<real>, t: nat, prev: seq<real>,
                       remaining: real, i: nat)
    returns (left: real)
    requires ValidParams(p) && heat.Length == a.Length1 == |prev| && i < |prev| && t < a.Length0
    modifies heat, a
    ensures Layers(heat[..], Row(a, t), left)
      == DischargeLayer(p, Layers(old(heat[..]), old(Row(a, t)), remaining), prev, i)
    ensures OtherRowsUnchanged(a, t)
  {
    ghost var s := Layers(heat[..], Row(a, t), remaining);
    left := remaining;
    if left < 0.0 {
      var available := Energy(p.heatCapacity, prev[i] - p.tMin);
      var needed := Abs(left);
      if needed >= available {
        heat[i] := heat[i] - available;
        a[t, i] := p.tMin;
        left := left + available;
      } else {
        heat[i] := heat[i] - needed;
        a[t, i] := prev[i] - needed * 3.6e6 / p.heatCapacity;
        left := 0.0;
      }
    }
    assert Row(a, t) == s.temps[i := a[t, i]];
  }

  /** The charge loop: from the top layer down, while a surplus is left
      each layer is filled up to `T_max` or takes the whole surplus; without
      a surplus it keeps the previous hour's temperature. Every layer then
      books its loss (`losses[i] / 3600`) and is raised to `T_min`. */
  method ChargePass(p: LayerParams, heat: array<real>, a: array2<real>, t: nat, prev: seq<real>,
                    losses: seq<real>, net: real)
    returns (remaining: real)
    requires ValidParams(p) && heat.Length == a.Length1 == |prev| == |losses| && t < a.Length0
    modifies heat, a
    ensures var c := Charge(p, Layers(old(heat[..]), old(Row(a, t)), net), prev, losses, |prev|);
      heat[..] == c.heat && Row(a, t) == c.temps && remaining == c.remaining
    ensures OtherRowsUnchanged(a, t)
  {
    ghost var start := Layers(heat[..], Row(a, t), net);
    remaining := net;
    var i := 0;
    while i < |prev|
      invariant 0 <= i <= |prev|
      invariant Layers(heat[..], Row(a, t), remaining) == Charge(p, start, prev, losses, i)
      invariant OtherRowsUnchanged(a, t)
    {
      remaining := ChargeStep(p, heat, a, t, prev, losses, remaining, i);
      i := i + 1;
    }
  }

  /** One layer of the charge loop. */
  method ChargeStep(p: LayerParams, heat: array<real>, a: array2<real>, t: nat, prev: seq<real>,
                    losses: seq<real>, remaining: real, i: nat)
    returns (left: real)
    requires ValidParams(p) && heat.Length == a.Length1 == |prev| == |losses| && i < |prev| && t < a.Length0
    modifies heat, a
    ensures Layers(heat[..], Row(a, t), left)
      == ChargeLayer(p, Layers(old(heat[..]), old(Row(a, t)), remaining), prev, losses, i)
    ensures OtherRowsUnchanged(a, t)
  {
    ghost var s := Layers(heat[..], Row(a, t), remaining);
    left := remaining;
    var lossOfLayer := losses[i];
    var maxHeat := Energy(p.heatCapacity, p.tMax - prev[i]);
    if left > 0.0 {
      if left >= maxHeat {
        heat[i] := heat[i] + maxHeat;
        a[t, i] := p.tMax;
        left := left - maxHeat;
      } else {
        heat[i] := heat[i] + left;
        a[t, i] := prev[i] + left * 3.6e6 / p.heatCapacity;
        left := 0.0;
      }
    } else {
      a[t, i] := prev[i];
    }
    heat[i] := heat[i] - lossOfLayer / 3600.0;
    if a[t, i] < p.tMin {
      a[t, i] := p.tMin;
    }
    assert Row(a, t) == s.temps[i := a[t, i]];
  }

  /** The exchange loop: for each pair of neighbours from the top down,
      heat flows from layer `i` to layer `i + 1` in proportion to their
      temperature difference, and both temperatures are recomputed from
      their new heat. */
  method DiffusePass(p: LayerParams, heat: array<real>, a: array2<real>, t: nat, ghost remaining: real)
    requires ValidParams(p) && heat.Length == a.Length1 >= 1 && t < a.Length0
    modifies heat, a
    ensures var d := Diffuse(p, Layers(old(heat[..]), old(Row(a, t)), remaining), heat.Length - 1);
      heat[..] == d.heat && Row(a, t) == d.temps
    ensures OtherRowsUnchanged(a, t)
  {
    ghost var start := Layers(heat[..], Row(a, t), remaining);
    var i := 0;
    while i < heat.Length - 1
      invariant 0 <= i <= heat.Length - 1
      invariant Layers(heat[..], Row(a, t), remaining) == Diffuse(p, start, i)
      invariant OtherRowsUnchanged(a, t)
    {
      DiffuseStep(p, heat, a, t, i, remaining);
      i := i + 1;
    }
  }

  /** One pair of the exchange loop. */
  method DiffuseStep(p: LayerParams, heat: array<real>, a: array2<real>, t: nat, i: nat, ghost remaining: real)
    requires ValidParams(p) && heat.Length == a.Length1 && i + 1 < heat.Length && t < a.Length0
    modifies heat, a
    ensures Layers(heat[..], Row(a, t), remaining)
      == DiffuseLayer(p, Layers(old(heat[..]), old(Row(a, t)), remaining), i)
    ensures OtherRowsUnchanged(a, t)
  {
    ghost var s := Layers(heat[..], Row(a, t), remaining);
    ghost var next := DiffuseLayer(p, s, i);
    var deltaT := a[t, i] - a[t, i + 1];
    var transfer := p.conductance * deltaT / 3.6e6 * 3600.0;
    assert transfer == Transfer(p, s.temps[i] - s.temps[i + 1]);
    heat[i] := heat[i] - transfer;
    heat[i + 1] := heat[i + 1] + transfer;
    assert heat[..] == next.heat;
    a[t, i] := heat[i] * 3.6e6 / p.heatCapacity + p.tRef;
    a[t, i + 1] := heat[i + 1] * 3.6e6 / p.heatCapacity + p.tRef;
    assert Row(a, t) == s.temps[i := a[t, i]][i + 1 := a[t, i + 1]];
  }
  /** The passes of an hour on row `t` followed by `Q_sto[t]`, the sum of
      the layers, and `T_sto[t]`, the row's mean; the hour's result is
      returned as `h`. */
  method HourWithTotals(p: LayerParams, heat: array<real>, a: array2<real>, t: nat, prev: seq<real>,
                        losses: seq<real>, net: real, qSto: array<real>, tSto: array<real>)
    returns (ghost h: Layers)
    requires ValidParams(p) && heat.Length == a.Length1 == |prev| == |losses| >= 1
    requires t < a.Length0 && t < qSto.Length && t < tSto.Length
    requires qSto != tSto && heat != qSto && heat != tSto
    modifies heat, a, qSto, tSto
    ensures h == Hour(p, old(heat[..]), old(Row(a, t)), prev, losses, net)
    ensures heat[..] == h.heat && Row(a, t) == h.temps && OtherRowsUnchanged(a, t)
    ensures qSto[..] == old(qSto[..])[t := Sum(h.heat)] && tSto[..] == old(tSto[..])[t := Mean(h.temps)]
  {
    var remaining := HourPasses(p, heat, a, t, prev, losses, net);
    h := Layers(heat[..], Row(a, t), remaining);
    qSto[t] := Sum(heat[..]);
    tSto[t] := Mean(Row(a, t));
  }

}
