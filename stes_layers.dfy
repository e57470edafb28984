/** One hour of the stratified storage (`simulate_stratified`, the body of
    its hourly loop): a discharge pass, a charge pass that also books the
    layer losses and raises cold layers to the minimum temperature, and a
    pass moving heat between neighbouring layers. Each pass is specified by
    a function giving the state after its first `k` layers; the methods in
    `StesStorage` are proved against them. Layer 0 is the top layer. */
module StesLayers {
  import opened Common

  /** The running state of an hour: heat held per layer (kWh), the
      temperatures written into this hour's row (deg C) and the heat still
      to be placed or drawn (`remaining_heat`, kWh). */
  datatype Layers = Layers(heat: seq<real>, temps: seq<real>, remaining: real)

  /** `heatCapacity` is layer_volume * rho * cp (J/K); `conductance` is
      thermal_conductivity * S_side / layer_thickness (W/K). */
  datatype LayerParams = LayerParams(heatCapacity: real, conductance: real, tMin: real, tMax: real, tRef: real)

  predicate ValidParams(p: LayerParams) {
    0.0 < p.heatCapacity
  }

  predicate Shaped(s: Layers, n: nat) {
    |s.heat| == n && |s.temps| == n
  }

  /** kWh a layer of heat capacity `c` gives off when it cools by `dt` K. */
  function Energy(c: real, dt: real): real {
    dt * c / 3.6e6
  }

  /** The temperature of a layer holding `heat` kWh above the reference. */
  function TemperatureOf(p: LayerParams, heat: real): real
    requires ValidParams(p)
  {
    heat * 3.6e6 / p.heatCapacity + p.tRef
  }

  function AtLeast(x: real, lo: real): (r: real)
    ensures r >= lo && r >= x && (r == x || r == lo)
  {
    if x < lo then lo else x
  }

  // ---------------------------------------------------------------------
  // Discharge pass

  /** Heat a layer gives while a deficit `remaining` is left: what it
      holds above `T_min` if the deficit covers that, else the deficit. */
  function Drawn(p: LayerParams, remaining: real, prevTemp: real): (r: real)
    ensures remaining < 0.0 ==> remaining + r <= 0.0
    ensures remaining >= 0.0 ==> r == 0.0
  {
    if remaining < 0.0 then
      if Abs(remaining) >= Energy(p.heatCapacity, prevTemp - p.tMin) then Energy(p.heatCapacity, prevTemp - p.tMin)
      else Abs(remaining)
    else 0.0
  }

  /** The temperature the discharge pass writes: `T_min` for an emptied
      layer, the cooled temperature for a partly emptied one; without a
      deficit the row keeps `current`. */
  function DrawnTemperature(p: LayerParams, remaining: real, prevTemp: real, current: real): real
    requires ValidParams(p)
  {
    if remaining < 0.0 then
      if Abs(remaining) >= Energy(p.heatCapacity, prevTemp - p.tMin) then p.tMin
      else prevTemp - Abs(remaining) * 3.6e6 / p.heatCapacity
    else current
  }

  /** Layer `i` of the discharge pass: while heat is still wanted, a layer
      gives what it holds above `T_min` (and drops to `T_min`) or, if that
      covers the need, just the need (and the deficit is settled). */
  function DischargeLayer(p: LayerParams, s: Layers, prev: seq<real>, i: nat): (r: Layers)
    requires ValidParams(p) && Shaped(s, |prev|) && i < |prev|
    ensures Shaped(r, |prev|)
  {
    var drawn := Drawn(p, s.remaining, prev[i]);
    Layers(s.heat[i := s.heat[i] - drawn],
           s.temps[i := DrawnTemperature(p, s.remaining, prev[i], s.temps[i])],
           s.remaining + drawn)
  }

  /** The discharge pass after its first `k` layers. */
  function Discharge(p: LayerParams, s: Layers, prev: seq<real>, k: nat): (r: Layers)
    requires ValidParams(p) && Shaped(s, |prev|) && k <= |prev|
    ensures Shaped(r, |prev|)
  {
    if k == 0 then s else DischargeLayer(p, Discharge(p, s, prev, k - 1), prev, k - 1)
  }

  /** Heat leaves the layers exactly as fast as the deficit shrinks. */
  lemma {:induction false} DischargeConserves(p: LayerParams, s: Layers, prev: seq<real>, k: nat)
    requires ValidParams(p) && Shaped(s, |prev|) && k <= |prev|
    ensures Sum(Discharge(p, s, prev, k).heat) + Discharge(p, s, prev, k).remaining == Sum(s.heat) + s.remaining
  {
    if k > 0 {
      DischargeConserves(p, s, prev, k - 1);
      var d := Discharge(p, s, prev, k - 1);
      SumUpdate(d.heat, k - 1, d.heat[k - 1] - Drawn(p, d.remaining, prev[k - 1]));
    }
  }

  /** A deficit never turns into a surplus, and without a deficit the pass
      changes nothing. */
  lemma {:induction false} DischargeKeepsDeficit(p: LayerParams, s: Layers, prev: seq<real>, k: nat)
    requires ValidParams(p) && Shaped(s, |prev|) && k <= |prev|
    ensures s.remaining < 0.0 ==> Discharge(p, s, prev, k).remaining <= 0.0
    ensures s.remaining >= 0.0 ==> Discharge(p, s, prev, k) == s
  {
    if k > 0 {
      DischargeKeepsDeficit(p, s, prev, k - 1);
      var d := Discharge(p, s, prev, k - 1);
      if s.remaining >= 0.0 {
        assert d.heat[k - 1 := d.heat[k - 1] - 0.0] == d.heat;
        assert d.temps[k - 1 := d.temps[k - 1]] == d.temps;
      }
    }
  }

  // ---------------------------------------------------------------------
  // Charge pass

  /** `max_heat_in_layer`: what a layer takes to reach `T_max`. */
  function Headroom(p: LayerParams, prevTemp: real): real {
    Energy(p.heatCapacity, p.tMax - prevTemp)
  }

  /** Heat a layer takes in while a surplus `remaining` is left: all the
      headroom if the surplus covers it, else the whole surplus. */
  function Charged(p: LayerParams, remaining: real, prevTemp: real): (r: real)
    ensures remaining > 0.0 ==> r <= Headroom(p, prevTemp) && r <= remaining
    ensures remaining <= 0.0 ==> r == 0.0
    ensures remaining > 0.0 ==> remaining - r >= 0.0
  {
    if remaining > 0.0 then
      if remaining >= Headroom(p, prevTemp) then Headroom(p, prevTemp) else remaining
    else 0.0
  }

  /** The temperature the charge pass writes before the `T_min` clamp: `T_max`
      for a filled layer, the warmed temperature for a partly charged one,
      the previous hour's value otherwise. */
  function ChargedTemperature(p: LayerParams, remaining: real, prevTemp: real): real
    requires ValidParams(p)
  {
    if remaining > 0.0 then
      if remaining >= Headroom(p, prevTemp) then p.tMax
      else prevTemp + remaining * 3.6e6 / p.heatCapacity
    else prevTemp
  }

  /** Layer `i` of the charge pass: take in heat, book the layer's loss
      (kW divided by 3600) and raise the temperature to `T_min`. */
  function ChargeLayer(p: LayerParams, s: Layers, prev: seq<real>, losses: seq<real>, i: nat): (r: Layers)
    requires ValidParams(p) && Shaped(s, |prev|) && |losses| == |prev| && i < |prev|
    ensures Shaped(r, |prev|)
  {
    var added := Charged(p, s.remaining, prev[i]);
    Layers(s.heat[i := s.heat[i] + added - losses[i] / 3600.0],
           s.temps[i := AtLeast(ChargedTemperature(p, s.remaining, prev[i]), p.tMin)],
           s.remaining - added)
  }

  /** The charge pass after its first `k` layers. */
  function Charge(p: LayerParams, s: Layers, prev: seq<real>, losses: seq<real>, k: nat): (r: Layers)
    requires ValidParams(p) && Shaped(s, |prev|) && |losses| == |prev| && k <= |prev|
    ensures Shaped(r, |prev|)
  {
    if k == 0 then s else ChargeLayer(p, Charge(p, s, prev, losses, k - 1), prev, losses, k - 1)
  }

  /** The booked losses of the first `k` layers, in kWh. */
  function BookedLoss(losses: seq<real>, k: nat): real
    requires k <= |losses|
  {
    Sum(Scaled(losses[..k], 3600.0))
  }

  lemma BookedLossStep(losses: seq<real>, k: nat)
    requires k < |losses|
    ensures BookedLoss(losses, k + 1) == BookedLoss(losses, k) + losses[k] / 3600.0
  {
    assert losses[..k + 1] == losses[..k] + [losses[k]];
    assert Scaled(losses[..k + 1], 3600.0) == Scaled(losses[..k], 3600.0) + [losses[k] / 3600.0];
    SumAppend(Scaled(losses[..k], 3600.0), [losses[k] / 3600.0]);
    SumSingleton(losses[k] / 3600.0);
  }

  /** Heat placed in the layers comes out of the surplus, and what the
      layers lose is booked out of them. */
  lemma {:induction false} ChargeConserves(p: LayerParams, s: Layers, prev: seq<real>, losses: seq<real>, k: nat)
    requires ValidParams(p) && Shaped(s, |prev|) && |losses| == |prev| && k <= |prev|
    ensures var c := Charge(p, s, prev, losses, k);
      Sum(c.heat) + c.remaining + BookedLoss(losses, k) == Sum(s.heat) + s.remaining
  {
    if k > 0 {
      ChargeConserves(p, s, prev, losses, k - 1);
      var c := Charge(p, s, prev, losses, k - 1);
      var i := k - 1;
      var added := Charged(p, c.remaining, prev[i]);
      SumUpdate(c.heat, i, c.heat[i] + added - losses[i] / 3600.0);
      BookedLossStep(losses, i);
    }
  }

  /** A surplus stays a surplus (or is used up), and with no surplus the
      pass takes nothing from it. */
  lemma {:induction false} ChargeKeepsSurplus(p: LayerParams, s: Layers, prev: seq<real>, losses: seq<real>, k: nat)
    requires ValidParams(p) && Shaped(s, |prev|) && |losses| == |prev| && k <= |prev|
    ensures s.remaining > 0.0 ==> Charge(p, s, prev, losses, k).remaining >= 0.0
    ensures s.remaining <= 0.0 ==> Charge(p, s, prev, losses, k).remaining == s.remaining
  {
    if k > 0 {
      ChargeKeepsSurplus(p, s, prev, losses, k - 1);
    }
  }

  /** Layers the charge pass has not reached yet are untouched, and layers
      it has passed keep what their own step gave them. */
  lemma {:induction false} ChargeFrame(p: LayerParams, s: Layers, prev: seq<real>, losses: seq<real>, k: nat)
    requires ValidParams(p) && Shaped(s, |prev|) && |losses| == |prev| && k <= |prev|
    ensures forall j :: k <= j < |prev| ==>
      Charge(p, s, prev, losses, k).heat[j] == s.heat[j] && Charge(p, s, prev, losses, k).temps[j] == s.temps[j]
    ensures forall j :: 0 <= j < k ==>
      Charge(p, s, prev, losses, k).heat[j] == Charge(p, s, prev, losses, j + 1).heat[j]
      && Charge(p, s, prev, losses, k).temps[j] == Charge(p, s, prev, losses, j + 1).temps[j]
  {
    if k > 0 {
      ChargeFrame(p, s, prev, losses, k - 1);
    }
  }

  /** No layer takes in more than its headroom: what the pass adds to a
      layer, before its loss is booked, is at most `max_heat_in_layer`, or
      nothing at all when no surplus reached it. */
  lemma ChargeWithinHeadroom(p: LayerParams, s: Layers, prev: seq<real>, losses: seq<real>, i: nat)
    requires ValidParams(p) && Shaped(s, |prev|) && |losses| == |prev| && i < |prev|
    ensures var added := Charge(p, s, prev, losses, |prev|).heat[i] + losses[i] / 3600.0 - s.heat[i];
      added <= Headroom(p, prev[i]) || added == 0.0
  {
    ChargeFrame(p, s, prev, losses, |prev|);
    ChargeFrame(p, s, prev, losses, i);
  }

  /** With no surplus the pass writes the previous hour's temperature,
      raised to `T_min`, into every layer it reaches. */
  lemma {:induction false} ChargeWithoutSurplus(p: LayerParams, s: Layers, prev: seq<real>, losses: seq<real>, k: nat)
    requires ValidParams(p) && Shaped(s, |prev|) && |losses| == |prev| && k <= |prev|
    requires s.remaining <= 0.0
    ensures forall j :: 0 <= j < k ==> Charge(p, s, prev, losses, k).temps[j] == AtLeast(prev[j], p.tMin)
  {
    if k > 0 {
      ChargeWithoutSurplus(p, s, prev, losses, k - 1);
      ChargeKeepsSurplus(p, s, prev, losses, k - 1);
    }
  }

  /** Whatever the discharge pass writes into the temperature row is
      overwritten by the charge pass: after a deficit the discharge pass
      leaves no surplus, so the charge pass writes the previous hour's
      temperatures (raised to `T_min`) into every layer. */
  lemma DischargeTemperaturesOverwritten(p: LayerParams, heat: seq<real>, row: seq<real>, prev: seq<real>, losses: seq<real>, net: real)
    requires ValidParams(p) && |heat| == |row| == |prev| == |losses|
    requires net < 0.0
    ensures var d := Discharge(p, Layers(heat, row, net), prev, |prev|);
      Charge(p, d, prev, losses, |prev|).temps == seq(|prev|, j requires 0 <= j < |prev| => AtLeast(prev[j], p.tMin))
  {
    var d := Discharge(p, Layers(heat, row, net), prev, |prev|);
    DischargeKeepsDeficit(p, Layers(heat, row, net), prev, |prev|);
    ChargeWithoutSurplus(p, d, prev, losses, |prev|);
  }

  // ---------------------------------------------------------------------
  // Heat exchange between neighbouring layers

  /** `heat_transfer_kWh`: the W flowing over a temperature step `dt`,
      converted to kWh per hour. */
  function Transfer(p: LayerParams, dt: real): real {
    p.conductance * dt / 3.6e6 * 3600.0
  }

  /** `x` kWh move from layer `i` to layer `i + 1`. */
  function Exchange(heat: seq<real>, i: nat, x: real): (r: seq<real>)
    requires i + 1 < |heat|
    ensures |r| == |heat|
  {
    heat[i := heat[i] - x][i + 1 := heat[i + 1] + x]
  }

  /** Exchange between layers `i` and `i + 1`: the warmer gives, the colder
      takes, and both temperatures are recomputed from their heat. */
  function DiffuseLayer(p: LayerParams, s: Layers, i: nat): (r: Layers)
    requires ValidParams(p) && |s.heat| == |s.temps| && i + 1 < |s.heat|
    ensures |r.heat| == |r.temps| == |s.heat|
  {
    var heat := Exchange(s.heat, i, Transfer(p, s.temps[i] - s.temps[i + 1]));
    Layers(heat, s.temps[i := TemperatureOf(p, heat[i])][i + 1 := TemperatureOf(p, heat[i + 1])], s.remaining)
  }

  /** The exchange pass after its first `k` neighbouring pairs. */
  function Diffuse(p: LayerParams, s: Layers, k: nat): (r: Layers)
    requires ValidParams(p) && |s.heat| == |s.temps| && k < |s.heat|
    ensures |r.heat| == |r.temps| == |s.heat| && r.remaining == s.remaining
  {
    if k == 0 then s else DiffuseLayer(p, Diffuse(p, s, k - 1), k - 1)
  }

  /** The exchange only moves heat: the layers' total is unchanged. */
  lemma {:induction false} DiffuseConserves(p: LayerParams, s: Layers, k: nat)
    requires ValidParams(p) && |s.heat| == |s.temps| && k < |s.heat|
    ensures Sum(Diffuse(p, s, k).heat) == Sum(s.heat)
  {
    if k > 0 {
      DiffuseConserves(p, s, k - 1);
      var d := Diffuse(p, s, k - 1);
      ExchangeConserves(d.heat, k - 1, Transfer(p, d.temps[k - 1] - d.temps[k]));
    }
  }

  lemma ExchangeConserves(heat: seq<real>, i: nat, x: real)
    requires i + 1 < |heat|
    ensures Sum(Exchange(heat, i, x)) == Sum(heat)
  {
    var h1 := heat[i := heat[i] - x];
    SumUpdate(heat, i, heat[i] - x);
    var h2 := h1[i + 1 := heat[i + 1] + x];
    SumUpdate(h1, i + 1, heat[i + 1] + x);
    assert Sum(h2) == Sum(heat);
    assert Exchange(heat, i, x) == h2;
  }

  /** After the exchange over `k >= 1` pairs, each of the first `k + 1`
      layers has the temperature its heat content gives, whatever the
      charge pass wrote there. */
  lemma {:induction false} DiffuseResetsTemperatures(p: LayerParams, s: Layers, k: nat)
    requires ValidParams(p) && |s.heat| == |s.temps| && 1 <= k < |s.heat|
    ensures forall j :: 0 <= j <= k ==> Diffuse(p, s, k).temps[j] == TemperatureOf(p, Diffuse(p, s, k).heat[j])
  {
    if k > 1 {
      DiffuseResetsTemperatures(p, s, k - 1);
    }
  }

  // ---------------------------------------------------------------------
  // One hour

  /** One hour after the first: discharge, charge and exchange over all
      `|prev|` layers, starting from the heat per layer, this hour's row
      as it stands, the previous hour's temperatures, the layer losses and
      `Q_in[t] - Q_out[t]`. */
  function Hour(p: LayerParams, heat: seq<real>, row: seq<real>, prev: seq<real>, losses: seq<real>, net: real): (r: Layers)
    requires ValidParams(p) && |heat| == |row| == |prev| == |losses| >= 1
    ensures Shaped(r, |prev|)
  {
    var d := Discharge(p, Layers(heat, row, net), prev, |prev|);
    var c := Charge(p, d, prev, losses, |prev|);
    Diffuse(p, c, |prev| - 1)
  }

  /** The hour's energy balance: the layers end up with what they held plus
      the net input, less the booked losses and less the surplus or deficit
      the passes could not place (which the source drops). */
  lemma HourBalance(p: LayerParams, heat: seq<real>, row: seq<real>, prev: seq<real>, losses: seq<real>, net: real)
    requires ValidParams(p) && |heat| == |row| == |prev| == |losses| >= 1
    ensures var h := Hour(p, heat, row, prev, losses, net);
      Sum(h.heat) == Sum(heat) + net - Sum(losses) / 3600.0 - h.remaining
  {
    var n := |prev|;
    var s := Layers(heat, row, net);
    var d := Discharge(p, s, prev, n);
    var c := Charge(p, d, prev, losses, n);
    DischargeConserves(p, s, prev, n);
    ChargeConserves(p, d, prev, losses, n);
    DiffuseConserves(p, c, n - 1);
    assert losses[..n] == losses;
    SumScaled(losses, 3600.0);
  }

  // ---------------------------------------------------------------------
  // Temperatures and heat agree

  /** Heat and temperature convert into each other: the heat a layer holds
      above `T_ref`, turned back into a temperature, is that temperature. */
  lemma TemperatureOfEnergy(p: LayerParams, temp: real)
    requires ValidParams(p)
    ensures TemperatureOf(p, Energy(p.heatCapacity, temp - p.tRef)) == temp
  {
    EnergyRoundTrip(p.heatCapacity, temp - p.tRef);
  }

  lemma EnergyRoundTrip(c: real, dt: real)
    requires 0.0 < c
    ensures Energy(c, dt) * 3.6e6 / c == dt
  {
    assert Energy(c, dt) * 3.6e6 == dt * c;
  }

  /** The temperature the discharge pass writes is the previous hour's
      temperature lowered by exactly the heat drawn from the layer. */
  lemma DrawnTemperatureMatchesHeat(p: LayerParams, remaining: real, prevTemp: real, current: real)
    requires ValidParams(p) && remaining < 0.0
    ensures DrawnTemperature(p, remaining, prevTemp, current)
      == prevTemp - Drawn(p, remaining, prevTemp) * 3.6e6 / p.heatCapacity
  {
    EnergyRoundTrip(p.heatCapacity, prevTemp - p.tMin);
  }

  /** The temperature the charge pass writes (before the `T_min` clamp) is
      the previous hour's temperature raised by exactly the heat added. */
  lemma ChargedTemperatureMatchesHeat(p: LayerParams, remaining: real, prevTemp: real)
    requires ValidParams(p)
    ensures ChargedTemperature(p, remaining, prevTemp)
      == prevTemp + Charged(p, remaining, prevTemp) * 3.6e6 / p.heatCapacity
  {
    EnergyRoundTrip(p.heatCapacity, p.tMax - prevTemp);
  }
}
