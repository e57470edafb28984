/** The seasonal thermal storage object (`ThermalStorage`): construction,
    the single-node and the stratified hourly simulations, the per-layer
    loss method and the two post-processing figures. The hourly series
    `Q_sto`, `Q_loss` and `T_sto` are arrays updated in place; the layer
    temperatures `T_sto_layers` are a two-dimensional array (hour, layer)
    that each stratified run allocates anew. */
module StesStorage {
  import opened Common
  import opened StesGeometry
  import opened StesHeatLoss
  import opened StesLayers
  import opened StesPasses

  /** `T_sto[t]` limited to the range: above `T_max` it is set to `T_max`,
      otherwise below `T_min` to `T_min`. */
  function Clamp(temp: real, tMin: real, tMax: real): (r: real)
    ensures tMin <= tMax ==> tMin <= r <= tMax
    ensures tMin <= temp <= tMax ==> r == temp
  {
    if temp > tMax then tMax else if temp < tMin then tMin else temp
  }

  /** Every entry of `s` lies in `[lo, hi]`. */
  predicate InRange(s: seq<real>, lo: real, hi: real) {
    forall i :: 0 <= i < |s| ==> lo <= s[i] <= hi
  }

  /** The hourly series of the single-node simulation. */
  datatype Series = Series(stored: seq<real>, lost: seq<real>, temps: seq<real>)

  /** What the stratified simulation has produced after its first hours:
      the heat per layer after the last hour, one temperature row, one
      stored-heat, one loss and one mean-temperature figure per hour, the
      net heat each hour could not place in (or draw from) the layers, and
      the per-layer losses of the last hour. */
  datatype Run = Run(heat: seq<real>, rows: seq<seq<real>>, stored: seq<real>, lost: seq<real>,
                     leftover: seq<real>, means: seq<real>, lossLayers: seq<real>)

  /** `run` extended by one hour whose passes left `h`, with the layer
      losses `losses` booked for it. */
  function Extended(run: Run, h: Layers, losses: seq<real>): (r: Run)
    requires |h.temps| >= 1
    ensures |r.rows| == |run.rows| + 1 && r.rows[..|run.rows|] == run.rows && r.rows[|run.rows|] == h.temps
  {
    Run(h.heat, run.rows + [h.temps], run.stored + [Sum(h.heat)], run.lost + [Sum(losses)],
        run.leftover + [h.remaining], run.means + [Mean(h.temps)], losses)
  }

  class ThermalStorage {
    const e: Elementary
    const kind: StorageType
    const dims: seq<real>
    const material: Material
    const geometry: Geometry
    const hours: nat
    /** Stored by the constructor; the stratified simulation takes its own
        layer count and conductivity as arguments instead. */
    const numLayers: int
    const thermalConductivity: real

    /** Stored heat (kWh), heat loss (kW) and temperature (deg C) per hour. */
    const qSto: array<real>
    const qLoss: array<real>
    const tSto: array<real>

    /** Allocated by the stratified simulation and the per-layer loss
        method; empty until then. */
    var tStoLayers: array2<real>
    var qLossLayers: array<real>

    /** Set by the post-processing methods; `None` until computed (and an
        efficiency of `None` also stands for a zero total input). */
    var operationalCosts: Option<real>
    var efficiency: Option<real>

    /** A storage as the constructor leaves it: a supported type with its
        geometry, physical material data and one entry per hour. */
    predicate Valid() {
      && Supported(kind) && |dims| == Arity(kind) && PositiveDimensions(dims)
      && Physical(material)
      && StorageGeometry(e, kind, dims) == Success(geometry)
      && 0.0 < geometry.volume
      && hours >= 1
      && qSto.Length == hours && qLoss.Length == hours && tSto.Length == hours
      && qSto != qLoss && qSto != tSto && qLoss != tSto
    }

    constructor Init(e: Elementary, kind: StorageType, dims: seq<real>, material: Material, geometry: Geometry,
                     initialTemp: real, hours: nat, numLayers: int, thermalConductivity: real)
      requires hours >= 1
      ensures this.e == e && this.kind == kind && this.dims == dims && this.material == material
      ensures this.geometry == geometry && this.hours == hours
      ensures this.numLayers == numLayers && this.thermalConductivity == thermalConductivity
      ensures fresh(qSto) && fresh(qLoss) && fresh(tSto)
      ensures qSto.Length == hours && qLoss.Length == hours && tSto.Length == hours
      ensures qSto != qLoss && qSto != tSto && qLoss != tSto
      ensures qSto[..] == seq(hours, _ => 0.0) && qLoss[..] == seq(hours, _ => 0.0)
      ensures tSto[0] == initialTemp && forall t :: 1 <= t < hours ==> tSto[t] == 0.0
      ensures operationalCosts == None && efficiency == None
    {
      this.e := e;
      this.kind := kind;
      this.dims := dims;
      this.material := material;
      this.geometry := geometry;
      this.hours := hours;
      this.numLayers := numLayers;
      this.thermalConductivity := thermalConductivity;
      qSto := new real[hours](_ => 0.0);
      qLoss := new real[hours](_ => 0.0);
      var temps := new real[hours](_ => 0.0);
      temps[0] := initialTemp;
      tSto := temps;
      tStoLayers := new real[0, 0];
      qLossLayers := new real[0];
      operationalCosts := None;
      efficiency := None;
    }

    /** `ThermalStorage(...)`: the series are allocated and `T_sto[0]` set
        first (which fails for zero hours), then the type picks the geometry;
        only the three supported types are accepted. */
    static method Create(e: Elementary, kind: StorageType, dims: seq<real>, material: Material,
                         initialTemp: real, hours: nat, numLayers: int, thermalConductivity: real)
      returns (r: Result<ThermalStorage, StesError>)
      requires Sound(e) && Physical(material) && PositiveDimensions(dims)
      ensures r.Failure? <==> hours == 0 || !Supported(kind) || |dims| != Arity(kind)
      ensures r.Failure? ==> r.error == (if hours == 0 then NoHours
                                         else if !Supported(kind) then UnsupportedStorageType
                                         else WrongDimensionCount)
      ensures r.Success? ==> fresh(r.value) && r.value.Valid()
      ensures r.Success? ==> r.value.kind == kind && r.value.dims == dims && r.value.hours == hours
      ensures r.Success? ==> r.value.geometry == StorageGeometry(e, kind, dims).value
      ensures r.Success? ==> r.value.e == e && r.value.material == material
      ensures r.Success? ==> r.value.numLayers == numLayers && r.value.thermalConductivity == thermalConductivity
      ensures r.Success? ==> r.value.qSto[..] == seq(hours, _ => 0.0) && r.value.qLoss[..] == seq(hours, _ => 0.0)
      ensures r.Success? ==> r.value.tSto[0] == initialTemp
      ensures r.Success? ==> forall t :: 1 <= t < hours ==> r.value.tSto[t] == 0.0
      ensures r.Success? ==> r.value.operationalCosts == None && r.value.efficiency == None
    {
      if hours == 0 {
        return Failure(NoHours);
      }
      var g := StorageGeometry(e, kind, dims);
      if g.Failure? {
        return Failure(g.error);
      }
      GeometryPositive(e, kind, dims);
      var s := new ThermalStorage.Init(e, kind, dims, material, g.value, initialTemp, hours, numLayers, thermalConductivity);
      return Success(s);
    }

    // -------------------------------------------------------------------
    // Single-node simulation

    /** `V * rho * cp * (T - T_ref) / 3.6e6`: the heat (kWh) the whole
        storage holds at temperature `temp`. */
    function StoredEnergy(temp: real): real {
      geometry.volume * material.rho * material.cp * (temp - material.tRef) / 3.6e6
    }

    /** `Q * 3.6e6 / (V * rho * cp) + T_ref`: the temperature at which the
        storage holds `heat` kWh. */
    function NodeTemperature(heat: real): real
      requires Valid()
    {
      PositiveTriple(geometry.volume, material.rho, material.cp);
      heat * 3.6e6 / (geometry.volume * material.rho * material.cp) + material.tRef
    }

    /** Stored heat and node temperature are inverse conversions. */
    lemma NodeTemperatureOfStoredEnergy(temp: real)
      requires Valid()
      ensures NodeTemperature(StoredEnergy(temp)) == temp
    {
      PositiveTriple(geometry.volume, material.rho, material.cp);
      var c := geometry.volume * material.rho * material.cp;
      EnergyRoundTrip(c, temp - material.tRef);
      assert StoredEnergy(temp) == Energy(c, temp - material.tRef);
    }

    /** The lumped loss at storage temperature `temp`, for the types that
        have one. */
    function LumpedLoss(temp: real): real
      requires Valid() && IsPit(kind)
    {
      HeatLoss(e, kind, dims, material, geometry, temp).value
    }

    /** The series `simulate` writes for its first `k` hours, given the
        temperatures it finds at the first and at the last entry: the loss
        at the previous hour's temperature (at hour 0 at the last entry,
        Python's index -1), the stored heat from the initial temperature
        and then from the energy balance, and the temperature of that heat
        limited to `[T_min, T_max]`; the limit is not fed back into the
        stored heat. */
    function NodeSeries(qIn: seq<real>, qOut: seq<real>, tFirst: real, tLast: real, k: nat): (s: Series)
      requires Valid() && IsPit(kind) && 1 <= k <= hours && |qIn| >= hours && |qOut| >= hours
      ensures |s.stored| == k && |s.lost| == k && |s.temps| == k
    {
      if k == 1 then
        Series([StoredEnergy(tFirst)], [LumpedLoss(tLast)], [Clamp(tFirst, material.tMin, material.tMax)])
      else
        var before := NodeSeries(qIn, qOut, tFirst, tLast, k - 1);
        var loss := LumpedLoss(before.temps[k - 2]);
        var stored := before.stored[k - 2] + (qIn[k - 1] - qOut[k - 1] - loss);
        Series(before.stored + [stored], before.lost + [loss],
               before.temps + [Clamp(NodeTemperature(stored), material.tMin, material.tMax)])
    }

    /** `simulate`. The plain cylinder has no lumped loss: every loss the
        source stores is then NaN, and so is every stored heat and
        temperature after hour 0. Only hour 0 gets numbers, the initial
        heat and the limited initial temperature; the model writes those
        and reports `NoLossFormula` for the entries left without one. */
    method Simulate(qIn: seq<real>, qOut: seq<real>) returns (r: Result<(), StesError>)
      requires Valid() && |qIn| >= hours && |qOut| >= hours
      modifies qSto, qLoss, tSto
      ensures kind == Cylindrical ==>
        && r == Failure(NoLossFormula)
        && qSto[0] == StoredEnergy(old(tSto[0]))
        && tSto[0] == Clamp(old(tSto[0]), material.tMin, material.tMax)
        && qSto[1..] == old(qSto[1..]) && tSto[1..] == old(tSto[1..]) && qLoss[..] == old(qLoss[..])
      ensures IsPit(kind) ==> r == Success(())
      ensures IsPit(kind) ==>
        var s := NodeSeries(qIn, qOut, old(tSto[0]), old(tSto[hours - 1]), hours);
        qSto[..] == s.stored && qLoss[..] == s.lost && tSto[..] == s.temps
    {
      if kind == Cylindrical {
        CylinderHasNoLumpedLoss(e, dims, material, geometry, tSto[hours - 1]);
        var temp := tSto[0];
        if temp > material.tMax {
          temp := material.tMax;
        } else if temp < material.tMin {
          temp := material.tMin;
        }
        qSto[0], tSto[0] := StoredEnergy(tSto[0]), temp;
        return Failure(NoLossFormula);
      }
      SimulateHours(qIn, qOut);
      r := Success(());
    }

    /** The hourly loop of `simulate` for a type with a lumped loss. */
    method SimulateHours(qIn: seq<real>, qOut: seq<real>)
      requires Valid() && IsPit(kind) && |qIn| >= hours && |qOut| >= hours
      modifies qSto, qLoss, tSto
      ensures var s := NodeSeries(qIn, qOut, old(tSto[0]), old(tSto[hours - 1]), hours);
        qSto[..] == s.stored && qLoss[..] == s.lost && tSto[..] == s.temps
    {
      ghost var tFirst := tSto[0];
      ghost var tLast := tSto[hours - 1];
      var t := 0;
      while t < hours
        invariant 0 <= t <= hours
        invariant t == 0 ==> tSto[0] == tFirst && tSto[hours - 1] == tLast
        invariant t > 0 ==>
          var s := NodeSeries(qIn, qOut, tFirst, tLast, t);
          qSto[..t] == s.stored && qLoss[..t] == s.lost && tSto[..t] == s.temps
      {
        SimulateHour(qIn, qOut, tFirst, tLast, t);
        t := t + 1;
      }
      assert qSto[..] == qSto[..hours] && qLoss[..] == qLoss[..hours] && tSto[..] == tSto[..hours];
    }

    /** One pass of the hourly loop of `simulate`: the loss at the previous
        hour's temperature, the stored heat, its temperature, and the limit;
        the series grows by hour `t` and nothing after it changes. */
    method SimulateHour(qIn: seq<real>, qOut: seq<real>, ghost tFirst: real, ghost tLast: real, t: nat)
      requires Valid() && IsPit(kind) && t < hours && |qIn| >= hours && |qOut| >= hours
      requires t == 0 ==> tSto[0] == tFirst && tSto[hours - 1] == tLast
      requires t > 0 ==>
        var s := NodeSeries(qIn, qOut, tFirst, tLast, t);
        qSto[..t] == s.stored && qLoss[..t] == s.lost && tSto[..t] == s.temps
      modifies qSto, qLoss, tSto
      ensures var s := NodeSeries(qIn, qOut, tFirst, tLast, t + 1);
        qSto[..t + 1] == s.stored && qLoss[..t + 1] == s.lost && tSto[..t + 1] == s.temps
    {
      var loss := LumpedLoss(tSto[if t == 0 then hours - 1 else t - 1]);
      var stored, temp;
      if t == 0 {
        stored, temp := StoredEnergy(tSto[t]), tSto[t];
      } else {
        stored := qSto[t - 1] + (qIn[t] - qOut[t] - loss);
        temp := NodeTemperature(stored);
      }
      if temp > material.tMax {
        temp := material.tMax;
      } else if temp < material.tMin {
        temp := material.tMin;
      }
      qLoss[t], qSto[t], tSto[t] := loss, stored, temp;
    }

    /** Every hour after the first follows the energy balance, with the loss
        taken at the previous hour's limited temperature. */
    lemma {:induction false} NodeSeriesRecurrence(qIn: seq<real>, qOut: seq<real>, tFirst: real, tLast: real, k: nat)
      requires Valid() && IsPit(kind) && 1 <= k <= hours && |qIn| >= hours && |qOut| >= hours
      ensures var s := NodeSeries(qIn, qOut, tFirst, tLast, k);
        && s.stored[0] == StoredEnergy(tFirst)
        && s.lost[0] == LumpedLoss(tLast)
        && s.temps[0] == Clamp(tFirst, material.tMin, material.tMax)
        && forall t :: 1 <= t < k ==>
             && s.lost[t] == LumpedLoss(s.temps[t - 1])
             && s.stored[t] == s.stored[t - 1] + (qIn[t] - qOut[t] - s.lost[t])
             && s.temps[t] == Clamp(NodeTemperature(s.stored[t]), material.tMin, material.tMax)
    {
      NodeSeriesStart(qIn, qOut, tFirst, tLast, k);
      var s := NodeSeries(qIn, qOut, tFirst, tLast, k);
      forall t | 1 <= t < k
        ensures s.lost[t] == LumpedLoss(s.temps[t - 1])
        ensures s.stored[t] == s.stored[t - 1] + (qIn[t] - qOut[t] - s.lost[t])
        ensures s.temps[t] == Clamp(NodeTemperature(s.stored[t]), material.tMin, material.tMax)
      {
        NodeSeriesHour(qIn, qOut, tFirst, tLast, k, t);
      }
    }

    /** The first hour of the series is fixed by the initial temperature
        and by the temperature at the last entry. */
    lemma {:induction false} NodeSeriesStart(qIn: seq<real>, qOut: seq<real>, tFirst: real, tLast: real, k: nat)
      requires Valid() && IsPit(kind) && 1 <= k <= hours && |qIn| >= hours && |qOut| >= hours
      ensures var s := NodeSeries(qIn, qOut, tFirst, tLast, k);
        && s.stored[0] == StoredEnergy(tFirst)
        && s.lost[0] == LumpedLoss(tLast)
        && s.temps[0] == Clamp(tFirst, material.tMin, material.tMax)
    {
      if k > 1 {
        NodeSeriesStart(qIn, qOut, tFirst, tLast, k - 1);
      }
    }

    /** Hour `t` of the series of the first `k` hours follows the energy
        balance. */
    lemma {:induction false} NodeSeriesHour(qIn: seq<real>, qOut: seq<real>, tFirst: real, tLast: real, k: nat, t: nat)
      requires Valid() && IsPit(kind) && 1 <= t < k <= hours && |qIn| >= hours && |qOut| >= hours
      ensures var s := NodeSeries(qIn, qOut, tFirst, tLast, k);
        && s.lost[t] == LumpedLoss(s.temps[t - 1])
        && s.stored[t] == s.stored[t - 1] + (qIn[t] - qOut[t] - s.lost[t])
        && s.temps[t] == Clamp(NodeTemperature(s.stored[t]), material.tMin, material.tMax)
    {
      if t < k - 1 {
        NodeSeriesHour(qIn, qOut, tFirst, tLast, k - 1, t);
        var s := NodeSeries(qIn, qOut, tFirst, tLast, k);
        var before := NodeSeries(qIn, qOut, tFirst, tLast, k - 1);
        assert s.lost[t] == before.lost[t] && s.stored[t] == before.stored[t] && s.temps[t] == before.temps[t];
        assert s.stored[t - 1] == before.stored[t - 1] && s.temps[t - 1] == before.temps[t - 1];
      }
    }

    /** The stored heat of the last hour is the initial stored heat plus
        every later hour's input, less its output and loss: limiting the
        temperature never changes the energy account. */
    lemma {:induction false} NodeSeriesBalance(qIn: seq<real>, qOut: seq<real>, tFirst: real, tLast: real, k: nat)
      requires Valid() && IsPit(kind) && 1 <= k <= hours && |qIn| >= hours && |qOut| >= hours
      ensures var s := NodeSeries(qIn, qOut, tFirst, tLast, k);
        s.stored[k - 1] == s.stored[0] + Sum(qIn[1..k]) - Sum(qOut[1..k]) - Sum(s.lost[1..k])
    {
      if k > 1 {
        NodeSeriesBalance(qIn, qOut, tFirst, tLast, k - 1);
        var s := NodeSeries(qIn, qOut, tFirst, tLast, k);
        var before := NodeSeries(qIn, qOut, tFirst, tLast, k - 1);
        assert s.lost[1..k - 1] == before.lost[1..k - 1];
        SumExtend(qIn, k - 1);
        SumExtend(qOut, k - 1);
        SumExtend(s.lost, k - 1);
      }
    }

    /** With `T_min <= T_max` every recorded temperature lies in range. */
    lemma {:induction false} NodeSeriesBounded(qIn: seq<real>, qOut: seq<real>, tFirst: real, tLast: real, k: nat)
      requires Valid() && IsPit(kind) && 1 <= k <= hours && |qIn| >= hours && |qOut| >= hours
      requires material.tMin <= material.tMax
      ensures InRange(NodeSeries(qIn, qOut, tFirst, tLast, k).temps, material.tMin, material.tMax)
    {
      if k > 1 {
        NodeSeriesBounded(qIn, qOut, tFirst, tLast, k - 1);
      }
    }

    // -------------------------------------------------------------------
    // Per-layer losses

    /** `calculate_stratified_heat_loss`: fills a fresh `Q_loss_layers` with
        the loss of every layer of the row `temps` and returns their sum. The
        constructor admits no buried cylinder, so the method never fails. */
    method CalculateStratifiedHeatLoss(temps: seq<real>) returns (total: real)
      requires Valid()
      modifies this
      ensures fresh(qLossLayers)
      ensures LayerLosses(e, kind, dims, material, geometry, temps).Success?
      ensures qLossLayers[..] == LayerLosses(e, kind, dims, material, geometry, temps).value
      ensures total == Sum(qLossLayers[..])
      ensures tStoLayers == old(tStoLayers) && operationalCosts == old(operationalCosts) && efficiency == old(efficiency)
    {
      qLossLayers := new real[|temps|](_ => 0.0);
      var i := 0;
      while i < |temps|
        invariant 0 <= i <= |temps|
        invariant fresh(qLossLayers) && qLossLayers.Length == |temps|
        invariant tStoLayers == old(tStoLayers) && operationalCosts == old(operationalCosts) && efficiency == old(efficiency)
        invariant forall j :: 0 <= j < i ==> qLossLayers[j] == LayerLoss(e, kind, dims, material, geometry, |temps|, j, temps[j])
      {
        qLossLayers[i] := LayerLoss(e, kind, dims, material, geometry, |temps|, i, temps[i]);
        i := i + 1;
      }
      total := Sum(qLossLayers[..]);
    }

    // -------------------------------------------------------------------
    // Stratified simulation

    /** The per-layer losses of a temperature row; the constructor admits
        no buried cylinder, so they always exist. */
    function Losses(row: seq<real>): (r: seq<real>)
      requires Valid()
      ensures |r| == |row|
    {
      LayerLosses(e, kind, dims, material, geometry, row).value
    }

    /** The layer data of a run with `n` layers: each layer holds `V / n`,
        and neighbours exchange heat over the side area and a layer
        thickness of `height / n`. */
    function StratifiedParams(n: nat, conductivity: real): (p: LayerParams)
      requires Valid() && n >= 1
      ensures ValidParams(p)
      ensures p.tMin == material.tMin && p.tMax == material.tMax && p.tRef == material.tRef
    {
      var layerVolume := geometry.volume / n as real;
      var thickness := StorageHeight(kind, dims) / n as real;
      PositiveQuotient(geometry.volume, n as real);
      PositiveTriple(layerVolume, material.rho, material.cp);
      LayerParams(layerVolume * material.rho * material.cp, conductivity * geometry.side / thickness,
                  material.tMin, material.tMax, material.tRef)
    }

    /** The first `k` hours of `simulate_stratified` with `n` layers from
        the initial temperature `t0`. Hour 0 spreads the stored heat evenly
        over the layers and leaves the rows at `t0`; each later hour starts
        from a row still at `t0`, takes the losses of the previous row, and
        runs the three passes. */
    function StratifiedRun(qIn: seq<real>, qOut: seq<real>, n: nat, conductivity: real, t0: real, k: nat): (r: Run)
      requires Valid() && n >= 1 && 1 <= k <= hours && |qIn| >= hours && |qOut| >= hours
      ensures |r.heat| == n && |r.lossLayers| == n
      ensures |r.rows| == k && |r.stored| == k && |r.lost| == k && |r.leftover| == k && |r.means| == k
      ensures forall t :: 0 <= t < k ==> |r.rows[t]| == n
      ensures r.rows[0] == Uniform(n, t0) && r.stored[0] == StoredEnergy(t0) && r.means[0] == t0
      ensures r.lost[0] == Sum(Losses(Uniform(n, t0))) && r.leftover[0] == qIn[0] - qOut[0]
      ensures r.stored[k - 1] == Sum(r.heat)
      ensures forall t :: 1 <= t < k ==>
        r.stored[t] == r.stored[t - 1] + (qIn[t] - qOut[t]) - r.lost[t] / 3600.0 - r.leftover[t]
      decreases k, 0
    {
      if k == 1 then
        var row := Uniform(n, t0);
        var losses := Losses(row);
        var heat := Uniform(n, StoredEnergy(t0) / n as real);
        SumOfShares(n, StoredEnergy(t0));
        MeanUniform(n, t0);
        Run(heat, [row], [Sum(heat)], [Sum(losses)], [qIn[0] - qOut[0]], [Mean(row)], losses)
      else
        AfterHour(qIn, qOut, n, conductivity, t0, k - 1)
    }

    /** The run after hour `k` (an hour after the first): the hour starts
        from a row still at `t0`, takes the losses of row `k - 1`, and runs
        the three passes with that hour's net input. With two layers or
        more, the exchange pass recomputes every temperature the charge
        pass wrote, so the hour's row is the one the layers' heat gives. */
    function AfterHour(qIn: seq<real>, qOut: seq<real>, n: nat, conductivity: real, t0: real, k: nat): (r: Run)
      requires Valid() && n >= 1 && 1 <= k < hours && |qIn| >= hours && |qOut| >= hours
      ensures |r.heat| == n && |r.lossLayers| == n
      ensures |r.rows| == k + 1 && |r.stored| == k + 1 && |r.lost| == k + 1 && |r.leftover| == k + 1 && |r.means| == k + 1
      ensures forall t :: 0 <= t <= k ==> |r.rows[t]| == n
      ensures r.rows[0] == Uniform(n, t0) && r.stored[0] == StoredEnergy(t0) && r.means[0] == t0
      ensures r.lost[0] == Sum(Losses(Uniform(n, t0))) && r.leftover[0] == qIn[0] - qOut[0]
      ensures r.stored[k] == Sum(r.heat)
      ensures forall t :: 1 <= t <= k ==>
        r.stored[t] == r.stored[t - 1] + (qIn[t] - qOut[t]) - r.lost[t] / 3600.0 - r.leftover[t]
      ensures n >= 2 ==> forall j :: 0 <= j < n ==> r.rows[k][j] == TemperatureOf(StratifiedParams(n, conductivity), r.heat[j])
      decreases k, 1
    {
      var before := StratifiedRun(qIn, qOut, n, conductivity, t0, k);
      var prev := before.rows[k - 1];
      var losses := Losses(prev);
      var p := StratifiedParams(n, conductivity);
      var net := qIn[k] - qOut[k];
      HourBalance(p, before.heat, Uniform(n, t0), prev, losses, net);
      var c := Charge(p, Discharge(p, Layers(before.heat, Uniform(n, t0), net), prev, n), prev, losses, n);
      if n >= 2 then
        DiffuseResetsTemperatures(p, c, n - 1);
        Extended(before, Hour(p, before.heat, Uniform(n, t0), prev, losses, net), losses)
      else
        Extended(before, Hour(p, before.heat, Uniform(n, t0), prev, losses, net), losses)
    }

    /** `simulate_stratified`: a zero layer count fails at the layer
        thickness and a negative one at the allocation, both before anything
        changes; otherwise a fresh temperature array (hour, layer) is filled
        and `Q_sto`, `Q_loss`, `T_sto` and `Q_loss_layers` are those of the
        run. */
    method SimulateStratified(qIn: seq<real>, qOut: seq<real>, numLayers: int, conductivity: real)
      returns (r: Result<(), StesError>)
      requires Valid() && |qIn| >= hours && |qOut| >= hours
      modifies this, qSto, qLoss, tSto
      ensures numLayers <= 0 ==> r == Failure(if numLayers == 0 then ZeroLayers else NegativeLayers)
      ensures numLayers <= 0 ==> unchanged(this, qSto, qLoss, tSto)
      ensures numLayers > 0 ==> r == Success(())
      ensures numLayers > 0 ==>
        && fresh(tStoLayers) && tStoLayers.Length0 == hours && tStoLayers.Length1 == numLayers
        && var run := StratifiedRun(qIn, qOut, numLayers, conductivity, old(tSto[0]), hours);
           && (forall t :: 0 <= t < hours ==> Row(tStoLayers, t) == run.rows[t])
           && qSto[..] == run.stored && qLoss[..] == run.lost && tSto[..] == run.means
           && qLossLayers[..] == run.lossLayers
      ensures operationalCosts == old(operationalCosts) && efficiency == old(efficiency)
    {
      if numLayers == 0 {
        return Failure(ZeroLayers);
      } else if numLayers < 0 {
        return Failure(NegativeLayers);
      }
      var n := numLayers;
      var t0 := tSto[0];
      tStoLayers := Full(hours, n, t0);
      var heat := new real[n](_ => 0.0);
      // The source's hourly loop treats hour 0 apart; it is taken out of the
      // loop here.
      FirstHour(qIn, qOut, n, conductivity, t0, heat);
      LaterHours(qIn, qOut, n, conductivity, t0, heat);
      assert t0 == old(tSto[0]);
      ghost var run := StratifiedRun(qIn, qOut, n, conductivity, t0, hours);
      assert Holds(run, heat, hours);
      assert qSto[..] == qSto[..hours];
      assert qLoss[..] == qLoss[..hours];
      assert tSto[..] == tSto[..hours];
      r := Success(());
    }

    /** The arrays hold the first `t` hours of `run`: the heat per layer
        after hour `t - 1`, the temperature rows of hours `0 .. t - 1`, the
        three series up to hour `t - 1` and the layer losses of that hour. */
    ghost predicate Holds(run: Run, heat: array<real>, t: nat)
      reads this, heat, tStoLayers, qSto, qLoss, tSto, qLossLayers
    {
      && t <= hours && t <= tStoLayers.Length0 && |run.rows| == t
      && t <= qSto.Length && t <= qLoss.Length && t <= tSto.Length
      && heat[..] == run.heat
      && (forall r :: 0 <= r < t ==> Row(tStoLayers, r) == run.rows[r])
      && qSto[..t] == run.stored && qLoss[..t] == run.lost && tSto[..t] == run.means
      && qLossLayers[..] == run.lossLayers
    }

    /** The hours after the first, one after the other. */
    method LaterHours(qIn: seq<real>, qOut: seq<real>, n: nat, conductivity: real, t0: real, heat: array<real>)
      requires Valid() && n >= 1 && |qIn| >= hours && |qOut| >= hours
      requires tStoLayers.Length0 == hours && tStoLayers.Length1 == n
      requires heat.Length == n && heat != qSto && heat != qLoss && heat != tSto
      requires forall r :: 1 <= r < hours ==> Row(tStoLayers, r) == Uniform(n, t0)
      requires Holds(StratifiedRun(qIn, qOut, n, conductivity, t0, 1), heat, 1)
      modifies this, heat, tStoLayers, qSto, qLoss, tSto
      ensures tStoLayers == old(tStoLayers)
      ensures operationalCosts == old(operationalCosts) && efficiency == old(efficiency)
      ensures Holds(StratifiedRun(qIn, qOut, n, conductivity, t0, hours), heat, hours)
    {
      var t := 1;
      while t < hours
        invariant 1 <= t <= hours
        invariant tStoLayers == old(tStoLayers)
        invariant operationalCosts == old(operationalCosts) && efficiency == old(efficiency)
        invariant forall r :: t <= r < hours ==> Row(tStoLayers, r) == Uniform(n, t0)
        invariant Holds(StratifiedRun(qIn, qOut, n, conductivity, t0, t), heat, t)
      {
        NextHour(qIn, qOut, n, conductivity, t0, heat, t);
        t := t + 1;
      }
    }

    /** Hour `t` of the loop, taking the arrays from the first `t` hours of
        the run to the first `t + 1`. */
    method NextHour(qIn: seq<real>, qOut: seq<real>, n: nat, conductivity: real, t0: real, heat: array<real>, t: nat)
      requires Valid() && n >= 1 && |qIn| >= hours && |qOut| >= hours && 1 <= t < hours
      requires tStoLayers.Length0 == hours && tStoLayers.Length1 == n
      requires heat.Length == n && heat != qSto && heat != qLoss && heat != tSto
      requires forall r :: t <= r < hours ==> Row(tStoLayers, r) == Uniform(n, t0)
      requires Holds(StratifiedRun(qIn, qOut, n, conductivity, t0, t), heat, t)
      modifies this, heat, tStoLayers, qSto, qLoss, tSto
      ensures tStoLayers == old(tStoLayers)
      ensures operationalCosts == old(operationalCosts) && efficiency == old(efficiency)
      ensures forall r :: t + 1 <= r < hours ==> Row(tStoLayers, r) == Uniform(n, t0)
      ensures Holds(StratifiedRun(qIn, qOut, n, conductivity, t0, t + 1), heat, t + 1)
    {
      LaterHour(qIn, qOut, n, conductivity, t0, heat, t);
    }

    /** Hour 0: the loss of the last row, the stored heat of the initial
        temperature spread evenly over the layers, and their sum and the
        row's mean. The net input of the hour is computed and dropped. */
    method FirstHour(qIn: seq<real>, qOut: seq<real>, n: nat, conductivity: real, t0: real, heat: array<real>)
      requires Valid() && n >= 1 && |qIn| >= hours && |qOut| >= hours
      requires tStoLayers.Length0 == hours && tStoLayers.Length1 == n && heat.Length == n
      requires heat != qSto && heat != qLoss && heat != tSto
      requires tSto[0] == t0
      requires forall r :: 0 <= r < hours ==> Row(tStoLayers, r) == Uniform(n, t0)
      modifies this, heat, qSto, qLoss, tSto
      ensures tStoLayers == old(tStoLayers)
      ensures operationalCosts == old(operationalCosts) && efficiency == old(efficiency)
      ensures Holds(StratifiedRun(qIn, qOut, n, conductivity, t0, 1), heat, 1)
    {
      ghost var run := StratifiedRun(qIn, qOut, n, conductivity, t0, 1);
      var prev := Row(tStoLayers, hours - 1);
      assert prev == Uniform(n, t0) == run.rows[0];
      BookLayerLosses(0, prev);
      var remaining := qIn[0] - qOut[0];
      var stored := StoredEnergy(tSto[0]);
      forall j | 0 <= j < n {
        heat[j] := stored / n as real;
      }
      assert heat[..] == run.heat;
      qSto[0], tSto[0] := Sum(heat[..]), Mean(Row(tStoLayers, 0));
      assert qSto[..1] == run.stored && qLoss[..1] == run.lost && tSto[..1] == run.means;
    }

    /** An hour `t` after the first: the loss of the previous row, then
        the discharge, charge and exchange passes on this hour's row with the
        hour's net input, then the layers' sum and the row's mean. */
    method LaterHour(qIn: seq<real>, qOut: seq<real>, n: nat, conductivity: real, t0: real, heat: array<real>, t: nat)
      requires Valid() && n >= 1 && |qIn| >= hours && |qOut| >= hours && 1 <= t < hours
      requires tStoLayers.Length0 == hours && tStoLayers.Length1 == n
      requires heat.Length == n && heat != qSto && heat != qLoss && heat != tSto
      requires Holds(StratifiedRun(qIn, qOut, n, conductivity, t0, t), heat, t)
      requires Row(tStoLayers, t) == Uniform(n, t0)
      modifies this, heat, tStoLayers, qSto, qLoss, tSto
      ensures tStoLayers == old(tStoLayers)
      ensures operationalCosts == old(operationalCosts) && efficiency == old(efficiency)
      ensures OtherRowsUnchanged(tStoLayers, t)
      ensures Holds(AfterHour(qIn, qOut, n, conductivity, t0, t), heat, t + 1)
    {
      ghost var run := StratifiedRun(qIn, qOut, n, conductivity, t0, t);
      ghost var stored, lost, means := qSto[..], qLoss[..], tSto[..];
      var prev := Row(tStoLayers, t - 1);
      BookLayerLosses(t, prev);
      ghost var h := HourWithTotals(StratifiedParams(n, conductivity), heat, tStoLayers, t, prev, qLossLayers[..],
                                    qIn[t] - qOut[t], qSto, tSto);
      assert h == Hour(StratifiedParams(n, conductivity), run.heat, Uniform(n, t0), run.rows[t - 1],
                       Losses(run.rows[t - 1]), qIn[t] - qOut[t]);
      assert AfterHour(qIn, qOut, n, conductivity, t0, t) == Extended(run, h, Losses(run.rows[t - 1]));
      forall r | 0 <= r <= t
        ensures Row(tStoLayers, r) == Extended(run, h, qLossLayers[..]).rows[r]
      {
        if r < t {
          assert Row(tStoLayers, r) == old(Row(tStoLayers, r));
        }
      }
      UpdatedPrefix(stored, qSto[..], t, Sum(h.heat));
      UpdatedPrefix(lost, qLoss[..], t, Sum(qLossLayers[..]));
      UpdatedPrefix(means, tSto[..], t, Mean(h.temps));
    }

    /** The loss step of hour `t`: the per-layer losses of the previous
        row `prev` (for hour 0, the last row) and their sum as the hour's
        loss. */
    method BookLayerLosses(t: nat, prev: seq<real>)
      requires Valid() && t < hours
      modifies this, qLoss
      ensures fresh(qLossLayers) && qLossLayers[..] == Losses(prev)
      ensures qLoss[..] == old(qLoss[..])[t := Sum(Losses(prev))]
      ensures tStoLayers == old(tStoLayers)
      ensures operationalCosts == old(operationalCosts) && efficiency == old(efficiency)
    {
      var total := CalculateStratifiedHeatLoss(prev);
      qLoss[t] := total;
    }

    // -------------------------------------------------------------------
    // Post-processing

    /** `calculate_operational_costs`: the summed hourly losses priced. */
    method CalculateOperationalCosts(price: real)
      modifies this
      ensures operationalCosts == Some(OperationalCosts(qLoss[..], price))
      ensures tStoLayers == old(tStoLayers) && qLossLayers == old(qLossLayers) && efficiency == old(efficiency)
    {
      operationalCosts := Some(OperationalCosts(qLoss[..], price));
    }

    /** `calculate_efficiency`: total output over total input. */
    method CalculateEfficiency(qIn: seq<real>, qOut: seq<real>)
      requires Valid()
      modifies this
      ensures efficiency == Efficiency(qIn, qOut)
      ensures tStoLayers == old(tStoLayers) && qLossLayers == old(qLossLayers) && operationalCosts == old(operationalCosts)
    {
      var totalInput := Sum(qIn);
      var totalOutput := Sum(qOut);
      var changeInStoredEnergy := qSto[hours - 1] - qSto[0];
      if totalInput == 0.0 {
        efficiency := None;
      } else {
        efficiency := Some(totalOutput / totalInput);
      }
    }
  }

  lemma PositiveTriple(x: real, y: real, z: real)
    requires 0.0 < x && 0.0 < y && 0.0 < z
    ensures 0.0 < x * y * z
  {
    PositiveProduct(x, y);
    PositiveProduct(x * y, z);
  }

  /** Writing entry `t` of a series extends its first `t` entries. */
  lemma UpdatedPrefix(before: seq<real>, after: seq<real>, t: nat, x: real)
    requires t < |before| && after == before[t := x]
    ensures after[..t + 1] == before[..t] + [x]
  {
  }

  lemma SumExtend(s: seq<real>, t: nat)
    requires 1 <= t < |s|
    ensures Sum(s[1..t + 1]) == Sum(s[1..t]) + s[t]
  {
    assert s[1..t + 1] == s[1..t] + [s[t]];
    SumAppend(s[1..t], [s[t]]);
    SumSingleton(s[t]);
  }

  /** `np.sum(Q_loss) * price`. */
  function OperationalCosts(losses: seq<real>, price: real): real {
    Sum(losses) * price
  }

  /** Costs are never negative when neither the losses nor the price are. */
  lemma OperationalCostsNonNegative(losses: seq<real>, price: real)
    requires 0.0 <= price && forall i :: 0 <= i < |losses| ==> 0.0 <= losses[i]
    ensures 0.0 <= OperationalCosts(losses, price)
  {
    SumNonNegative(losses);
    NonNegativeProduct(Sum(losses), price);
  }

  /** `np.sum(Q_out) / np.sum(Q_in)`; numpy yields inf or nan for a zero
      denominator, which the model reports as `None`. */
  function Efficiency(qIn: seq<real>, qOut: seq<real>): (r: Option<real>)
    ensures r.Some? <==> Sum(qIn) != 0.0
    ensures r.Some? ==> r.value * Sum(qIn) == Sum(qOut)
  {
    if Sum(qIn) == 0.0 then None else Some(Sum(qOut) / Sum(qIn))
  }
}
