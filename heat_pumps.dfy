/** The dispatch rules of the heat-pump generators: the flow-temperature
    cap and the NaN rule of the COP lookup, the heat generation costs, and
    the hourly operation of the river-water, waste-heat and geothermal heat
    pumps (src/districtheatsim/heat_generators/heat_pumps.py). The COP
    table's interpolator and the annuity formula are parameters; every
    series is a sequence of reals with one entry per hour. */
module HeatPumps {
  import opened Common

  // ---------------------------------------------------------------------
  // COP lookup (`HeatPump.calculate_COP`)

  /** What the interpolator yields at one (source, flow) temperature pair:
      a number (interpolated inside the table, extrapolated linearly
      outside it), or NaN for a NaN temperature or table entry. */
  datatype Interpolated = NaN | Number(value: real)

  /** The COP table as an interpolator over (source temperature, flow
      temperature). */
  type Interpolator = (real, real) -> Interpolated

  /** A source temperature: one number for every hour, or one per hour. */
  datatype SourceTemperature = Scalar(temp: real) | Series(temps: seq<real>)

  /** The errors the heat-pump code raises. */
  datatype HeatPumpError =
    | ShapeMismatch             // ValueError: QT is neither a number nor as long as VLT_L
    | UnknownSource(base: string) // KeyError: no useful life for this name prefix
    | EmptySeries               // ValueError: np.max of an empty series

  /** The technical limit of a heat pump: a lift of 75 K over the source. */
  const MaxLift: real := 75.0

  /** The COP and the capped flow temperature, hour by hour. */
  datatype CopTable = CopTable(cop: seq<real>, flow: seq<real>)

  /** numpy broadcasting of `np.minimum(VLT_L, 75 + QT)` followed by the
      length check: a source series must be as long as the flow series,
      unless there is a single flow temperature. */
  predicate Broadcastable(vlt: seq<real>, qt: SourceTemperature) {
    qt.Scalar? || |qt.temps| == |vlt| || |vlt| == 1
  }

  /** Number of hours in the result: the flow series for a scalar source,
      the source series otherwise. */
  function CopLength(vlt: seq<real>, qt: SourceTemperature): nat {
    if qt.Scalar? then |vlt| else |qt.temps|
  }

  /** The source temperature of hour `i`. */
  function SourceAt(qt: SourceTemperature, i: nat): real
    requires qt.Series? ==> i < |qt.temps|
  {
    if qt.Scalar? then qt.temp else qt.temps[i]
  }

  /** The flow temperature of hour `i`, a single one being broadcast. */
  function FlowAt(vlt: seq<real>, i: nat): real
    requires i < |vlt| || |vlt| == 1
  {
    if |vlt| == 1 then vlt[0] else vlt[i]
  }

  /** NaN (a NaN input or table entry) counts as a COP of 0. */
  function CopOf(x: Interpolated): real {
    if x.NaN? then 0.0 else x.value
  }

  /** The flow temperature a heat pump on source `qt` can reach when
      `vlt` is asked for. */
  function Capped(vlt: real, qt: real): real {
    Min(vlt, MaxLift + qt)
  }

  /** The COP at one hour with a scalar source temperature. */
  function CopAt(f: Interpolator, qt: real, vlt: real): real {
    CopOf(f(qt, Capped(vlt, qt)))
  }

  /** `calculate_COP`: the flow temperatures capped at 75 K above the
      source, and the interpolated COP at each capped pair with NaN
      replaced by 0. */
  function CalculateCop(vlt: seq<real>, qt: SourceTemperature, f: Interpolator): (r: Result<CopTable, HeatPumpError>)
    ensures r.Failure? <==> !Broadcastable(vlt, qt)
    ensures r.Failure? ==> r.error == ShapeMismatch
    ensures r.Success? ==> |r.value.cop| == |r.value.flow| == CopLength(vlt, qt)
    ensures r.Success? ==> forall i :: 0 <= i < |r.value.flow| ==>
      && r.value.flow[i] <= FlowAt(vlt, i) && r.value.flow[i] <= MaxLift + SourceAt(qt, i)
      && (r.value.flow[i] == FlowAt(vlt, i) || r.value.flow[i] == MaxLift + SourceAt(qt, i))
    ensures r.Success? ==> forall i :: 0 <= i < |r.value.cop| ==>
      && (f(SourceAt(qt, i), r.value.flow[i]).NaN? ==> r.value.cop[i] == 0.0)
      && (f(SourceAt(qt, i), r.value.flow[i]).Number? ==> r.value.cop[i] == f(SourceAt(qt, i), r.value.flow[i]).value)
  {
    if !Broadcastable(vlt, qt) then
      Failure(ShapeMismatch)
    else
      var m := CopLength(vlt, qt);
      var flow := seq(m, i requires 0 <= i < m => Min(FlowAt(vlt, i), MaxLift + SourceAt(qt, i)));
      Success(CopTable(seq(m, i requires 0 <= i < m => CopOf(f(SourceAt(qt, i), flow[i]))), flow))
  }

  /** With a scalar source the table holds, hour by hour, the capped flow
      temperature and the COP there. */
  lemma ScalarSourceCop(vlt: seq<real>, qt: real, f: Interpolator)
    ensures var r := CalculateCop(vlt, Scalar(qt), f);
      && r.Success? && |r.value.cop| == |vlt|
      && forall i :: 0 <= i < |vlt| ==> r.value.flow[i] == Capped(vlt[i], qt) && r.value.cop[i] == CopAt(f, qt, vlt[i])
  {
    var r := CalculateCop(vlt, Scalar(qt), f);
    forall i | 0 <= i < |vlt|
      ensures r.value.flow[i] == Capped(vlt[i], qt) && r.value.cop[i] == CopAt(f, qt, vlt[i])
    {
      assert FlowAt(vlt, i) == vlt[i];
    }
  }

  /** The cap is reached once: asking for the capped temperatures again
      changes none of them. */
  lemma CapIdempotent(vlt: seq<real>, qt: real, f: Interpolator)
    ensures var r := CalculateCop(vlt, Scalar(qt), f);
      CalculateCop(r.value.flow, Scalar(qt), f) == r
  {
    var r := CalculateCop(vlt, Scalar(qt), f);
    ScalarSourceCop(vlt, qt, f);
    var s := CalculateCop(r.value.flow, Scalar(qt), f);
    ScalarSourceCop(r.value.flow, qt, f);
    assert s.value.flow == r.value.flow;
    assert s.value.cop == r.value.cop;
  }

  // ---------------------------------------------------------------------
  // Heat generation costs (`HeatPump.calculate_heat_generation_costs`)

  /** `Nutzungsdauer_WQ_dict`: the useful life in years of each kind of
      heat source, keyed by the generator name's prefix. */
  const SourceLifetimes: map<string, nat> :=
    map["Abwärme" := 20, "Abwasserwärme" := 20, "Flusswasser" := 20, "Geothermie" := 30]

  /** `name.split('_')[0]`: the name up to its first underscore. */
  function BaseName(name: string): (r: string)
    ensures r <= name && '_' !in r
    ensures |r| < |name| ==> name[|r|] == '_'
  {
    if |name| == 0 || name[0] == '_' then "" else [name[0]] + BaseName(name[1..])
  }

  /** The arguments `annuität` is called with; `energy` and `energyPrice`
      are `None` where the call leaves them to their defaults. */
  datatype AnnuityArgs = AnnuityArgs(investment: real, life: nat, fInst: real, fWInsp: real, operatingEffort: real,
                                     q: real, r: real, t: int, energy: Option<real>, energyPrice: Option<real>,
                                     hourlyRate: real)

  /** The annuity formula (`annuität`), whose source is not part of this
      model. */
  type Annuity = AnnuityArgs -> real

  /** What every heat pump carries from the base class: its name and the
      specific investment cost of the heat pump per kW. */
  datatype HeatPumpBase = HeatPumpBase(name: string, specInvestHeatPump: real)

  /** The annuity of the heat pump itself: 20 years, installation factor 1,
      maintenance factor 1.5, no operating effort, and the electricity it
      uses at the given price. The investment is priced on the heat output
      rounded to whole kW. */
  function HeatPumpAnnuity(b: HeatPumpBase, heatOutput: real, electricity: real, price: real, q: real, r: real,
                           t: int, hourlyRate: real): AnnuityArgs
  {
    AnnuityArgs(b.specInvestHeatPump * RoundHalfEven(heatOutput) as real, 20, 1.0, 1.5, 0.0, q, r, t,
                Some(electricity), Some(price), hourlyRate)
  }

  /** The annuity of the heat source: its useful life, installation and
      maintenance factors 0.5, no operating effort, and no energy. */
  function SourceAnnuity(life: nat, specInvestSource: real, heatOutput: real, q: real, r: real, t: int,
                         hourlyRate: real): AnnuityArgs
  {
    AnnuityArgs(specInvestSource * heatOutput, life, 0.5, 0.5, 0.0, q, r, t, None, None, hourlyRate)
  }

  /** `calculate_heat_generation_costs`: nothing when no heat is produced;
      otherwise a `KeyError` for a name whose prefix has no useful life,
      and the two annuities per unit of heat. `bew` is accepted and not
      used, as in the source. */
  function HeatGenerationCosts(b: HeatPumpBase, annuity: Annuity, heatOutput: real, heatAmount: real,
                               electricity: real, specInvestSource: real, price: real, q: real, r: real, t: int,
                               bew: real, hourlyRate: real): (c: Result<real, HeatPumpError>)
    ensures heatAmount == 0.0 ==> c == Success(0.0)
    ensures c.Failure? <==> heatAmount != 0.0 && BaseName(b.name) !in SourceLifetimes
    ensures c.Failure? ==> c.error == UnknownSource(BaseName(b.name))
    ensures c.Success? && heatAmount != 0.0 ==>
      c.value * heatAmount
      == annuity(HeatPumpAnnuity(b, heatOutput, electricity, price, q, r, t, hourlyRate))
         + annuity(SourceAnnuity(SourceLifetimes[BaseName(b.name)], specInvestSource, heatOutput, q, r, t, hourlyRate))
  {
    if heatAmount == 0.0 then
      Success(0.0)
    else
      var perHeatPump := annuity(HeatPumpAnnuity(b, heatOutput, electricity, price, q, r, t, hourlyRate)) / heatAmount;
      var base := BaseName(b.name);
      if base !in SourceLifetimes then
        Failure(UnknownSource(base))
      else
        var e1 := annuity(SourceAnnuity(SourceLifetimes[base], specInvestSource, heatOutput, q, r, t, hourlyRate));
        var perSource := e1 / heatAmount;
        SharesAddUp(annuity(HeatPumpAnnuity(b, heatOutput, electricity, price, q, r, t, hourlyRate)), e1, heatAmount);
        Success(perHeatPump + perSource)
  }

  lemma SharesAddUp(a: real, b: real, w: real)
    requires w != 0.0
    ensures (a / w + b / w) * w == a + b
  {
  }

  /** The prefix decides the useful life: any suffix after an underscore
      is ignored. */
  lemma BaseNameOfSuffixed(base: string, suffix: string)
    requires '_' !in base
    ensures BaseName(base + "_" + suffix) == base
    ensures BaseName(base) == base
  {
    if |base| > 0 {
      assert (base + "_" + suffix)[1..] == base[1..] + "_" + suffix;
      BaseNameOfSuffixed(base[1..], suffix);
    } else {
      assert (base + "_" + suffix)[0] == '_';
    }
  }

  // ---------------------------------------------------------------------
  // Shared arithmetic of the hourly rules

  /** `n` zeros: `np.zeros_like` of a series of `n` entries. */
  function Zeros(n: nat): (r: seq<real>)
    ensures |r| == n && forall i :: 0 <= i < n ==> r[i] == 0.0
  {
    if n == 0 then [] else Zeros(n - 1) + [0.0]
  }

  /** `np.sum(x / 1000) * duration`: a series of kW over hours, as MWh. */
  function Total(x: seq<real>, duration: real): real {
    Sum(Scaled(x, 1000.0)) * duration
  }

  /** The totals are the plain sums in thousands. */
  lemma TotalOfSum(x: seq<real>, duration: real)
    ensures Total(x, duration) == Sum(x) / 1000.0 * duration
  {
    SumScaled(x, 1000.0);
  }

  /** Emissions and primary energy of a heat pump from its electricity use
      and heat output. */
  datatype Impact = Impact(co2: real, specificCo2: real, primaryEnergy: real)

  /** `calculate_environmental_impact`: the electricity's CO2 and primary
      energy, and the CO2 per unit of heat (0 when there is no heat). */
  function EnvironmentalImpact(electricity: real, heat: real, co2Factor: real, primaryEnergyFactor: real): (r: Impact)
    ensures heat > 0.0 ==> r.specificCo2 * heat == r.co2
    ensures heat <= 0.0 ==> r.specificCo2 == 0.0
    ensures r.co2 == 0.0 && r.primaryEnergy == 0.0 <== electricity == 0.0
  {
    var co2 := electricity * co2Factor;
    Impact(co2, if heat > 0.0 then co2 / heat else 0.0, electricity * primaryEnergyFactor)
  }

  /** `np.zeros`: a new array of `n` zeros. */
  method ZeroArray(n: nat) returns (a: array<real>)
    ensures fresh(a) && a.Length == n && forall i :: 0 <= i < n ==> a[i] == 0.0
  {
    a := new real[n];
    for i := 0 to n
      invariant forall j :: 0 <= j < i ==> a[j] == 0.0
    {
      a[i] := 0.0;
    }
  }

  // ---------------------------------------------------------------------
  // River-water heat pump (`RiverHeatPump`)

  /** One hour of a heat pump on a given heat: the heat it took from the
      source and the electric power it used. */
  datatype Split = Split(fromSource: real, electric: real)

  /** `calculate_heat_pump` of the river heat pump at one hour:
      `Kühlleistung = W * (1 - 1/COP)` and `el = W - Kühlleistung`. The
      heat is what the source gave plus what the power gave, and the
      power is the heat over the COP. */
  function RiverSplit(w: real, cop: real): (r: Split)
    requires cop != 0.0
    ensures r.fromSource + r.electric == w
    ensures r.electric * cop == w
  {
    var cooling := w * (1.0 - 1.0 / cop);
    CoolingLeavesHeatOverCop(w, cop);
    Split(cooling, w - cooling)
  }

  lemma CoolingLeavesHeatOverCop(w: real, cop: real)
    requires cop != 0.0
    ensures (w - w * (1.0 - 1.0 / cop)) * cop == w
  {
    assert w - w * (1.0 - 1.0 / cop) == w / cop;
  }

  /** The outcome of one hour of the river heat pump. */
  datatype RiverHour = RiverHour(heat: real, cooling: real, electric: real, flow: real)

  /** The series `calculate_river_heat` returns: heat (MWh), electricity
      (MWh), heat output (kW), electric power (kW), cooling (MWh) and the
      cooling load (kW). */
  datatype RiverOutput = RiverOutput(heatAmount: real, electricity: real, heat: seq<real>, electric: seq<real>,
                                     coolingAmount: real, cooling: seq<real>)

  /** The result of `calculate_river_heat` from its hourly series: each
      total is the series' sum in thousands over `duration` hours. */
  function RiverTotals(heat: seq<real>, electric: seq<real>, cooling: seq<real>, duration: real): (r: RiverOutput)
    ensures r.heat == heat && r.electric == electric && r.cooling == cooling
    ensures r.heatAmount == Sum(heat) / 1000.0 * duration
    ensures r.electricity == Sum(electric) / 1000.0 * duration
    ensures r.coolingAmount == Sum(cooling) / 1000.0 * duration
  {
    TotalOfSum(heat, duration);
    TotalOfSum(electric, duration);
    TotalOfSum(cooling, duration);
    RiverOutput(Total(heat, duration), Total(electric, duration), heat, electric, Total(cooling, duration), cooling)
  }

  class RiverHeatPump {
    const base: HeatPumpBase
    /** `Wärmeleistung_FW_WP`: the heat output of the heat pump (kW). */
    const capacity: real
    /** `Temperatur_FW_WP`: the river temperature. */
    const riverTemp: real
    /** `dT`: how far below the requested flow temperature it may stay. */
    const dT: real
    const specInvestRiver: real
    const minPartLoad: real
    const co2Factor: real
    const primaryEnergyFactor: real

    /** Set by the yearly calculation, which is not part of this model. */
    var heatAmount: real
    var electricity: real

    var co2Emissions: real
    var specificCo2: real
    var primaryEnergy: real

    /** `RiverHeatPump(...)`, with the default CO2 factor 0.4 t/MWh and
        primary energy factor 2.4. */
    constructor (name: string, capacity: real, riverTemp: real, dT: real, specInvestRiver: real,
                 specInvestHeatPump: real, minPartLoad: real)
      ensures base == HeatPumpBase(name, specInvestHeatPump)
      ensures this.capacity == capacity && this.riverTemp == riverTemp && this.dT == dT
      ensures this.specInvestRiver == specInvestRiver && this.minPartLoad == minPartLoad
      ensures co2Factor == 0.4 && primaryEnergyFactor == 2.4
    {
      base := HeatPumpBase(name, specInvestHeatPump);
      this.capacity := capacity;
      this.riverTemp := riverTemp;
      this.dT := dT;
      this.specInvestRiver := specInvestRiver;
      this.minPartLoad := minPartLoad;
      co2Factor := 0.4;
      primaryEnergyFactor := 2.4;
    }

    /** `Last >= Wärmeleistung_FW_WP * min_Teillast`: the hours in which
        the heat pump may run. */
    predicate Operates(load: real) {
      load >= capacity * minPartLoad
    }

    /** `calculate_heat_pump`: for the heat `heat[i]` asked of each hour,
        the heat taken from the river, the electric power and the flow
        temperature reached. */
    function CalculateHeatPump(heat: seq<real>, vlt: seq<real>, f: Interpolator): (r: (seq<real>, seq<real>, seq<real>))
      requires |heat| == |vlt|
      requires forall i :: 0 <= i < |vlt| ==> CopAt(f, riverTemp, vlt[i]) != 0.0
      ensures |r.0| == |r.1| == |r.2| == |heat|
      ensures forall i :: 0 <= i < |heat| ==>
        && r.0[i] + r.1[i] == heat[i] && r.1[i] * CopAt(f, riverTemp, vlt[i]) == heat[i]
        && r.2[i] == Capped(vlt[i], riverTemp)
    {
      var table := CalculateCop(vlt, Scalar(riverTemp), f).value;
      ScalarSourceCop(vlt, riverTemp, f);
      var n := |heat|;
      (seq(n, i requires 0 <= i < n => RiverSplit(heat[i], table.cop[i]).fromSource),
       seq(n, i requires 0 <= i < n => RiverSplit(heat[i], table.cop[i]).electric),
       table.flow)
    }

    /** One hour of `calculate_river_heat`: an operating hour delivers the
        load up to the capacity, split as `calculate_heat_pump` does; an
        hour whose reachable flow temperature stays more than `dT` below
        the requested one delivers nothing after all. */
    function Hour(f: Interpolator, load: real, vlt: real): (h: RiverHour)
      requires Operates(load) ==> CopAt(f, riverTemp, vlt) != 0.0
      ensures !Operates(load) ==> h == RiverHour(0.0, 0.0, 0.0, 0.0)
      ensures Operates(load) ==> h.flow == Capped(vlt, riverTemp)
      ensures Operates(load) && h.flow >= vlt - dT ==> h.heat == Min(load, capacity)
      ensures h.flow < vlt - dT ==> h.heat == 0.0 && h.cooling == 0.0 && h.electric == 0.0
      ensures (h.heat == 0.0 || h.heat == Min(load, capacity)) && h.cooling + h.electric == h.heat
      ensures h.electric * CopAt(f, riverTemp, vlt) == h.heat
    {
      if Operates(load) then
        var w := Min(load, capacity);
        var s := RiverSplit(w, CopAt(f, riverTemp, vlt));
        var flow := Capped(vlt, riverTemp);
        if flow >= vlt - dT then RiverHour(w, s.fromSource, s.electric, flow)
        else RiverHour(0.0, 0.0, 0.0, flow)
      else
        RiverHour(0.0, 0.0, 0.0, 0.0)
    }

    /** After the first mask: an operating hour holds the load up to the
        output, its split and its reachable flow temperature; any other
        hour holds zeros. */
    ghost predicate FirstMask(f: Interpolator, load: seq<real>, vlt: seq<real>, heat: seq<real>, cooling: seq<real>,
                              electric: seq<real>, flow: seq<real>)
    {
      && |load| == |vlt| == |heat| == |cooling| == |electric| == |flow|
      && forall i :: 0 <= i < |load| ==>
        if Operates(load[i]) then
          && CopAt(f, riverTemp, vlt[i]) != 0.0
          && var w := Min(load[i], capacity);
          var s := RiverSplit(w, CopAt(f, riverTemp, vlt[i]));
          heat[i] == w && cooling[i] == s.fromSource && electric[i] == s.electric && flow[i] == Capped(vlt[i], riverTemp)
        else
          heat[i] == cooling[i] == electric[i] == flow[i] == 0.0
    }

    /** Every hour's heat, cooling and electric power are those of `Hour`. */
    ghost predicate HoursMatch(f: Interpolator, load: seq<real>, vlt: seq<real>, heat: seq<real>, cooling: seq<real>,
                               electric: seq<real>)
    {
      && |load| == |vlt| == |heat| == |cooling| == |electric|
      && forall i :: 0 <= i < |load| ==>
        && (Operates(load[i]) ==> CopAt(f, riverTemp, vlt[i]) != 0.0)
        && var h := Hour(f, load[i], vlt[i]);
        heat[i] == h.heat && cooling[i] == h.cooling && electric[i] == h.electric
    }

    /** `calculate_river_heat`: all zeros for a heat pump without output;
        otherwise the hours the heat pump may run get the load up to its
        output and the split of `calculate_heat_pump`, the hours whose flow
        temperature it cannot reach are zeroed again, and the series are
        totalled as MWh over `duration`. */
    method CalculateRiverHeat(load: seq<real>, vlt: seq<real>, f: Interpolator, duration: real) returns (r: RiverOutput)
      requires |load| == |vlt|
      requires forall i :: 0 <= i < |load| && Operates(load[i]) ==> CopAt(f, riverTemp, vlt[i]) != 0.0
      ensures capacity == 0.0 ==> r == RiverOutput(0.0, 0.0, Zeros(|load|), Zeros(|vlt|), 0.0, Zeros(|vlt|))
      ensures capacity != 0.0 ==>
        && HoursMatch(f, load, vlt, r.heat, r.cooling, r.electric)
        && r == RiverTotals(r.heat, r.electric, r.cooling, duration)
    {
      if capacity == 0.0 {
        return RiverOutput(0.0, 0.0, Zeros(|load|), Zeros(|vlt|), 0.0, Zeros(|vlt|));
      }
      var heat := ZeroArray(|load|);
      var cooling := ZeroArray(|load|);
      var electric := ZeroArray(|load|);
      var flow := ZeroArray(|load|);
      OperatingHours(load, vlt, f, heat, cooling, electric, flow);
      UnreachedHours(load, vlt, f, heat, cooling, electric, flow);
      r := RiverTotals(heat[..], electric[..], cooling[..], duration);
    }

    /** The first mask: every hour the heat pump may run gets the load up
        to its output, and the split and flow temperature of
        `calculate_heat_pump`; the other hours stay at zero. */
    method OperatingHours(load: seq<real>, vlt: seq<real>, f: Interpolator,
                          heat: array<real>, cooling: array<real>, electric: array<real>, flow: array<real>)
      requires |load| == |vlt| == heat.Length == cooling.Length == electric.Length == flow.Length
      requires forall i :: 0 <= i < |load| && Operates(load[i]) ==> CopAt(f, riverTemp, vlt[i]) != 0.0
      requires forall i :: 0 <= i < |load| ==> heat[i] == cooling[i] == electric[i] == flow[i] == 0.0
      requires heat != cooling && heat != electric && heat != flow && cooling != electric && cooling != flow
      requires electric != flow
      modifies heat, cooling, electric, flow
      ensures FirstMask(f, load, vlt, heat[..], cooling[..], electric[..], flow[..])
    {
      for i := 0 to |load|
        invariant forall j :: 0 <= j < |load| ==>
          if j < i && Operates(load[j]) then
            var w := Min(load[j], capacity);
            var s := RiverSplit(w, CopAt(f, riverTemp, vlt[j]));
            heat[j] == w && cooling[j] == s.fromSource && electric[j] == s.electric
            && flow[j] == Capped(vlt[j], riverTemp)
          else
            heat[j] == cooling[j] == electric[j] == flow[j] == 0.0
      {
        if Operates(load[i]) {
          var w := Min(load[i], capacity);
          var s := RiverSplit(w, CopAt(f, riverTemp, vlt[i]));
          heat[i], cooling[i], electric[i], flow[i] := w, s.fromSource, s.electric, Capped(vlt[i], riverTemp);
        }
      }
    }

    /** The second mask: the hours whose reached flow temperature is more
        than `dT` below the requested one get no heat, cooling or power. */
    method UnreachedHours(load: seq<real>, vlt: seq<real>, f: Interpolator,
                          heat: array<real>, cooling: array<real>, electric: array<real>, flow: array<real>)
      requires |load| == |vlt| == heat.Length == cooling.Length == electric.Length == flow.Length
      requires forall i :: 0 <= i < |load| && Operates(load[i]) ==> CopAt(f, riverTemp, vlt[i]) != 0.0
      requires heat != cooling && heat != electric && heat != flow && cooling != electric && cooling != flow
      requires electric != flow
      requires FirstMask(f, load, vlt, heat[..], cooling[..], electric[..], flow[..])
      modifies heat, cooling, electric
      ensures HoursMatch(f, load, vlt, heat[..], cooling[..], electric[..])
    {
      for i := 0 to |load|
        invariant forall j :: 0 <= j < |load| ==> flow[j] == old(flow[j])
        invariant forall j :: 0 <= j < i ==>
          var h := Hour(f, load[j], vlt[j]);
          heat[j] == h.heat && cooling[j] == h.cooling && electric[j] == h.electric
        invariant forall j :: i <= j < |load| ==>
          heat[j] == old(heat[j]) && cooling[j] == old(cooling[j]) && electric[j] == old(electric[j])
      {
        if !(flow[i] >= vlt[i] - dT) {
          heat[i], cooling[i], electric[i] := 0.0, 0.0, 0.0;
        }
      }
    }

    /** `calculate_environmental_impact` on the stored yearly figures. */
    method CalculateEnvironmentalImpact()
      modifies this`co2Emissions, this`specificCo2, this`primaryEnergy
      ensures Impact(co2Emissions, specificCo2, primaryEnergy)
              == EnvironmentalImpact(electricity, heatAmount, co2Factor, primaryEnergyFactor)
      ensures heatAmount == old(heatAmount) && electricity == old(electricity)
    {
      var i := EnvironmentalImpact(electricity, heatAmount, co2Factor, primaryEnergyFactor);
      co2Emissions, specificCo2, primaryEnergy := i.co2, i.specificCo2, i.primaryEnergy;
    }
  }

  // ---------------------------------------------------------------------
  // Shared by the waste-heat and geothermal heat pumps

  /** The heat output at which a heat pump of COP `cop` draws exactly
      `sourcePower` from its source, and the electric power it then uses. */
  datatype Rated = Rated(heat: real, electric: real)

  /** `source / (1 - 1/COP)` and `heat - source`: the output and power of a
      heat pump that draws `sourcePower`. The output is the source power
      plus the electric power, and the electric power is the output over
      the COP. */
  function RatedAt(sourcePower: real, cop: real): (r: Rated)
    requires cop != 0.0 && cop != 1.0
    ensures r.heat - r.electric == sourcePower
    ensures r.electric * cop == r.heat
    ensures sourcePower != 0.0 ==> r.heat != 0.0
  {
    var heat := sourcePower / (1.0 - 1.0 / cop);
    RatedSplit(sourcePower, cop, heat);
    Rated(heat, heat - sourcePower)
  }

  lemma RatedSplit(k: real, c: real, w: real)
    requires c != 0.0 && c != 1.0 && w == k / (1.0 - 1.0 / c)
    ensures (w - k) * c == w
    ensures k != 0.0 ==> w != 0.0
  {
    var d := 1.0 - 1.0 / c;
    assert d != 0.0;
    assert w * d == k;
    assert w * d == w - w / c;
    assert w - k == w / c;
  }

  /** The largest entry of a non-empty series (`np.max`, `max`). */
  function MaxOf(s: seq<real>): (m: real)
    requires |s| > 0
    ensures m in s
    ensures forall i :: 0 <= i < |s| ==> s[i] <= m
  {
    if |s| == 1 then s[0]
    else
      var m := MaxOf(s[..|s| - 1]);
      assert forall i :: 0 <= i < |s| - 1 ==> s[..|s| - 1][i] == s[i];
      if s[|s| - 1] > m then s[|s| - 1] else m
  }

  // ---------------------------------------------------------------------
  // Waste-heat heat pump (`WasteHeatPump`)

  /** What a heat pump delivers in one hour: heat and electric power. */
  datatype Delivered = Delivered(heat: real, electric: real)

  /** One hour of `calculate_waste_heat` as evidently intended: an hour
      whose load reaches the minimum part load of the rated output gets
      the load up to the rated output, and the rated electric power in
      proportion; any other hour gets nothing. */
  function WasteHour(rated: Rated, load: real, minPartLoad: real): (d: Delivered)
    requires rated.heat != 0.0
    ensures load < rated.heat * minPartLoad ==> d == Delivered(0.0, 0.0)
    ensures load >= rated.heat * minPartLoad ==> d.heat == Min(load, rated.heat)
    ensures d.electric * rated.heat == d.heat * rated.electric
  {
    if load >= rated.heat * minPartLoad then
      var w := Min(load, rated.heat);
      ProportionalShare(w, rated.heat, rated.electric);
      Delivered(w, w / rated.heat * rated.electric)
    else
      Delivered(0.0, 0.0)
  }

  lemma ProportionalShare(w: real, total: real, part: real)
    requires total != 0.0
    ensures (w / total * part) * total == w * part
  {
  }

  /** One hour of `calculate_waste_heat` as written: the electric power is
      the delivered heat less the rated electric power in proportion. */
  function WasteHourAsWritten(rated: Rated, load: real, minPartLoad: real): (d: Delivered)
    requires rated.heat != 0.0
    ensures d.heat == WasteHour(rated, load, minPartLoad).heat
    ensures d.electric == d.heat - WasteHour(rated, load, minPartLoad).electric
  {
    if load >= rated.heat * minPartLoad then
      var w := Min(load, rated.heat);
      Delivered(w, w - w / rated.heat * rated.electric)
    else
      Delivered(0.0, 0.0)
  }

  /** At every hour the waste-heat pump delivers heat at its COP, never
      more than a non-negative rated output, and nothing below the
      part-load limit. */
  lemma WasteHourAtCop(rated: Rated, cop: real, load: real, minPartLoad: real)
    requires rated.heat != 0.0 && rated.electric * cop == rated.heat
    ensures var d := WasteHour(rated, load, minPartLoad);
      && d.electric * cop == d.heat
      && (0.0 <= rated.heat ==> d.heat <= rated.heat)
      && (load < rated.heat * minPartLoad ==> d.heat == 0.0)
  {
    if load >= rated.heat * minPartLoad {
      var w := Min(load, rated.heat);
      ShareAtCop(w, rated.heat, rated.electric, cop);
    }
  }

  lemma ShareAtCop(w: real, total: real, part: real, cop: real)
    requires total != 0.0 && part * cop == total
    ensures (w / total * part) * cop == w
  {
    assert (w / total * part) * cop == w / total * (part * cop);
  }

  /** As written, the electric power of an hour at full output is the
      cooling capacity drawn from the waste heat rather than the power the
      heat pump uses: with a cooling capacity of 100 kW and a COP of 4 the
      output is 400/3 kW, which needs 100/3 kW of power, but 100 kW are
      booked. */
  lemma WasteElectricAsWrittenCounterexample()
    ensures var rated := RatedAt(100.0, 4.0);
      && WasteHourAsWritten(rated, 1000.0, 0.2).electric == 100.0
      && WasteHour(rated, 1000.0, 0.2).electric * 3.0 == 100.0
  {
    var rated := RatedAt(100.0, 4.0);
    assert rated.heat * 3.0 == 400.0;
    assert rated.heat - rated.electric == 100.0;
    var d := WasteHour(rated, 1000.0, 0.2);
    assert d.heat == rated.heat;
    assert d.electric == rated.electric;
  }

  /** The result of `calculate_waste_heat`: heat (MWh), electricity (MWh),
      heat output (kW) and electric power (kW). */
  datatype WasteOutput = WasteOutput(heatAmount: real, electricity: real, heat: seq<real>, electric: seq<real>)

  /** The result from the hourly series: each total is the series' sum in
      thousands over `duration` hours. */
  function WasteTotals(heat: seq<real>, electric: seq<real>, duration: real): (r: WasteOutput)
    ensures r.heat == heat && r.electric == electric
    ensures r.heatAmount == Sum(heat) / 1000.0 * duration
    ensures r.electricity == Sum(electric) / 1000.0 * duration
  {
    TotalOfSum(heat, duration);
    TotalOfSum(electric, duration);
    WasteOutput(Total(heat, duration), Total(electric, duration), heat, electric)
  }

  /** The masks of `calculate_waste_heat`: zero series, then every hour
      whose load reaches the part-load limit of its rated output is
      overwritten with what `WasteHour` delivers. */
  method WasteHours(rated: seq<Rated>, load: seq<real>, minPartLoad: real) returns (heat: seq<real>, electric: seq<real>)
    requires |rated| == |load|
    requires forall i :: 0 <= i < |rated| ==> rated[i].heat != 0.0
    ensures |heat| == |electric| == |load|
    ensures forall i :: 0 <= i < |load| ==>
      heat[i] == WasteHour(rated[i], load[i], minPartLoad).heat
      && electric[i] == WasteHour(rated[i], load[i], minPartLoad).electric
  {
    var h := ZeroArray(|load|);
    var e := ZeroArray(|load|);
    for i := 0 to |load|
      invariant forall j :: 0 <= j < i ==>
        h[j] == WasteHour(rated[j], load[j], minPartLoad).heat
        && e[j] == WasteHour(rated[j], load[j], minPartLoad).electric
      invariant forall j :: i <= j < |load| ==> h[j] == 0.0 && e[j] == 0.0
    {
      if load[i] >= rated[i].heat * minPartLoad {
        var d := WasteHour(rated[i], load[i], minPartLoad);
        h[i], e[i] := d.heat, d.electric;
      }
    }
    heat, electric := h[..], e[..];
  }

  class WasteHeatPump {
    const base: HeatPumpBase
    /** `Kühlleistung_Abwärme`: the cooling capacity drawn from the waste
        heat (kW). */
    const coolingCapacity: real
    /** `Temperatur_Abwärme`: the temperature of the waste heat. */
    const wasteTemp: real
    const specInvestWaste: real
    const minPartLoad: real
    const co2Factor: real
    const primaryEnergyFactor: real

    /** `max_Wärmeleistung`: set by `calculate_waste_heat`. */
    var maxHeatOutput: real

    /** Set by the yearly calculation, which is not part of this model. */
    var heatAmount: real
    var electricity: real

    var co2Emissions: real
    var specificCo2: real
    var primaryEnergy: real

    /** `WasteHeatPump(...)`, with the default CO2 factor 0.4 t/MWh and
        primary energy factor 2.4. */
    constructor (name: string, coolingCapacity: real, wasteTemp: real, specInvestWaste: real,
                 specInvestHeatPump: real, minPartLoad: real)
      ensures base == HeatPumpBase(name, specInvestHeatPump)
      ensures this.coolingCapacity == coolingCapacity && this.wasteTemp == wasteTemp
      ensures this.specInvestWaste == specInvestWaste && this.minPartLoad == minPartLoad
      ensures co2Factor == 0.4 && primaryEnergyFactor == 2.4
    {
      base := HeatPumpBase(name, specInvestHeatPump);
      this.coolingCapacity := coolingCapacity;
      this.wasteTemp := wasteTemp;
      this.specInvestWaste := specInvestWaste;
      this.minPartLoad := minPartLoad;
      co2Factor := 0.4;
      primaryEnergyFactor := 2.4;
    }

    /** `calculate_heat_pump`: per hour, the output at which the heat pump
        draws exactly the cooling capacity at the COP of the capped flow
        temperature, and its electric power. */
    function CalculateHeatPump(vlt: seq<real>, f: Interpolator): (r: seq<Rated>)
      requires forall i :: 0 <= i < |vlt| ==> CopAt(f, wasteTemp, vlt[i]) != 0.0 && CopAt(f, wasteTemp, vlt[i]) != 1.0
      ensures |r| == |vlt|
      ensures forall i :: 0 <= i < |vlt| ==>
        && r[i].heat - r[i].electric == coolingCapacity
        && r[i].electric * CopAt(f, wasteTemp, vlt[i]) == r[i].heat
        && (coolingCapacity != 0.0 ==> r[i].heat != 0.0)
    {
      var table := CalculateCop(vlt, Scalar(wasteTemp), f).value;
      ScalarSourceCop(vlt, wasteTemp, f);
      seq(|vlt|, i requires 0 <= i < |vlt| => RatedAt(coolingCapacity, table.cop[i]))
    }

    /** `calculate_waste_heat`: all zeros for a heat pump without cooling
        capacity; otherwise the masked hours of `WasteHours` totalled as
        MWh over `duration`, the largest hourly output recorded, and a
        `ValueError` from `np.max` when there are no hours at all. */
    method CalculateWasteHeat(load: seq<real>, vlt: seq<real>, f: Interpolator, duration: real)
      returns (r: Result<WasteOutput, HeatPumpError>)
      requires |load| == |vlt|
      requires coolingCapacity != 0.0 ==> forall i :: 0 <= i < |vlt| ==>
        CopAt(f, wasteTemp, vlt[i]) != 0.0 && CopAt(f, wasteTemp, vlt[i]) != 1.0
      modifies this`maxHeatOutput
      ensures coolingCapacity == 0.0 ==>
        r == Success(WasteOutput(0.0, 0.0, Zeros(|load|), Zeros(|vlt|))) && maxHeatOutput == old(maxHeatOutput)
      ensures coolingCapacity != 0.0 && |load| == 0 ==>
        r == Failure(EmptySeries) && maxHeatOutput == old(maxHeatOutput)
      ensures coolingCapacity != 0.0 && |load| > 0 ==>
        && r.Success?
        && r.value == WasteTotals(r.value.heat, r.value.electric, duration)
        && |r.value.heat| == |r.value.electric| == |load|
        && (forall i :: 0 <= i < |load| ==>
              var d := WasteHour(CalculateHeatPump(vlt, f)[i], load[i], minPartLoad);
              r.value.heat[i] == d.heat && r.value.electric[i] == d.electric)
        && maxHeatOutput == MaxOf(r.value.heat)
    {
      if coolingCapacity == 0.0 {
        return Success(WasteOutput(0.0, 0.0, Zeros(|load|), Zeros(|vlt|)));
      }
      var rated := CalculateHeatPump(vlt, f);
      var heat, electric := WasteHours(rated, load, minPartLoad);
      if |load| == 0 {
        return Failure(EmptySeries);
      }
      maxHeatOutput := MaxOf(heat);
      r := Success(WasteTotals(heat, electric, duration));
    }

    /** `calculate_environmental_impact` on the stored yearly figures. */
    method CalculateEnvironmentalImpact()
      modifies this`co2Emissions, this`specificCo2, this`primaryEnergy
      ensures Impact(co2Emissions, specificCo2, primaryEnergy)
              == EnvironmentalImpact(electricity, heatAmount, co2Factor, primaryEnergyFactor)
      ensures heatAmount == old(heatAmount) && electricity == old(electricity)
    {
      var i := EnvironmentalImpact(electricity, heatAmount, co2Factor, primaryEnergyFactor);
      co2Emissions, specificCo2, primaryEnergy := i.co2, i.specificCo2, i.primaryEnergy;
    }
  }

  // ---------------------------------------------------------------------
  // Geothermal heat pump (`Geothermal`)

  /** A COP the heat-pump formulas can divide by. */
  predicate Admissible(cop: seq<real>) {
    forall i :: 0 <= i < |cop| ==> cop[i] != 0.0 && cop[i] != 1.0
  }

  /** One hour of a bisection step of `calculate_operation`: the heat
      delivered, the electric power, and the power extracted from the
      ground. */
  datatype GeoHour = GeoHour(heat: real, electric: real, extracted: real)

  /** `Wärmeleistung_L`: per hour, the output that draws `extraction` from
      the ground at that hour's COP. */
  function RatedOutputs(extraction: real, cop: seq<real>): (r: seq<real>)
    requires Admissible(cop)
    ensures |r| == |cop|
    ensures forall i :: 0 <= i < |cop| ==> r[i] == RatedAt(extraction, cop[i]).heat
  {
    seq(|cop|, i requires 0 <= i < |cop| => RatedAt(extraction, cop[i]).heat)
  }

  /** The hour may run: its load reaches the minimum part load of its
      rated output. */
  predicate Runs(rated: real, load: real, minPartLoad: real) {
    load >= rated * minPartLoad
  }

  /** A running hour delivers the load up to the rated output; its electric
      power is the output less the extraction, so exactly `extraction` is
      booked as drawn from the ground. Any other hour delivers nothing. */
  function GeoHourAt(extraction: real, rated: real, load: real, minPartLoad: real): (h: GeoHour)
    ensures Runs(rated, load, minPartLoad) ==>
      && h.heat == Min(load, rated)
      && h.extracted == extraction && h.heat == h.electric + h.extracted
    ensures !Runs(rated, load, minPartLoad) ==> h == GeoHour(0.0, 0.0, 0.0)
  {
    if Runs(rated, load, minPartLoad) then
      var w := Min(load, rated);
      var electric := w - extraction;
      GeoHour(w, electric, w - electric)
    else
      GeoHour(0.0, 0.0, 0.0)
  }

  /** The hours of one bisection step. */
  function GeoHours(extraction: real, rated: seq<real>, load: seq<real>, minPartLoad: real): (hs: seq<GeoHour>)
    requires |rated| == |load|
    ensures |hs| == |load|
    ensures forall i :: 0 <= i < |load| ==> hs[i] == GeoHourAt(extraction, rated[i], load[i], minPartLoad)
  {
    seq(|load|, i requires 0 <= i < |load| => GeoHourAt(extraction, rated[i], load[i], minPartLoad))
  }

  function Heats(hs: seq<GeoHour>): (r: seq<real>)
    ensures |r| == |hs| && forall i :: 0 <= i < |hs| ==> r[i] == hs[i].heat
  {
    seq(|hs|, i requires 0 <= i < |hs| => hs[i].heat)
  }

  function Electrics(hs: seq<GeoHour>): (r: seq<real>)
    ensures |r| == |hs| && forall i :: 0 <= i < |hs| ==> r[i] == hs[i].electric
  {
    seq(|hs|, i requires 0 <= i < |hs| => hs[i].electric)
  }

  function Extractions(hs: seq<GeoHour>): (r: seq<real>)
    ensures |r| == |hs| && forall i :: 0 <= i < |hs| ==> r[i] == hs[i].extracted
  {
    seq(|hs|, i requires 0 <= i < |hs| => hs[i].extracted)
  }

  /** `np.count_nonzero`. */
  function CountNonZero(s: seq<real>): (c: nat)
    ensures c <= |s|
    ensures c == 0 <==> forall i :: 0 <= i < |s| ==> s[i] == 0.0
  {
    if |s| == 0 then 0
    else
      var c := CountNonZero(s[..|s| - 1]);
      assert forall i :: 0 <= i < |s| - 1 ==> s[..|s| - 1][i] == s[i];
      if s[|s| - 1] != 0.0 then c + 1 else c
  }

  /** What a bisection step leaves behind: the energy extracted, the heat
      and the electricity (MWh), and the hourly heat output and electric
      power. */
  datatype Operation = Operation(extracted: real, heatAmount: real, electricity: real,
                                 heat: seq<real>, electric: seq<real>)

  /** The totals of a step in MWh; when no hour delivers heat the hourly
      series become the single value 0 (after the totals were taken). */
  function Tally(heat: seq<real>, electric: seq<real>, extracted: seq<real>): (op: Operation)
    ensures |op.heat| > 0
  {
    var running := CountNonZero(heat);
    Operation(Sum(extracted) / 1000.0, Sum(heat) / 1000.0, Sum(electric) / 1000.0,
              if running == 0 then [0.0] else heat, if running == 0 then [0.0] else electric)
  }

  /** `Entzugsleistung`: the power (kW) the ground gives when the yearly
      extraction `quantity` (MWh) is spread over `b` full-load hours. */
  function ExtractionPower(quantity: real, b: real): real
    requires b > 0.0
  {
    quantity * 1000.0 / b
  }

  /** A step at a given extraction power and rated output series. */
  function StepAt(extraction: real, rated: seq<real>, load: seq<real>, minPartLoad: real): Operation
    requires |rated| == |load|
  {
    var hs := GeoHours(extraction, rated, load, minPartLoad);
    Tally(Heats(hs), Electrics(hs), Extractions(hs))
  }

  /** The step of the bisection at `b` assumed full-load hours. */
  function OperationAt(quantity: real, b: real, cop: seq<real>, load: seq<real>, minPartLoad: real): Operation
    requires b > 0.0 && |cop| == |load| && Admissible(cop)
  {
    var extraction := ExtractionPower(quantity, b);
    StepAt(extraction, RatedOutputs(extraction, cop), load, minPartLoad)
  }

  /** Which hours of a step run. */
  function Running(rated: seq<real>, load: seq<real>, minPartLoad: real): (rs: seq<bool>)
    requires |rated| == |load|
    ensures |rs| == |load|
    ensures forall i :: 0 <= i < |load| ==> rs[i] == Runs(rated[i], load[i], minPartLoad)
  {
    seq(|load|, i requires 0 <= i < |load| => Runs(rated[i], load[i], minPartLoad))
  }

  /** The number of `true` entries among the first `k`. */
  function CountTrue(rs: seq<bool>, k: nat): (c: nat)
    requires k <= |rs|
    ensures c <= k
  {
    if k == 0 then 0 else CountTrue(rs, k - 1) + if rs[k - 1] then 1 else 0
  }

  /** A series that is `x` where a mask holds and 0 elsewhere sums to `x`
      times the number of masked entries. */
  lemma {:induction false} SumWhere(xs: seq<real>, rs: seq<bool>, x: real, k: nat)
    requires |xs| == |rs| && k <= |xs|
    requires forall i :: 0 <= i < |xs| ==> xs[i] == if rs[i] then x else 0.0
    ensures PartialSum(xs, k) == x * CountTrue(rs, k) as real
  {
    if k > 0 {
      SumWhere(xs, rs, x, k - 1);
    }
  }

  /** Every running hour draws `extraction` from the ground, every other
      hour nothing. */
  lemma {:induction false} ExtractionWhereRunning(extraction: real, rated: seq<real>, load: seq<real>, minPartLoad: real)
    requires |rated| == |load|
    ensures var xs := Extractions(GeoHours(extraction, rated, load, minPartLoad));
      var rs := Running(rated, load, minPartLoad);
      |xs| == |rs| && forall i :: 0 <= i < |xs| ==> xs[i] == if rs[i] then extraction else 0.0
  {
    var hs := GeoHours(extraction, rated, load, minPartLoad);
    var rs := Running(rated, load, minPartLoad);
    forall i | 0 <= i < |hs|
      ensures Extractions(hs)[i] == if rs[i] then extraction else 0.0
    {
      assert hs[i] == GeoHourAt(extraction, rated[i], load[i], minPartLoad);
    }
  }

  /** The extracted energy of the running hours is the extraction power
      over their number. */
  lemma {:induction false} ExtractionSum(extraction: real, rated: seq<real>, load: seq<real>, minPartLoad: real)
    requires |rated| == |load|
    ensures Sum(Extractions(GeoHours(extraction, rated, load, minPartLoad)))
            == extraction * CountTrue(Running(rated, load, minPartLoad), |load|) as real
  {
    var xs := Extractions(GeoHours(extraction, rated, load, minPartLoad));
    ExtractionWhereRunning(extraction, rated, load, minPartLoad);
    SumWhere(xs, Running(rated, load, minPartLoad), extraction, |xs|);
  }

  /** The energy a step books as extracted is the extraction power over
      its running hours. */
  lemma {:induction false} ExtractedEnergy(extraction: real, rated: seq<real>, load: seq<real>, minPartLoad: real)
    requires |rated| == |load|
    ensures StepAt(extraction, rated, load, minPartLoad).extracted * 1000.0
            == extraction * CountTrue(Running(rated, load, minPartLoad), |load|) as real
  {
    ExtractionSum(extraction, rated, load, minPartLoad);
  }

  /** A step in which no hour runs books nothing and leaves the single
      zero as hourly heat output and electric power. */
  lemma IdleStep(extraction: real, rated: seq<real>, load: seq<real>, minPartLoad: real)
    requires |rated| == |load|
    requires forall i :: 0 <= i < |load| ==> !Runs(rated[i], load[i], minPartLoad)
    ensures StepAt(extraction, rated, load, minPartLoad) == Operation(0.0, 0.0, 0.0, [0.0], [0.0])
  {
    var hs := GeoHours(extraction, rated, load, minPartLoad);
    forall i | 0 <= i < |hs|
      ensures hs[i] == GeoHour(0.0, 0.0, 0.0)
    {
      assert hs[i] == GeoHourAt(extraction, rated[i], load[i], minPartLoad);
    }
    PartialSumConstant(Heats(hs), 0.0, |hs|);
    PartialSumConstant(Electrics(hs), 0.0, |hs|);
    PartialSumConstant(Extractions(hs), 0.0, |hs|);
  }

  /** One bisection step as `calculate_operation` computes it: zero
      series, every running hour overwritten, then the totals. */
  method OperationStep(extraction: real, rated: seq<real>, load: seq<real>, minPartLoad: real)
    returns (op: Operation)
    requires |rated| == |load|
    ensures op == StepAt(extraction, rated, load, minPartLoad)
  {
    ghost var hs := GeoHours(extraction, rated, load, minPartLoad);
    var heat := ZeroArray(|load|);
    var electric := ZeroArray(|load|);
    var extracted := ZeroArray(|load|);
    for i := 0 to |load|
      invariant forall j :: 0 <= j < i ==> heat[j] == hs[j].heat && electric[j] == hs[j].electric
      invariant forall j :: 0 <= j < i ==> extracted[j] == hs[j].extracted
      invariant forall j :: i <= j < |load| ==> heat[j] == 0.0 && electric[j] == 0.0 && extracted[j] == 0.0
    {
      if Runs(rated[i], load[i], minPartLoad) {
        var h := GeoHourAt(extraction, rated[i], load[i], minPartLoad);
        heat[i], electric[i], extracted[i] := h.heat, h.electric, h.extracted;
      }
    }
    assert heat[..] == Heats(hs);
    assert electric[..] == Electrics(hs);
    assert extracted[..] == Extractions(hs);
    op := Tally(heat[..], electric[..], extracted[..]);
  }

  /** The width of the bracket after `k` halvings of [1, 8760]. */
  function Width(k: nat): (w: real)
    ensures w > 0.0
  {
    if k == 0 then 8759.0 else Width(k - 1) / 2.0
  }

  lemma {:induction false} WidthDecreases(j: nat, k: nat)
    requires j <= k
    ensures Width(k) <= Width(j)
  {
    if j < k {
      WidthDecreases(j, k - 1);
    }
  }

  /** The bracket is wider than the tolerance 0.5 exactly before the
      fifteenth halving. */
  lemma WidthAboveTolerance(k: nat)
    ensures Width(k) > 0.5 <==> k < 15
    ensures k == 15 ==> Width(k) == 8759.0 / 32768.0
  {
    assert Width(14) == 8759.0 / 16384.0;
    assert Width(15) == 8759.0 / 32768.0;
    if k < 15 {
      WidthDecreases(k, 14);
    } else {
      WidthDecreases(15, k);
    }
  }

  /** The bisection of `calculate_operation` over the full-load hours `b`
      in [1, 8760]: it halves the bracket until it is at most 0.5 wide
      (fifteen times), keeps `bMin` at 1 or at a step that extracted more
      than the yearly quantity and `bMax` at 8760 or at one that did not,
      and leaves the step at the last midpoint, which is one of the two
      ends. */
  method Bisect(quantity: real, cop: seq<real>, load: seq<real>, minPartLoad: real)
    returns (bMin: real, bMax: real, b: real, op: Operation)
    requires |cop| == |load| && Admissible(cop)
    ensures 1.0 <= bMin < bMax <= 8760.0
    ensures bMax - bMin <= 0.5 && bMax - bMin == 8759.0 / 32768.0
    ensures b == bMin || b == bMax
    ensures op == OperationAt(quantity, b, cop, load, minPartLoad)
    ensures bMin == 1.0 || OperationAt(quantity, bMin, cop, load, minPartLoad).extracted > quantity
    ensures bMax == 8760.0 || OperationAt(quantity, bMax, cop, load, minPartLoad).extracted <= quantity
  {
    bMin, bMax := 1.0, 8760.0;
    b, op := 0.0, Operation(0.0, 0.0, 0.0, [], []);
    ghost var k: nat := 0;
    while bMax - bMin > 0.5
      invariant 1.0 <= bMin < bMax <= 8760.0
      invariant bMax - bMin == Width(k) && k <= 15
      invariant k > 0 ==> (b == bMin || b == bMax) && op == OperationAt(quantity, b, cop, load, minPartLoad)
      invariant bMin == 1.0 || OperationAt(quantity, bMin, cop, load, minPartLoad).extracted > quantity
      invariant bMax == 8760.0 || OperationAt(quantity, bMax, cop, load, minPartLoad).extracted <= quantity
      decreases 15 - k
    {
      WidthAboveTolerance(k);
      b := (bMin + bMax) / 2.0;
      var extraction := ExtractionPower(quantity, b);
      var rated := RatedOutputs(extraction, cop);
      op := OperationStep(extraction, rated, load, minPartLoad);
      if op.extracted > quantity {
        bMin := b;
      } else {
        bMax := b;
      }
      k := k + 1;
    }
    WidthAboveTolerance(k);
  }

  /** The result of `calculate_operation`: heat (MWh), electricity (MWh),
      heat output (kW) and electric power (kW). */
  datatype GeoOutput = GeoOutput(heatAmount: real, electricity: real, heat: seq<real>, electric: seq<real>)

  /** The result of the step the bisection ends on: its hourly series,
      and its heat and electricity over `duration`. */
  function GeoResult(op: Operation, duration: real): (r: GeoOutput)
    ensures r.heat == op.heat && r.electric == op.electric
    ensures r.heatAmount == op.heatAmount * duration && r.electricity == op.electricity * duration
  {
    GeoOutput(op.heatAmount * duration, op.electricity * duration, op.heat, op.electric)
  }

  class Geothermal {
    const base: HeatPumpBase
    /** `Fläche`, `Bohrtiefe`, `Temperatur_Geothermie`. */
    const area: real
    const depth: real
    const groundTemp: real
    /** `spez_Bohrkosten` (per m) and `spez_Entzugsleistung` (W per m). */
    const specDrilling: real
    const specExtraction: real
    /** `Vollbenutzungsstunden` and `Abstand_Sonden`. */
    const fullLoadHours: real
    const probeSpacing: real
    const minPartLoad: real
    const co2Factor: real
    const primaryEnergyFactor: real

    /** `Investitionskosten_Sonden` and `max_Wärmeleistung`: set by
        `calculate_operation`. */
    var probeInvestment: real
    var maxHeatOutput: real

    /** Set by the yearly calculation, which is not part of this model. */
    var heatAmount: real
    var electricity: real

    var co2Emissions: real
    var specificCo2: real
    var primaryEnergy: real

    /** `Geothermal(...)`, with the default CO2 factor 0.4 t/MWh and primary
        energy factor 2.4. */
    constructor (name: string, area: real, depth: real, groundTemp: real, specDrilling: real, specExtraction: real,
                 fullLoadHours: real, probeSpacing: real, specInvestHeatPump: real, minPartLoad: real)
      ensures base == HeatPumpBase(name, specInvestHeatPump)
      ensures this.area == area && this.depth == depth && this.groundTemp == groundTemp
      ensures this.specDrilling == specDrilling && this.specExtraction == specExtraction
      ensures this.fullLoadHours == fullLoadHours && this.probeSpacing == probeSpacing
      ensures this.minPartLoad == minPartLoad && co2Factor == 0.4 && primaryEnergyFactor == 2.4
    {
      base := HeatPumpBase(name, specInvestHeatPump);
      this.area := area;
      this.depth := depth;
      this.groundTemp := groundTemp;
      this.specDrilling := specDrilling;
      this.specExtraction := specExtraction;
      this.fullLoadHours := fullLoadHours;
      this.probeSpacing := probeSpacing;
      this.minPartLoad := minPartLoad;
      co2Factor := 0.4;
      primaryEnergyFactor := 2.4;
    }

    /** `Anzahl_Sonden`: a square grid with `round(sqrt(area) / spacing) + 1`
        probes on each side. */
    function ProbeCount(e: Elementary): (n: int)
      requires probeSpacing != 0.0
      ensures n >= 0
    {
      var side := RoundHalfEven(e.sqrt(area) / probeSpacing) + 1;
      side * side
    }

    /** `Entzugswärmemenge`: the yearly energy (MWh) the probes give at the
        specific extraction over the full-load hours. */
    function YearlyExtraction(e: Elementary): real
      requires probeSpacing != 0.0
    {
      depth * specExtraction * ProbeCount(e) as real / 1000.0 * fullLoadHours / 1000.0
    }

    /** The COP at each hour of the ground temperature and the capped flow
        temperature. */
    function Cops(vlt: seq<real>, f: Interpolator): (cop: seq<real>)
      ensures |cop| == |vlt| && forall i :: 0 <= i < |vlt| ==> cop[i] == CopAt(f, groundTemp, vlt[i])
    {
      ScalarSourceCop(vlt, groundTemp, f);
      CalculateCop(vlt, Scalar(groundTemp), f).value.cop
    }

    /** `calculate_operation`: all zeros when there is no area or no depth;
        otherwise the probe investment is recorded, the bisection runs over
        the COPs at the ground temperature, and the step it ends on gives
        the largest hourly output and the heat and electricity over
        `duration`. */
    method CalculateOperation(load: seq<real>, vlt: seq<real>, f: Interpolator, e: Elementary, duration: real)
      returns (r: GeoOutput, ghost bMin: real, ghost bMax: real, ghost b: real)
      requires |load| == |vlt|
      requires area != 0.0 && depth != 0.0 ==> probeSpacing != 0.0 && Admissible(Cops(vlt, f))
      modifies this`probeInvestment, this`maxHeatOutput
      ensures area == 0.0 || depth == 0.0 ==>
        && r == GeoOutput(0.0, 0.0, Zeros(|load|), Zeros(|vlt|))
        && probeInvestment == old(probeInvestment) && maxHeatOutput == old(maxHeatOutput)
      ensures area != 0.0 && depth != 0.0 ==>
        && probeInvestment == depth * specDrilling * ProbeCount(e) as real
        && 1.0 <= bMin < bMax <= 8760.0 && bMax - bMin <= 0.5 && (b == bMin || b == bMax)
        && (bMin == 1.0 || OperationAt(YearlyExtraction(e), bMin, Cops(vlt, f), load, minPartLoad).extracted
                           > YearlyExtraction(e))
        && (bMax == 8760.0 || OperationAt(YearlyExtraction(e), bMax, Cops(vlt, f), load, minPartLoad).extracted
                              <= YearlyExtraction(e))
        && var op := OperationAt(YearlyExtraction(e), b, Cops(vlt, f), load, minPartLoad);
        && r == GeoResult(op, duration)
        && maxHeatOutput == MaxOf(op.heat)
    {
      if area == 0.0 || depth == 0.0 {
        return GeoOutput(0.0, 0.0, Zeros(|load|), Zeros(|vlt|)), 0.0, 0.0, 0.0;
      }
      var quantity := YearlyExtraction(e);
      probeInvestment := depth * specDrilling * ProbeCount(e) as real;
      var cop := Cops(vlt, f);
      var lo, hi, mid, op := Bisect(quantity, cop, load, minPartLoad);
      bMin, bMax, b := lo, hi, mid;
      maxHeatOutput := MaxOf(op.heat);
      r := GeoResult(op, duration);
    }

    /** `calculate_environmental_impact` on the stored yearly figures. */
    method CalculateEnvironmentalImpact()
      modifies this`co2Emissions, this`specificCo2, this`primaryEnergy
      ensures Impact(co2Emissions, specificCo2, primaryEnergy)
              == EnvironmentalImpact(electricity, heatAmount, co2Factor, primaryEnergyFactor)
      ensures heatAmount == old(heatAmount) && electricity == old(electricity)
    {
      var i := EnvironmentalImpact(electricity, heatAmount, co2Factor, primaryEnergyFactor);
      co2Emissions, specificCo2, primaryEnergy := i.co2, i.specificCo2, i.primaryEnergy;
    }
  }
}
