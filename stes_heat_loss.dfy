/** Heat lost through the envelope of the storage, as one lumped figure
    (`calculate_heat_loss`) and layer by layer
    (`calculate_stratified_heat_loss`). Every loss is a thermal conductance
    in W/K times a temperature excess in K, converted to kW; over the reals
    the order in which the source multiplies the factors is immaterial. */
module StesHeatLoss {
  import opened Common
  import opened StesGeometry

  /** The constructor parameters other than type and dimensions:
      density, heat capacity, reference temperature, the conductivities of
      the top, side and bottom insulation and of the soil, ambient and soil
      temperatures, the temperature bounds and the insulation thicknesses. */
  datatype Material = Material(
    rho: real, cp: real, tRef: real,
    lambdaTop: real, lambdaSide: real, lambdaBottom: real, lambdaSoil: real,
    tAmb: real, tSoil: real, tMax: real, tMin: real,
    dtTop: real, dsSide: real, dbBottom: real)

  /** Positive density, heat capacity, conductivities and thicknesses: every
      quotient in the loss and energy formulas is defined. */
  predicate Physical(m: Material) {
    && 0.0 < m.rho && 0.0 < m.cp
    && 0.0 < m.lambdaTop && 0.0 < m.lambdaSide && 0.0 < m.lambdaBottom && 0.0 < m.lambdaSoil
    && 0.0 < m.dtTop && 0.0 < m.dsSide && 0.0 < m.dbBottom
  }

  /** Dimension tuples as the loss code indexes them: a supported type has
      its own arity, the overground cylinder needs a radius, the
      underground one a radius and a height. */
  predicate DimensionsFit(k: StorageType, dims: seq<real>) {
    && PositiveDimensions(dims)
    && (Supported(k) ==> |dims| == Arity(k))
    && (k == CylindricalOverground ==> |dims| >= 1)
    && (k == CylindricalUnderground ==> |dims| >= 2)
  }

  predicate NonNegativeAreas(g: Geometry) {
    0.0 <= g.top && 0.0 <= g.side && 0.0 <= g.bottom
  }

  predicate IsPit(k: StorageType) {
    k == TruncatedCone || k == TruncatedTrapezoid
  }

  /** The types `calculate_heat_loss` has a formula for. */
  predicate HasLossFormula(k: StorageType) {
    k == CylindricalOverground || k == CylindricalUnderground || IsPit(k)
  }

  /** Heat flow in kW through conductance `u` (W/K) at excess `excess` (K). */
  function Loss(u: real, excess: real): real {
    u * excess / 1000.0
  }

  lemma LossSign(u: real, excess: real)
    requires 0.0 <= u
    ensures 0.0 <= excess ==> 0.0 <= Loss(u, excess)
    ensures excess <= 0.0 ==> Loss(u, excess) <= 0.0
  {}

  lemma LossMonotone(u: real, x: real, y: real)
    requires 0.0 <= u && x <= y
    ensures Loss(u, x) <= Loss(u, y)
  {}

  // ---------------------------------------------------------------------
  // Conductances (W/K)

  /** Top insulation: lambda_top / dt_top * S_top. */
  function TopConductance(m: Material, g: Geometry): real
    requires Physical(m)
  {
    (m.lambdaTop / m.dtTop) * g.top
  }

  /** Side insulation of an overground cylinder: lambda_side / ds_side * S_side. */
  function OvergroundSideConductance(m: Material, g: Geometry): real
    requires Physical(m)
  {
    (m.lambdaSide / m.dsSide) * g.side
  }

  /** Bottom of an overground cylinder standing on soil:
      (db / lambda_bottom + 4 R / (3 pi lambda_soil))^-1 * S_bottom. */
  function OvergroundBottomConductance(m: Material, radius: real, g: Geometry): real
    requires Physical(m) && 0.0 < radius
  {
    SumOfQuotientsPositive(m.dbBottom, m.lambdaBottom, 4.0 * radius, 3.0 * Pi * m.lambdaSoil);
    (1.0 / (m.dbBottom / m.lambdaBottom + 4.0 * radius / (3.0 * Pi * m.lambdaSoil))) * g.bottom
  }

  /** d_min = (lambda_side / lambda_soil) * R * 0.37. */
  function MinimumInsulation(m: Material, radius: real): real
    requires Physical(m)
  {
    (m.lambdaSide / m.lambdaSoil) * radius * 0.37
  }

  /** The buried-cylinder formula holds only for ds_side > 2 d_min. */
  predicate InsulationSufficient(m: Material, radius: real)
    requires Physical(m)
  {
    m.dsSide > 2.0 * MinimumInsulation(m, radius)
  }

  /** K_sb = (ds / lambda_side + 0.52 R / lambda_soil)^-1 of a buried cylinder. */
  function UndergroundCoefficient(m: Material, radius: real): real
    requires Physical(m) && 0.0 < radius
  {
    SumOfQuotientsPositive(m.dsSide, m.lambdaSide, 0.52 * radius, m.lambdaSoil);
    1.0 / (m.dsSide / m.lambdaSide + 0.52 * radius / m.lambdaSoil)
  }

  /** S_c = pi R^2 + 2 pi R H: bottom and side of a buried cylinder. */
  function UndergroundSurface(radius: real, height: real): real {
    Pi * radius * radius + 2.0 * Pi * radius * height
  }

  /** K_sb * S_c. */
  function UndergroundConductance(m: Material, radius: real, height: real): real
    requires Physical(m) && 0.0 < radius
  {
    UndergroundCoefficient(m, radius) * UndergroundSurface(radius, height)
  }

  /** a = ds / lambda_side + pi H / (2 lambda_soil) for the side, and
      c = db / lambda_bottom + pi H / (2 lambda_soil) for the bottom. */
  function PitOffset(d: real, lambda: real, lambdaSoil: real, height: real): real
    requires 0.0 < lambda && 0.0 < lambdaSoil
  {
    d / lambda + Pi * height / (2.0 * lambdaSoil)
  }

  /** b x with b = pi / lambda_soil. */
  function PitSpread(lambdaSoil: real, x: real): real
    requires 0.0 < lambdaSoil
  {
    Pi / lambdaSoil * x
  }

  /** K_s of a pit side: K_s = 1 / (b H) * ln((a + b H) / a). */
  function PitSideCoefficient(e: Elementary, m: Material, height: real): real
    requires Physical(m) && 0.0 < height
  {
    PitTermsPositive(m.dsSide, m.lambdaSide, m.lambdaSoil, height, height);
    LogCoefficient(e, PitOffset(m.dsSide, m.lambdaSide, m.lambdaSoil, height), PitSpread(m.lambdaSoil, height), 1.0)
  }

  /** K_b of a pit bottom, with w = `dimensions[1]`:
      K_b = 1 / (2 b w) * ln((c + b w) / c). */
  function PitBottomCoefficient(e: Elementary, m: Material, height: real, extent: real): real
    requires Physical(m) && 0.0 < height && 0.0 < extent
  {
    PitTermsPositive(m.dbBottom, m.lambdaBottom, m.lambdaSoil, height, extent);
    LogCoefficient(e, PitOffset(m.dbBottom, m.lambdaBottom, m.lambdaSoil, height), PitSpread(m.lambdaSoil, extent), 2.0)
  }

  /** 1 / (f x) * ln((a + x) / a): the shape both pit coefficients share,
      with x = b H (side, f = 1) or x = b w (bottom, f = 2). */
  function LogCoefficient(e: Elementary, a: real, x: real, f: real): real
    requires 0.0 < a && 0.0 < x && 0.0 < f
  {
    PositiveProduct(f, x);
    (1.0 / (f * x)) * e.ln((a + x) / a)
  }

  lemma SumOfQuotientsPositive(x: real, y: real, u: real, v: real)
    requires 0.0 < x && 0.0 < y && 0.0 < u && 0.0 < v
    ensures 0.0 < x / y + u / v
  {
    PositiveQuotient(x, y);
    PositiveQuotient(u, v);
  }

  /** The terms a pit coefficient divides by are positive. */
  lemma PitTermsPositive(d: real, lambda: real, lambdaSoil: real, height: real, x: real)
    requires 0.0 < d && 0.0 < lambda && 0.0 < lambdaSoil && 0.0 < height && 0.0 < x
    ensures 0.0 < PitOffset(d, lambda, lambdaSoil, height)
    ensures 0.0 < PitSpread(lambdaSoil, x)
  {
    SumOfQuotientsPositive(d, lambda, Pi * height, 2.0 * lambdaSoil);
    PositiveQuotient(Pi, lambdaSoil);
    PositiveProduct(Pi / lambdaSoil, x);
  }

  /** Pit side: K_s * S_side. */
  function PitSideConductance(e: Elementary, m: Material, height: real, g: Geometry): real
    requires Physical(m) && 0.0 < height
  {
    PitSideCoefficient(e, m, height) * g.side
  }

  /** Pit bottom: K_b * S_bottom. */
  function PitBottomConductance(e: Elementary, m: Material, height: real, extent: real, g: Geometry): real
    requires Physical(m) && 0.0 < height && 0.0 < extent
  {
    PitBottomCoefficient(e, m, height, extent) * g.bottom
  }

  /** The height the pit formulas use. The source reads `dimensions[2]`,
      which for a truncated trapezoid is its bottom length; the model uses
      the height entry (`StorageHeight`, see `TrapezoidHeightMisread`). */
  function PitHeight(k: StorageType, dims: seq<real>): (h: real)
    requires IsPit(k) && DimensionsFit(k, dims)
    ensures 0.0 < h
  {
    StorageHeight(k, dims)
  }

  // ---------------------------------------------------------------------
  // Lumped loss (calculate_heat_loss)

  /** The temperature a lumped loss is measured against. */
  function Surroundings(k: StorageType, m: Material): real {
    if k == CylindricalOverground then m.tAmb else m.tSoil
  }

  /** The whole-envelope conductance of each type with a lumped formula. */
  function LumpedConductance(e: Elementary, k: StorageType, dims: seq<real>, m: Material, g: Geometry): real
    requires Physical(m) && DimensionsFit(k, dims) && HasLossFormula(k)
  {
    match k
    case CylindricalOverground =>
      TopConductance(m, g) + OvergroundSideConductance(m, g) + OvergroundBottomConductance(m, dims[0], g)
    case CylindricalUnderground =>
      UndergroundConductance(m, dims[0], dims[1])
    case _ =>
      PitSideConductance(e, m, PitHeight(k, dims), g) + PitBottomConductance(e, m, PitHeight(k, dims), dims[1], g)
  }

  /** The lumped loss in kW at storage temperature `t`. A plain cylinder
      (and any unknown type) has no formula, an underground cylinder with
      thin insulation has none either. */
  function HeatLoss(e: Elementary, k: StorageType, dims: seq<real>, m: Material, g: Geometry, t: real): (r: Result<real, StesError>)
    requires Physical(m) && DimensionsFit(k, dims)
    ensures r.Failure? <==> !HasLossFormula(k) || (k == CylindricalUnderground && !InsulationSufficient(m, dims[0]))
    ensures r.Failure? ==> r.error == (if HasLossFormula(k) then InsulationTooThin else NoLossFormula)
  {
    if !HasLossFormula(k) then Failure(NoLossFormula)
    else if k == CylindricalUnderground && !InsulationSufficient(m, dims[0]) then Failure(InsulationTooThin)
    else Success(Loss(LumpedConductance(e, k, dims, m, g), t - Surroundings(k, m)))
  }

  /** The type the storage constructor builds by default has no lumped
      formula: `simulate` cannot run on it. */
  lemma CylinderHasNoLumpedLoss(e: Elementary, dims: seq<real>, m: Material, g: Geometry, t: real)
    requires Physical(m) && DimensionsFit(Cylindrical, dims)
    ensures HeatLoss(e, Cylindrical, dims, m, g, t) == Failure(NoLossFormula)
  {}

  /** The lumped loss is zero at the surroundings' temperature, positive
      above it, negative below it and increasing in the storage temperature. */
  lemma HeatLossSign(e: Elementary, k: StorageType, dims: seq<real>, m: Material, g: Geometry, t: real, t2: real)
    requires Sound(e) && Physical(m) && DimensionsFit(k, dims) && NonNegativeAreas(g)
    requires HeatLoss(e, k, dims, m, g, t).Success?
    ensures t >= Surroundings(k, m) ==> HeatLoss(e, k, dims, m, g, t).value >= 0.0
    ensures t <= Surroundings(k, m) ==> HeatLoss(e, k, dims, m, g, t).value <= 0.0
    ensures t <= t2 ==> HeatLoss(e, k, dims, m, g, t).value <= HeatLoss(e, k, dims, m, g, t2).value
  {
    LumpedConductanceNonNegative(e, k, dims, m, g);
    var u := LumpedConductance(e, k, dims, m, g);
    LossSign(u, t - Surroundings(k, m));
    if t <= t2 {
      LossMonotone(u, t - Surroundings(k, m), t2 - Surroundings(k, m));
    }
  }

  lemma LumpedConductanceNonNegative(e: Elementary, k: StorageType, dims: seq<real>, m: Material, g: Geometry)
    requires Sound(e) && Physical(m) && DimensionsFit(k, dims) && NonNegativeAreas(g) && HasLossFormula(k)
    ensures 0.0 <= LumpedConductance(e, k, dims, m, g)
  {
    match k
    case CylindricalOverground =>
      TopConductanceNonNegative(m, g);
      OvergroundConductancesNonNegative(m, dims[0], g);
    case CylindricalUnderground =>
      UndergroundConductancePositive(m, dims[0], dims[1]);
    case _ =>
      PitConductancesNonNegative(e, m, PitHeight(k, dims), dims[1], g);
  }

  lemma TopConductanceNonNegative(m: Material, g: Geometry)
    requires Physical(m) && NonNegativeAreas(g)
    ensures 0.0 <= TopConductance(m, g)
  {
    QuotientTimesNonNegative(m.lambdaTop, m.dtTop, g.top);
  }

  lemma OvergroundConductancesNonNegative(m: Material, radius: real, g: Geometry)
    requires Physical(m) && NonNegativeAreas(g) && 0.0 < radius
    ensures 0.0 <= OvergroundSideConductance(m, g)
    ensures 0.0 <= OvergroundBottomConductance(m, radius, g)
  {
    QuotientTimesNonNegative(m.lambdaSide, m.dsSide, g.side);
    SumOfQuotientsPositive(m.dbBottom, m.lambdaBottom, 4.0 * radius, 3.0 * Pi * m.lambdaSoil);
    QuotientTimesNonNegative(1.0, m.dbBottom / m.lambdaBottom + 4.0 * radius / (3.0 * Pi * m.lambdaSoil), g.bottom);
  }

  lemma UndergroundConductancePositive(m: Material, radius: real, height: real)
    requires Physical(m) && 0.0 < radius && 0.0 < height
    ensures 0.0 < UndergroundConductance(m, radius, height)
  {
    SumOfQuotientsPositive(m.dsSide, m.lambdaSide, 0.52 * radius, m.lambdaSoil);
    PositiveQuotient(1.0, m.dsSide / m.lambdaSide + 0.52 * radius / m.lambdaSoil);
    UndergroundSurfacePositive(radius, height);
    PositiveProduct(UndergroundCoefficient(m, radius), UndergroundSurface(radius, height));
  }

  lemma UndergroundSurfacePositive(radius: real, height: real)
    requires 0.0 < radius && 0.0 < height
    ensures 0.0 < UndergroundSurface(radius, height)
  {}

  lemma PitConductancesNonNegative(e: Elementary, m: Material, height: real, extent: real, g: Geometry)
    requires Sound(e) && Physical(m) && NonNegativeAreas(g) && 0.0 < height && 0.0 < extent
    ensures 0.0 <= PitSideConductance(e, m, height, g)
    ensures 0.0 <= PitBottomConductance(e, m, height, extent, g)
  {
    PitTermsPositive(m.dsSide, m.lambdaSide, m.lambdaSoil, height, height);
    LogCoefficientPositive(e, PitOffset(m.dsSide, m.lambdaSide, m.lambdaSoil, height), PitSpread(m.lambdaSoil, height), 1.0);
    NonNegativeProduct(PitSideCoefficient(e, m, height), g.side);
    PitTermsPositive(m.dbBottom, m.lambdaBottom, m.lambdaSoil, height, extent);
    LogCoefficientPositive(e, PitOffset(m.dbBottom, m.lambdaBottom, m.lambdaSoil, height), PitSpread(m.lambdaSoil, extent), 2.0);
    NonNegativeProduct(PitBottomCoefficient(e, m, height, extent), g.bottom);
  }

  /** ln((a + x) / a) > 0 because the ratio exceeds 1. */
  lemma LogCoefficientPositive(e: Elementary, a: real, x: real, f: real)
    requires Sound(e) && 0.0 < a && 0.0 < x && 0.0 < f
    ensures 0.0 < LogCoefficient(e, a, x, f)
  {
    RatioAboveOne(a, x);
    assert 0.0 < e.ln((a + x) / a);
    PositiveProduct(f, x);
    PositiveQuotient(1.0, f * x);
    PositiveProduct(1.0 / (f * x), e.ln((a + x) / a));
  }

  lemma RatioAboveOne(a: real, x: real)
    requires 0.0 < a && 0.0 < x
    ensures 1.0 < (a + x) / a
  {}

  lemma QuotientTimesNonNegative(x: real, y: real, z: real)
    requires 0.0 < x && 0.0 < y && 0.0 <= z
    ensures 0.0 <= (x / y) * z
  {}

  // ---------------------------------------------------------------------
  // Per-layer loss (calculate_stratified_heat_loss)

  /** The loss of layer `i` of `n` at temperature `t`: the top layer loses
      through the lid to the air, the bottom layer through the floor, and
      every other layer an equal `1 / n` share of the side (for a buried
      cylinder every layer below the top shares side and floor). A type
      without a formula loses nothing. */
  function LayerLoss(e: Elementary, k: StorageType, dims: seq<real>, m: Material, g: Geometry, n: nat, i: nat, t: real): real
    requires Physical(m) && DimensionsFit(k, dims) && i < n
  {
    if k == CylindricalOverground then
      if i == 0 then Loss(TopConductance(m, g), t - m.tAmb)
      else if i == n - 1 then Loss(OvergroundBottomConductance(m, dims[0], g), t - m.tAmb)
      else Loss(OvergroundSideConductance(m, g) / n as real, t - m.tAmb)
    else if k == CylindricalUnderground then
      if i == 0 then Loss(TopConductance(m, g), t - m.tAmb)
      else Loss(UndergroundConductance(m, dims[0], dims[1]) / n as real, t - m.tSoil)
    else if IsPit(k) then
      if i == 0 then Loss(TopConductance(m, g), t - m.tAmb)
      else if i == n - 1 then Loss(PitBottomConductance(e, m, PitHeight(k, dims), dims[1], g), t - m.tSoil)
      else Loss(PitSideConductance(e, m, PitHeight(k, dims), g) / n as real, t - m.tSoil)
    else 0.0
  }

  /** The losses of all layers at temperatures `temps` (top layer first).
      The buried-cylinder check runs once per layer, so it fails exactly
      when there is a layer and the insulation is too thin. */
  function LayerLosses(e: Elementary, k: StorageType, dims: seq<real>, m: Material, g: Geometry, temps: seq<real>): (r: Result<seq<real>, StesError>)
    requires Physical(m) && DimensionsFit(k, dims)
    ensures r.Failure? <==> k == CylindricalUnderground && |temps| > 0 && !InsulationSufficient(m, dims[0])
    ensures r.Failure? ==> r.error == InsulationTooThin
    ensures r.Success? ==> |r.value| == |temps|
  {
    if k == CylindricalUnderground && |temps| > 0 && !InsulationSufficient(m, dims[0]) then
      Failure(InsulationTooThin)
    else
      Success(LayerLossPrefix(e, k, dims, m, g, temps, |temps|))
  }

  /** The losses of the first `j` layers of `temps`. */
  function LayerLossPrefix(e: Elementary, k: StorageType, dims: seq<real>, m: Material, g: Geometry,
                           temps: seq<real>, j: nat): (r: seq<real>)
    requires Physical(m) && DimensionsFit(k, dims) && j <= |temps|
    ensures |r| == j && forall i :: 0 <= i < j ==> r[i] == LayerLoss(e, k, dims, m, g, |temps|, i, temps[i])
  {
    if j == 0 then [] else LayerLossPrefix(e, k, dims, m, g, temps, j - 1) + [LayerLoss(e, k, dims, m, g, |temps|, j - 1, temps[j - 1])]
  }

  /** A type the loss code does not know leaves every layer loss at zero,
      so the total is zero. */
  lemma UnknownTypeLosesNothing(e: Elementary, k: StorageType, dims: seq<real>, m: Material, g: Geometry, temps: seq<real>)
    requires Physical(m) && DimensionsFit(k, dims) && !HasLossFormula(k)
    ensures LayerLosses(e, k, dims, m, g, temps) == Success(seq(|temps|, _ => 0.0))
    ensures Sum(LayerLosses(e, k, dims, m, g, temps).value) == 0.0
  {
    assert LayerLosses(e, k, dims, m, g, temps).value == seq(|temps|, _ => 0.0);
    SumConstant(0.0, |temps|);
  }

  /** When every layer is at least as warm as both the air and the soil,
      no layer gains heat and the total loss is non-negative. */
  lemma LayerLossesNonNegative(e: Elementary, k: StorageType, dims: seq<real>, m: Material, g: Geometry, temps: seq<real>)
    requires Sound(e) && Physical(m) && DimensionsFit(k, dims) && NonNegativeAreas(g)
    requires forall i :: 0 <= i < |temps| ==> temps[i] >= m.tAmb && temps[i] >= m.tSoil
    requires LayerLosses(e, k, dims, m, g, temps).Success?
    ensures forall i :: 0 <= i < |temps| ==> 0.0 <= LayerLosses(e, k, dims, m, g, temps).value[i]
    ensures 0.0 <= Sum(LayerLosses(e, k, dims, m, g, temps).value)
  {
    var losses := LayerLosses(e, k, dims, m, g, temps).value;
    forall i | 0 <= i < |temps|
      ensures 0.0 <= losses[i]
    {
      LayerLossNonNegative(e, k, dims, m, g, |temps|, i, temps[i]);
    }
    SumNonNegative(losses);
  }

  lemma LayerLossNonNegative(e: Elementary, k: StorageType, dims: seq<real>, m: Material, g: Geometry, n: nat, i: nat, t: real)
    requires Sound(e) && Physical(m) && DimensionsFit(k, dims) && NonNegativeAreas(g) && i < n
    requires t >= m.tAmb && t >= m.tSoil
    ensures 0.0 <= LayerLoss(e, k, dims, m, g, n, i, t)
  {
    TopConductanceNonNegative(m, g);
    LossSign(TopConductance(m, g), t - m.tAmb);
    if k == CylindricalOverground {
      OvergroundConductancesNonNegative(m, dims[0], g);
      LossSign(OvergroundBottomConductance(m, dims[0], g), t - m.tAmb);
      ShareNonNegative(OvergroundSideConductance(m, g), n);
      LossSign(OvergroundSideConductance(m, g) / n as real, t - m.tAmb);
    } else if k == CylindricalUnderground {
      UndergroundConductancePositive(m, dims[0], dims[1]);
      ShareNonNegative(UndergroundConductance(m, dims[0], dims[1]), n);
      LossSign(UndergroundConductance(m, dims[0], dims[1]) / n as real, t - m.tSoil);
    } else if IsPit(k) {
      var h := PitHeight(k, dims);
      PitConductancesNonNegative(e, m, h, dims[1], g);
      LossSign(PitBottomConductance(e, m, h, dims[1], g), t - m.tSoil);
      ShareNonNegative(PitSideConductance(e, m, h, g), n);
      LossSign(PitSideConductance(e, m, h, g) / n as real, t - m.tSoil);
    }
  }

  lemma ShareNonNegative(u: real, n: nat)
    requires 0.0 <= u && 0 < n
    ensures 0.0 <= u / n as real
  {}

  /** `n - 2` layers each carrying `1 / n` of a side conductance lose all of
      it but a `2 / n` share. */
  lemma SideShares(u: real, excess: real, n: nat)
    requires 0 < n
    ensures (n - 2) as real * Loss(u / n as real, excess) + 2.0 * Loss(u, excess) / n as real == Loss(u, excess)
  {
    var k := n as real;
    assert (k - 2.0) * (u / k) + 2.0 * u / k == u;
    assert (k - 2.0) * ((u / k) * excess / 1000.0) + 2.0 * (u * excess / 1000.0) / k
        == ((k - 2.0) * (u / k) + 2.0 * u / k) * excess / 1000.0;
  }

  lemma LossAdditive(u: real, v: real, excess: real)
    ensures Loss(u + v, excess) == Loss(u, excess) + Loss(v, excess)
  {}

  /** An overground cylinder of `n >= 2` layers all at temperature `t`
      loses, layer by layer, the lumped loss less a `2 / n` share of the
      side loss: the top and bottom layers carry no side share. */
  lemma OvergroundLayersAgainstLumped(e: Elementary, dims: seq<real>, m: Material, g: Geometry, temps: seq<real>, t: real)
    requires Physical(m) && DimensionsFit(CylindricalOverground, dims)
    requires |temps| >= 2 && forall i :: 0 <= i < |temps| ==> temps[i] == t
    ensures var n := |temps| as real;
      var x := t - m.tAmb;
      Sum(LayerLosses(e, CylindricalOverground, dims, m, g, temps).value)
        == HeatLoss(e, CylindricalOverground, dims, m, g, t).value
           - 2.0 * Loss(OvergroundSideConductance(m, g), x) / n
  {
    var k := CylindricalOverground;
    var n := |temps|;
    var x := t - m.tAmb;
    var losses := LayerLosses(e, k, dims, m, g, temps).value;
    var top := TopConductance(m, g);
    var side := OvergroundSideConductance(m, g);
    var bottom := OvergroundBottomConductance(m, dims[0], g);
    assert losses[0] == Loss(top, x);
    assert losses[n - 1] == Loss(bottom, x);
    forall i | 0 < i < n - 1
      ensures losses[i] == Loss(side / n as real, x)
    {
      assert losses[i] == LayerLoss(e, k, dims, m, g, n, i, t);
    }
    assert HeatLoss(e, k, dims, m, g, t).value == Loss(top + side + bottom, x);
    SumEndsAndMiddle(losses, Loss(side / n as real, x));
    SideShares(side, x, n);
    LossAdditive(top + side, bottom, x);
    LossAdditive(top, side, x);
  }

  /** A buried cylinder of `n >= 1` layers all at temperature `t` loses,
      layer by layer, its lid loss to the air plus the lumped loss less a
      `1 / n` share of it: the top layer carries no side-and-floor share. */
  lemma UndergroundLayersAgainstLumped(e: Elementary, dims: seq<real>, m: Material, g: Geometry, temps: seq<real>, t: real)
    requires Physical(m) && DimensionsFit(CylindricalUnderground, dims) && InsulationSufficient(m, dims[0])
    requires |temps| >= 1 && forall i :: 0 <= i < |temps| ==> temps[i] == t
    ensures var n := |temps| as real;
      Sum(LayerLosses(e, CylindricalUnderground, dims, m, g, temps).value)
        == Loss(TopConductance(m, g), t - m.tAmb)
           + HeatLoss(e, CylindricalUnderground, dims, m, g, t).value
           - HeatLoss(e, CylindricalUnderground, dims, m, g, t).value / n
  {
    var k := CylindricalUnderground;
    var n := |temps|;
    var x := t - m.tSoil;
    var losses := LayerLosses(e, k, dims, m, g, temps).value;
    var u := UndergroundConductance(m, dims[0], dims[1]);
    assert losses[0] == Loss(TopConductance(m, g), t - m.tAmb);
    forall i | 0 < i < n
      ensures losses[i] == Loss(u / n as real, x)
    {
      assert losses[i] == LayerLoss(e, k, dims, m, g, n, i, t);
    }
    assert HeatLoss(e, k, dims, m, g, t).value == Loss(u, x);
    SumHeadAndRest(losses, Loss(u / n as real, x));
    RestShares(u, x, n);
  }

  lemma RestShares(u: real, excess: real, n: nat)
    requires 0 < n
    ensures (n - 1) as real * Loss(u / n as real, excess) == Loss(u, excess) - Loss(u, excess) / n as real
  {
    var k := n as real;
    assert (k - 1.0) * (u / k) == u - u / k;
    assert (k - 1.0) * ((u / k) * excess / 1000.0) == ((k - 1.0) * (u / k)) * excess / 1000.0;
  }

  /** A pit of `n >= 2` layers all at temperature `t` loses, layer by
      layer, its lid loss to the air (which the lumped formula omits) plus
      the lumped loss less a `2 / n` share of the side loss. */
  lemma PitLayersAgainstLumped(e: Elementary, k: StorageType, dims: seq<real>, m: Material, g: Geometry, temps: seq<real>, t: real)
    requires Physical(m) && IsPit(k) && DimensionsFit(k, dims)
    requires |temps| >= 2 && forall i :: 0 <= i < |temps| ==> temps[i] == t
    ensures var n := |temps| as real;
      Sum(LayerLosses(e, k, dims, m, g, temps).value)
        == Loss(TopConductance(m, g), t - m.tAmb)
           + HeatLoss(e, k, dims, m, g, t).value
           - 2.0 * Loss(PitSideConductance(e, m, PitHeight(k, dims), g), t - m.tSoil) / n
  {
    var n := |temps|;
    var x := t - m.tSoil;
    var losses := LayerLosses(e, k, dims, m, g, temps).value;
    var h := PitHeight(k, dims);
    var side := PitSideConductance(e, m, h, g);
    var bottom := PitBottomConductance(e, m, h, dims[1], g);
    assert losses[0] == Loss(TopConductance(m, g), t - m.tAmb);
    assert losses[n - 1] == Loss(bottom, x);
    forall i | 0 < i < n - 1
      ensures losses[i] == Loss(side / n as real, x)
    {
      assert losses[i] == LayerLoss(e, k, dims, m, g, n, i, t);
    }
    SumEndsAndMiddle(losses, Loss(side / n as real, x));
    SideShares(side, x, n);
    LossAdditive(side, bottom, x);
    assert HeatLoss(e, k, dims, m, g, t).value == Loss(side + bottom, x);
  }
}
