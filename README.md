# Seasonal thermal storage and heat pumps: a verified model

This project models two parts of the district heating simulator in Dafny:

- **The seasonal thermal energy storage (`ThermalStorage`)**:
  - the geometry of its three supported shapes (cylinder, truncated cone, truncated trapezoid, i.e. pit storage);
  - the lumped and the per-layer heat-loss correlations;
  - the single-node hourly simulation;
  - the stratified hourly simulation, with its discharge, charge and layer-exchange passes;
  - the operational cost and efficiency figures.
- **The heat pumps that draw on river water, waste heat and geothermal probes**:
  - the COP lookup with its 75 K lift cap;
  - the heat generation costs;
  - the hourly operation of each heat pump;
  - the bisection that finds the geothermal full-load hours;
  - the environmental figures.

Each part follows the source's own form:

- Pure computations are functions with lemmas.
- The storage is a class. Its hourly series (`Q_sto`, `Q_loss`, `T_sto`) are arrays updated in place, and its layer temperatures are a two-dimensional array.
- Each pass of the stratified hour is a method with a loop, proved against a recursive function that gives the state after its first `k` layers.
- The three heat pumps are classes whose methods set their result fields.
- Loops over hourly masks are methods over arrays proved against a per-hour function.

Arithmetic is over the reals. Square root and natural logarithm are parameters, bundled in `Common.Elementary`, and the proofs rely only on `Common.Sound`:
- a square root is non-negative and squares back;
- a logarithm is positive above 1.

The COP interpolator (`RegularGridInterpolator` over the COP table) is a function parameter that returns a number or NaN (NaN only for NaN inputs or table entries, since `fill_value=None` extrapolates outside the table). The annuity calculation is also a function parameter.

Files:

| file | contents |
|---|---|
| `common.dfy` | results, Python rounding, sums |
| `stes_geometry.dfy` | storage types and geometry |
| `stes_heat_loss.dfy` | lumped and per-layer losses |
| `stes_layers.dfy` | the passes of one stratified hour, as functions |
| `stes_passes.dfy` | the same passes as in-place methods |
| `stes_storage.dfy` | the `ThermalStorage` class |
| `heat_pumps.dfy` | COP, costs and the three heat pumps |

Where the design description and the code differ, the model follows the code:
- A plain `cylindrical` storage has no lumped loss formula (`calculate_heat_loss` returns nothing), so the single-node simulation stores a NaN loss every hour. Only hour 0 gets numbers, the stored heat and the clamped temperature; every later entry turns NaN. The model writes hour 0 and reports `NoLossFormula` (`StesHeatLoss.CylinderHasNoLumpedLoss`, `StesStorage.ThermalStorage.Simulate`).
- The storage constructor accepts only `cylindrical`, `truncated_cone` and `truncated_trapezoid`, so the overground and underground cylinder losses are modelled as functions but no storage object reaches them.
- The layer-exchange pass recomputes temperatures from heat without clamping, so layer temperatures are not kept within `[T_min, T_max]`; only the charge pass raises them to `T_min`.
- A single layer does not reproduce the single-node run: its one layer loses heat through the lid only, and hour 0 drops that hour's net input (`run.leftover[0]`).

## Model

| member | source | states |
|---|---|---|
| `Common.RoundHalfEven` | src/districtheatsim/heat_generators/heat_pumps.py:130 | Python `round`: the result is within 1/2 of the argument, and a tie goes to the even neighbour |
| `StesGeometry.ParseTag` | currently_not_used/STES/STES.py:162-169 | each storage-type string maps back to its type, and no other string maps to that type |
| `StesGeometry.StorageGeometry` | currently_not_used/STES/STES.py:162-169 | an unsupported type fails with `UnsupportedStorageType`; a supported type succeeds exactly when the dimension tuple has its arity (2, 3 or 5) |
| `StesGeometry.CylindricalGeometry` | currently_not_used/STES/STES.py:174-180 | succeeds exactly for two dimensions; top = bottom = π r², volume = top × height, side × radius = 2 × volume |
| `StesGeometry.TruncatedConeGeometry` | currently_not_used/STES/STES.py:183-199 | succeeds exactly for three dimensions (the tuple unpacking) |
| `StesGeometry.TruncatedTrapezoidGeometry` | currently_not_used/STES/STES.py:202-225 | succeeds exactly for five dimensions (the tuple unpacking) |
| `StesGeometry.GeometryIsPrismoid` | currently_not_used/STES/STES.py:174-225 | for positive dimensions every supported geometry satisfies the prismoid rule V = H/3 (S_top + S_bottom + √(S_top S_bottom)) with its height entry |
| `StesGeometry.CylinderIsPrismoid` | currently_not_used/STES/STES.py:176-180 | the cylinder's volume obeys the prismoid rule with its height |
| `StesGeometry.ConeIsPrismoid` | currently_not_used/STES/STES.py:185-191 | the frustum volume obeys the prismoid rule (√(πr_t² πr_b²) = π r_t r_b) |
| `StesGeometry.RectangularFaces` | currently_not_used/STES/STES.py:207-220 | the top and bottom areas are length × width of their rectangles, and their product is the product under the volume's root |
| `StesGeometry.ConeFaces` | currently_not_used/STES/STES.py:183-199 | for any three dimensions the top and bottom are the discs π r_t² and π r_b², and the side is π (r_t + r_b) times the slant height, the non-negative root of (r_t − r_b)² + h² |
| `StesGeometry.TrapezoidFaces` | currently_not_used/STES/STES.py:202-225 | for any five dimensions the top and bottom are the rectangles l_t w_t and l_b w_b, and the side is two pairs of trapezoids, each (a + b)/2 times its slant height, the non-negative root of the squared edge offset plus h² |
| `StesGeometry.TrapezoidAgainstPrismatoid` | currently_not_used/STES/STES.py:204-209 | for positive dimensions the computed volume never exceeds the exact prismatoid volume h/6 (A_top + A_bottom + 4 A_mid), and equals it exactly when the two rectangles are similar (l_t w_b = l_b w_t) |
| `StesGeometry.FrustumAgainstPrismatoid` | currently_not_used/STES/STES.py:204-209 | the shortfall of the frustum volume against the exact prismatoid volume is h/6 (√(l_t w_b) − √(l_b w_t))² |
| `StesGeometry.GeometryPositive` | currently_not_used/STES/STES.py:174-225 | positive dimensions give a geometry with positive volume |
| `StesGeometry.EqualRadiiConeIsCylinder` | currently_not_used/STES/STES.py:183-199 | a truncated cone with equal radii is exactly the cylinder of that radius and height |
| `StesGeometry.EqualFacesTrapezoidIsBox` | currently_not_used/STES/STES.py:202-225 | a truncated trapezoid with equal faces is a box: volume l·w·h, side 2(l + w)h, top = bottom = l·w |
| `StesGeometry.TrapezoidHeightMisread` | currently_not_used/STES/STES.py:252 | for the trapezoid [40, 40, 20, 20, 10] the height read as `dimensions[2]` is 20, the true height is 10, and the prismoid rule fails with the height read |
| `StesHeatLoss.PitHeight` | currently_not_used/STES/STES.py:252 | the pit formulas use the shape's height entry, which is positive |
| `StesHeatLoss.HeatLoss` | currently_not_used/STES/STES.py:227-262 | the lumped loss fails exactly for a type without a formula (`NoLossFormula`) or an underground cylinder whose side insulation is not thicker than 2·d_min (`InsulationTooThin`) |
| `StesHeatLoss.CylinderHasNoLumpedLoss` | currently_not_used/STES/STES.py:227-262 | the plain `cylindrical` type gets no lumped loss |
| `StesHeatLoss.HeatLossSign` | currently_not_used/STES/STES.py:230-262 | the lumped loss is non-negative above the surrounding temperature (air or soil), non-positive below it, and increasing in the storage temperature |
| `StesHeatLoss.LumpedConductanceNonNegative` | currently_not_used/STES/STES.py:230-261 | every lumped conductance is non-negative for physical parameters |
| `StesHeatLoss.OvergroundConductancesNonNegative` | currently_not_used/STES/STES.py:232-234 | the side and the soil-coupled bottom conductances of an overground cylinder are non-negative |
| `StesHeatLoss.UndergroundConductancePositive` | currently_not_used/STES/STES.py:243-247 | K_sb × S_c of a buried cylinder is positive |
| `StesHeatLoss.PitConductancesNonNegative` | currently_not_used/STES/STES.py:253-261 | the logarithmic side and bottom conductances of a pit are non-negative |
| `StesHeatLoss.LogCoefficientPositive` | currently_not_used/STES/STES.py:255 | (1/(bH)) ln((a + bH)/a) is positive for positive a, b, H |
| `StesHeatLoss.LayerLosses` | currently_not_used/STES/STES.py:286-343 | the per-layer losses fail exactly for a buried cylinder with at least one layer and too thin insulation; otherwise there is one loss per layer |
| `StesHeatLoss.LayerLossPrefix` | currently_not_used/STES/STES.py:292-341 | entry i is the loss of layer i at its own temperature: lid for layer 0, floor for the last layer, a 1/n side share otherwise (buried cylinder: a 1/n side-and-floor share) |
| `StesHeatLoss.UnknownTypeLosesNothing` | currently_not_used/STES/STES.py:290-343 | a type the loss code does not know leaves every layer loss at 0 and the total at 0 |
| `StesHeatLoss.LayerLossesNonNegative` | currently_not_used/STES/STES.py:286-343 | layers at least as warm as air and soil have non-negative losses and a non-negative total |
| `StesHeatLoss.LayerLossNonNegative` | currently_not_used/STES/STES.py:292-341 | one layer at least as warm as air and soil loses a non-negative amount |
| `StesHeatLoss.OvergroundLayersAgainstLumped` | currently_not_used/STES/STES.py:293-303 | with all layers at the same temperature, the per-layer total is the lumped loss minus 2/n of the side loss (lid and floor layers carry no side share) |
| `StesHeatLoss.UndergroundLayersAgainstLumped` | currently_not_used/STES/STES.py:305-321 | with all layers at the same temperature, the per-layer total is the lid loss plus the lumped loss minus 1/n of it |
| `StesHeatLoss.PitLayersAgainstLumped` | currently_not_used/STES/STES.py:323-341 | with all layers at the same temperature, the per-layer total is the lid loss plus the lumped loss minus 2/n of the side loss |
| `StesLayers.AtLeast` | currently_not_used/STES/STES.py:424-425 | the raised temperature is at least `T_min`, at least the value, and one of the two |
| `StesLayers.Drawn` | currently_not_used/STES/STES.py:382-396 | under a deficit the heat drawn never exceeds the deficit; without one nothing is drawn |
| `StesLayers.DischargeLayer` | currently_not_used/STES/STES.py:382-396 | one discharge step keeps one heat value and one temperature per layer |
| `StesLayers.Discharge` | currently_not_used/STES/STES.py:381-396 | the discharge pass keeps one heat value and one temperature per layer |
| `StesLayers.DischargeConserves` | currently_not_used/STES/STES.py:381-396 | the heat held by the layers plus `remaining_heat` is the same before and after the discharge pass |
| `StesLayers.DischargeKeepsDeficit` | currently_not_used/STES/STES.py:381-396 | a deficit never turns into a surplus; without a deficit the pass changes nothing |
| `StesLayers.Charged` | currently_not_used/STES/STES.py:403-415 | the heat charged into a layer is at most its headroom to `T_max` and at most the surplus, and leaves a non-negative surplus; nothing is charged without a surplus |
| `StesLayers.ChargeLayer` | currently_not_used/STES/STES.py:400-425 | one charge step keeps one heat value and one temperature per layer |
| `StesLayers.Charge` | currently_not_used/STES/STES.py:399-425 | the charge pass keeps one heat value and one temperature per layer |
| `StesLayers.ChargeConserves` | currently_not_used/STES/STES.py:399-425 | heat held + `remaining_heat` + the booked losses (loss / 3600 per layer) is the same before and after the charge pass |
| `StesLayers.ChargeKeepsSurplus` | currently_not_used/STES/STES.py:399-425 | a surplus stays non-negative; a non-positive `remaining_heat` is left as it is |
| `StesLayers.ChargeFrame` | currently_not_used/STES/STES.py:399-425 | layers not yet visited are untouched, and a visited layer keeps the values of its own step |
| `StesLayers.ChargeWithinHeadroom` | currently_not_used/STES/STES.py:403-414 | the heat added to a layer (loss booking aside) is within its headroom to `T_max`, or zero |
| `StesLayers.ChargeWithoutSurplus` | currently_not_used/STES/STES.py:416-425 | without a surplus every layer's temperature is its previous one raised to `T_min` |
| `StesLayers.DischargeTemperaturesOverwritten` | currently_not_used/STES/STES.py:390-425 | in a deficit hour the charge pass overwrites every temperature the discharge pass wrote with the previous one raised to `T_min` |
| `StesLayers.Exchange` | currently_not_used/STES/STES.py:437-438 | moving heat between two neighbours keeps the number of layers |
| `StesLayers.ExchangeConserves` | currently_not_used/STES/STES.py:437-438 | what layer i gives, layer i + 1 receives: the total is unchanged |
| `StesLayers.DiffuseLayer` | currently_not_used/STES/STES.py:429-442 | one exchange step keeps one heat value and one temperature per layer |
| `StesLayers.Diffuse` | currently_not_used/STES/STES.py:428-442 | the exchange pass keeps the layer count and `remaining_heat` |
| `StesLayers.DiffuseConserves` | currently_not_used/STES/STES.py:428-442 | the exchange pass leaves the total heat unchanged |
| `StesLayers.DiffuseResetsTemperatures` | currently_not_used/STES/STES.py:441-442 | after the exchange pass every visited layer has the temperature its heat gives |
| `StesLayers.Hour` | currently_not_used/STES/STES.py:380-442 | an hour keeps one heat value and one temperature per layer |
| `StesLayers.HourBalance` | currently_not_used/STES/STES.py:373-442 | heat after the hour = heat before + net input − Σ layer losses / 3600 − the `remaining_heat` left over |
| `StesLayers.TemperatureOfEnergy` | currently_not_used/STES/STES.py:441 | converting a temperature to layer heat and back gives the temperature |
| `StesLayers.DrawnTemperatureMatchesHeat` | currently_not_used/STES/STES.py:387-396 | a discharged layer's temperature drops by exactly the drawn heat converted to kelvin |
| `StesLayers.ChargedTemperatureMatchesHeat` | currently_not_used/STES/STES.py:405-418 | a charged layer's temperature rises by exactly the charged heat converted to kelvin |
| `StesPasses.MeanUniform` | currently_not_used/STES/STES.py:448 | the mean of a row at one temperature is that temperature |
| `StesPasses.SumOfShares` | currently_not_used/STES/STES.py:378 | n equal shares of the initial stored heat add up to it |
| `StesPasses.Full` | currently_not_used/STES/STES.py:365 | a fresh hours × layers array whose every row is the initial temperature |
| `StesPasses.HourPasses` | currently_not_used/STES/STES.py:380-442 | the heat array and row t become the hour's result from their old contents; no other row changes |
| `StesPasses.DischargePass` | currently_not_used/STES/STES.py:381-396 | the loop leaves heat, row t and `remaining_heat` as the discharge pass gives them; no other row changes |
| `StesPasses.DischargeStep` | currently_not_used/STES/STES.py:382-396 | one layer of the discharge loop, as `DischargeLayer` gives it |
| `StesPasses.ChargePass` | currently_not_used/STES/STES.py:399-425 | the loop leaves heat, row t and `remaining_heat` as the charge pass gives them; no other row changes |
| `StesPasses.ChargeStep` | currently_not_used/STES/STES.py:400-425 | one layer of the charge loop, as `ChargeLayer` gives it |
| `StesPasses.DiffusePass` | currently_not_used/STES/STES.py:428-442 | the loop leaves heat and row t as the exchange pass gives them; no other row changes |
| `StesPasses.DiffuseStep` | currently_not_used/STES/STES.py:429-442 | one neighbour pair of the exchange loop, as `DiffuseLayer` gives it |
| `StesPasses.HourWithTotals` | currently_not_used/STES/STES.py:380-448 | one hour in place, then `Q_sto[t]` = Σ layer heat and `T_sto[t]` = mean of row t |
| `StesStorage.Clamp` | currently_not_used/STES/STES.py:280-284 | the limited temperature lies in `[T_min, T_max]` and is unchanged when already inside |
| `StesStorage.ThermalStorage.Init` | currently_not_used/STES/STES.py:134-159 | the fields as given, `Q_sto` and `Q_loss` zero, `T_sto[0]` the initial temperature and the rest zero |
| `StesStorage.ThermalStorage.Create` | currently_not_used/STES/STES.py:134-169 | fails exactly for zero hours, an unsupported type or a wrong dimension count, with that error; otherwise a fresh valid storage with that type's geometry, the given material, layer count and conductivity, zeroed `Q_sto` and `Q_loss`, `T_sto` zero except `T_sto[0]` = the initial temperature, and no costs or efficiency yet |
| `StesStorage.ThermalStorage.NodeTemperatureOfStoredEnergy` | currently_not_used/STES/STES.py:271-278 | stored heat and node temperature are inverse conversions |
| `StesStorage.ThermalStorage.NodeSeries` | currently_not_used/STES/STES.py:264-284 | the single-node series for k hours have k entries each |
| `StesStorage.ThermalStorage.NodeSeriesRecurrence` | currently_not_used/STES/STES.py:265-284 | hour 0 stores V ρ c_p (T₀ − T_ref)/3.6e6 and loses at the last entry's temperature; each later hour loses at the previous temperature, stores previous + in − out − loss, and takes the clamped temperature of that heat |
| `StesStorage.ThermalStorage.NodeSeriesStart` | currently_not_used/STES/STES.py:267-271 | the hour-0 entries of the single-node series |
| `StesStorage.ThermalStorage.NodeSeriesHour` | currently_not_used/STES/STES.py:267-284 | the entries of a later hour of the single-node series |
| `StesStorage.ThermalStorage.NodeSeriesBalance` | currently_not_used/STES/STES.py:275 | stored heat after k hours = initial + Σ in − Σ out − Σ losses over hours 1..k−1 (the clamp does not feed back) |
| `StesStorage.ThermalStorage.NodeSeriesBounded` | currently_not_used/STES/STES.py:280-284 | every temperature of the single-node series lies in `[T_min, T_max]` |
| `StesStorage.ThermalStorage.Simulate` | currently_not_used/STES/STES.py:264-284 | a plain cylinder writes the stored heat and the clamped temperature of hour 0, changes nothing else and reports `NoLossFormula`; a pit writes exactly the single-node series into `Q_sto`, `Q_loss`, `T_sto` |
| `StesStorage.ThermalStorage.SimulateHours` | currently_not_used/STES/STES.py:265-284 | the hourly loop writes the single-node series |
| `StesStorage.ThermalStorage.SimulateHour` | currently_not_used/STES/STES.py:266-284 | one iteration extends the series written so far by one hour |
| `StesStorage.ThermalStorage.CalculateStratifiedHeatLoss` | currently_not_used/STES/STES.py:286-343 | `Q_loss_layers` becomes the per-layer losses, which always exist for a constructed storage, and the result is their sum |
| `StesStorage.ThermalStorage.Losses` | currently_not_used/STES/STES.py:370 | one loss per layer of a temperature row |
| `StesStorage.ThermalStorage.StratifiedParams` | currently_not_used/STES/STES.py:352-364 | layer heat capacity V/n × ρ × c_p is positive, and the layer temperature bounds are the storage's |
| `StesStorage.ThermalStorage.StratifiedRun` | currently_not_used/STES/STES.py:345-448 | k hours give k rows of n temperatures; hour 0 has a uniform row at T₀, stored heat V ρ c_p (T₀ − T_ref)/3.6e6 and mean T₀; each hour's stored heat is the previous one + in − out − loss/3600 − leftover; the last stored heat is Σ layer heat |
| `StesStorage.ThermalStorage.AfterHour` | currently_not_used/STES/STES.py:368-448 | the same facts one hour on; with two or more layers the hour's row is the temperature of each layer's heat |
| `StesStorage.ThermalStorage.SimulateStratified` | currently_not_used/STES/STES.py:345-448 | a non-positive layer count fails (`ZeroLayers` or `NegativeLayers`) and changes nothing; otherwise a fresh hours × n layer array, and all series equal to the stratified run |
| `StesStorage.ThermalStorage.FirstHour` | currently_not_used/STES/STES.py:368-378 | hour 0 of the stratified loop establishes the run of one hour |
| `StesStorage.ThermalStorage.LaterHours` | currently_not_used/STES/STES.py:368-448 | the loop over hours 1.. extends the run to all hours |
| `StesStorage.ThermalStorage.NextHour` | currently_not_used/STES/STES.py:368-448 | one iteration extends the run by one hour and leaves later rows at T₀ |
| `StesStorage.ThermalStorage.LaterHour` | currently_not_used/STES/STES.py:370-448 | the body of an hour after the first: losses, passes, totals |
| `StesStorage.ThermalStorage.BookLayerLosses` | currently_not_used/STES/STES.py:370 | `Q_loss_layers` becomes the losses of the previous row, and `Q_loss[t]` their sum |
| `StesStorage.ThermalStorage.CalculateOperationalCosts` | currently_not_used/STES/STES.py:450-453 | the cost is Σ `Q_loss` × price |
| `StesStorage.OperationalCostsNonNegative` | currently_not_used/STES/STES.py:450-453 | non-negative losses and price give non-negative costs |
| `StesStorage.Efficiency` | currently_not_used/STES/STES.py:455-459 | defined exactly when Σ `Q_in` ≠ 0, and then efficiency × Σ `Q_in` = Σ `Q_out` |
| `StesStorage.ThermalStorage.CalculateEfficiency` | currently_not_used/STES/STES.py:455-459 | sets the efficiency field to that ratio and changes nothing else |
| `HeatPumps.CalculateCop` | src/districtheatsim/heat_generators/heat_pumps.py:69-93 | fails (`ShapeMismatch`) exactly when a source-temperature series cannot be paired with the flow temperatures; otherwise each flow is min(flow, 75 + source) and equal to one of them, and each COP is the interpolated value, or 0 where the interpolator gives NaN |
| `HeatPumps.ScalarSourceCop` | src/districtheatsim/heat_generators/heat_pumps.py:69-74 | a scalar source temperature never fails, keeps the length, and caps each hour by itself |
| `HeatPumps.CapIdempotent` | src/districtheatsim/heat_generators/heat_pumps.py:69 | recomputing on already-capped flow temperatures gives the same table |
| `HeatPumps.BaseName` | src/districtheatsim/heat_generators/heat_pumps.py:136 | the base name is a prefix of the name, contains no `_`, and is followed by `_` when shorter |
| `HeatPumps.BaseNameOfSuffixed` | src/districtheatsim/heat_generators/heat_pumps.py:136 | `base_suffix` has base name `base`, and a name without `_` is its own base name |
| `HeatPumps.HeatGenerationCosts` | src/districtheatsim/heat_generators/heat_pumps.py:105-149 | zero heat costs 0; an unknown source fails with `UnknownSource(base)`; otherwise cost × heat = heat-pump annuity + source annuity |
| `HeatPumps.TotalOfSum` | src/districtheatsim/heat_generators/heat_pumps.py:236-238 | Σ(x / 1000) × duration = Σx / 1000 × duration |
| `HeatPumps.EnvironmentalImpact` | src/districtheatsim/heat_generators/heat_pumps.py:242-248 | specific CO2 × heat = CO2 when heat > 0, else specific CO2 is 0; no electricity gives no CO2 and no primary energy |
| `HeatPumps.RiverSplit` | src/districtheatsim/heat_generators/heat_pumps.py:198-199 | cooling + electric = heat, and electric × COP = heat |
| `HeatPumps.RiverTotals` | src/districtheatsim/heat_generators/heat_pumps.py:236-240 | the totals are Σ series / 1000 × duration, with the series returned as they are |
| `HeatPumps.RiverHeatPump.constructor` | src/districtheatsim/heat_generators/heat_pumps.py:175-183 | the parameters as given, CO2 factor 0.4 and primary-energy factor 2.4 |
| `HeatPumps.RiverHeatPump.CalculateHeatPump` | src/districtheatsim/heat_generators/heat_pumps.py:185-200 | hourly cooling + electric = heat, electric × COP = heat, and the capped flow temperature |
| `HeatPumps.RiverHeatPump.Hour` | src/districtheatsim/heat_generators/heat_pumps.py:225-234 | below the minimum part load all zero; otherwise flow capped, and heat min(load, capacity) if the capped flow reaches VLT − dT, else all zero; cooling + electric = heat, electric × COP = heat |
| `HeatPumps.RiverHeatPump.CalculateRiverHeat` | src/districtheatsim/heat_generators/heat_pumps.py:203-240 | zero capacity gives zeros; otherwise each hour is `Hour` and the totals are Σ / 1000 × duration |
| `HeatPumps.RiverHeatPump.OperatingHours` | src/districtheatsim/heat_generators/heat_pumps.py:219-228 | the first mask: hours at part load get heat, cooling, electric and flow |
| `HeatPumps.RiverHeatPump.UnreachedHours` | src/districtheatsim/heat_generators/heat_pumps.py:231-234 | the second mask zeroes the hours whose capped flow misses VLT − dT |
| `HeatPumps.RiverHeatPump.CalculateEnvironmentalImpact` | src/districtheatsim/heat_generators/heat_pumps.py:242-248 | the three fields become the environmental figures of the heat and electricity, and no other field changes |
| `HeatPumps.RatedAt` | src/districtheatsim/heat_generators/heat_pumps.py:357-358 | heat − electric = source power, electric × COP = heat, and a non-zero source gives non-zero heat |
| `HeatPumps.MaxOf` | src/districtheatsim/heat_generators/heat_pumps.py:390 | the maximum is an entry and bounds every entry |
| `HeatPumps.WasteHour` | src/districtheatsim/heat_generators/heat_pumps.py:383-385 | below the minimum part load nothing; otherwise heat = min(load, rated heat) and electric is the rated electric share of that heat |
| `HeatPumps.WasteHourAsWritten` | src/districtheatsim/heat_generators/heat_pumps.py:385 | the source's electric power is heat minus the rated electric share, i.e. the heat drawn from the waste-heat source |
| `HeatPumps.WasteHourAtCop` | src/districtheatsim/heat_generators/heat_pumps.py:383-385 | electric × COP = heat in every hour; heat never exceeds a non-negative rated heat; nothing below part load |
| `HeatPumps.WasteElectricAsWrittenCounterexample` | src/districtheatsim/heat_generators/heat_pumps.py:385 | source power 100 kW and COP 4: the hour as written books 100 kW electric, the corrected hour 100/3 kW |
| `HeatPumps.WasteTotals` | src/districtheatsim/heat_generators/heat_pumps.py:387-388 | the totals are Σ series / 1000 × duration |
| `HeatPumps.WasteHours` | src/districtheatsim/heat_generators/heat_pumps.py:379-385 | the masked loop gives every hour as `WasteHour` |
| `HeatPumps.WasteHeatPump.constructor` | src/districtheatsim/heat_generators/heat_pumps.py:336-343 | the parameters as given, CO2 factor 0.4 and primary-energy factor 2.4 |
| `HeatPumps.WasteHeatPump.CalculateHeatPump` | src/districtheatsim/heat_generators/heat_pumps.py:345-359 | rated heat − electric = cooling capacity, electric × COP = heat, and non-zero capacity gives non-zero heat |
| `HeatPumps.WasteHeatPump.CalculateWasteHeat` | src/districtheatsim/heat_generators/heat_pumps.py:361-392 | zero capacity gives zeros; an empty load series fails (`np.max` of nothing) and leaves the maximum heat output as it was; otherwise every hour is `WasteHour`, the totals are Σ / 1000 × duration, and the maximum heat output is set |
| `HeatPumps.WasteHeatPump.CalculateEnvironmentalImpact` | src/districtheatsim/heat_generators/heat_pumps.py:394-400 | the three fields become the environmental figures of the heat and electricity, and no other field changes |
| `HeatPumps.RatedOutputs` | src/districtheatsim/heat_generators/heat_pumps.py:538 | each hour's rated heat is the extraction power lifted by that hour's COP |
| `HeatPumps.GeoHourAt` | src/districtheatsim/heat_generators/heat_pumps.py:547-550 | a running hour delivers min(load, rated), extracts the extraction power, and heat = electric + extracted; other hours nothing |
| `HeatPumps.GeoHours` | src/districtheatsim/heat_generators/heat_pumps.py:542-550 | one `GeoHourAt` per hour |
| `HeatPumps.CountNonZero` | src/districtheatsim/heat_generators/heat_pumps.py:555 | at most the length, and 0 exactly when every entry is 0 |
| `HeatPumps.IdleStep` | src/districtheatsim/heat_generators/heat_pumps.py:552-560 | a step in which no hour runs books nothing and leaves the single value 0 as hourly series |
| `HeatPumps.ExtractedEnergy` | src/districtheatsim/heat_generators/heat_pumps.py:550-552 | extracted energy × 1000 = extraction power × number of running hours |
| `HeatPumps.OperationStep` | src/districtheatsim/heat_generators/heat_pumps.py:541-560 | the array loop of one bisection step gives exactly the step's totals and series |
| `HeatPumps.WidthAboveTolerance` | src/districtheatsim/heat_generators/heat_pumps.py:530-533 | the interval exceeds the 0.5 tolerance exactly for the first 15 halvings, and is then 8759/32768 |
| `HeatPumps.Bisect` | src/districtheatsim/heat_generators/heat_pumps.py:530-565 | 1 ≤ B_min < B_max ≤ 8760 with width 8759/32768 ≤ 0.5; the last B is one end; each end is the start or brackets the yearly extraction (more extracted at B_min, at most at B_max) |
| `HeatPumps.GeoResult` | src/districtheatsim/heat_generators/heat_pumps.py:567-571 | the series as the last step left them, and the amounts scaled by the duration |
| `HeatPumps.Geothermal.constructor` | src/districtheatsim/heat_generators/heat_pumps.py:489-501 | the parameters as given, CO2 factor 0.4 and primary-energy factor 2.4 |
| `HeatPumps.Geothermal.ProbeCount` | src/districtheatsim/heat_generators/heat_pumps.py:519 | (round(√area / spacing) + 1)² is a non-negative count |
| `HeatPumps.Geothermal.Cops` | src/districtheatsim/heat_generators/heat_pumps.py:526 | the COP of each hour at the ground temperature |
| `HeatPumps.Geothermal.CalculateOperation` | src/districtheatsim/heat_generators/heat_pumps.py:503-571 | no area or depth gives zeros and changes nothing; otherwise the probe investment, a bisection bracket as in `Bisect`, the result of the last step scaled by the duration, and the maximum heat output |
| `HeatPumps.Geothermal.CalculateEnvironmentalImpact` | src/districtheatsim/heat_generators/heat_pumps.py:573-579 | the three fields become the environmental figures of the heat and electricity, and no other field changes |

## Left out

- Plotting, animation and sliders (`currently_not_used/STES/STES.py:33-131`, `plot_3d_temperature_distribution`, `plot_results`) and the colour-bar flags: display only.
- `optimize_storage_geometry`: a call into an external minimiser.
- The script section of the storage file and the console messages of `calculate_COP`: I/O.
- `calculate`, `to_dict` and `from_dict` of the three heat pumps, and the `AqvaHeat` class: they orchestrate or persist results of the modelled operations.
- The annual performance factor (`JAZ`) of the geothermal heat pump: computed but never used.
- `BEW` in the cost calculation: accepted but never used.
- The `except ValueError` branch of `calculate_COP`: with `bounds_error=False` the interpolator raises no `ValueError`. With `fill_value=None` it extrapolates linearly outside the table. NaN arises only from NaN temperatures or table entries, and that NaN is modelled.
- The annuity formula: it lives outside the modelled files and is a function parameter.
- The COP interpolator: a function parameter returning a number or NaN, so its linear interpolation and extrapolation are not modelled.
- IEEE floating point (rounding, infinities, NaN arithmetic): the model computes over the reals.
- Square root and logarithm are characterised only by `Common.Sound`.
- Inputs that make numpy divide by zero or produce infinities are excluded by preconditions rather than modelled:
  - non-positive conductivities, thicknesses, density or heat capacity;
  - a COP of 0 for the river heat pump;
  - a COP of 0 or 1 for the waste-heat and geothermal heat pumps;
  - a probe spacing of 0.
- Series of different lengths, which numpy would broadcast or reject:
  - load and flow temperatures must have equal length;
  - the storage inputs must cover every hour.
- `StesGeometry.GeometryPositive`: proves a positive volume only; positive surface areas are not proved.
- `StesGeometry.TruncatedConeGeometry`: its own contract states the arity only; its faces are stated by `ConeFaces` and its volume by `GeometryIsPrismoid`.
- `StesGeometry.TruncatedTrapezoidGeometry`: its own contract states the arity only; its faces are stated by `TrapezoidFaces` and its volume by `GeometryIsPrismoid` and `TrapezoidAgainstPrismatoid`. The volume formula is the frustum-of-a-pyramid rule, exact only for similar rectangles; the model keeps it as written.
- `StesStorage.ThermalStorage.Simulate`: for a plain cylinder the source stores a NaN loss every hour and NaN heat and temperature from hour 1 on; the model writes hour 0 as the source does, leaves the later entries and the losses unchanged and reports `NoLossFormula`, because NaN arithmetic is not modelled.
- `HeatPumps.Geothermal.ProbeCount`: for a negative area the source's `np.sqrt` gives NaN and `round` of NaN raises `ValueError`; the model's square root is unconstrained below zero, so it returns some non-negative count there instead of an error.
- `StesStorage.ThermalStorage.Create`: requires positive dimensions. With a zero dimension the volume is 0 and the node temperature divides by it; a negative face product makes `np.sqrt` NaN; the pit logarithm needs a positive height and floor extent. NaN and infinities are not modelled.
- The pit bottom loss keeps `dimensions[1]` as the floor extent, as written: for a cone that is the bottom radius, for a trapezoid the top width.
- `HeatPumps.WasteHourAtCop`: bounds the delivered heat by the rated heat only when the rated heat is non-negative.
- The pit formulas and the layer thickness use the shape's height entry (`StesHeatLoss.PitHeight`, `StesStorage.ThermalStorage.StratifiedParams`) instead of the `dimensions[2]` the source reads; see Findings.
- The waste-heat hour uses the corrected electric power (`HeatPumps.WasteHour`); see Findings.

## Findings

| source | as written | input that shows it | evidently intended | confidence | as-written member | corrected member |
|---|---|---|---|---|---|---|
| currently_not_used/STES/STES.py:252 | the pit loss formulas (also lines 325 and 359, the layer thickness) read the height as `dimensions[2]` for both pit shapes; for a truncated trapezoid that is the bottom length | truncated trapezoid [40, 40, 20, 20, 10]: the height read is 20, the geometry's height is 10, and the volume fails the prismoid rule with 20 | the height `dimensions[4]` of a truncated trapezoid, the height its own volume formula uses | high; not executed | `StesGeometry.TrapezoidHeightMisread` (on `StesGeometry.HeightAsWritten`) | `StesHeatLoss.PitHeight`, with `StesGeometry.GeometryIsPrismoid` |
| src/districtheatsim/heat_generators/heat_pumps.py:385 | the electric power of an operating hour is heat − (heat / rated heat) × rated electric, which is the heat drawn from the waste-heat source | cooling capacity 100 kW, COP 4, load 1000 kW: rated heat 133.3 kW and rated electric 33.3 kW, but the hour books 100 kW electric | (heat / rated heat) × rated electric, i.e. heat / COP, as the river heat pump computes (src/districtheatsim/heat_generators/heat_pumps.py:198-199) | high; not executed | `HeatPumps.WasteElectricAsWrittenCounterexample` (on `HeatPumps.WasteHourAsWritten`) | `HeatPumps.WasteHourAtCop` (on `HeatPumps.WasteHour`) |
