/** Storage types of the seasonal thermal storage and their geometry:
    volume and the top, side and bottom surface areas computed from a
    dimension tuple (currently_not_used/STES/STES.py:162-225). */
module StesGeometry {
  import opened Common

  /** The storage-type strings the storage code compares against; any other
      string is `Unrecognised`. */
  datatype StorageType =
    | Cylindrical
    | CylindricalOverground
    | CylindricalUnderground
    | TruncatedCone
    | TruncatedTrapezoid
    | Unrecognised

  /** The errors the storage code raises. */
  datatype StesError =
    | UnsupportedStorageType  // ValueError("Unsupported storage type")
    | WrongDimensionCount     // ValueError from unpacking the dimension tuple
    | MissingDimension        // IndexError from indexing the dimension tuple
    | InsulationTooThin       // ValueError for underground cylinders
    | NoLossFormula           // calculate_heat_loss returned None
    | NoHours                 // IndexError: T_sto[0] of an empty series
    | ZeroLayers              // ZeroDivisionError: height / num_layers
    | NegativeLayers          // ValueError from np.full with a negative layer count

  datatype Geometry = Geometry(volume: real, top: real, side: real, bottom: real)

  function Tag(k: StorageType): string
    requires k != Unrecognised
  {
    match k
    case Cylindrical => "cylindrical"
    case CylindricalOverground => "cylindrical_overground"
    case CylindricalUnderground => "cylindrical_underground"
    case TruncatedCone => "truncated_cone"
    case TruncatedTrapezoid => "truncated_trapezoid"
  }

  function ParseStorageType(tag: string): StorageType {
    if tag == "cylindrical" then Cylindrical
    else if tag == "cylindrical_overground" then CylindricalOverground
    else if tag == "cylindrical_underground" then CylindricalUnderground
    else if tag == "truncated_cone" then TruncatedCone
    else if tag == "truncated_trapezoid" then TruncatedTrapezoid
    else Unrecognised
  }

  /** Every named type is recognised from its own string, and no other
      string names it. */
  lemma ParseTag(k: StorageType, tag: string)
    requires k != Unrecognised
    ensures ParseStorageType(Tag(k)) == k
    ensures ParseStorageType(tag) == k <==> tag == Tag(k)
  {}

  /** The types the storage constructor accepts. */
  predicate Supported(k: StorageType) {
    k == Cylindrical || k == TruncatedCone || k == TruncatedTrapezoid
  }

  /** Number of entries the dimension tuple of a type unpacks into. */
  function Arity(k: StorageType): nat
    requires Supported(k)
  {
    match k
    case Cylindrical => 2
    case TruncatedCone => 3
    case TruncatedTrapezoid => 5
  }

  /** `radius, height = dimensions` and the cylinder formulas. */
  function CylindricalGeometry(dims: seq<real>): (r: Result<Geometry, StesError>)
    ensures r.Success? <==> |dims| == 2
    ensures r.Success? ==>
      && r.value.top == r.value.bottom == Pi * dims[0] * dims[0]
      && r.value.volume == r.value.top * dims[1]
      && r.value.side * dims[0] == 2.0 * r.value.volume
  {
    if |dims| != 2 then Failure(WrongDimensionCount)
    else
      var radius, height := dims[0], dims[1];
      var volume := Pi * radius * radius * height;
      var sTop := Pi * radius * radius;
      var sSide := 2.0 * Pi * radius * height;
      Success(Geometry(volume, sTop, sSide, sTop))
  }

  /** `top_radius, bottom_radius, height = dimensions` and the frustum
      formulas; the slant height is the root of `SlantSquare`. */
  function TruncatedConeGeometry(e: Elementary, dims: seq<real>): (r: Result<Geometry, StesError>)
    ensures r.Success? <==> |dims| == 3
  {
    if |dims| != 3 then Failure(WrongDimensionCount)
    else Success(Frustum(dims[0], dims[1], dims[2], e.sqrt(SlantSquare(dims[0] - dims[1], dims[2]))))
  }

  /** Square of the slant height of a frustum face whose top and bottom
      edges differ by `offset` (radii for a cone, 2 x half-widths for a pit). */
  function SlantSquare(offset: real, height: real): real {
    offset * offset + height * height
  }

  /** The frustum of a cone once its slant height is known. */
  function Frustum(topRadius: real, bottomRadius: real, height: real, slantHeight: real): Geometry {
    var volume := (1.0 / 3.0) * Pi * height
      * (topRadius * topRadius + bottomRadius * bottomRadius + topRadius * bottomRadius);
    var sTop := Pi * topRadius * topRadius;
    var sBottom := Pi * bottomRadius * bottomRadius;
    var sSide := Pi * (topRadius + bottomRadius) * slantHeight;
    Geometry(volume, sTop, sSide, sBottom)
  }

  /** `top_length, top_width, bottom_length, bottom_width, height = dimensions`
      and the rectangular-frustum formulas: the volume needs the root of the
      product of the two face areas, each pair of side faces its slant height. */
  function TruncatedTrapezoidGeometry(e: Elementary, dims: seq<real>): (r: Result<Geometry, StesError>)
    ensures r.Success? <==> |dims| == 5
  {
    if |dims| != 5 then Failure(WrongDimensionCount)
    else Success(RectangularFrustum(dims[0], dims[1], dims[2], dims[3], dims[4],
      e.sqrt(FaceProduct(dims[0], dims[1], dims[2], dims[3])),
      e.sqrt(SlantSquare(dims[0] - dims[2], dims[4])),
      e.sqrt(SlantSquare(dims[1] - dims[3], dims[4]))))
  }

  function FaceProduct(topLength: real, topWidth: real, bottomLength: real, bottomWidth: real): real {
    (topLength * topWidth) * (bottomLength * bottomWidth)
  }

  /** The rectangular frustum once the root of the face-area product and
      the slant heights of its length and width faces are known. */
  function RectangularFrustum(topLength: real, topWidth: real, bottomLength: real, bottomWidth: real,
                              height: real, areaRoot: real, sideLength: real, sideWidth: real): Geometry
  {
    var aTop := topLength * topWidth;
    var aBottom := bottomLength * bottomWidth;
    var volume := (1.0 / 3.0) * height * (aTop + aBottom + areaRoot);
    var sSideLength := (topLength + bottomLength) * sideLength / 2.0;
    var sSideWidth := (topWidth + bottomWidth) * sideWidth / 2.0;
    Geometry(volume, aTop, 2.0 * (sSideLength + sSideWidth), aBottom)
  }

  /** The dispatch of the storage constructor: only the three supported
      types have a geometry, every other type is refused. */
  function StorageGeometry(e: Elementary, k: StorageType, dims: seq<real>): (r: Result<Geometry, StesError>)
    ensures !Supported(k) ==> r == Failure(UnsupportedStorageType)
    ensures Supported(k) ==> (r.Success? <==> |dims| == Arity(k))
  {
    match k
    case Cylindrical => CylindricalGeometry(dims)
    case TruncatedCone => TruncatedConeGeometry(e, dims)
    case TruncatedTrapezoid => TruncatedTrapezoidGeometry(e, dims)
    case _ => Failure(UnsupportedStorageType)
  }

  /** The height entry of each supported dimension tuple: the value the
      geometry formulas use as the height. */
  function StorageHeight(k: StorageType, dims: seq<real>): real
    requires Supported(k) && |dims| == Arity(k)
  {
    match k
    case Cylindrical => dims[1]
    case TruncatedCone => dims[2]
    case TruncatedTrapezoid => dims[4]
  }

  /** The height the layer and pit-loss code reads: `dimensions[1]` for a
      cylinder and `dimensions[2]` for both pit shapes, which for a
      truncated trapezoid is its bottom length. */
  function HeightAsWritten(k: StorageType, dims: seq<real>): real
    requires Supported(k) && |dims| == Arity(k)
  {
    match k
    case Cylindrical => dims[1]
    case TruncatedCone => dims[2]
    case TruncatedTrapezoid => dims[2]
  }

  predicate PositiveDimensions(dims: seq<real>) {
    forall i :: 0 <= i < |dims| ==> 0.0 < dims[i]
  }

  /** The prismoid rule V = H/3 * (S_top + S_bottom + sqrt(S_top * S_bottom)).
      It ties a volume to a height: it holds of every supported geometry
      with `StorageHeight`, which is what makes that the storage's height. */
  ghost predicate PrismoidVolume(e: Elementary, g: Geometry, height: real) {
    PrismoidWith(g, height, e.sqrt(FacesProduct(g)))
  }

  /** The prismoid rule with the root of the face-area product given. */
  predicate PrismoidWith(g: Geometry, height: real, root: real) {
    g.volume == (1.0 / 3.0) * height * (g.top + g.bottom + root)
  }

  function FacesProduct(g: Geometry): real {
    g.top * g.bottom
  }

  lemma GeometryIsPrismoid(e: Elementary, k: StorageType, dims: seq<real>)
    requires Sound(e) && Supported(k) && |dims| == Arity(k) && PositiveDimensions(dims)
    ensures StorageGeometry(e, k, dims).Success?
    ensures PrismoidVolume(e, StorageGeometry(e, k, dims).value, StorageHeight(k, dims))
  {
    match k
    case Cylindrical =>
      assert dims == [dims[0], dims[1]];
      CylinderIsPrismoid(e, dims[0], dims[1]);
    case TruncatedCone =>
      ConeIsPrismoid(e, dims[0], dims[1], dims[2], e.sqrt(SlantSquare(dims[0] - dims[1], dims[2])));
    case TruncatedTrapezoid =>
      TrapezoidIsPrismoid(e, dims[0], dims[1], dims[2], dims[3], dims[4]);
  }

  lemma CylinderIsPrismoid(e: Elementary, r: real, h: real)
    requires Sound(e) && 0.0 < r
    ensures PrismoidVolume(e, CylindricalGeometry([r, h]).value, h)
  {
    var g := CylindricalGeometry([r, h]).value;
    DiscArithmetic(r, h);
    SqrtOfSquareAt(e, FacesProduct(g), Pi * r * r);
  }

  lemma DiscArithmetic(r: real, h: real)
    requires 0.0 < r
    ensures var g := CylindricalGeometry([r, h]).value;
      && 0.0 <= Pi * r * r
      && FacesProduct(g) == (Pi * r * r) * (Pi * r * r)
      && PrismoidWith(g, h, Pi * r * r)
  {}

  lemma ConeIsPrismoid(e: Elementary, rt: real, rb: real, h: real, slant: real)
    requires Sound(e) && 0.0 < rt && 0.0 < rb
    ensures PrismoidVolume(e, Frustum(rt, rb, h, slant), h)
  {
    var g := Frustum(rt, rb, h, slant);
    FrustumArithmetic(rt, rb, h, slant);
    SqrtOfSquareAt(e, FacesProduct(g), Pi * rt * rb);
  }

  lemma FrustumArithmetic(rt: real, rb: real, h: real, slant: real)
    requires 0.0 < rt && 0.0 < rb
    ensures var g := Frustum(rt, rb, h, slant);
      && 0.0 <= Pi * rt * rb
      && FacesProduct(g) == (Pi * rt * rb) * (Pi * rt * rb)
      && PrismoidWith(g, h, Pi * rt * rb)
  {}

  lemma TrapezoidIsPrismoid(e: Elementary, lt: real, wt: real, lb: real, wb: real, h: real)
    ensures var g := TruncatedTrapezoidGeometry(e, [lt, wt, lb, wb, h]).value;
      PrismoidVolume(e, g, h)
  {
    RectangularFaces(lt, wt, lb, wb, h,
      e.sqrt(FaceProduct(lt, wt, lb, wb)),
      e.sqrt(SlantSquare(lt - lb, h)),
      e.sqrt(SlantSquare(wt - wb, h)));
  }

  lemma RectangularFaces(lt: real, wt: real, lb: real, wb: real, h: real, root: real, sl: real, sw: real)
    ensures var g := RectangularFrustum(lt, wt, lb, wb, h, root, sl, sw);
      && g.top == lt * wt && g.bottom == lb * wb
      && FacesProduct(g) == FaceProduct(lt, wt, lb, wb)
      && PrismoidWith(g, h, root)
  {}

  /** The faces of a truncated cone: discs of the two radii, and a side
      whose area is pi * (r_t + r_b) times the true slant height, the
      non-negative root of (r_t - r_b)^2 + h^2. */
  lemma ConeFaces(e: Elementary, dims: seq<real>)
    requires Sound(e) && |dims| == 3
    ensures var g := TruncatedConeGeometry(e, dims).value;
      var slant := e.sqrt(SlantSquare(dims[0] - dims[1], dims[2]));
      && g.top == Pi * dims[0] * dims[0]
      && g.bottom == Pi * dims[1] * dims[1]
      && 0.0 <= slant
      && slant * slant == (dims[0] - dims[1]) * (dims[0] - dims[1]) + dims[2] * dims[2]
      && g.side == Pi * (dims[0] + dims[1]) * slant
  {
    NonNegativeSquare(dims[0] - dims[1]);
    NonNegativeSquare(dims[2]);
  }

  /** The faces of a truncated trapezoid: rectangles of the two footprints,
      and a side made of two pairs of trapezoids, each of area (a + b) / 2
      times its true slant height, the non-negative root of the squared
      edge offset plus h^2. */
  lemma TrapezoidFaces(e: Elementary, dims: seq<real>)
    requires Sound(e) && |dims| == 5
    ensures var g := TruncatedTrapezoidGeometry(e, dims).value;
      var slantLength := e.sqrt(SlantSquare(dims[0] - dims[2], dims[4]));
      var slantWidth := e.sqrt(SlantSquare(dims[1] - dims[3], dims[4]));
      && g.top == dims[0] * dims[1]
      && g.bottom == dims[2] * dims[3]
      && 0.0 <= slantLength
      && slantLength * slantLength == (dims[0] - dims[2]) * (dims[0] - dims[2]) + dims[4] * dims[4]
      && 0.0 <= slantWidth
      && slantWidth * slantWidth == (dims[1] - dims[3]) * (dims[1] - dims[3]) + dims[4] * dims[4]
      && g.side == 2.0 * ((dims[0] + dims[2]) / 2.0 * slantLength + (dims[1] + dims[3]) / 2.0 * slantWidth)
  {
    NonNegativeSquare(dims[0] - dims[2]);
    NonNegativeSquare(dims[1] - dims[3]);
    NonNegativeSquare(dims[4]);
  }

  /** The exact volume of a solid with a rectangular top and bottom and
      plane sides (a prismatoid): h/6 * (A_top + A_bottom + 4 * A_mid), with
      A_mid the area of the cross-section halfway up. */
  function PrismatoidVolume(lt: real, wt: real, lb: real, wb: real, h: real): real {
    h / 6.0 * (lt * wt + lb * wb + 4.0 * ((lt + lb) / 2.0) * ((wt + wb) / 2.0))
  }

  /** The volume the trapezoid formulas compute against the exact volume of
      the pit: it is exact precisely when the top and bottom rectangles are
      similar (l_t * w_b == l_b * w_t), as for square pits, and too small
      otherwise (by the amount `FrustumAgainstPrismatoid` gives). */
  lemma TrapezoidAgainstPrismatoid(e: Elementary, dims: seq<real>)
    requires Sound(e) && |dims| == 5 && PositiveDimensions(dims)
    ensures var g := TruncatedTrapezoidGeometry(e, dims).value;
      g.volume <= PrismatoidVolume(dims[0], dims[1], dims[2], dims[3], dims[4])
    ensures var g := TruncatedTrapezoidGeometry(e, dims).value;
      g.volume == PrismatoidVolume(dims[0], dims[1], dims[2], dims[3], dims[4])
      <==> dims[0] * dims[3] == dims[2] * dims[1]
  {
    var lt, wt, lb, wb := dims[0], dims[1], dims[2], dims[3];
    assert 0.0 < lt && 0.0 < wt && 0.0 < lb && 0.0 < wb && 0.0 < dims[4];
    RootOfFaceProduct(e, lt, wt, lb, wb);
    TrapezoidWithRoots(e, dims, e.sqrt(lt * wb), e.sqrt(lb * wt));
  }

  /** `TrapezoidAgainstPrismatoid` once the roots `p` of l_t * w_b and `q`
      of l_b * w_t are known and the face-area root is their product. */
  lemma TrapezoidWithRoots(e: Elementary, dims: seq<real>, p: real, q: real)
    requires |dims| == 5 && 0.0 < dims[4] && 0.0 <= p && 0.0 <= q
    requires p * p == dims[0] * dims[3] && q * q == dims[2] * dims[1]
    requires e.sqrt(FaceProduct(dims[0], dims[1], dims[2], dims[3])) == p * q
    ensures var g := TruncatedTrapezoidGeometry(e, dims).value;
      && g.volume <= PrismatoidVolume(dims[0], dims[1], dims[2], dims[3], dims[4])
      && (g.volume == PrismatoidVolume(dims[0], dims[1], dims[2], dims[3], dims[4])
          <==> dims[0] * dims[3] == dims[2] * dims[1])
  {
    FrustumAgainstPrismatoid(dims[0], dims[1], dims[2], dims[3], dims[4], p, q,
      e.sqrt(SlantSquare(dims[0] - dims[2], dims[4])),
      e.sqrt(SlantSquare(dims[1] - dims[3], dims[4])));
  }

  /** A rectangular frustum whose face-area root is the product of the
      roots `p` of l_t * w_b and `q` of l_b * w_t falls short of the exact
      volume by h/6 * (p - q)^2. */
  lemma FrustumAgainstPrismatoid(lt: real, wt: real, lb: real, wb: real, h: real, p: real, q: real, sl: real, sw: real)
    requires 0.0 < h && 0.0 <= p && 0.0 <= q && p * p == lt * wb && q * q == lb * wt
    ensures var g := RectangularFrustum(lt, wt, lb, wb, h, p * q, sl, sw);
      && PrismatoidVolume(lt, wt, lb, wb, h) - g.volume == h / 6.0 * (p - q) * (p - q)
      && g.volume <= PrismatoidVolume(lt, wt, lb, wb, h)
      && (g.volume == PrismatoidVolume(lt, wt, lb, wb, h) <==> lt * wb == lb * wt)
  {
    PrismatoidGap(lt, wt, lb, wb, h, p, q, sl, sw);
    GapSign(h, lt, wt, lb, wb, p, q);
  }

  /** The root of the face-area product is the product of the roots of the
      cross products l_t * w_b and l_b * w_t, both of them roots of squares. */
  lemma RootOfFaceProduct(e: Elementary, lt: real, wt: real, lb: real, wb: real)
    requires Sound(e) && 0.0 < lt && 0.0 < wt && 0.0 < lb && 0.0 < wb
    ensures var p := e.sqrt(lt * wb);
      var q := e.sqrt(lb * wt);
      && 0.0 <= p && p * p == lt * wb
      && 0.0 <= q && q * q == lb * wt
      && e.sqrt(FaceProduct(lt, wt, lb, wb)) == p * q
  {
    PositiveProduct(lt, wb);
    PositiveProduct(lb, wt);
    var p := e.sqrt(lt * wb);
    var q := e.sqrt(lb * wt);
    NonNegativeProduct(p, q);
    ProductOfRoots(lt, wt, lb, wb, p, q);
    SqrtOfSquareAt(e, FaceProduct(lt, wt, lb, wb), p * q);
  }

  lemma ProductOfRoots(lt: real, wt: real, lb: real, wb: real, p: real, q: real)
    requires p * p == lt * wb && q * q == lb * wt
    ensures FaceProduct(lt, wt, lb, wb) == (p * q) * (p * q)
  {
    calc {
      (p * q) * (p * q);
      (p * p) * (q * q);
      (lt * wb) * (lb * wt);
      FaceProduct(lt, wt, lb, wb);
    }
  }

  lemma PrismatoidGap(lt: real, wt: real, lb: real, wb: real, h: real, p: real, q: real, sl: real, sw: real)
    requires p * p == lt * wb && q * q == lb * wt
    ensures PrismatoidVolume(lt, wt, lb, wb, h) - RectangularFrustum(lt, wt, lb, wb, h, p * q, sl, sw).volume
            == h / 6.0 * (p - q) * (p - q)
  {
    assert 4.0 * ((lt + lb) / 2.0) * ((wt + wb) / 2.0) == lt * wt + lt * wb + lb * wt + lb * wb;
    assert (p - q) * (p - q) == lt * wb + lb * wt - 2.0 * (p * q);
  }

  /** The gap h/6 * (p - q)^2 between the two volumes, for the roots p of
      l_t * w_b and q of l_b * w_t: never negative, and zero exactly when
      the two products agree. */
  lemma GapSign(h: real, lt: real, wt: real, lb: real, wb: real, p: real, q: real)
    requires 0.0 < h && 0.0 <= p && 0.0 <= q && p * p == lt * wb && q * q == lb * wt
    ensures 0.0 <= h / 6.0 * (p - q) * (p - q)
    ensures h / 6.0 * (p - q) * (p - q) == 0.0 <==> lt * wb == lb * wt
  {
    var d := p - q;
    SixthOfSquare(h, p, q, d);
    if lt * wb == lb * wt {
      RootsOfEqual(p, q);
    } else {
      SixthOfSquarePositive(h, d);
    }
  }

  /** The gap written over the difference `d` of the two roots. */
  lemma SixthOfSquare(h: real, p: real, q: real, d: real)
    requires d == p - q
    ensures h / 6.0 * d * d == h / 6.0 * (p - q) * (p - q)
  {}

  lemma SixthOfSquarePositive(h: real, d: real)
    requires 0.0 < h && d != 0.0
    ensures 0.0 < h / 6.0 * d * d
  {}

  lemma RootsOfEqual(p: real, q: real)
    requires 0.0 <= p && 0.0 <= q && p * p == q * q
    ensures p == q
  {
    if p < q {
      SquareStrictlyMonotone(p, q);
    } else if q < p {
      SquareStrictlyMonotone(q, p);
    }
  }

  /** Positive dimensions give a storage of positive volume. */
  lemma GeometryPositive(e: Elementary, k: StorageType, dims: seq<real>)
    requires Sound(e) && Supported(k) && |dims| == Arity(k) && PositiveDimensions(dims)
    ensures StorageGeometry(e, k, dims).Success?
    ensures 0.0 < StorageGeometry(e, k, dims).value.volume
  {
    match k
    case Cylindrical =>
      assert dims == [dims[0], dims[1]];
      CylinderPositive(dims[0], dims[1]);
    case TruncatedCone =>
      FrustumPositive(dims[0], dims[1], dims[2], e.sqrt(SlantSquare(dims[0] - dims[1], dims[2])));
    case TruncatedTrapezoid =>
      FaceProductPositive(dims[0], dims[1], dims[2], dims[3]);
      SqrtPositive(e, FaceProduct(dims[0], dims[1], dims[2], dims[3]));
      RectangularFrustumPositive(dims[0], dims[1], dims[2], dims[3], dims[4],
        e.sqrt(FaceProduct(dims[0], dims[1], dims[2], dims[3])),
        e.sqrt(SlantSquare(dims[0] - dims[2], dims[4])),
        e.sqrt(SlantSquare(dims[1] - dims[3], dims[4])));
  }

  lemma CylinderPositive(r: real, h: real)
    requires 0.0 < r && 0.0 < h
    ensures 0.0 < CylindricalGeometry([r, h]).value.volume
  {}

  lemma FaceProductPositive(lt: real, wt: real, lb: real, wb: real)
    requires 0.0 < lt && 0.0 < wt && 0.0 < lb && 0.0 < wb
    ensures 0.0 < FaceProduct(lt, wt, lb, wb)
  {
    PositiveProduct(lt, wt);
    PositiveProduct(lb, wb);
    PositiveProduct(lt * wt, lb * wb);
  }

  lemma FrustumPositive(rt: real, rb: real, h: real, slant: real)
    requires 0.0 < rt && 0.0 < rb && 0.0 < h
    ensures 0.0 < Frustum(rt, rb, h, slant).volume
  {}

  lemma RectangularFrustumPositive(lt: real, wt: real, lb: real, wb: real, h: real, root: real, sl: real, sw: real)
    requires 0.0 < lt && 0.0 < wt && 0.0 < lb && 0.0 < wb && 0.0 < h && 0.0 < root
    ensures 0.0 < RectangularFrustum(lt, wt, lb, wb, h, root, sl, sw).volume
  {
    PositiveProduct(lt, wt);
    PositiveProduct(lb, wb);
    PositiveProduct(h, lt * wt + lb * wb + root);
  }

  lemma SlantOfEqualEdges(x: real, h: real)
    ensures SlantSquare(x - x, h) == h * h
  {}

  /** A truncated cone whose two radii agree is a cylinder: same volume,
      same areas. */
  lemma EqualRadiiConeIsCylinder(e: Elementary, r: real, h: real)
    requires Sound(e) && 0.0 < r && 0.0 < h
    ensures TruncatedConeGeometry(e, [r, r, h]) == CylindricalGeometry([r, h])
  {
    SlantOfEqualEdges(r, h);
    SqrtOfSquareAt(e, SlantSquare(r - r, h), h);
    EqualRadiiFrustum(r, h);
  }

  lemma EqualRadiiFrustum(r: real, h: real)
    ensures Frustum(r, r, h, h) == CylindricalGeometry([r, h]).value
  {
    assert (1.0 / 3.0) * Pi * h * (r * r + r * r + r * r) == Pi * r * r * h;
    assert Pi * (r + r) * h == 2.0 * Pi * r * h;
  }

  /** A truncated trapezoid whose top and bottom faces agree is a box:
      volume length * width * height, side 2 * (length + width) * height. */
  lemma EqualFacesTrapezoidIsBox(e: Elementary, l: real, w: real, h: real)
    requires Sound(e) && 0.0 < l && 0.0 < w && 0.0 < h
    ensures var g := TruncatedTrapezoidGeometry(e, [l, w, l, w, h]).value;
      && g.volume == l * w * h
      && g.side == 2.0 * (l + w) * h
      && g.top == g.bottom == l * w
  {
    EqualFaces(l, w);
    SqrtOfSquareAt(e, FaceProduct(l, w, l, w), l * w);
    SlantOfEqualEdges(l, h);
    SlantOfEqualEdges(w, h);
    SqrtOfSquareAt(e, SlantSquare(l - l, h), h);
    SqrtOfSquareAt(e, SlantSquare(w - w, h), h);
    BoxFrustum(l, w, h);
  }

  lemma EqualFaces(l: real, w: real)
    requires 0.0 < l && 0.0 < w
    ensures 0.0 <= l * w && FaceProduct(l, w, l, w) == (l * w) * (l * w)
  {
    PositiveProduct(l, w);
  }

  lemma BoxFrustum(l: real, w: real, h: real)
    ensures var g := RectangularFrustum(l, w, l, w, h, l * w, h, h);
      && g.volume == l * w * h
      && g.side == 2.0 * (l + w) * h
      && g.top == g.bottom == l * w
  {
    assert (1.0 / 3.0) * h * (l * w + l * w + l * w) == l * w * h;
    assert 2.0 * ((l + l) * h / 2.0 + (w + w) * h / 2.0) == 2.0 * (l + w) * h;
  }

  /** A counterexample: for the truncated trapezoid with top 40 x 40,
      bottom 20 x 20 and height 10, the height read by the layer and
      pit-loss code is 20, and the prismoid rule with that height misses
      the volume the geometry computed. */
  lemma TrapezoidHeightMisread(e: Elementary)
    requires Sound(e)
    ensures var dims := [40.0, 40.0, 20.0, 20.0, 10.0];
      var g := TruncatedTrapezoidGeometry(e, dims).value;
      && HeightAsWritten(TruncatedTrapezoid, dims) == 20.0
      && StorageHeight(TruncatedTrapezoid, dims) == 10.0
      && !PrismoidVolume(e, g, HeightAsWritten(TruncatedTrapezoid, dims))
  {
    var dims := [40.0, 40.0, 20.0, 20.0, 10.0];
    var g := TruncatedTrapezoidGeometry(e, dims).value;
    assert FacesProduct(g) == FaceProduct(40.0, 40.0, 20.0, 20.0) == 800.0 * 800.0;
    SqrtOfSquareAt(e, FacesProduct(g), 800.0);
    SqrtOfSquareAt(e, FaceProduct(40.0, 40.0, 20.0, 20.0), 800.0);
    assert g.volume == (1.0 / 3.0) * 10.0 * 2800.0;
  }
}
