/**
 * Construction of one RPC roll from one node of the filtered detector
 * description walk: strip-count lookup in the node's specifics tables,
 * Barrel/Endcap classification from the solid's parameter count, unit
 * conversion to cm, roll-spec parameter packing and the Endcap axis change.
 */
module RollConstruction {
  import opened Wrappers

  /** CLHEP units: description lengths are in mm and cm is 10 mm. */
  const Cm: real := 10.0

  /** Raw (mm) thickness given to every Endcap roll, whatever the solid says. */
  const EndcapRawThickness: real := 0.4

  /** Name of the specifics attribute holding the strip count. */
  const NStripsKey: string := "nStrips"

  datatype Vec3 = Vec3(x: real, y: real, z: real)

  /** A rotation matrix given by its three rows. */
  datatype Matrix3 = Matrix3(rowX: Vec3, rowY: Vec3, rowZ: Vec3)

  /** One specifics table: attribute name to its (first) numeric value. */
  type SpecificsTable = map<string, real>

  /** One step of the geometrical history: logical part name and copy number. */
  datatype PathStep = PathStep(part: string, copyNo: int)
  type Path = seq<PathStep>

  /** One level of the muon base number: numbering level and copy number. */
  datatype BaseLevel = BaseLevel(level: int, copyNo: int)
  type BaseNumber = seq<BaseLevel>

  /**
   * The muon numbering, left uninterpreted: geometrical history to base
   * number, and base number to the raw detector id.
   */
  datatype Numbering = Numbering(toBaseNumber: Path -> BaseNumber, toUnitNumber: BaseNumber -> int)

  /** A node visited by the filtered walk. */
  datatype Node = Node(
    name: string,
    params: seq<real>,
    translation: Vec3,
    rotation: Matrix3,
    specifics: seq<SpecificsTable>,
    path: Path)

  datatype ShapeClass = Barrel | Endcap

  datatype Bounds =
    | Rectangular(width: real, length: real, thickness: real)
    | Trapezoidal(bottom: real, top: real, apothem: real, thickness: real)
  {
    /** The in-plane sizes, in the order the roll specs list them. */
    function InPlaneSizes(): seq<real>
    {
      match this
      case Rectangular(w, l, _) => [w, l]
      case Trapezoidal(b, t, a, _) => [b, t, a]
    }
  }

  /** The axes handed to rotateAxes, or none when the rotation is kept. */
  datatype AxisChange = Keep | RotateAxes(newX: Vec3, newY: Vec3, newZ: Vec3)

  datatype RollSpecs = RollSpecs(shape: ShapeClass, name: string, pars: seq<real>)

  /** A constructed roll: id, placement, bounds and specs. */
  datatype Roll = Roll(
    id: int,
    position: Vec3,
    rotation: Matrix3,
    axes: AxisChange,
    bounds: Bounds,
    specs: RollSpecs)

  /** Why the construction of a roll, and so the whole build, is aborted. */
  datatype BuildError =
    | ParameterOutOfRange(part: string, count: nat)
    | MissingStripCount(part: string)

  const UnitX: Vec3 := Vec3(1.0, 0.0, 0.0)
  const UnitY: Vec3 := Vec3(0.0, 1.0, 0.0)
  const UnitZ: Vec3 := Vec3(0.0, 0.0, 1.0)

  function Neg(v: Vec3): Vec3 { Vec3(-v.x, -v.y, -v.z) }

  function Scale(v: Vec3, k: real): Vec3 { Vec3(v.x * k, v.y * k, v.z * k) }

  function Dot(a: Vec3, b: Vec3): real { a.x * b.x + a.y * b.y + a.z * b.z }

  function Cross(a: Vec3, b: Vec3): Vec3
  {
    Vec3(a.y * b.z - a.z * b.y, a.z * b.x - a.x * b.z, a.x * b.y - a.y * b.x)
  }

  // ---------------------------------------------------------------------
  // Strip count lookup

  /** C++ int(double): truncation toward zero. */
  function TruncToInt(x: real): (n: int)
    ensures 0.0 <= x ==> 0 <= n && n as real <= x < n as real + 1.0
    ensures x < 0.0 ==> n <= 0 && n as real - 1.0 < x <= n as real
  {
    if x >= 0.0 then x.Floor else -((-x).Floor)
  }

  /**
   * The value a walk over the tables in order last fetched for nStrips:
   * the one of the last table that holds the attribute, None when none does.
   */
  function LastFetch(specs: seq<SpecificsTable>): (v: Option<real>)
    ensures v.Some? ==> exists i :: 0 <= i < |specs| && NStripsKey in specs[i] && specs[i][NStripsKey] == v.value
  {
    if |specs| == 0 then None
    else if NStripsKey in specs[|specs| - 1] then Some(specs[|specs| - 1][NStripsKey])
    else LastFetch(specs[..|specs| - 1])
  }

  /** Nothing is fetched exactly when no table holds nStrips. */
  lemma {:induction false} LastFetchNone(specs: seq<SpecificsTable>)
    ensures LastFetch(specs).None? <==> forall i :: 0 <= i < |specs| ==> NStripsKey !in specs[i]
  {
    if |specs| > 0 {
      var front := specs[..|specs| - 1];
      LastFetchNone(front);
      assert forall i :: 0 <= i < |front| ==> front[i] == specs[i];
    }
  }

  /** The last table holding nStrips decides the fetched value. */
  lemma {:induction false} LastMatchWins(specs: seq<SpecificsTable>, i: nat)
    requires i < |specs| && NStripsKey in specs[i]
    requires forall j :: i < j < |specs| ==> NStripsKey !in specs[j]
    ensures LastFetch(specs) == Some(specs[i][NStripsKey])
  {
    if i < |specs| - 1 {
      var front := specs[..|specs| - 1];
      assert forall j :: i < j < |front| ==> front[j] == specs[j];
      LastMatchWins(front, i);
    }
  }

  /**
   * The loop over the node's specifics tables: every table holding nStrips
   * overwrites both the fetched value and the truncated local count, which
   * starts at 0.
   */
  method FetchStrips(specs: seq<SpecificsTable>) returns (nStrips: int, fetched: Option<real>)
    ensures fetched == LastFetch(specs)
    ensures nStrips == if fetched.Some? then TruncToInt(fetched.value) else 0
  {
    nStrips, fetched := 0, None;
    var i := 0;
    while i < |specs|
      invariant 0 <= i <= |specs|
      invariant fetched == LastFetch(specs[..i])
      invariant nStrips == if fetched.Some? then TruncToInt(fetched.value) else 0
    {
      assert specs[..i + 1][..i] == specs[..i];
      if NStripsKey in specs[i] {
        fetched := Some(specs[i][NStripsKey]);
        nStrips := TruncToInt(specs[i][NStripsKey]);
      }
      i := i + 1;
    }
    assert specs[..i] == specs;
  }

  // ---------------------------------------------------------------------
  // Shape classification, bounds, roll-spec parameters, placement

  /** Indices the chosen branch reads exist: 3 for Barrel, up to 8 for Endcap. */
  predicate ParamsReadable(dpar: seq<real>)
  {
    |dpar| == 3 || |dpar| >= 9
  }

  function ShapeOf(dpar: seq<real>): (s: ShapeClass)
    ensures s == Barrel <==> |dpar| == 3
  {
    if |dpar| == 3 then Barrel else Endcap
  }

  /**
   * Bounds of the roll: rectangular from parameters 0, 1, 2 for Barrel,
   * trapezoidal from parameters 4, 8, 0 and the fixed thickness for Endcap;
   * every length is the raw length divided by cm.
   */
  function BoundsOf(dpar: seq<real>): (b: Bounds)
    requires ParamsReadable(dpar)
    ensures b.Rectangular? <==> ShapeOf(dpar) == Barrel
    ensures b.Rectangular? ==>
      b.width * Cm == dpar[0] && b.length * Cm == dpar[1] && b.thickness * Cm == dpar[2]
    ensures b.Trapezoidal? ==>
      b.bottom * Cm == dpar[4] && b.top * Cm == dpar[8] && b.apothem * Cm == dpar[0]
      && b.thickness * Cm == EndcapRawThickness
  {
    if |dpar| == 3 then Rectangular(dpar[0] / Cm, dpar[1] / Cm, dpar[2] / Cm)
    else Trapezoidal(dpar[4] / Cm, dpar[8] / Cm, dpar[0] / Cm, EndcapRawThickness / Cm)
  }

  /**
   * The roll-spec parameter list, pushed one by one: the converted lengths
   * (Barrel: width, length; Endcap: dpar[4], dpar[8], dpar[0]) and the
   * fetched strip value last.
   */
  function ParsOf(dpar: seq<real>, strips: real): (p: seq<real>)
    requires ParamsReadable(dpar)
    ensures |p| == (if ShapeOf(dpar) == Barrel then 3 else 4)
    ensures p == BoundsOf(dpar).InPlaneSizes() + [strips]
  {
    if |dpar| == 3 then [dpar[0] / Cm, dpar[1] / Cm, strips]
    else [dpar[4] / Cm, dpar[8] / Cm, dpar[0] / Cm, strips]
  }

  /** Position of the surface: the translation converted to cm. */
  function PositionOf(t: Vec3): (p: Vec3)
    ensures Scale(p, Cm) == t
  {
    Vec3(t.x / Cm, t.y / Cm, t.z / Cm)
  }

  /**
   * Axis change: none for Barrel; for Endcap newX = x, newZ = y and
   * newY = z, reversed when the node's global z is strictly positive.
   */
  function AxesOf(shape: ShapeClass, z: real): (a: AxisChange)
    ensures a.Keep? <==> shape == Barrel
    ensures a.RotateAxes? ==> a.newX == UnitX && a.newZ == UnitY
    ensures a.RotateAxes? ==> (a.newY == UnitZ || a.newY == Neg(UnitZ))
    ensures a.RotateAxes? ==> (a.newY == Neg(UnitZ) <==> z > 0.0)
  {
    match shape
    case Barrel => Keep
    case Endcap =>
      var newY := if z > 0.0 then Neg(UnitZ) else UnitZ;
      RotateAxes(UnitX, newY, UnitY)
  }

  /** The three axes are unit vectors, pairwise orthogonal. */
  predicate Orthonormal(x: Vec3, y: Vec3, z: Vec3)
  {
    && Dot(x, x) == 1.0 && Dot(y, y) == 1.0 && Dot(z, z) == 1.0
    && Dot(x, y) == 0.0 && Dot(y, z) == 0.0 && Dot(x, z) == 0.0
  }

  /** Triple product of the axes: +1 for a right-handed frame, -1 for a left-handed one. */
  function Handedness(x: Vec3, y: Vec3, z: Vec3): real
  {
    Dot(Cross(x, y), z)
  }

  /**
   * The Endcap axes are orthonormal; they form a right-handed frame exactly
   * when the node's global z is strictly positive, a left-handed one otherwise.
   */
  lemma EndcapAxesFrame(z: real)
    ensures AxesOf(Endcap, z).RotateAxes?
    ensures var a := AxesOf(Endcap, z);
      && Orthonormal(a.newX, a.newY, a.newZ)
      && Handedness(a.newX, a.newY, a.newZ) == (if z > 0.0 then 1.0 else -1.0)
  {
    if z > 0.0 {
      assert AxesOf(Endcap, z) == RotateAxes(UnitX, Neg(UnitZ), UnitY);
      ReversedZFrame();
    } else {
      assert AxesOf(Endcap, z) == RotateAxes(UnitX, UnitZ, UnitY);
      PlainZFrame();
    }
  }

  /** Axes of an Endcap roll with positive z: right-handed. */
  lemma ReversedZFrame()
    ensures Orthonormal(UnitX, Neg(UnitZ), UnitY) && Handedness(UnitX, Neg(UnitZ), UnitY) == 1.0
  {
    assert Neg(UnitZ) == Vec3(0.0, 0.0, -1.0);
  }

  /** Axes of an Endcap roll with z at most 0: left-handed. */
  lemma PlainZFrame()
    ensures Orthonormal(UnitX, UnitZ, UnitY) && Handedness(UnitX, UnitZ, UnitY) == -1.0
  {
    assert UnitZ == Vec3(0.0, 0.0, 1.0);
  }

  /** The raw detector id of a node: base number of its history, then unit number. */
  function DetId(numbering: Numbering, path: Path): int
  {
    numbering.toUnitNumber(numbering.toBaseNumber(path))
  }

  /** Roll assembled from a node whose parameters are readable and its fetched strip value. */
  function RollOf(node: Node, id: int, strips: real): Roll
    requires ParamsReadable(node.params)
  {
    var shape := ShapeOf(node.params);
    Roll(id, PositionOf(node.translation), node.rotation,
         AxesOf(shape, node.translation.z), BoundsOf(node.params),
         RollSpecs(shape, node.name, ParsOf(node.params, strips)))
  }

  /**
   * One visit of the walk: the roll of the node, or the fault that aborts
   * the build. An Endcap solid with fewer than 9 parameters is read out of
   * range before the strip value is; a node without nStrips leaves the
   * fetched strip value undefined.
   */
  function NodeRoll(node: Node, numbering: Numbering): (r: Result<Roll, BuildError>)
    ensures r.Success? <==> ParamsReadable(node.params) && LastFetch(node.specifics).Some?
    ensures !ParamsReadable(node.params) ==>
      r == Failure(ParameterOutOfRange(node.name, |node.params|))
    ensures ParamsReadable(node.params) && LastFetch(node.specifics).None? ==>
      r == Failure(MissingStripCount(node.name))
    ensures r.Success? ==>
      && r.value.id == DetId(numbering, node.path)
      && r.value.position == PositionOf(node.translation)
      && r.value.rotation == node.rotation
      && r.value.specs.shape == ShapeOf(node.params)
      && r.value.specs.name == node.name
      && r.value.bounds == BoundsOf(node.params)
      && r.value.axes == AxesOf(r.value.specs.shape, node.translation.z)
      && r.value.specs.pars == BoundsOf(node.params).InPlaneSizes() + [LastFetch(node.specifics).value]
  {
    if !ParamsReadable(node.params) then Failure(ParameterOutOfRange(node.name, |node.params|))
    else match LastFetch(node.specifics)
      case None => Failure(MissingStripCount(node.name))
      case Some(strips) => Success(RollOf(node, DetId(numbering, node.path), strips))
  }

  /**
   * A solid with exactly 3 parameters and a fetched strip value gives a
   * Barrel roll with rectangular bounds (dpar[0], dpar[1], dpar[2] in cm),
   * pars [width, length, strips] and its rotation kept.
   */
  lemma BarrelRoll(node: Node, numbering: Numbering)
    requires |node.params| == 3 && LastFetch(node.specifics).Some?
    ensures var r := NodeRoll(node, numbering);
      && r.Success?
      && r.value.specs.shape == Barrel
      && r.value.bounds == Rectangular(node.params[0] / Cm, node.params[1] / Cm, node.params[2] / Cm)
      && r.value.specs.pars == [node.params[0] / Cm, node.params[1] / Cm, LastFetch(node.specifics).value]
      && r.value.axes == Keep
  {
  }

  /**
   * Any other count, at least 9, with a fetched strip value gives an Endcap
   * roll with trapezoidal bounds (dpar[4], dpar[8], dpar[0], 0.4 in cm),
   * pars [dpar[4], dpar[8], dpar[0] in cm, strips] and the axis change.
   */
  lemma EndcapRoll(node: Node, numbering: Numbering)
    requires |node.params| >= 9 && LastFetch(node.specifics).Some?
    ensures var r := NodeRoll(node, numbering);
      && r.Success?
      && r.value.specs.shape == Endcap
      && r.value.bounds
         == Trapezoidal(node.params[4] / Cm, node.params[8] / Cm, node.params[0] / Cm, EndcapRawThickness / Cm)
      && r.value.specs.pars
         == [node.params[4] / Cm, node.params[8] / Cm, node.params[0] / Cm, LastFetch(node.specifics).value]
      && r.value.axes.RotateAxes?
      && (r.value.axes.newY.z == -1.0 <==> node.translation.z > 0.0)
  {
  }

  /** The Endcap thickness does not depend on the solid. */
  lemma EndcapThicknessFixed(d1: seq<real>, d2: seq<real>)
    requires |d1| >= 9 && |d2| >= 9
    ensures BoundsOf(d1).thickness == BoundsOf(d2).thickness == 0.04
  {
  }
}
