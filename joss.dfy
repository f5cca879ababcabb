/** The legacy lattice model of joss/accelerator.py: elements with exact 7x7
    transfer maps, the global element counter that names them, the `split`
    loops that cut an element into pieces no longer than a resolution, and the
    `Segment` that composes maps and flattens splits. */
module Joss {
  import opened Wrappers
  import opened Matrices
  import Decimal

  // scipy.constants, CODATA 2018 values.
  const ElectronMass: real := 0.00000000000000000000000000000091093837015
  const SpeedOfLight: real := 299792458.0
  const ElementaryCharge: real := 0.0000000000000000001602176634

  /** `REST_ENERGY`: the electron rest energy in eV. */
  const RestEnergy: real := ElectronMass * SpeedOfLight * SpeedOfLight / ElementaryCharge

  /** The `energy=1e+8` default of the element constructors. */
  const DefaultEnergy: real := 100000000.0

  /** The element classes. `Screen` has the class attribute `length = 0`; the
      correctors accept an `energy` argument and do not keep it. */
  datatype Element =
    | Drift(name: string, length: real, energy: real)
    | Quadrupole(name: string, length: real, k1: real, energy: real)
    | HorizontalCorrector(name: string, length: real, angle: real)
    | VerticalCorrector(name: string, length: real, angle: real)
    | Screen(name: string)

  function ClassName(e: Element): string {
    match e
    case Drift(_, _, _) => "Drift"
    case Quadrupole(_, _, _, _) => "Quadrupole"
    case HorizontalCorrector(_, _, _) => "HorizontalCorrector"
    case VerticalCorrector(_, _, _) => "VerticalCorrector"
    case Screen(_) => "Screen"
  }

  function LengthOf(e: Element): real {
    if e.Screen? then 0.0 else e.length
  }

  // ---------------------------------------------------------------------------
  // Names and the global counter

  /** `f"{class_name}_{ELEMENT_COUNT:06d}"`. */
  function DefaultName(className: string, count: nat): string {
    className + "_" + Decimal.Padded(count, 6)
  }

  /** Default names of one class differ exactly when the counts differ. */
  lemma DefaultNamesDistinct(className: string, j: nat, k: nat)
    ensures DefaultName(className, j) == DefaultName(className, k) <==> j == k
  {
    var n := |className| + 1;
    assert DefaultName(className, j)[n..] == Decimal.Padded(j, 6);
    assert DefaultName(className, k)[n..] == Decimal.Padded(k, 6);
    Decimal.PaddedInjective(j, k, 6);
  }

  /** The count part of a default name is exactly six digits while the count is below a million. */
  lemma DefaultNameWidth(className: string, k: nat)
    ensures |DefaultName(className, k)| == |className| + 7 <==> k < 1000000
  {
    Decimal.PaddedSixWide(k);
  }

  /** The module-global `ELEMENT_COUNT`, set to 0 when the module is loaded. */
  class ElementCount {
    var count: nat

    constructor ()
      ensures count == 0
    {
      count := 0;
    }

    /** `Element.__init__(name)`: keeps a given name, otherwise names the element after
        its class and the count before the increment; in both cases the count goes up by one. */
    method Register(className: string, name: Option<string>) returns (given: string)
      modifies this
      ensures given == if name.Some? then name.value else DefaultName(className, old(count))
      ensures count == old(count) + 1
    {
      if name.Some? {
        given := name.value;
      } else {
        given := className + "_" + Decimal.Padded(count, 6);
      }
      count := count + 1;
    }

    method NewDrift(length: real, energy: real := DefaultEnergy, name: Option<string> := None) returns (e: Element)
      modifies this
      ensures e == Drift(if name.Some? then name.value else DefaultName("Drift", old(count)), length, energy)
      ensures count == old(count) + 1
    {
      var given := Register("Drift", name);
      e := Drift(given, length, energy);
    }

    method NewQuadrupole(length: real, k1: real, energy: real := DefaultEnergy, name: Option<string> := None)
      returns (e: Element)
      modifies this
      ensures e == Quadrupole(if name.Some? then name.value else DefaultName("Quadrupole", old(count)), length, k1, energy)
      ensures count == old(count) + 1
    {
      var given := Register("Quadrupole", name);
      e := Quadrupole(given, length, k1, energy);
    }

    method NewHorizontalCorrector(length: real, angle: real, energy: real := DefaultEnergy, name: Option<string> := None)
      returns (e: Element)
      modifies this
      ensures e == HorizontalCorrector(
        if name.Some? then name.value else DefaultName("HorizontalCorrector", old(count)), length, angle)
      ensures count == old(count) + 1
    {
      var given := Register("HorizontalCorrector", name);
      e := HorizontalCorrector(given, length, angle);
    }

    method NewVerticalCorrector(length: real, angle: real, energy: real := DefaultEnergy, name: Option<string> := None)
      returns (e: Element)
      modifies this
      ensures e == VerticalCorrector(
        if name.Some? then name.value else DefaultName("VerticalCorrector", old(count)), length, angle)
      ensures count == old(count) + 1
    {
      var given := Register("VerticalCorrector", name);
      e := VerticalCorrector(given, length, angle);
    }

    method NewScreen(name: Option<string> := None) returns (e: Element)
      modifies this
      ensures e == Screen(if name.Some? then name.value else DefaultName("Screen", old(count)))
      ensures count == old(count) + 1
    {
      var given := Register("Screen", name);
      e := Screen(given);
    }

    /** One `split` loop: `while remaining > 0` build a piece of length
        `min(resolution, remaining)`, then lower `remaining` by `resolution`. Each
        piece is a new element, so each one raises the count. */
    method Chop(e: Element, resolution: real, kind: PieceKind) returns (pieces: seq<Element>)
      requires resolution > 0.0 && Fits(kind, e)
      modifies this
      ensures pieces == Chopped(e, resolution, kind, old(count))
      ensures count == old(count) + |pieces|
    {
      pieces := [];
      var start := count;
      var remaining := e.length;
      ghost var done: seq<real> := [];
      while remaining > 0.0
        invariant start == old(count) && count == start + |pieces|
        invariant remaining <= e.length
        invariant done + Pieces(remaining, resolution) == Pieces(e.length, resolution)
        invariant e.length > 0.0 ==> pieces == Named(kind, e, old(count), done)
        invariant e.length <= 0.0 ==> pieces == []
        decreases Steps(remaining, resolution)
      {
        pieces, remaining, done := ChopNext(e, resolution, kind, start, remaining, done, pieces);
      }
      assert done == Pieces(e.length, resolution) by {
        PiecesSum(remaining, resolution);
      }
    }

    /** One turn of a split loop: build the piece of length `min(resolution, remaining)`
        and lower `remaining` by `resolution`. */
    method ChopNext(e: Element, resolution: real, kind: PieceKind, start: nat, remaining: real,
                    ghost done: seq<real>, pieces: seq<Element>)
      returns (pieces': seq<Element>, remaining': real, ghost done': seq<real>)
      requires resolution > 0.0 && Fits(kind, e) && 0.0 < remaining <= e.length
      requires count == start + |pieces|
      requires done + Pieces(remaining, resolution) == Pieces(e.length, resolution)
      requires pieces == Named(kind, e, start, done)
      modifies this
      ensures count == start + |pieces'|
      ensures remaining' == remaining - resolution
      ensures Steps(remaining', resolution) < Steps(remaining, resolution)
      ensures done' + Pieces(remaining', resolution) == Pieces(e.length, resolution)
      ensures pieces' == Named(kind, e, start, done')
    {
      var l := Min(resolution, remaining);
      var piece := Cut(kind, e, l);
      pieces' := pieces + [piece];
      done' := done + [l];
      remaining' := remaining - resolution;
      PiecesAdvance(done, remaining, resolution, e.length, done', remaining');
      NamedSnoc(kind, e, start, done, l);
    }

    /** The construction of one piece of length `l` inside a split loop: a new,
        unnamed element of the piece's class. */
    method Cut(kind: PieceKind, e: Element, l: real) returns (piece: Element)
      requires Fits(kind, e) && e.length > 0.0
      modifies this
      ensures piece == Builder(kind, e)(old(count), l)
      ensures count == old(count) + 1
    {
      var name := Register(PieceClass(kind), None);
      piece := MakePiece(kind, e, name, l);
    }

    /** `split` of every element class (VerticalCorrector corrected, see `SplitOf`). */
    method Split(e: Element, resolution: real) returns (pieces: seq<Element>)
      requires resolution > 0.0
      modifies this
      ensures pieces == SplitOf(e, resolution, old(count))
      ensures count == old(count) + |pieces|
    {
      if e.Screen? {
        pieces := [];
      } else {
        pieces := Chop(e, resolution, KindOf(e));
      }
    }

    /** `split` exactly as written, which for a VerticalCorrector builds HorizontalCorrector pieces. */
    method SplitAsWritten(e: Element, resolution: real) returns (pieces: seq<Element>)
      requires resolution > 0.0
      modifies this
      ensures pieces == SplitOfAsWritten(e, resolution, old(count))
      ensures count == old(count) + |pieces|
    {
      if e.Screen? {
        pieces := [];
      } else {
        pieces := Chop(e, resolution, KindAsWritten(e));
      }
    }

    /** `Segment.split`: the splits of the elements, in order, concatenated. */
    method SplitSegment(s: Segment, resolution: real) returns (pieces: seq<Element>)
      requires resolution > 0.0
      modifies this
      ensures pieces == SegmentSplitOf(s.elements, resolution, old(count))
      ensures count == old(count) + |pieces|
    {
      pieces := SplitAll(s.elements, resolution, false);
    }

    /** `Segment.split` with the element splits exactly as written. */
    method SplitSegmentAsWritten(s: Segment, resolution: real) returns (pieces: seq<Element>)
      requires resolution > 0.0
      modifies this
      ensures pieces == SegmentSplitOfAsWritten(s.elements, resolution, old(count))
      ensures count == old(count) + |pieces|
    {
      pieces := SplitAll(s.elements, resolution, true);
    }

    /** The comprehension of `Segment.split` over `es`, splitting each element
        as written or corrected. */
    method SplitAll(es: seq<Element>, resolution: real, asWritten: bool) returns (pieces: seq<Element>)
      requires resolution > 0.0
      modifies this
      ensures pieces == Flatten(es, old(count), Splitter(resolution, asWritten))
      ensures count == old(count) + |pieces|
    {
      pieces := [];
      var start := count;
      ghost var split := Splitter(resolution, asWritten);
      for i := 0 to |es|
        invariant start == old(count) && count == start + |pieces|
        invariant pieces == Flatten(es[..i], start, split)
      {
        pieces := SplitNext(es, i, resolution, asWritten, start, split, pieces);
      }
      assert es[..|es|] == es;
    }

    /** One turn of the `Segment.split` comprehension: splits element `i` and appends
        its pieces. `split` is `Splitter(resolution, asWritten)`, given as a function
        known only through its values at the calls of `split` made here. */
    method SplitNext(es: seq<Element>, i: nat, resolution: real, asWritten: bool, start: nat,
                     ghost split: (Element, nat) -> seq<Element>, done: seq<Element>)
      returns (pieces: seq<Element>)
      requires resolution > 0.0 && i < |es|
      requires forall x, c {:trigger SplitOfBy(asWritten, x, resolution, c)} ::
        split(x, c) == SplitOfBy(asWritten, x, resolution, c)
      requires done == Flatten(es[..i], start, split) && count == start + |done|
      modifies this
      ensures pieces == Flatten(es[..i + 1], start, split) && count == start + |pieces|
    {
      var more := SplitBy(es[i], resolution, asWritten, split);
      pieces := done + more;
      FlattenStep(es, i, start, split, done, more, pieces);
    }

    /** `Split` or `SplitAsWritten`, stated through `split`. */
    method SplitBy(e: Element, resolution: real, asWritten: bool, ghost split: (Element, nat) -> seq<Element>)
      returns (pieces: seq<Element>)
      requires resolution > 0.0
      requires forall x, c {:trigger SplitOfBy(asWritten, x, resolution, c)} ::
        split(x, c) == SplitOfBy(asWritten, x, resolution, c)
      modifies this
      ensures pieces == split(e, old(count)) && count == old(count) + |pieces|
    {
      ghost var start := count;
      if asWritten {
        pieces := SplitAsWritten(e, resolution);
      } else {
        pieces := Split(e, resolution);
      }
      assert pieces == SplitOfBy(asWritten, e, resolution, start);
    }

    /** `Segment(name)` over elements already converted: the segment is named after
        its elements were counted. */
    method NewSegment(elements: seq<Element>, name: Option<string> := None) returns (s: Segment)
      modifies this
      ensures s == Segment(if name.Some? then name.value else DefaultName("Segment", old(count)), elements)
      ensures count == old(count) + 1
    {
      var given := Register("Segment", name);
      s := Segment(given, elements);
    }
  }

  // ---------------------------------------------------------------------------
  // Transfer maps

  /** `igamma2`: `1 / gamma**2` with `gamma = energy / REST_ENERGY`, or 0 when `gamma == 0`. */
  function InverseGammaSquared(energy: real): (r: real)
    ensures r >= 0.0 && (r == 0.0 <==> energy == 0.0)
  {
    var gamma := energy / RestEnergy;
    if gamma != 0.0 then 1.0 / (gamma * gamma) else 0.0
  }

  function DriftMap(length: real, energy: real): (m: Matrix)
    ensures Shaped(m, 7, 7)
  {
    var l := length;
    var r56 := length * InverseGammaSquared(energy);
    [[1.0,   l, 0.0, 0.0, 0.0, 0.0, 0.0],
     [0.0, 1.0, 0.0, 0.0, 0.0, 0.0, 0.0],
     [0.0, 0.0, 1.0,   l, 0.0, 0.0, 0.0],
     [0.0, 0.0, 0.0, 1.0, 0.0, 0.0, 0.0],
     [0.0, 0.0, 0.0, 0.0, 1.0, r56, 0.0],
     [0.0, 0.0, 0.0, 0.0, 0.0, 1.0, 0.0],
     [0.0, 0.0, 0.0, 0.0, 0.0, 0.0, 1.0]]
  }

  function HorizontalCorrectorMap(length: real, angle: real): (m: Matrix)
    ensures Shaped(m, 7, 7)
  {
    var l := length;
    [[1.0,   l, 0.0, 0.0, 0.0, 0.0,   0.0],
     [0.0, 1.0, 0.0, 0.0, 0.0, 0.0, angle],
     [0.0, 0.0, 1.0,   l, 0.0, 0.0,   0.0],
     [0.0, 0.0, 0.0, 1.0, 0.0, 0.0,   0.0],
     [0.0, 0.0, 0.0, 0.0, 1.0, 0.0,   0.0],
     [0.0, 0.0, 0.0, 0.0, 0.0, 1.0,   0.0],
     [0.0, 0.0, 0.0, 0.0, 0.0, 0.0,   1.0]]
  }

  function VerticalCorrectorMap(length: real, angle: real): (m: Matrix)
    ensures Shaped(m, 7, 7)
  {
    var l := length;
    [[1.0,   l, 0.0, 0.0, 0.0, 0.0,   0.0],
     [0.0, 1.0, 0.0, 0.0, 0.0, 0.0,   0.0],
     [0.0, 0.0, 1.0,   l, 0.0, 0.0,   0.0],
     [0.0, 0.0, 0.0, 1.0, 0.0, 0.0, angle],
     [0.0, 0.0, 0.0, 0.0, 1.0, 0.0,   0.0],
     [0.0, 0.0, 0.0, 0.0, 0.0, 1.0,   0.0],
     [0.0, 0.0, 0.0, 0.0, 0.0, 0.0,   1.0]]
  }

  /** The two corrector maps differ only in the row their kick enters: `[1,6]`
      (`px`) for the horizontal and `[3,6]` (`py`) for the vertical corrector.
      Without a kick both are the drift map with `igamma2 = 0`. */
  lemma CorrectorMapsDifferInKickRow(length: real, angle: real)
    ensures var h, v := HorizontalCorrectorMap(length, angle), VerticalCorrectorMap(length, angle);
      && h[1][6] == angle && h[3][6] == 0.0 && v[3][6] == angle && v[1][6] == 0.0
      && (forall i, j :: 0 <= i < 7 && 0 <= j < 7 && j != 6 ==> h[i][j] == v[i][j])
      && (forall i :: 0 <= i < 7 && i != 1 && i != 3 ==> h[i][6] == v[i][6])
    ensures HorizontalCorrectorMap(length, 0.0) == VerticalCorrectorMap(length, 0.0) == DriftMap(length, 0.0)
  {
    assert InverseGammaSquared(0.0) == 0.0;
  }

  /** `Quadrupole.transfer_map` is not part of this model; it is a parameter
      `(length, k1, energy) -> map`, of which only the 7x7 shape is assumed. */
  type QuadrupoleMap = (real, real, real) -> Matrix

  ghost predicate QuadOk(quad: QuadrupoleMap) {
    forall l, k, en :: Shaped(quad(l, k, en), 7, 7)
  }

  function TransferMap(e: Element, quad: QuadrupoleMap): (m: Matrix)
    requires QuadOk(quad)
    ensures Shaped(m, 7, 7)
  {
    match e
    case Drift(_, l, en) => DriftMap(l, en)
    case Quadrupole(_, l, k, en) => quad(l, k, en)
    case HorizontalCorrector(_, l, a) => HorizontalCorrectorMap(l, a)
    case VerticalCorrector(_, l, a) => VerticalCorrectorMap(l, a)
    case Screen(_) => Identity(7)
  }

  /** `np.matmul(particles, M.transpose())` for a stack of 7-coordinate rows. */
  function Apply(m: Matrix, particles: Matrix): (r: Matrix)
    requires Shaped(m, 7, 7) && Shaped(particles, |particles|, 7)
    ensures Shaped(r, |particles|, 7)
  {
    RowsOfMulTranspose(particles, m, 7);
    Mul(particles, Transpose(m))
  }

  /** `Element.__call__`, with `Screen.__call__` returning the particles themselves. */
  function Call(e: Element, particles: Matrix, quad: QuadrupoleMap): (r: Matrix)
    requires QuadOk(quad) && Shaped(particles, |particles|, 7)
    ensures Shaped(r, |particles|, 7)
  {
    if e.Screen? then particles else Apply(TransferMap(e, quad), particles)
  }

  lemma MatVecIdentity(p: Vector)
    ensures MatVec(Identity(|p|), p) == p
  {
    forall i | 0 <= i < |p|
      ensures MatVec(Identity(|p|), p)[i] == p[i]
    {
      DotUnit(Identity(|p|)[i], p, i);
    }
  }

  /** Calling an element maps every particle row `p` to `M · p`; for a Screen,
      whose map is the identity, the shortcut of returning the particles agrees. */
  lemma CallAppliesMap(e: Element, particles: Matrix, quad: QuadrupoleMap)
    requires QuadOk(quad) && Shaped(particles, |particles|, 7)
    ensures |Call(e, particles, quad)| == |particles|
    ensures forall k :: 0 <= k < |particles| ==>
      Call(e, particles, quad)[k] == MatVec(TransferMap(e, quad), particles[k])
  {
    var m := TransferMap(e, quad);
    RowsOfMulTranspose(particles, m, 7);
    if e.Screen? {
      forall k | 0 <= k < |particles|
        ensures particles[k] == MatVec(m, particles[k])
      {
        MatVecIdentity(particles[k]);
      }
    }
  }

  // ---------------------------------------------------------------------------
  // Splitting

  function Min(a: real, b: real): real {
    if a <= b then a else b
  }

  /** The least integer not below `x`. */
  function Ceil(x: real): (c: int)
    ensures x <= c as real < x + 1.0
  {
    -((-x).Floor)
  }

  lemma CeilUnique(x: real, c: int)
    requires x <= c as real < x + 1.0
    ensures Ceil(x) == c
  {
  }

  /** A bound on the iterations left in a split loop. */
  function Steps(remaining: real, resolution: real): nat
    requires resolution > 0.0
  {
    if remaining <= 0.0 then 0 else (remaining / resolution).Floor + 1
  }

  lemma DivShift(x: real, d: real)
    requires d > 0.0
    ensures (x - d) / d == x / d - 1.0
  {
    var inv := 1.0 / d;
    assert d * inv == 1.0;
    assert x / d == x * inv;
    assert (x - d) / d == (x - d) * inv == x * inv - d * inv;
  }

  lemma StepDown(remaining: real, resolution: real)
    requires resolution > 0.0 && remaining > 0.0
    ensures Steps(remaining - resolution, resolution) < Steps(remaining, resolution)
  {
    DivShift(remaining, resolution);
  }

  /** The piece lengths a split loop produces for `length`. */
  function Pieces(length: real, resolution: real): seq<real>
    requires resolution > 0.0
    decreases Steps(length, resolution)
  {
    if length <= 0.0 then []
    else
      StepDown(length, resolution);
      [Min(resolution, length)] + Pieces(length - resolution, resolution)
  }

  lemma PiecesStep(length: real, resolution: real)
    requires resolution > 0.0 && length > 0.0
    ensures Pieces(length, resolution) == [Min(resolution, length)] + Pieces(length - resolution, resolution)
    ensures Steps(length - resolution, resolution) < Steps(length, resolution)
  {
    StepDown(length, resolution);
  }

  /** The lengths cut so far, `done`, followed by those still to come, are the whole
      split; cutting one more piece keeps it so. */
  lemma PiecesAdvance(done: seq<real>, remaining: real, resolution: real, length: real,
                      done': seq<real>, remaining': real)
    requires resolution > 0.0 && remaining > 0.0
    requires done + Pieces(remaining, resolution) == Pieces(length, resolution)
    requires done' == done + [Min(resolution, remaining)] && remaining' == remaining - resolution
    ensures done' + Pieces(remaining', resolution) == Pieces(length, resolution)
    ensures Steps(remaining', resolution) < Steps(remaining, resolution)
  {
    PiecesStep(remaining, resolution);
    var rest := Pieces(remaining - resolution, resolution);
    assert (done + [Min(resolution, remaining)]) + rest == done + ([Min(resolution, remaining)] + rest);
  }

  /** Every piece is positive and no longer than the resolution; all but the last are
      exactly the resolution. */
  lemma {:induction false} PiecesBounded(length: real, resolution: real)
    requires resolution > 0.0
    decreases Steps(length, resolution)
    ensures forall k :: 0 <= k < |Pieces(length, resolution)| ==>
      0.0 < Pieces(length, resolution)[k] <= resolution &&
      (k < |Pieces(length, resolution)| - 1 ==> Pieces(length, resolution)[k] == resolution)
  {
    if length > 0.0 {
      StepDown(length, resolution);
      PiecesBounded(length - resolution, resolution);
      var ps := Pieces(length, resolution);
      var rest := Pieces(length - resolution, resolution);
      assert ps == [Min(resolution, length)] + rest;
      forall k | 0 <= k < |ps|
        ensures 0.0 < ps[k] <= resolution && (k < |ps| - 1 ==> ps[k] == resolution)
      {
        if k == 0 {
          if |ps| > 1 {
            assert rest != [];
            assert length - resolution > 0.0;
          }
        } else {
          assert ps[k] == rest[k - 1];
        }
      }
    }
  }

  /** The pieces add up to the original length; a length that is not positive gives no pieces. */
  lemma {:induction false} PiecesSum(length: real, resolution: real)
    requires resolution > 0.0
    decreases Steps(length, resolution)
    ensures length <= 0.0 ==> Pieces(length, resolution) == []
    ensures length > 0.0 ==> Sum(Pieces(length, resolution)) == length
  {
    if length > 0.0 {
      StepDown(length, resolution);
      PiecesSum(length - resolution, resolution);
    }
  }

  /** There are `ceil(length / resolution)` pieces. */
  lemma {:induction false} PiecesCount(length: real, resolution: real)
    requires resolution > 0.0
    decreases Steps(length, resolution)
    ensures |Pieces(length, resolution)| == if length <= 0.0 then 0 else Ceil(length / resolution)
  {
    if length > 0.0 {
      StepDown(length, resolution);
      PiecesCount(length - resolution, resolution);
      var x := length / resolution;
      if length - resolution > 0.0 {
        DivShift(length, resolution);
        CeilUnique(x - 1.0, Ceil(x) - 1);
      } else {
        assert x <= 1.0 by {
          assert length <= resolution;
          DivShift(length, resolution);
        }
        assert 0.0 < x;
        CeilUnique(x, 1);
      }
    }
  }

  /** The class of piece a split loop builds. */
  datatype PieceKind = DriftPiece | QuadrupolePiece | HorizontalPiece | VerticalPiece

  function PieceClass(kind: PieceKind): string {
    match kind
    case DriftPiece => "Drift"
    case QuadrupolePiece => "Quadrupole"
    case HorizontalPiece => "HorizontalCorrector"
    case VerticalPiece => "VerticalCorrector"
  }

  /** `kind` is a piece that `e` can be cut into. */
  predicate Fits(kind: PieceKind, e: Element) {
    match kind
    case DriftPiece => e.Drift?
    case QuadrupolePiece => e.Quadrupole?
    case HorizontalPiece => e.HorizontalCorrector? || e.VerticalCorrector?
    case VerticalPiece => e.HorizontalCorrector? || e.VerticalCorrector?
  }

  /** One piece of length `l`: drifts and quadrupoles keep `energy` (and `k1`), a
      corrector piece gets the share `angle * l / length` of the kick. */
  function MakePiece(kind: PieceKind, e: Element, name: string, l: real): Element
    requires Fits(kind, e)
    requires kind.HorizontalPiece? || kind.VerticalPiece? ==> e.length != 0.0
  {
    match kind
    case DriftPiece => Drift(name, l, e.energy)
    case QuadrupolePiece => Quadrupole(name, l, e.k1, e.energy)
    case HorizontalPiece => HorizontalCorrector(name, l, e.angle * l / e.length)
    case VerticalPiece => VerticalCorrector(name, l, e.angle * l / e.length)
  }

  /** Pieces of lengths `ls`, the `k`-th built by `make(start + k, ls[k])`. */
  function Build(ls: seq<real>, start: nat, make: (nat, real) -> Element): (ps: seq<Element>)
    ensures |ps| == |ls|
  {
    if |ls| == 0 then []
    else
      var n := |ls| - 1;
      Build(ls[..n], start, make) + [make(start + n, ls[n])]
  }

  lemma BuildSnoc(ls: seq<real>, l: real, start: nat, make: (nat, real) -> Element)
    ensures Build(ls + [l], start, make) == Build(ls, start, make) + [make(start + |ls|, l)]
  {
    assert (ls + [l])[..|ls|] == ls;
  }

  lemma {:induction false} BuildAt(ls: seq<real>, start: nat, make: (nat, real) -> Element)
    ensures forall k :: 0 <= k < |ls| ==> Build(ls, start, make)[k] == make(start + k, ls[k])
  {
    if |ls| > 0 {
      var n := |ls| - 1;
      BuildAt(ls[..n], start, make);
      forall k | 0 <= k < n
        ensures Build(ls, start, make)[k] == make(start + k, ls[k])
      {
        assert Build(ls, start, make)[k] == Build(ls[..n], start, make)[k];
        assert ls[..n][k] == ls[k];
      }
    }
  }

  /** The piece builder of one split loop: the piece for counter value `c` and length
      `l` is named after its class and `c`. */
  function Builder(kind: PieceKind, e: Element): (nat, real) -> Element
    requires Fits(kind, e) && e.length > 0.0
  {
    (c: nat, l: real) => MakePiece(kind, e, DefaultName(PieceClass(kind), c), l)
  }

  /** Pieces of lengths `ls` cut from `e`, named from the counter value `start` on. */
  function Named(kind: PieceKind, e: Element, start: nat, ls: seq<real>): seq<Element>
    requires Fits(kind, e) && e.length > 0.0
  {
    Build(ls, start, Builder(kind, e))
  }

  lemma NamedSnoc(kind: PieceKind, e: Element, start: nat, ls: seq<real>, l: real)
    requires Fits(kind, e) && e.length > 0.0
    ensures |Named(kind, e, start, ls)| == |ls|
    ensures Named(kind, e, start, ls + [l]) == Named(kind, e, start, ls) + [Builder(kind, e)(start + |ls|, l)]
  {
    BuildSnoc(ls, l, start, Builder(kind, e));
  }

  /** Piece `k` has length `ls[k]` and is named from the counter value `start + k`. */
  lemma NamedPieces(kind: PieceKind, e: Element, start: nat, ls: seq<real>)
    requires Fits(kind, e) && e.length > 0.0
    ensures |Named(kind, e, start, ls)| == |ls|
    ensures forall k :: 0 <= k < |ls| ==>
      Named(kind, e, start, ls)[k] == MakePiece(kind, e, DefaultName(PieceClass(kind), start + k), ls[k])
  {
    BuildAt(ls, start, Builder(kind, e));
  }

  lemma NamedLengths(kind: PieceKind, e: Element, start: nat, ls: seq<real>)
    requires Fits(kind, e) && e.length > 0.0
    ensures Lengths(Named(kind, e, start, ls)) == ls
  {
    NamedShape(kind, e, start, ls);
  }

  /** The kicks `a * ls[k] / d` of pieces of lengths `ls` cut from a corrector of
      angle `a` and length `d`. */
  function Shares(ls: seq<real>, a: real, d: real): (w: seq<real>)
    requires d != 0.0
    ensures |w| == |ls| && forall k :: 0 <= k < |ls| ==> w[k] == a * ls[k] / d
  {
    seq(|ls|, k requires 0 <= k < |ls| => a * ls[k] / d)
  }

  lemma SharesScale(ls: seq<real>, a: real, d: real)
    requires d != 0.0
    ensures Shares(ls, a, d) == Scale(ls, a / d)
  {
    forall k | 0 <= k < |ls|
      ensures Shares(ls, a, d)[k] == Scale(ls, a / d)[k]
    {
      KickShare(a, ls[k], d);
    }
  }

  /** A piece is named `name`, is `l` long and has the class of its kind; drift and
      quadrupole pieces keep the energy (and `k1`), corrector pieces get the kick
      `angle * l / length`. */
  lemma PieceShape(kind: PieceKind, e: Element, name: string, l: real)
    requires Fits(kind, e) && e.length > 0.0
    ensures var p := MakePiece(kind, e, name, l);
      && p.name == name && LengthOf(p) == l && ClassName(p) == PieceClass(kind)
      && (kind.DriftPiece? ==> p == Drift(name, l, e.energy))
      && (kind.QuadrupolePiece? ==> p == Quadrupole(name, l, e.k1, e.energy))
      && (kind.HorizontalPiece? ==> p.HorizontalCorrector? && p.angle == e.angle * l / e.length)
      && (kind.VerticalPiece? ==> p.VerticalCorrector? && p.angle == e.angle * l / e.length)
  {
  }

  /** `PieceShape` for every piece of `Named(kind, e, start, ls)`. */
  lemma NamedShape(kind: PieceKind, e: Element, start: nat, ls: seq<real>)
    requires Fits(kind, e) && e.length > 0.0
    ensures |Named(kind, e, start, ls)| == |ls|
    ensures forall k :: 0 <= k < |ls| ==>
      var p := Named(kind, e, start, ls)[k];
      && p.name == DefaultName(PieceClass(kind), start + k) && LengthOf(p) == ls[k] && ClassName(p) == PieceClass(kind)
      && (kind.DriftPiece? ==> p == Drift(p.name, ls[k], e.energy))
      && (kind.QuadrupolePiece? ==> p == Quadrupole(p.name, ls[k], e.k1, e.energy))
      && (kind.HorizontalPiece? ==> p.HorizontalCorrector? && p.angle == Shares(ls, e.angle, e.length)[k])
      && (kind.VerticalPiece? ==> p.VerticalCorrector? && p.angle == Shares(ls, e.angle, e.length)[k])
  {
    NamedPieces(kind, e, start, ls);
    forall k | 0 <= k < |ls|
      ensures var p := Named(kind, e, start, ls)[k];
        && p.name == DefaultName(PieceClass(kind), start + k) && LengthOf(p) == ls[k] && ClassName(p) == PieceClass(kind)
        && (kind.DriftPiece? ==> p == Drift(p.name, ls[k], e.energy))
        && (kind.QuadrupolePiece? ==> p == Quadrupole(p.name, ls[k], e.k1, e.energy))
        && (kind.HorizontalPiece? ==> p.HorizontalCorrector? && p.angle == Shares(ls, e.angle, e.length)[k])
        && (kind.VerticalPiece? ==> p.VerticalCorrector? && p.angle == Shares(ls, e.angle, e.length)[k])
    {
      PieceShape(kind, e, DefaultName(PieceClass(kind), start + k), ls[k]);
      if kind.HorizontalPiece? || kind.VerticalPiece? {
        assert Shares(ls, e.angle, e.length)[k] == e.angle * ls[k] / e.length;
      }
    }
  }

  /** What one split loop returns when the counter starts at `start`. */
  function Chopped(e: Element, resolution: real, kind: PieceKind, start: nat): seq<Element>
    requires resolution > 0.0 && Fits(kind, e)
  {
    if e.length <= 0.0 then [] else Named(kind, e, start, Pieces(e.length, resolution))
  }

  /** The piece each class's `split` builds, as written. */
  function KindAsWritten(e: Element): (kind: PieceKind)
    requires !e.Screen?
    ensures Fits(kind, e)
  {
    match e
    case Drift(_, _, _) => DriftPiece
    case Quadrupole(_, _, _, _) => QuadrupolePiece
    case HorizontalCorrector(_, _, _) => HorizontalPiece
    case VerticalCorrector(_, _, _) => HorizontalPiece
  }

  /** The piece of the same class as `e`. */
  function KindOf(e: Element): (kind: PieceKind)
    requires !e.Screen?
    ensures Fits(kind, e) && PieceClass(kind) == ClassName(e)
  {
    match e
    case Drift(_, _, _) => DriftPiece
    case Quadrupole(_, _, _, _) => QuadrupolePiece
    case HorizontalCorrector(_, _, _) => HorizontalPiece
    case VerticalCorrector(_, _, _) => VerticalPiece
  }

  function SplitOfAsWritten(e: Element, resolution: real, start: nat): seq<Element>
    requires resolution > 0.0
  {
    if e.Screen? then [] else Chopped(e, resolution, KindAsWritten(e), start)
  }

  /** `split` with every piece of its element's own class; a Screen splits into nothing. */
  function SplitOf(e: Element, resolution: real, start: nat): seq<Element>
    requires resolution > 0.0
  {
    if e.Screen? then [] else Chopped(e, resolution, KindOf(e), start)
  }

  function Lengths(es: seq<Element>): (ls: seq<real>)
    ensures |ls| == |es| && forall k :: 0 <= k < |es| ==> ls[k] == LengthOf(es[k])
  {
    seq(|es|, k requires 0 <= k < |es| => LengthOf(es[k]))
  }

  /** Piece by piece, a split element is cut into the lengths `Pieces` describes;
      every piece has the class of the element and is named from the counter. */
  lemma SplitShape(e: Element, resolution: real, start: nat)
    requires resolution > 0.0 && !e.Screen?
    ensures Lengths(SplitOf(e, resolution, start)) == Pieces(e.length, resolution)
    ensures forall k :: 0 <= k < |SplitOf(e, resolution, start)| ==>
      var p := SplitOf(e, resolution, start)[k];
      ClassName(p) == ClassName(e) && p.name == DefaultName(ClassName(e), start + k)
  {
    var ls := Pieces(e.length, resolution);
    PiecesSum(e.length, resolution);
    if e.length > 0.0 {
      var kind := KindOf(e);
      NamedLengths(kind, e, start, ls);
      NamedShape(kind, e, start, ls);
    }
  }

  /** Every piece of a split is positive and at most `resolution` long, the pieces add
      up to the element's length and there are `ceil(length / resolution)` of them. */
  lemma SplitLengths(e: Element, resolution: real, start: nat)
    requires resolution > 0.0 && !e.Screen?
    ensures var ls := Lengths(SplitOf(e, resolution, start));
      && (forall k :: 0 <= k < |ls| ==> 0.0 < ls[k] <= resolution)
      && (e.length > 0.0 ==> Sum(ls) == e.length && |ls| == Ceil(e.length / resolution))
      && (e.length <= 0.0 ==> ls == [])
  {
    SplitShape(e, resolution, start);
    PiecesBounded(e.length, resolution);
    PiecesSum(e.length, resolution);
    PiecesCount(e.length, resolution);
  }

  function Angles(es: seq<Element>): (as_: seq<real>)
    requires forall k :: 0 <= k < |es| ==> es[k].HorizontalCorrector? || es[k].VerticalCorrector?
    ensures |as_| == |es| && forall k :: 0 <= k < |es| ==> as_[k] == es[k].angle
  {
    seq(|es|, k requires 0 <= k < |es| => es[k].angle)
  }

  lemma KickShare(a: real, l: real, length: real)
    requires length != 0.0
    ensures a * l / length == (a / length) * l
  {
    var inv := 1.0 / length;
    assert length * inv == 1.0;
    assert a * l / length == (a * l) * inv;
    assert a / length == a * inv;
  }

  lemma WholeKick(a: real, length: real)
    requires length != 0.0
    ensures a / length * length == a
  {
  }

  /** Corrector pieces of lengths `ls` carry the kicks `angle * ls[k] / length`. */
  lemma NamedAngles(kind: PieceKind, e: Element, start: nat, ls: seq<real>)
    requires (e.HorizontalCorrector? || e.VerticalCorrector?) && e.length > 0.0
    requires kind.HorizontalPiece? || kind.VerticalPiece?
    ensures var ps := Named(kind, e, start, ls);
      (forall k :: 0 <= k < |ps| ==> ps[k].HorizontalCorrector? || ps[k].VerticalCorrector?) &&
      Angles(ps) == Shares(ls, e.angle, e.length)
  {
    var ps := Named(kind, e, start, ls);
    NamedShape(kind, e, start, ls);
    assert Angles(ps) == Shares(ls, e.angle, e.length);
  }

  /** Corrector pieces whose lengths add up to the corrector's length share out its
      whole kick. */
  lemma NamedAnglesSum(kind: PieceKind, e: Element, start: nat, ls: seq<real>)
    requires (e.HorizontalCorrector? || e.VerticalCorrector?) && e.length > 0.0
    requires kind.HorizontalPiece? || kind.VerticalPiece?
    requires Sum(ls) == e.length
    ensures var ps := Named(kind, e, start, ls);
      (forall k :: 0 <= k < |ps| ==> ps[k].HorizontalCorrector? || ps[k].VerticalCorrector?) &&
      Sum(Angles(ps)) == e.angle
  {
    var ps := Named(kind, e, start, ls);
    var c := e.angle / e.length;
    NamedAngles(kind, e, start, ls);
    calc {
      Sum(Angles(ps));
      Sum(Shares(ls, e.angle, e.length));
      { SharesScale(ls, e.angle, e.length); }
      Sum(Scale(ls, c));
      { SumScale(ls, c); }
      c * Sum(ls);
      c * e.length;
      { WholeKick(e.angle, e.length); }
      e.angle;
    }
  }

  /** A corrector's split shares out its kick: the piece angles add up to the angle. */
  lemma CorrectorAnglesSum(e: Element, resolution: real, kind: PieceKind, start: nat)
    requires resolution > 0.0 && (e.HorizontalCorrector? || e.VerticalCorrector?)
    requires kind.HorizontalPiece? || kind.VerticalPiece?
    requires e.length > 0.0
    ensures var ps := Chopped(e, resolution, kind, start);
      (forall k :: 0 <= k < |ps| ==> ps[k].HorizontalCorrector? || ps[k].VerticalCorrector?) &&
      Sum(Angles(ps)) == e.angle
  {
    PiecesSum(e.length, resolution);
    NamedAnglesSum(kind, e, start, Pieces(e.length, resolution));
  }

  // ---------------------------------------------------------------------------
  // Segments

  datatype Segment = Segment(name: string, elements: seq<Element>)

  /** The splits of `es`, in order, concatenated, with the element counter threaded
      through: `split(e, c)` is what splitting `e` returns when the counter stands at `c`. */
  function Flatten(es: seq<Element>, start: nat, split: (Element, nat) -> seq<Element>): seq<Element>
    decreases |es|
  {
    if |es| == 0 then []
    else
      var first := split(es[0], start);
      first + Flatten(es[1..], start + |first|, split)
  }

  lemma {:induction false} FlattenAppend(a: seq<Element>, b: seq<Element>, start: nat, split: (Element, nat) -> seq<Element>)
    ensures Flatten(a + b, start, split) == Flatten(a, start, split) + Flatten(b, start + |Flatten(a, start, split)|, split)
  {
    if |a| == 0 {
      assert a + b == b;
    } else {
      var first := split(a[0], start);
      assert (a + b)[0] == a[0] && (a + b)[1..] == a[1..] + b;
      FlattenAppend(a[1..], b, start + |first|, split);
    }
  }

  /** One turn of a flattening loop: the first `i + 1` elements flatten to the first `i`,
      then the split of element `i` with the counter where it stands. */
  lemma FlattenSnoc(es: seq<Element>, i: nat, start: nat, split: (Element, nat) -> seq<Element>)
    requires i < |es|
    ensures Flatten(es[..i + 1], start, split)
         == Flatten(es[..i], start, split) + split(es[i], start + |Flatten(es[..i], start, split)|)
  {
    assert es[..i + 1] == es[..i] + [es[i]];
    FlattenAppend(es[..i], [es[i]], start, split);
    var c := start + |Flatten(es[..i], start, split)|;
    assert Flatten([es[i]], c, split) == split(es[i], c) + Flatten([], c + |split(es[i], c)|, split);
  }

  /** `FlattenSnoc` for a loop that holds the flattened prefix in `done`. */
  lemma FlattenStep(es: seq<Element>, i: nat, start: nat, split: (Element, nat) -> seq<Element>,
                    done: seq<Element>, more: seq<Element>, pieces: seq<Element>)
    requires i < |es|
    requires done == Flatten(es[..i], start, split) && more == split(es[i], start + |done|)
    requires pieces == done + more
    ensures pieces == Flatten(es[..i + 1], start, split)
  {
    FlattenSnoc(es, i, start, split);
  }

  /** Flattening keeps total length whenever each split keeps its element's length. */
  lemma {:induction false} FlattenLength(es: seq<Element>, start: nat, split: (Element, nat) -> seq<Element>)
    requires forall k, c :: 0 <= k < |es| ==> Sum(Lengths(split(es[k], c))) == LengthOf(es[k])
    ensures Sum(Lengths(Flatten(es, start, split))) == Sum(Lengths(es))
  {
    if |es| > 0 {
      var first := split(es[0], start);
      var tail := es[1..];
      var rest := Flatten(tail, start + |first|, split);
      forall k, c | 0 <= k < |tail|
        ensures Sum(Lengths(split(tail[k], c))) == LengthOf(tail[k])
      {
        assert tail[k] == es[k + 1];
      }
      assert Lengths(es)[1..] == Lengths(tail);
      calc {
        Sum(Lengths(Flatten(es, start, split)));
        Sum(Lengths(first + rest));
        { LengthsAppend(first, rest); }
        Sum(Lengths(first) + Lengths(rest));
        { SumAppend(Lengths(first), Lengths(rest)); }
        Sum(Lengths(first)) + Sum(Lengths(rest));
        { FlattenLength(tail, start + |first|, split); }
        LengthOf(es[0]) + Sum(Lengths(tail));
        Sum(Lengths(es));
      }
    }
  }

  /** `split` as written or corrected. */
  function SplitOfBy(asWritten: bool, e: Element, resolution: real, start: nat): seq<Element>
    requires resolution > 0.0
  {
    if asWritten then SplitOfAsWritten(e, resolution, start) else SplitOf(e, resolution, start)
  }

  /** `split(resolution)` of one element, as a function of the counter. */
  function Splitter(resolution: real, asWritten: bool): (Element, nat) -> seq<Element>
    requires resolution > 0.0
  {
    (e: Element, c: nat) => SplitOfBy(asWritten, e, resolution, c)
  }

  /** `Segment.split` on elements, with the counter starting at `start`. */
  function SegmentSplitOf(elements: seq<Element>, resolution: real, start: nat): seq<Element>
    requires resolution > 0.0
  {
    Flatten(elements, start, Splitter(resolution, false))
  }

  /** `Segment.split` with the element splits as written. */
  function SegmentSplitOfAsWritten(elements: seq<Element>, resolution: real, start: nat): seq<Element>
    requires resolution > 0.0
  {
    Flatten(elements, start, Splitter(resolution, true))
  }

  function Maps(es: seq<Element>, quad: QuadrupoleMap): (ms: seq<Matrix>)
    requires QuadOk(quad)
    ensures |ms| == |es| && forall k :: 0 <= k < |es| ==> ms[k] == TransferMap(es[k], quad)
  {
    seq(|es|, k requires 0 <= k < |es| => TransferMap(es[k], quad))
  }

  /** `M_n · ... · M_1` for maps `M_1, ..., M_n` in traversal order; the identity for none. */
  function Chain(ms: seq<Matrix>): (m: Matrix)
    requires forall k :: 0 <= k < |ms| ==> Shaped(ms[k], 7, 7)
    ensures Shaped(m, 7, 7)
  {
    if |ms| == 0 then Identity(7)
    else
      var last := ms[|ms| - 1];
      assert Shaped(last, 7, 7);
      Mul(last, Chain(ms[..|ms| - 1]))
  }

  /** `Segment.transfer_map`: starting from the identity, each element's map is
      multiplied on the left, in list order. */
  method SegmentTransferMap(s: Segment, quad: QuadrupoleMap) returns (tm: Matrix)
    requires QuadOk(quad)
    ensures tm == Chain(Maps(s.elements, quad))
  {
    tm := Identity(7);
    for i := 0 to |s.elements|
      invariant tm == Chain(Maps(s.elements[..i], quad))
    {
      var ms := Maps(s.elements[..i + 1], quad);
      assert ms[..i] == Maps(s.elements[..i], quad);
      tm := Mul(TransferMap(s.elements[i], quad), tm);
    }
    assert s.elements[..|s.elements|] == s.elements;
  }

  /** A one-element chain is that element's map. */
  lemma ChainSingle(m: Matrix)
    requires Shaped(m, 7, 7)
    ensures Chain([m]) == m
  {
    assert [m][..0] == [];
    MulIdentityRight(m);
  }

  /** One entry of the product of two drift maps at one energy. */
  lemma DriftEntry(a: real, b: real, energy: real, i: nat, j: nat)
    requires i < 7 && j < 7
    ensures Dot(DriftMap(b, energy)[i], Column(DriftMap(a, energy), j)) == DriftMap(a + b, energy)[i][j]
  {
    var g := InverseGammaSquared(energy);
    assert a * g + b * g == (a + b) * g;
    DotSparse(DriftMap(b, energy)[i], Column(DriftMap(a, energy), j), i, i + 1);
  }

  /** Two drifts at one energy compose into the drift of the summed length. */
  lemma DriftsCompose(a: real, b: real, energy: real)
    ensures Mul(DriftMap(b, energy), DriftMap(a, energy)) == DriftMap(a + b, energy)
  {
    var c := Mul(DriftMap(b, energy), DriftMap(a, energy));
    var r := DriftMap(a + b, energy);
    forall i | 0 <= i < 7
      ensures c[i] == r[i]
    {
      forall j | 0 <= j < 7
        ensures c[i][j] == r[i][j]
      {
        DriftEntry(a, b, energy, i, j);
      }
    }
  }

  lemma ZeroDrift(energy: real)
    ensures DriftMap(0.0, energy) == Identity(7)
  {
    var d := DriftMap(0.0, energy);
    forall i | 0 <= i < 7
      ensures d[i] == Identity(7)[i]
    {
    }
  }

  lemma LengthsAppend(a: seq<Element>, b: seq<Element>)
    ensures Lengths(a + b) == Lengths(a) + Lengths(b)
  {
  }

  function DriftMaps(ls: seq<real>, energy: real): (ms: seq<Matrix>)
    ensures |ms| == |ls| && forall k :: 0 <= k < |ls| ==> ms[k] == DriftMap(ls[k], energy)
  {
    seq(|ls|, k requires 0 <= k < |ls| => DriftMap(ls[k], energy))
  }

  /** Drifts of lengths `ls` at one energy, chained, are the drift of the total length. */
  lemma {:induction false} ChainOfDrifts(ls: seq<real>, energy: real)
    ensures Chain(DriftMaps(ls, energy)) == DriftMap(Sum(ls), energy)
  {
    var n := |ls|;
    if n == 0 {
      ZeroDrift(energy);
    } else {
      var init, last := ls[..n - 1], ls[n - 1];
      var ms := DriftMaps(ls, energy);
      assert ms[..n - 1] == DriftMaps(init, energy);
      ChainOfDrifts(init, energy);
      DriftsCompose(Sum(init), last, energy);
      DriftSum(ls, init, last);
    }
  }

  /** The total length of `init + [last]`, split off. */
  lemma DriftSum(ls: seq<real>, init: seq<real>, last: real)
    requires |ls| > 0 && init == ls[..|ls| - 1] && last == ls[|ls| - 1]
    ensures Sum(ls) == Sum(init) + last
  {
    assert ls == init + [last];
    SumAppend(init, [last]);
  }

  /** Splitting a drift does not change the beamline: the pieces, composed in order,
      have exactly the drift's map. */
  lemma SplitDriftKeepsMap(e: Element, resolution: real, start: nat, quad: QuadrupoleMap)
    requires QuadOk(quad) && resolution > 0.0
    requires e.Drift? && e.length > 0.0
    ensures Chain(Maps(SplitOf(e, resolution, start), quad)) == TransferMap(e, quad)
  {
    var ls := Pieces(e.length, resolution);
    var ps := Named(DriftPiece, e, start, ls);
    assert SplitOf(e, resolution, start) == ps;
    NamedShape(DriftPiece, e, start, ls);
    assert Maps(ps, quad) == DriftMaps(ls, e.energy);
    PiecesSum(e.length, resolution);
    ChainOfDrifts(ls, e.energy);
  }

  /** A split keeps an element's length, when the length is not negative. */
  lemma SplitKeepsLength(e: Element, resolution: real, start: nat)
    requires resolution > 0.0 && LengthOf(e) >= 0.0
    ensures Sum(Lengths(SplitOf(e, resolution, start))) == LengthOf(e)
  {
    if !e.Screen? {
      SplitLengths(e, resolution, start);
    }
  }

  /** The pieces of a segment's split add up to the segment's length, when no element
      has a negative length. */
  lemma SegmentSplitLength(elements: seq<Element>, resolution: real, start: nat)
    requires resolution > 0.0
    requires forall k :: 0 <= k < |elements| ==> LengthOf(elements[k]) >= 0.0
    ensures Sum(Lengths(SegmentSplitOf(elements, resolution, start))) == Sum(Lengths(elements))
  {
    var split := Splitter(resolution, false);
    forall k, c: nat | 0 <= k < |elements|
      ensures Sum(Lengths(split(elements[k], c))) == LengthOf(elements[k])
    {
      SplitKeepsLength(elements[k], resolution, c);
    }
    FlattenLength(elements, start, split);
  }

  /** The one-piece split, as written, of a vertical corrector of angle 0.5. */
  lemma VerticalPieceAsWritten()
    ensures SplitOfAsWritten(VerticalCorrector("v", 1.0, 0.5), 1.0, 0)
         == [HorizontalCorrector("HorizontalCorrector_000000", 1.0, 0.5)]
  {
    var e := VerticalCorrector("v", 1.0, 0.5);
    assert Pieces(1.0, 1.0) == [1.0] by {
      assert Pieces(0.0, 1.0) == [];
    }
    assert Decimal.Padded(0, 6) == "000000";
    var ps := SplitOfAsWritten(e, 1.0, 0);
    assert ps == Named(HorizontalPiece, e, 0, [1.0]);
    NamedPieces(HorizontalPiece, e, 0, [1.0]);
    assert DefaultName("HorizontalCorrector", 0) == "HorizontalCorrector_000000";
    assert ps[0] == MakePiece(HorizontalPiece, e, "HorizontalCorrector_000000", 1.0);
  }

  /** As written, `Segment.split` passes the flaw on: a segment holding only that
      vertical corrector splits into a horizontal corrector, where the corrected
      split keeps the piece vertical. */
  lemma SegmentSplitAsWrittenKicksHorizontally()
    ensures SegmentSplitOfAsWritten([VerticalCorrector("v", 1.0, 0.5)], 1.0, 0)
         == [HorizontalCorrector("HorizontalCorrector_000000", 1.0, 0.5)]
    ensures SegmentSplitOf([VerticalCorrector("v", 1.0, 0.5)], 1.0, 0)
         == [VerticalCorrector("VerticalCorrector_000000", 1.0, 0.5)]
  {
    var e := VerticalCorrector("v", 1.0, 0.5);
    VerticalPieceAsWritten();
    var ps := SplitOfAsWritten(e, 1.0, 0);
    assert Flatten([e], 0, Splitter(1.0, true)) == ps + Flatten([], |ps|, Splitter(1.0, true));
    assert Pieces(1.0, 1.0) == [1.0] by {
      assert Pieces(0.0, 1.0) == [];
    }
    var qs := SplitOf(e, 1.0, 0);
    assert qs == Named(VerticalPiece, e, 0, [1.0]);
    NamedPieces(VerticalPiece, e, 0, [1.0]);
    assert DefaultName("VerticalCorrector", 0) == "VerticalCorrector_000000";
    assert qs[0] == MakePiece(VerticalPiece, e, "VerticalCorrector_000000", 1.0);
    assert Flatten([e], 0, Splitter(1.0, false)) == qs + Flatten([], |qs|, Splitter(1.0, false));
  }

  /** As written, VerticalCorrector.split turns a vertical kick into a horizontal one:
      a one-piece split of a vertical corrector of angle 0.5 is a HorizontalCorrector
      whose map kicks `px` instead of `py`. */
  lemma VerticalSplitAsWrittenKicksHorizontally(quad: QuadrupoleMap)
    requires QuadOk(quad)
    ensures var e := VerticalCorrector("v", 1.0, 0.5);
      var ps := SplitOfAsWritten(e, 1.0, 0);
      && ps == [HorizontalCorrector("HorizontalCorrector_000000", 1.0, 0.5)]
      && TransferMap(e, quad)[3][6] == 0.5 && TransferMap(e, quad)[1][6] == 0.0
      && TransferMap(ps[0], quad)[3][6] == 0.0 && TransferMap(ps[0], quad)[1][6] == 0.5
      && Chain(Maps(ps, quad)) != TransferMap(e, quad)
  {
    VerticalPieceAsWritten();
    var ps := SplitOfAsWritten(VerticalCorrector("v", 1.0, 0.5), 1.0, 0);
    ChainSingle(TransferMap(ps[0], quad));
    assert Maps(ps, quad) == [TransferMap(ps[0], quad)];
  }

  /** With the correction, a vertical corrector splits into vertical correctors that
      share out its kick, and no piece kicks horizontally. */
  lemma VerticalSplitKeepsKickVertical(e: Element, resolution: real, start: nat, quad: QuadrupoleMap)
    requires QuadOk(quad) && resolution > 0.0
    requires e.VerticalCorrector? && e.length > 0.0
    ensures var ps := SplitOf(e, resolution, start);
      && (forall k :: 0 <= k < |ps| ==> ps[k].VerticalCorrector? && TransferMap(ps[k], quad)[1][6] == 0.0)
      && Sum(Angles(ps)) == e.angle
  {
    var ls := Pieces(e.length, resolution);
    var ps := Named(VerticalPiece, e, start, ls);
    assert SplitOf(e, resolution, start) == ps;
    NamedShape(VerticalPiece, e, start, ls);
    forall k | 0 <= k < |ps|
      ensures ps[k].VerticalCorrector? && TransferMap(ps[k], quad)[1][6] == 0.0
    {
      CorrectorMapsDifferInKickRow(ps[k].length, ps[k].angle);
    }
    CorrectorAnglesSum(e, resolution, VerticalPiece, start);
  }
}
