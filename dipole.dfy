/** The bookkeeping and linear-map assembly of the `Dipole` element of
    cheetah/accelerator/dipole.py.

    Every numeric attribute of a dipole is a tensor with one entry per batch slot;
    the model keeps each as a `seq<real>` of slots and reads slot `i` of all of
    them together as a `Params` record. Trigonometry and the functions the file
    imports (`base_rmatrix`, `rotation_matrix`, the Bmad-X coordinate conversions,
    `offset_particle_set/unset`) and the nonlinear body integrator `_bmadx_body`
    are parameters of the operations, known only through the facts stated about
    them where a property needs one. */
module Dipoles {
  import opened Wrappers
  import opened Matrices

  /** `electron_mass_eV`: the electron rest energy in eV (scipy.constants, CODATA 2018). */
  const ElectronMassEV: real := 510998.95

  const ParticleBeamOnly := "Bmad-X tracking is currently only supported for `ParticleBeam`."

  /** The message of the ValueError `track` raises for an unknown tracking method. */
  function InvalidMethod(method_: string): string {
    "Invalid tracking method " + method_ + ". " + "Supported methods are 'cheetah' and 'bmadx'."
  }

  /** `torch.sin`/`cos`/`tan` and the two matrix builders imported from
      cheetah.track_methods: `baseRmatrix(length, k1, hx, tilt, energy)` and
      `rotation(tilt)`. */
  datatype Optics = Optics(
    sin: real -> real, cos: real -> real, tan: real -> real,
    baseRmatrix: (real, real, real, real, real) -> Matrix,
    rotation: real -> Matrix)

  /** The matrix builders return 7×7 matrices. */
  ghost predicate OpticsOk(o: Optics) {
    && (forall l, k, h, t, e :: Shaped(o.baseRmatrix(l, k, h, t, e), 7, 7))
    && (forall t :: Shaped(o.rotation(t), 7, 7))
  }

  /** The Bmad-X helpers of cheetah.utils.bmadx and `_bmadx_body`:
      `momentum(energy, mc2)` is the reference momentum `p0c_particle`,
      `toBmad(tau, delta, energy, mc2)` the Bmad `(z, pz)`,
      `offsetSet/offsetUnset(tilt, x, px, y, py)` the tilt offset with zero
      transverse offsets, `body(params, phase, p0c_particle)` the body step,
      `toCheetah(z, pz, p0c_particle, mc2)` the Cheetah `(tau, delta)` and
      `energyOf(p0c_particle, mc2)` the outgoing reference energy. */
  datatype BmadOps = BmadOps(
    momentum: (real, real) -> real,
    toBmad: (real, real, real, real) -> (real, real),
    offsetSet: (real, real, real, real, real) -> (real, real, real, real),
    offsetUnset: (real, real, real, real, real) -> (real, real, real, real),
    body: (Params, Phase, real) -> Phase,
    toCheetah: (real, real, real, real) -> (real, real),
    energyOf: (real, real) -> real)

  /** One batch slot of every numeric attribute. */
  datatype Params = Params(
    length: real, p0c: real, angle: real, k1: real, e1: real, e2: real,
    fringeIntegral: real, fringeIntegralExit: real, gap: real, gapExit: real, tilt: real)

  /** The transverse momenta a fringe kick returns. */
  datatype Momenta = Momenta(px: real, py: real)

  /** Bmad phase-space coordinates of one particle. */
  datatype Phase = Phase(x: real, px: real, y: real, py: real, z: real, pz: real)

  /** A beam: per batch slot, the particles' rows `(x, px, y, py, tau, delta, 1)`
      and the reference energy; or a beam of moments, which only the linear
      tracking accepts. */
  datatype Beam =
    | ParticleBeam(particles: seq<seq<Vector>>, energy: seq<real>, charges: seq<real>)
    | ParameterBeam(mu: seq<Vector>, energy: seq<real>)

  function Zeros(n: nat): (z: seq<real>)
    ensures |z| == n && forall i :: 0 <= i < n ==> z[i] == 0.0
  {
    seq(n, _ => 0.0)
  }

  /** The value of an optional constructor argument, or its default. */
  function OrElse<T>(given: Option<T>, default: T): T {
    if given.Some? then given.value else default
  }

  /** An optional tensor argument that is absent or has `n` slots. */
  predicate FitsSlots(given: Option<seq<real>>, n: nat) {
    given.None? || |given.value| == n
  }

  /** The slot of the original that slot `j` of a repetition of `n` slots copies:
      `j` less as many whole blocks of `n` as it holds (`j mod n`). */
  function Source(j: nat, n: nat): (i: nat)
    requires n > 0
    ensures i < n
  {
    if j < n then j else Source(j - n, n)
  }

  /** `t.repeat(k)` of a one-dimensional tensor: `k` copies of `s` one after the other. */
  function Tile(s: seq<real>, k: nat): (r: seq<real>)
    ensures |r| == k * |s|
    ensures forall j :: 0 <= j < |r| ==> r[j] == s[Source(j, |s|)]
  {
    if k == 0 then [] else s + Tile(s, k - 1)
  }

  /** Some slot of a tensor is nonzero (`torch.any(t != 0)`). */
  predicate AnyNonzero(s: seq<real>) {
    exists i :: 0 <= i < |s| && s[i] != 0.0
  }

  lemma AnyNonzeroTile(s: seq<real>, k: nat)
    requires k > 0
    ensures AnyNonzero(Tile(s, k)) <==> AnyNonzero(s)
  {
    var t := Tile(s, k);
    if AnyNonzero(s) {
      var i :| 0 <= i < |s| && s[i] != 0.0;
      assert t[i] == s[i];
    }
    if AnyNonzero(t) {
      var j :| 0 <= j < |t| && t[j] != 0.0;
      assert s[Source(j, |s|)] != 0.0;
    }
  }

  // ---------------------------------------------------------------------------
  // Curvature

  /** `hx` of one slot: `angle / length`, or 0 where the length is 0. */
  function Curvature(length: real, angle: real): (h: real)
    ensures length == 0.0 ==> h == 0.0
    ensures length != 0.0 ==> h * length == angle
  {
    if length == 0.0 then 0.0 else angle / length
  }

  /** `hx` of every slot. */
  function Curvatures(lengths: seq<real>, angles: seq<real>): (hs: seq<real>)
    requires |lengths| == |angles|
    ensures |hs| == |lengths|
  {
    seq(|lengths|, i requires 0 <= i < |lengths| => Curvature(lengths[i], angles[i]))
  }

  // ---------------------------------------------------------------------------
  // Edge and body maps

  /** The 7×7 map of one magnet face with edge angle `e`, fringe integral `fInt`,
      curvature `hx` and gap `gap`: the identity with `[1,0] = hx·tan(e)` and
      `[3,2] = -hx·tan(e - phi)`. */
  function EdgeMap(e: real, fInt: real, hx: real, gap: real, o: Optics): (m: Matrix)
    requires o.cos(e) != 0.0
    ensures Shaped(m, 7, 7)
  {
    Assign(Assign(Identity(7), 1, 0, hx * o.tan(e)), 3, 2, -hx * o.tan(e - Phi(e, fInt, hx, gap, o)))
  }

  /** `phi = fInt·hx·gap·sec(e)·(1 + sin(e)²)`, the fringe correction of the vertical edge focusing. */
  function Phi(e: real, fInt: real, hx: real, gap: real, o: Optics): (r: real)
    requires o.cos(e) != 0.0
    ensures fInt == 0.0 || hx == 0.0 || gap == 0.0 ==> r == 0.0
  {
    var sec := 1.0 / o.cos(e);
    fInt * hx * gap * sec * (1.0 + o.sin(e) * o.sin(e))
  }

  /** The face map is 7×7 and differs from the identity at most in `[1,0]` and `[3,2]`,
      where it holds the edge focusing terms. */
  lemma EdgeMapShape(e: real, fInt: real, hx: real, gap: real, o: Optics)
    requires o.cos(e) != 0.0
    ensures var m := EdgeMap(e, fInt, hx, gap, o);
      && Shaped(m, 7, 7)
      && (forall i, j :: 0 <= i < 7 && 0 <= j < 7 && !(i == 1 && j == 0) && !(i == 3 && j == 2) ==>
            m[i][j] == if i == j then 1.0 else 0.0)
      && m[1][0] == hx * o.tan(e)
      && m[3][2] == -hx * o.tan(e - Phi(e, fInt, hx, gap, o))
  {
    var m := EdgeMap(e, fInt, hx, gap, o);
    assert forall i :: 0 <= i < 7 ==> |m[i]| == 7;
  }

  /** A face of a magnet that does not bend is the identity map. */
  lemma EdgeMapStraight(e: real, fInt: real, gap: real, o: Optics)
    requires o.cos(e) != 0.0
    ensures EdgeMap(e, fInt, 0.0, gap, o) == Identity(7)
  {
    var m := EdgeMap(e, fInt, 0.0, gap, o);
    var id := Identity(7);
    forall i | 0 <= i < 7 ensures m[i] == id[i] {
      assert |m[i]| == 7;
      forall j | 0 <= j < 7 ensures m[i][j] == id[i][j] { }
    }
  }

  /** `_transfer_map_enter` of one slot. */
  function EnterMap(p: Params, o: Optics): (m: Matrix)
    requires o.cos(p.e1) != 0.0
    ensures Shaped(m, 7, 7)
  {
    EdgeMap(p.e1, p.fringeIntegral, Curvature(p.length, p.angle), p.gap, o)
  }

  /** `_transfer_map_exit` of one slot. It takes the exit angle and the exit
      fringe integral but the entrance `gap`. */
  function ExitMap(p: Params, o: Optics): (m: Matrix)
    requires o.cos(p.e2) != 0.0
    ensures Shaped(m, 7, 7)
  {
    EdgeMap(p.e2, p.fringeIntegralExit, Curvature(p.length, p.angle), p.gap, o)
  }

  /** The exit map does not depend on `gap_exit`, and is the entrance map of a
      magnet whose entrance angle and fringe integral are the exit ones. */
  lemma ExitMapIgnoresGapExit(p: Params, gapExit: real, o: Optics)
    requires o.cos(p.e2) != 0.0
    ensures ExitMap(p, o) == ExitMap(p.(gapExit := gapExit), o)
    ensures ExitMap(p, o) == EnterMap(p.(e1 := p.e2, fringeIntegral := p.fringeIntegralExit), o)
  {
  }

  /** The body map of the thin-corrector branch: the identity with `[0,1] = length`,
      `[2,6] = angle` and `[2,3] = length`, written in that order. */
  function ThinMap(length: real, angle: real): (m: Matrix)
    ensures Shaped(m, 7, 7)
  {
    Assign(Assign(Assign(Identity(7), 0, 1, length), 2, 6, angle), 2, 3, length)
  }

  lemma ThinMapShape(length: real, angle: real)
    ensures var m := ThinMap(length, angle);
      && Shaped(m, 7, 7)
      && (forall i, j :: 0 <= i < 7 && 0 <= j < 7 && !(i == 0 && j == 1) && !(i == 2 && j == 6) && !(i == 2 && j == 3)
            ==> m[i][j] == if i == j then 1.0 else 0.0)
      && m[0][1] == length && m[2][3] == length && m[2][6] == angle
  {
  }

  /** The body map of one slot: `base_rmatrix` with zero tilt when some slot of the
      batch has a nonzero length (`thick`), else the thin-corrector map. */
  function BodyMap(p: Params, thick: bool, energy: real, o: Optics): (m: Matrix)
    requires OpticsOk(o)
    ensures Shaped(m, 7, 7)
    ensures !thick ==> m == ThinMap(p.length, p.angle)
    ensures thick ==> m == o.baseRmatrix(p.length, p.k1, Curvature(p.length, p.angle), 0.0, energy)
  {
    ThinMapShape(p.length, p.angle);
    if thick then o.baseRmatrix(p.length, p.k1, Curvature(p.length, p.angle), 0.0, energy)
    else ThinMap(p.length, p.angle)
  }

  /** Whether the divisions of the two face maps of slot `p` are defined. */
  predicate FacesDefined(p: Params, o: Optics) {
    o.cos(p.e1) != 0.0 && o.cos(p.e2) != 0.0
  }

  /** The edges applied around the body: `R_exit·(R·R_enter)`. */
  function WithEdges(p: Params, body: Matrix, o: Optics): (m: Matrix)
    requires FacesDefined(p, o) && Shaped(body, 7, 7)
    ensures Shaped(m, 7, 7)
  {
    EdgeMapShape(p.e1, p.fringeIntegral, Curvature(p.length, p.angle), p.gap, o);
    EdgeMapShape(p.e2, p.fringeIntegralExit, Curvature(p.length, p.angle), p.gap, o);
    Mul(ExitMap(p, o), Mul(body, EnterMap(p, o)))
  }

  /** The tilt applied to a map: `Rot(-tilt)·(m·Rot(tilt))`. */
  function Tilted(m: Matrix, tilt: real, o: Optics): (r: Matrix)
    requires OpticsOk(o) && Shaped(m, 7, 7)
    ensures Shaped(r, 7, 7)
  {
    Mul(o.rotation(-tilt), Mul(m, o.rotation(tilt)))
  }

  /** The `transfer_map` of one slot: `Rot(-tilt)·((R_exit·(R·R_enter))·Rot(tilt))`. */
  function SlotMap(p: Params, thick: bool, energy: real, o: Optics): (m: Matrix)
    requires OpticsOk(o) && FacesDefined(p, o)
    ensures Shaped(m, 7, 7)
  {
    Tilted(WithEdges(p, BodyMap(p, thick, energy, o), o), p.tilt, o)
  }

  /** Faces that do not bend leave the body map as it is. */
  lemma StraightEdges(p: Params, body: Matrix, o: Optics)
    requires FacesDefined(p, o) && Shaped(body, 7, 7) && Curvature(p.length, p.angle) == 0.0
    ensures WithEdges(p, body, o) == body
  {
    EdgeMapStraight(p.e1, p.fringeIntegral, p.gap, o);
    EdgeMapStraight(p.e2, p.fringeIntegralExit, p.gap, o);
    MulIdentityRight(body);
    MulIdentityLeft(body);
  }

  /** No tilt, with `rotation_matrix(0)` the identity, leaves a map as it is. */
  lemma Untilted(m: Matrix, o: Optics)
    requires OpticsOk(o) && Shaped(m, 7, 7) && o.rotation(0.0) == Identity(7)
    ensures Tilted(m, 0.0, o) == m
  {
    assert -0.0 == 0.0;
    MulIdentityRight(m);
    MulIdentityLeft(m);
  }

  /** A slot that does not bend and is not tilted (with `rotation_matrix(0)` the
      identity) has the body map as its whole map: both faces drop out. */
  lemma StraightSlotIsBody(p: Params, thick: bool, energy: real, o: Optics)
    requires OpticsOk(o) && FacesDefined(p, o)
    requires Curvature(p.length, p.angle) == 0.0 && p.tilt == 0.0 && o.rotation(0.0) == Identity(7)
    ensures SlotMap(p, thick, energy, o) == BodyMap(p, thick, energy, o)
  {
    var body := BodyMap(p, thick, energy, o);
    StraightEdges(p, body, o);
    Untilted(body, o);
  }

  /** A zero-length slot does not bend, so its map is the thin-corrector body
      conjugated by the tilt rotation. */
  lemma ZeroLengthSlotMap(p: Params, energy: real, o: Optics)
    requires OpticsOk(o) && FacesDefined(p, o) && p.length == 0.0
    ensures Shaped(ThinMap(0.0, p.angle), 7, 7)
    ensures SlotMap(p, false, energy, o) == Tilted(ThinMap(0.0, p.angle), p.tilt, o)
  {
    StraightEdges(p, BodyMap(p, false, energy, o), o);
  }

  // ---------------------------------------------------------------------------
  // Bmad-X tracking

  datatype Location = Entrance | Exit

  /** `e`, `f_int` and the full gap of `_bmadx_fringe_linear` at one face. */
  function EdgeAngle(p: Params, loc: Location): real {
    if loc == Entrance then p.e1 else p.e2
  }

  function EdgeIntegral(p: Params, loc: Location): real {
    if loc == Entrance then p.fringeIntegral else p.fringeIntegralExit
  }

  function EdgeGap(p: Params, loc: Location): real {
    if loc == Entrance then p.gap else p.gapExit
  }

  /** The divisions of `_bmadx_fringe_linear` at `loc` (by `p0c`, `length` and
      `cos(e)`) have nonzero divisors. */
  predicate KickDefined(p: Params, loc: Location, o: Optics) {
    p.p0c != 0.0 && p.length != 0.0 && o.cos(EdgeAngle(p, loc)) != 0.0
  }

  /** `_bmadx_fringe_linear`: the new `(px, py)` at face `loc`. The rescaled `pz` it
      computes is not returned. */
  function FringeKick(p: Params, loc: Location, x: real, px: real, y: real, py: real, pz: real,
                      p0cParticle: real, o: Optics): (r: Momenta)
    requires KickDefined(p, loc, o)
  {
    FaceKick(p.p0c, p.angle, p.length, EdgeAngle(p, loc), EdgeIntegral(p, loc), EdgeGap(p, loc),
             x, px, y, py, p0cParticle, o)
  }

  /** The arithmetic of `_bmadx_fringe_linear` once the face's edge angle `e`,
      fringe integral `fInt` and gap are selected. */
  function FaceKick(p0c: real, angle: real, length: real, e: real, fInt: real, gap: real,
                    x: real, px: real, y: real, py: real, p0cParticle: real, o: Optics): Momenta
    requires p0c != 0.0 && length != 0.0 && o.cos(e) != 0.0
  {
    var px := px * p0cParticle / p0c;
    var py := py * p0cParticle / p0c;
    var g := angle / length;
    var hGap := 0.5 * gap;
    var hx := g * o.tan(e);
    var hy := -g * o.tan(e - 2.0 * fInt * hGap * g * (1.0 + o.sin(e) * o.sin(e)) / o.cos(e));
    Momenta(px + x * hx, py + y * hy)
  }

  /** The kick is `px·r + x·hx` and `py·r + y·hy` with `r = p0c_particle/p0c`: with
      the two ratios fixed it is linear in the positions; a magnet that does not
      bend only rescales the momenta; `pz` plays no part. */
  lemma KickIsRescaleAndLens(p: Params, loc: Location, x: real, px: real, y: real, py: real, pz: real,
                             pz': real, p0cParticle: real, o: Optics)
    requires KickDefined(p, loc, o)
    ensures var r := FringeKick(p, loc, x, px, y, py, pz, p0cParticle, o);
      var at0 := FringeKick(p, loc, 0.0, px, 0.0, py, pz, p0cParticle, o);
      var unit := FringeKick(p, loc, 1.0, 0.0, 1.0, 0.0, pz, p0cParticle, o);
      && at0 == Momenta(px * (p0cParticle / p.p0c), py * (p0cParticle / p.p0c))
      && r == Momenta(at0.px + x * unit.px, at0.py + y * unit.py)
      && r == FringeKick(p, loc, x, px, y, py, pz', p0cParticle, o)
      && (p.angle == 0.0 ==> r == at0)
  {
    assert px * p0cParticle / p.p0c == px * (p0cParticle / p.p0c);
    assert py * p0cParticle / p.p0c == py * (p0cParticle / p.p0c);
  }

  /** The entrance kick reads only the entrance face's angle, integral and gap, and
      the exit kick only the exit face's. */
  lemma KickUsesItsOwnFace(p: Params, q: Params, x: real, px: real, y: real, py: real, pz: real,
                           p0cParticle: real, o: Optics)
    requires p.p0c == q.p0c && p.length == q.length && p.angle == q.angle
    ensures KickDefined(p, Entrance, o) && p.e1 == q.e1 && p.fringeIntegral == q.fringeIntegral && p.gap == q.gap
      ==> FringeKick(p, Entrance, x, px, y, py, pz, p0cParticle, o) == FringeKick(q, Entrance, x, px, y, py, pz, p0cParticle, o)
    ensures KickDefined(p, Exit, o) && p.e2 == q.e2 && p.fringeIntegralExit == q.fringeIntegralExit && p.gapExit == q.gapExit
      ==> FringeKick(p, Exit, x, px, y, py, pz, p0cParticle, o) == FringeKick(q, Exit, x, px, y, py, pz, p0cParticle, o)
  {
    if KickDefined(p, Entrance, o) && p.e1 == q.e1 && p.fringeIntegral == q.fringeIntegral && p.gap == q.gap {
      SameFaceSameKick(p, q, Entrance, x, px, y, py, pz, p0cParticle, o);
    }
    if KickDefined(p, Exit, o) && p.e2 == q.e2 && p.fringeIntegralExit == q.fringeIntegralExit && p.gapExit == q.gapExit {
      SameFaceSameKick(p, q, Exit, x, px, y, py, pz, p0cParticle, o);
    }
  }

  lemma SameFaceSameKick(p: Params, q: Params, loc: Location, x: real, px: real, y: real, py: real, pz: real,
                         p0cParticle: real, o: Optics)
    requires p.p0c == q.p0c && p.length == q.length && p.angle == q.angle && KickDefined(p, loc, o)
    requires EdgeAngle(p, loc) == EdgeAngle(q, loc) && EdgeIntegral(p, loc) == EdgeIntegral(q, loc)
    requires EdgeGap(p, loc) == EdgeGap(q, loc)
    ensures FringeKick(p, loc, x, px, y, py, pz, p0cParticle, o) == FringeKick(q, loc, x, px, y, py, pz, p0cParticle, o)
  {
  }

  /** The steps of `_track_bmadx` between leaving and re-entering Cheetah coordinates. */
  datatype Stage = OffsetSet | EntranceKick | Body | ExitKick | OffsetUnset

  predicate EntranceKicks(fringeAt: string) {
    fringeAt == "entrance_end" || fringeAt == "both_ends"
  }

  predicate ExitKicks(fringeAt: string) {
    fringeAt == "exit_end" || fringeAt == "both_ends"
  }

  /** The steps `_track_bmadx` takes for a given `fringe_at`. */
  function Stages(fringeAt: string): (s: seq<Stage>)
    ensures 3 <= |s| <= 5 && s[0] == OffsetSet && s[|s| - 1] == OffsetUnset
  {
    [OffsetSet] + (if EntranceKicks(fringeAt) then [EntranceKick] else []) + [Body]
      + (if ExitKicks(fringeAt) then [ExitKick] else []) + [OffsetUnset]
  }

  /** The tilt offset comes first and last, the body step runs exactly once, the
      entrance kick runs iff `fringe_at` is `entrance_end` or `both_ends` and does
      so before the body, the exit kick iff it is `exit_end` or `both_ends` and after
      the body; every other value of `fringe_at` (`no_end` among them) applies
      neither kick. */
  lemma StagesOrder(fringeAt: string)
    ensures var s := Stages(fringeAt);
      && s[0] == OffsetSet && s[|s| - 1] == OffsetUnset
      && Body in s && (forall i, j :: 0 <= i < |s| && 0 <= j < |s| && s[i] == Body && s[j] == Body ==> i == j)
      && (EntranceKick in s <==> fringeAt == "entrance_end" || fringeAt == "both_ends")
      && (ExitKick in s <==> fringeAt == "exit_end" || fringeAt == "both_ends")
      && (forall i, j :: 0 <= i < |s| && 0 <= j < |s| && s[i] == EntranceKick && s[j] == Body ==> i < j)
      && (forall i, j :: 0 <= i < |s| && 0 <= j < |s| && s[i] == Body && s[j] == ExitKick ==> i < j)
    ensures fringeAt !in {"entrance_end", "exit_end", "both_ends"} ==> Stages(fringeAt) == [OffsetSet, Body, OffsetUnset]
  {
    var s := Stages(fringeAt);
    if EntranceKicks(fringeAt) && ExitKicks(fringeAt) {
      assert s == [OffsetSet, EntranceKick, Body, ExitKick, OffsetUnset];
    } else if EntranceKicks(fringeAt) {
      assert s == [OffsetSet, EntranceKick, Body, OffsetUnset];
    } else if ExitKicks(fringeAt) {
      assert s == [OffsetSet, Body, ExitKick, OffsetUnset];
    } else {
      assert s == [OffsetSet, Body, OffsetUnset];
    }
  }

  /** Whether the step `st` is defined for slot `p`. */
  predicate StageDefined(st: Stage, p: Params, o: Optics) {
    match st
    case EntranceKick => KickDefined(p, Entrance, o)
    case ExitKick => KickDefined(p, Exit, o)
    case _ => true
  }

  /** Whether every kick that `fringe_at` asks for is defined for slot `p`. */
  predicate KicksDefined(p: Params, fringeAt: string, o: Optics) {
    && (EntranceKicks(fringeAt) ==> KickDefined(p, Entrance, o))
    && (ExitKicks(fringeAt) ==> KickDefined(p, Exit, o))
  }

  lemma StagesDefined(p: Params, fringeAt: string, o: Optics)
    requires KicksDefined(p, fringeAt, o)
    ensures forall i :: 0 <= i < |Stages(fringeAt)| ==> StageDefined(Stages(fringeAt)[i], p, o)
  {
  }

  /** A fringe kick applied to a particle: only `px` and `py` change. */
  function Kick(p: Params, loc: Location, ph: Phase, p0cParticle: real, o: Optics): (r: Phase)
    requires KickDefined(p, loc, o)
    ensures r.x == ph.x && r.y == ph.y && r.z == ph.z && r.pz == ph.pz
    ensures Momenta(r.px, r.py) == FringeKick(p, loc, ph.x, ph.px, ph.y, ph.py, ph.pz, p0cParticle, o)
  {
    var k := FringeKick(p, loc, ph.x, ph.px, ph.y, ph.py, ph.pz, p0cParticle, o);
    ph.(px := k.px, py := k.py)
  }

  /** One step of `_track_bmadx` on one particle. */
  function RunStage(st: Stage, p: Params, ph: Phase, p0cParticle: real, b: BmadOps, o: Optics): (r: Phase)
    requires StageDefined(st, p, o)
    ensures st.EntranceKick? || st.ExitKick? ==> r.x == ph.x && r.y == ph.y && r.z == ph.z && r.pz == ph.pz
  {
    match st
    case OffsetSet =>
      var r := b.offsetSet(p.tilt, ph.x, ph.px, ph.y, ph.py);
      ph.(x := r.0, px := r.1, y := r.2, py := r.3)
    case EntranceKick => Kick(p, Entrance, ph, p0cParticle, o)
    case Body => b.body(p, ph, p0cParticle)
    case ExitKick => Kick(p, Exit, ph, p0cParticle, o)
    case OffsetUnset =>
      var r := b.offsetUnset(p.tilt, ph.x, ph.px, ph.y, ph.py);
      ph.(x := r.0, px := r.1, y := r.2, py := r.3)
  }

  /** The steps `stages` applied in order to `ph`. */
  function Run(stages: seq<Stage>, p: Params, ph: Phase, p0cParticle: real, b: BmadOps, o: Optics): Phase
    requires forall i :: 0 <= i < |stages| ==> StageDefined(stages[i], p, o)
  {
    if |stages| == 0 then ph
    else RunStage(stages[|stages| - 1], p, Run(stages[..|stages| - 1], p, ph, p0cParticle, b, o), p0cParticle, b, o)
  }

  lemma RunSnoc(stages: seq<Stage>, st: Stage, p: Params, ph: Phase, p0cParticle: real, b: BmadOps, o: Optics)
    requires forall i :: 0 <= i < |stages| ==> StageDefined(stages[i], p, o)
    requires StageDefined(st, p, o)
    ensures forall i :: 0 <= i < |stages + [st]| ==> StageDefined((stages + [st])[i], p, o)
    ensures Run(stages + [st], p, ph, p0cParticle, b, o)
         == RunStage(st, p, Run(stages, p, ph, p0cParticle, b, o), p0cParticle, b, o)
  {
    assert (stages + [st])[..|stages|] == stages;
  }

  /** `_track_bmadx` of one particle row `(x, px, y, py, tau, delta, 1)` in a beam of
      reference energy `energy`. */
  function BmadxRow(p: Params, fringeAt: string, row: Vector, energy: real, b: BmadOps, o: Optics): (out: Vector)
    requires |row| == 7 && KicksDefined(p, fringeAt, o)
    ensures |out| == 7 && out[6] == 1.0
  {
    StagesDefined(p, fringeAt, o);
    var p0cParticle := b.momentum(energy, ElectronMassEV);
    var zpz := b.toBmad(row[4], row[5], energy, ElectronMassEV);
    var ph := Run(Stages(fringeAt), p, Phase(row[0], row[1], row[2], row[3], zpz.0, zpz.1), p0cParticle, b, o);
    var td := b.toCheetah(ph.z, ph.pz, p0cParticle, ElectronMassEV);
    [ph.x, ph.px, ph.y, ph.py, td.0, td.1, 1.0]
  }

  /** `_track_bmadx` of one particle, step by step as the source rebinds its
      coordinates. */
  method TrackParticle(p: Params, fringeAt: string, row: Vector, energy: real, b: BmadOps, o: Optics)
    returns (out: Vector)
    requires |row| == 7 && KicksDefined(p, fringeAt, o)
    ensures out == BmadxRow(p, fringeAt, row, energy, b, o)
  {
    var mc2 := ElectronMassEV;
    var x, px, y, py, tau, delta := row[0], row[1], row[2], row[3], row[4], row[5];
    var zpz := b.toBmad(tau, delta, energy, mc2);
    var z, pz := zpz.0, zpz.1;
    var p0cParticle := b.momentum(energy, mc2);
    var f := TrackStages(p, fringeAt, x, px, y, py, z, pz, p0cParticle, b, o);
    x, px, y, py, z, pz := f.x, f.px, f.y, f.py, f.z, f.pz;
    var td := b.toCheetah(z, pz, p0cParticle, mc2);
    tau, delta := td.0, td.1;
    out := [x, px, y, py, tau, delta, 1.0];
  }

  /** The Bmad-X part of `_track_bmadx`: offset, entrance kick, body, exit kick,
      offset undone, each only where `fringe_at` asks for it. */
  method TrackStages(p: Params, fringeAt: string, x: real, px: real, y: real, py: real, z: real, pz: real,
                     p0cParticle: real, b: BmadOps, o: Optics) returns (f: Phase)
    requires KicksDefined(p, fringeAt, o)
    ensures forall i :: 0 <= i < |Stages(fringeAt)| ==> StageDefined(Stages(fringeAt)[i], p, o)
    ensures f == Run(Stages(fringeAt), p, Phase(x, px, y, py, z, pz), p0cParticle, b, o)
  {
    StagesDefined(p, fringeAt, o);
    var x, px, y, py, z, pz := x, px, y, py, z, pz;
    ghost var start := Phase(x, px, y, py, z, pz);
    ghost var done: seq<Stage> := [];

    var s := b.offsetSet(p.tilt, x, px, y, py);
    RunSnoc(done, OffsetSet, p, start, p0cParticle, b, o);
    x, px, y, py := s.0, s.1, s.2, s.3;
    done := done + [OffsetSet];
    if fringeAt == "entrance_end" || fringeAt == "both_ends" {
      var k := FringeKick(p, Entrance, x, px, y, py, pz, p0cParticle, o);
      RunSnoc(done, EntranceKick, p, start, p0cParticle, b, o);
      px, py := k.px, k.py;
      done := done + [EntranceKick];
    }
    var g := b.body(p, Phase(x, px, y, py, z, pz), p0cParticle);
    RunSnoc(done, Body, p, start, p0cParticle, b, o);
    x, px, y, py, z, pz := g.x, g.px, g.y, g.py, g.z, g.pz;
    done := done + [Body];
    if fringeAt == "exit_end" || fringeAt == "both_ends" {
      var k := FringeKick(p, Exit, x, px, y, py, pz, p0cParticle, o);
      RunSnoc(done, ExitKick, p, start, p0cParticle, b, o);
      px, py := k.px, k.py;
      done := done + [ExitKick];
    }
    s := b.offsetUnset(p.tilt, x, px, y, py);
    RunSnoc(done, OffsetUnset, p, start, p0cParticle, b, o);
    x, px, y, py := s.0, s.1, s.2, s.3;
    done := done + [OffsetUnset];
    assert done == Stages(fringeAt);
    f := Phase(x, px, y, py, z, pz);
  }

  // ---------------------------------------------------------------------------
  // The element

  class Dipole {
    var length: seq<real>
    var p0c: seq<real>
    var angle: seq<real>
    var k1: seq<real>
    var e1: seq<real>
    var e2: seq<real>
    var fringeIntegral: seq<real>
    var fringeIntegralExit: seq<real>
    var gap: seq<real>
    var gapExit: seq<real>
    var tilt: seq<real>
    var fringeAt: string
    var fringeType: string
    var trackingMethod: string
    var name: string

    /** Every numeric attribute has as many slots as `length`. */
    predicate Uniform()
      reads this
    {
      && |p0c| == |length| && |angle| == |length| && |k1| == |length|
      && |e1| == |length| && |e2| == |length| && |fringeIntegral| == |length|
      && |fringeIntegralExit| == |length| && |gap| == |length| && |gapExit| == |length|
      && |tilt| == |length|
    }

    /** Slot `i` of every numeric attribute. */
    function Slot(i: nat): Params
      reads this
      requires Uniform() && i < |length|
    {
      Params(length[i], p0c[i], angle[i], k1[i], e1[i], e2[i],
             fringeIntegral[i], fringeIntegralExit[i], gap[i], gapExit[i], tilt[i])
    }

    /** Every slot, in order. */
    function Slots(): (ps: seq<Params>)
      reads this
      requires Uniform()
      ensures |ps| == |length| && forall i :: 0 <= i < |length| ==> ps[i] == Slot(i)
    {
      seq(|length|, i requires 0 <= i < |length| && Uniform() reads this => Slot(i))
    }

    /** `Dipole.__init__`. An absent tensor argument is zeros shaped like `length`,
        except that `fringe_integral_exit` falls back to `fringe_integral` and
        `gap_exit` to `gap`. */
    constructor (length: seq<real>, p0c: Option<seq<real>>, angle: Option<seq<real>>,
                 k1: Option<seq<real>>, e1: Option<seq<real>>, e2: Option<seq<real>>,
                 tilt: Option<seq<real>>, gap: Option<seq<real>>, gapExit: Option<seq<real>>,
                 fringeIntegral: Option<seq<real>>, fringeIntegralExit: Option<seq<real>>,
                 fringeAt: Option<string>, fringeType: Option<string>, trackingMethod: Option<string>,
                 name: string)
      ensures this.length == length
      ensures this.p0c == OrElse(p0c, Zeros(|length|))
      ensures this.angle == OrElse(angle, Zeros(|length|))
      ensures this.k1 == OrElse(k1, Zeros(|length|))
      ensures this.e1 == OrElse(e1, Zeros(|length|))
      ensures this.e2 == OrElse(e2, Zeros(|length|))
      ensures this.fringeIntegral == OrElse(fringeIntegral, Zeros(|length|))
      ensures this.fringeIntegralExit == OrElse(fringeIntegralExit, this.fringeIntegral)
      ensures this.gap == OrElse(gap, Zeros(|length|))
      ensures this.gapExit == OrElse(gapExit, this.gap)
      ensures this.tilt == OrElse(tilt, Zeros(|length|))
      ensures this.fringeAt == OrElse(fringeAt, "both_ends")
      ensures this.fringeType == OrElse(fringeType, "linear_edge")
      ensures this.trackingMethod == OrElse(trackingMethod, "cheetah")
      ensures this.name == name
      ensures Uniform() <==>
        && FitsSlots(p0c, |length|) && FitsSlots(angle, |length|) && FitsSlots(k1, |length|)
        && FitsSlots(e1, |length|) && FitsSlots(e2, |length|) && FitsSlots(tilt, |length|)
        && FitsSlots(gap, |length|) && FitsSlots(gapExit, |length|)
        && FitsSlots(fringeIntegral, |length|) && FitsSlots(fringeIntegralExit, |length|)
    {
      var zeros := Zeros(|length|);
      this.length := length;
      this.p0c := OrElse(p0c, zeros);
      this.angle := OrElse(angle, zeros);
      this.k1 := OrElse(k1, zeros);
      this.e1 := OrElse(e1, zeros);
      this.e2 := OrElse(e2, zeros);
      var fi := OrElse(fringeIntegral, zeros);
      this.fringeIntegral := fi;
      this.fringeIntegralExit := OrElse(fringeIntegralExit, fi);
      var g := OrElse(gap, zeros);
      this.gap := g;
      this.gapExit := OrElse(gapExit, g);
      this.tilt := OrElse(tilt, zeros);
      this.fringeAt := OrElse(fringeAt, "both_ends");
      this.fringeType := OrElse(fringeType, "linear_edge");
      this.trackingMethod := OrElse(trackingMethod, "cheetah");
      this.name := name;
    }

    /** The `hx` property: a zero tensor shaped like `length` into which
        `angle / length` is written at the slots of nonzero length. */
    method Hx() returns (value: seq<real>)
      requires |angle| == |length|
      ensures value == Curvatures(length, angle)
    {
      value := Zeros(|length|);
      var i := 0;
      while i < |length|
        invariant 0 <= i <= |length| && |value| == |length|
        invariant forall k :: 0 <= k < i ==> value[k] == Curvature(length[k], angle[k])
        invariant forall k :: i <= k < |length| ==> value[k] == 0.0
      {
        if length[i] != 0.0 {
          value := value[i := angle[i] / length[i]];
        }
        i := i + 1;
      }
    }

    /** `is_skippable`: tracking goes through the linear transfer map. */
    predicate IsSkippable()
      reads this
    {
      trackingMethod == "cheetah"
    }

    /** `is_active`: some slot bends. */
    predicate IsActive()
      reads this
    {
      AnyNonzero(angle)
    }

    /** An inactive dipole has zero curvature in every slot, so both of its face
        maps are the identity in every slot. */
    lemma InactiveFacesAreIdentity(o: Optics)
      requires Uniform() && !IsActive()
      ensures forall i :: 0 <= i < |length| ==> Curvatures(length, angle)[i] == 0.0
      ensures forall i :: 0 <= i < |length| && FacesDefined(Slot(i), o) ==>
        EnterMap(Slot(i), o) == Identity(7) && ExitMap(Slot(i), o) == Identity(7)
    {
      forall i | 0 <= i < |length| ensures Curvatures(length, angle)[i] == 0.0 {
        assert angle[i] == 0.0;
      }
      forall i | 0 <= i < |length| && FacesDefined(Slot(i), o)
        ensures EnterMap(Slot(i), o) == Identity(7) && ExitMap(Slot(i), o) == Identity(7)
      {
        var p := Slot(i);
        assert p.angle == 0.0;
        assert Curvature(p.length, p.angle) == 0.0;
        EdgeMapStraight(p.e1, p.fringeIntegral, p.gap, o);
        EdgeMapStraight(p.e2, p.fringeIntegralExit, p.gap, o);
      }
    }

    /** `transfer_map(energy)`: one 7×7 map per slot. Whether the thick or the thin
        body is used is decided once for the whole batch. */
    function TransferMap(energy: seq<real>, o: Optics): (ms: seq<Matrix>)
      reads this
      requires Uniform() && |energy| == |length| && OpticsOk(o)
      requires forall i :: 0 <= i < |length| ==> FacesDefined(Slot(i), o)
      ensures |ms| == |length|
      ensures forall i :: 0 <= i < |length| ==> Shaped(ms[i], 7, 7)
    {
      var ps, thick := Slots(), AnyNonzero(length);
      seq(|ps|, i requires 0 <= i < |ps| => SlotMap(ps[i], thick, energy[i], o))
    }

    /** With every length zero the thin-corrector body is taken and both faces drop
        out: each slot's map is its thin-corrector map conjugated by the tilt. */
    lemma ThinDipoleMap(energy: seq<real>, o: Optics)
      requires Uniform() && |energy| == |length| && OpticsOk(o)
      requires forall i :: 0 <= i < |length| ==> FacesDefined(Slot(i), o)
      requires forall i :: 0 <= i < |length| ==> length[i] == 0.0
      ensures forall i :: 0 <= i < |length| ==> Shaped(ThinMap(0.0, angle[i]), 7, 7)
      ensures forall i :: 0 <= i < |length| ==>
        TransferMap(energy, o)[i] == Tilted(ThinMap(0.0, angle[i]), tilt[i], o)
    {
      assert !AnyNonzero(length);
      forall i | 0 <= i < |length|
        ensures Shaped(ThinMap(0.0, angle[i]), 7, 7)
        ensures TransferMap(energy, o)[i] == Tilted(ThinMap(0.0, angle[i]), tilt[i], o)
      {
        ZeroLengthSlotMap(Slot(i), energy[i], o);
      }
    }

    /** Two slots with the same parameters and the same energy have the same map. */
    lemma EqualSlotsEqualMaps(energy: seq<real>, o: Optics, i: nat, j: nat)
      requires Uniform() && |energy| == |length| && OpticsOk(o)
      requires forall k :: 0 <= k < |length| ==> FacesDefined(Slot(k), o)
      requires i < |length| && j < |length| && Slot(i) == Slot(j) && energy[i] == energy[j]
      ensures TransferMap(energy, o)[i] == TransferMap(energy, o)[j]
    {
    }

    /** Whether `_track_bmadx` is defined on `incoming`: a particle beam with one
        batch slot per slot of the dipole, rows of seven coordinates, and every
        kick that `fringe_at` asks for defined. */
    predicate BmadxReady(incoming: Beam, o: Optics)
      reads this
    {
      && incoming.ParticleBeam? && Uniform()
      && |incoming.particles| == |length| && |incoming.energy| == |length|
      && (forall s, k :: 0 <= s < |length| && 0 <= k < |incoming.particles[s]| ==> |incoming.particles[s][k]| == 7)
      && (forall s :: 0 <= s < |length| ==> KicksDefined(Slot(s), fringeAt, o))
    }

    /** `_track_bmadx`: every particle of slot `s` goes through `BmadxRow` with the
        parameters of slot `s`; the outgoing reference energy comes back from the
        reference momentum; the charges are carried over. */
    function TrackBmadx(incoming: Beam, b: BmadOps, o: Optics): (r: Beam)
      reads this
      requires BmadxReady(incoming, o)
      ensures r.ParticleBeam? && |r.particles| == |incoming.particles| && r.charges == incoming.charges
      ensures forall s :: 0 <= s < |length| ==> |r.particles[s]| == |incoming.particles[s]|
      ensures forall s, k :: 0 <= s < |length| && 0 <= k < |incoming.particles[s]| ==>
        r.particles[s][k] == BmadxRow(Slot(s), fringeAt, incoming.particles[s][k], incoming.energy[s], b, o)
      ensures |r.energy| == |length| && forall s :: 0 <= s < |length| ==>
        r.energy[s] == b.energyOf(b.momentum(incoming.energy[s], ElectronMassEV), ElectronMassEV)
    {
      var ps, slots, f := incoming.particles, Slots(), fringeAt;
      ParticleBeam(
        seq(|ps|, s requires 0 <= s < |ps| =>
          seq(|ps[s]|, k requires 0 <= k < |ps[s]| => BmadxRow(slots[s], f, ps[s][k], incoming.energy[s], b, o))),
        seq(|ps|, s requires 0 <= s < |ps| =>
          b.energyOf(b.momentum(incoming.energy[s], ElectronMassEV), ElectronMassEV)),
        incoming.charges)
    }

    /** `track`: `"cheetah"` tracks with the linear map (`Element.track`, given as
        `linear`), `"bmadx"` insists on a particle beam and tracks it with Bmad-X,
        and any other method is a ValueError. */
    function Track(incoming: Beam, linear: Beam -> Beam, b: BmadOps, o: Optics): (r: Result<Beam>)
      reads this
      requires trackingMethod == "bmadx" && incoming.ParticleBeam? ==> BmadxReady(incoming, o)
      ensures trackingMethod == "cheetah" ==> r == Ok(linear(incoming))
      ensures trackingMethod == "bmadx" && incoming.ParameterBeam? ==> r == Err(AssertionError(ParticleBeamOnly))
      ensures trackingMethod == "bmadx" && incoming.ParticleBeam? ==> r == Ok(TrackBmadx(incoming, b, o))
      ensures trackingMethod != "cheetah" && trackingMethod != "bmadx" ==>
        r == Err(ValueError(InvalidMethod(trackingMethod)))
    {
      if trackingMethod == "cheetah" then Ok(linear(incoming))
      else if trackingMethod == "bmadx" then
        if !incoming.ParticleBeam? then Err(AssertionError(ParticleBeamOnly))
        else Ok(TrackBmadx(incoming, b, o))
      else Err(ValueError(InvalidMethod(trackingMethod)))
    }

    /** A skippable dipole tracks every beam linearly; one that is not skippable
        either tracks a particle beam with Bmad-X or fails, and never uses the linear
        map: its result is the same whatever linear map is given, so a dipole that
        agrees with every linear map is skippable. */
    lemma SkippableIffLinear(incoming: Beam, linear: Beam -> Beam, b: BmadOps, o: Optics)
      requires trackingMethod == "bmadx" && incoming.ParticleBeam? ==> BmadxReady(incoming, o)
      ensures IsSkippable() <==> Track(incoming, linear, b, o) == Ok(linear(incoming)) && trackingMethod == "cheetah"
      ensures !IsSkippable() ==>
        (Track(incoming, linear, b, o).Ok? <==> trackingMethod == "bmadx" && incoming.ParticleBeam?)
      ensures !IsSkippable() ==> forall l1, l2 :: Track(incoming, l1, b, o) == Track(incoming, l2, b, o)
      ensures (forall l :: Track(incoming, l, b, o) == Ok(l(incoming))) ==> IsSkippable()
    {
      if !IsSkippable() {
        var other: Beam -> Beam := _ => ParameterBeam([], []);
        assert Track(incoming, other, b, o) != Ok(other(incoming));
      }
    }

    /** `broadcast(shape)` for a one-dimensional `shape = (k,)`: a new dipole whose
        length, angle, k1, edge angles, tilt, fringe integrals and gap are repeated
        `k` times and whose name is kept. Every other argument is left out of the
        call, so `p0c` is zeros, `gap_exit` equals the new gap, and `fringe_at`,
        `fringe_type` and `tracking_method` are back at their defaults. */
    method Broadcast(k: nat) returns (d: Dipole)
      ensures fresh(d)
      ensures d.length == Tile(length, k) && d.angle == Tile(angle, k) && d.k1 == Tile(k1, k)
      ensures d.e1 == Tile(e1, k) && d.e2 == Tile(e2, k) && d.tilt == Tile(tilt, k)
      ensures d.fringeIntegral == Tile(fringeIntegral, k) && d.fringeIntegralExit == Tile(fringeIntegralExit, k)
      ensures d.gap == Tile(gap, k) && d.gapExit == d.gap && d.p0c == Zeros(k * |length|)
      ensures d.fringeAt == "both_ends" && d.fringeType == "linear_edge" && d.trackingMethod == "cheetah"
      ensures d.name == name
      ensures Uniform() ==> d.Uniform()
    {
      d := new Dipole(Tile(length, k), None, Some(Tile(angle, k)), Some(Tile(k1, k)),
                      Some(Tile(e1, k)), Some(Tile(e2, k)), Some(Tile(tilt, k)), Some(Tile(gap, k)), None,
                      Some(Tile(fringeIntegral, k)), Some(Tile(fringeIntegralExit, k)), None, None, None, name);
    }

    /** `split` does not split: the element itself. */
    method Split(resolution: real) returns (pieces: seq<Dipole>)
      ensures pieces == [this]
    {
      pieces := [this];
    }
  }

  /** The map of a slot reads neither `p0c` nor `gap_exit`. */
  lemma SlotMapIgnoresDropped(p: Params, q: Params, thick: bool, energy: real, o: Optics)
    requires OpticsOk(o) && FacesDefined(p, o)
    requires q == p.(p0c := q.p0c, gapExit := q.gapExit)
    ensures FacesDefined(q, o)
    ensures SlotMap(p, thick, energy, o) == SlotMap(q, thick, energy, o)
  {
    assert EnterMap(p, o) == EnterMap(q, o);
    assert ExitMap(p, o) == ExitMap(q, o);
    assert BodyMap(p, thick, energy, o) == BodyMap(q, thick, energy, o);
  }

  /** A broadcast dipole's slot `j` has the map of slot `Source(j, n)` (`j mod n`) of the original
      (`n` its slot count) when the energies are repeated the same way: the map
      never reads the attributes `broadcast` drops (`p0c`, `gap_exit`). */
  lemma BroadcastKeepsMaps(d: Dipole, t: Dipole, k: nat, energy: seq<real>, o: Optics)
    requires d.Uniform() && |energy| == |d.length| && OpticsOk(o) && k > 0
    requires forall i :: 0 <= i < |d.length| ==> FacesDefined(d.Slot(i), o)
    requires t.length == Tile(d.length, k) && t.angle == Tile(d.angle, k) && t.k1 == Tile(d.k1, k)
    requires t.e1 == Tile(d.e1, k) && t.e2 == Tile(d.e2, k) && t.tilt == Tile(d.tilt, k)
    requires t.fringeIntegral == Tile(d.fringeIntegral, k) && t.fringeIntegralExit == Tile(d.fringeIntegralExit, k)
    requires t.gap == Tile(d.gap, k) && t.gapExit == t.gap && t.p0c == Zeros(k * |d.length|)
    ensures t.Uniform()
    ensures forall j :: 0 <= j < |t.length| ==> FacesDefined(t.Slot(j), o)
    ensures forall j :: 0 <= j < |t.length| ==>
      t.TransferMap(Tile(energy, k), o)[j] == d.TransferMap(energy, o)[Source(j, |d.length|)]
  {
    var n := |d.length|;
    var te := Tile(energy, k);
    AnyNonzeroTile(d.length, k);
    forall j | 0 <= j < |t.length|
      ensures FacesDefined(t.Slot(j), o)
      ensures SlotMap(t.Slot(j), AnyNonzero(t.length), te[j], o) == SlotMap(d.Slot(Source(j, n)), AnyNonzero(d.length), energy[Source(j, n)], o)
    {
      var i := Source(j, n);
      var p, q := t.Slot(j), d.Slot(i);
      assert p == q.(p0c := 0.0, gapExit := q.gap);
      SlotMapIgnoresDropped(q, p, AnyNonzero(d.length), energy[i], o);
    }
  }
}
