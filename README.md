# Cheetah dipole, JOSS lattice and utilities in Dafny

This project models four parts of the Cheetah beam-dynamics code, which is written in Python on top of PyTorch:

- **The `Dipole` element** (cheetah/accelerator/dipole.py). The model covers:
  - its constructor defaults and the guarded curvature `hx`;
  - the `is_active` and `is_skippable` properties, and the dispatch of `track` on `tracking_method`;
  - the control flow of Bmad-X tracking, where `fringe_at` decides which face kicks run around the body step;
  - the linear fringe kick;
  - the assembly of the 7×7 linear map `Rot(-tilt)·(R_exit·(R·R_enter))·Rot(tilt)` from the face maps and either the thick body map or the thin-corrector body map;
  - `broadcast` and `split`.

  Element attributes are batched tensors. They are modelled as sequences with one entry per batch *slot*.

  The dipole is a class whose fields are those tensors. `Dipoles.Dipole.Hx` fills its result in a loop, the way the source fills a zero tensor through a mask. `Dipoles.TrackStages` rebinds the phase-space coordinates step by step, as `_track_bmadx` does.
- **The legacy JOSS lattice** (joss/accelerator.py). The model covers:
  - the exact 7×7 maps of drifts, correctors and screens;
  - the global `ELEMENT_COUNT` that names elements, which is modelled as a class;
  - the `split` loops that cut an element into pieces no longer than a resolution;
  - `Segment`, which composes maps in traversal order and flattens splits.
- **`UniqueNameGenerator` and the kernel density estimation helpers** (cheetah/utils.py).
  - The KDE functions are modelled on two layers:
    - **shapes**: torch's `repeat`, broadcasting and `sum(dim=-2)`, which decide whether a call raises;
    - **values**: kernel values, probability mass and the normalised joint density.
- **The device, dtype and shape consistency checks** (cheetah/utils/argument_verification.py).

Python exceptions are values of `Wrappers.Result`. Its error side names the exception class and carries the message the source builds.

Functions the modelled code calls but does not define are parameters: a record of arrows that the caller supplies. These include:
- `sin`, `cos`, `tan`, `exp` and `sqrt`;
- `base_rmatrix`, `rotation_matrix`;
- the Bmad-X coordinate conversions, particle offsets and `_bmadx_body`;
- `Element.track`;
- `Quadrupole.transfer_map`.

Only the facts a property needs are assumed about them, for example that `rotation_matrix` returns a 7×7 matrix.

Where the code and its documentation disagree, the model follows the code:
- The exit face map uses `gap`, not `gap_exit` (see `Dipoles.ExitMapIgnoresGapExit`).
- The tracking methods are `"cheetah"` and `"bmadx"`.
- `broadcast` does not forward `p0c`, `gap_exit`, `fringe_at`, `fringe_type` or `tracking_method`. Those fall back to the constructor defaults.
- The docstring of `verify_device_and_dtype` (cheetah/utils/argument_verification.py:48-50) says the tensors are checked against a requested device and dtype. The code (cheetah/utils/argument_verification.py:57-67) takes a requested value as it is and compares nothing for that attribute (see `ArgumentVerification.VerifyDeviceAndDType`).
- The docstring of `kde_marginal_pdf` gives `sigma` the shape `[1]` (cheetah/utils.py:39). The code rejects every `sigma` that is not 0-D (cheetah/utils.py:61; see `Kde.MarginalChecks`).
- The same docstring gives `prob_mass` the shape `[BxN]` (cheetah/utils.py:43). The code sums away dimension -2, so the shape is `[B, NUM_BINS]` (see `Kde.UnweightedMarginalShapes`).

## Model

| member | source | states |
|---|---|---|
| Dipoles.Dipole.constructor | cheetah/accelerator/dipole.py:50-158 | An absent tensor argument becomes zeros with as many slots as `length`. An absent `fringe_integral_exit` equals `fringe_integral` and an absent `gap_exit` equals `gap`. The string attributes default to `"both_ends"`, `"linear_edge"` and `"cheetah"`. All tensor fields have `length`'s slot count exactly when every given argument does. |
| Dipoles.Curvature | cheetah/accelerator/dipole.py:161-166 | `hx` of one slot is 0 where `length == 0`, and otherwise satisfies `hx·length == angle`. |
| Dipoles.Curvatures | cheetah/accelerator/dipole.py:161-166 | One curvature per slot, with the same slot count as `length`. |
| Dipoles.Dipole.Hx | cheetah/accelerator/dipole.py:160-166 | The loop that fills a zero tensor at the slots of nonzero length ends with the per-slot curvature of every slot. |
| Dipoles.Dipole.Track | cheetah/accelerator/dipole.py:176-194 | `"cheetah"` gives the linear tracking result. `"bmadx"` on a parameter beam fails the assertion with the source's message, and on a particle beam gives the Bmad-X result. Any other method is a `ValueError` with the source's message. |
| Dipoles.Dipole.SkippableIffLinear | cheetah/accelerator/dipole.py:168-194 | A skippable dipole returns the linear result. A dipole that is not skippable gives the same result whatever linear map is passed, and succeeds exactly on a particle beam with `"bmadx"`. Conversely, a dipole whose `track` agrees with every linear map is skippable. |
| Dipoles.Dipole.IsSkippable | cheetah/accelerator/dipole.py:168-170 | `is_skippable`: the tracking method is `"cheetah"`. Its meaning is stated by `SkippableIffLinear`. |
| Dipoles.Dipole.IsActive | cheetah/accelerator/dipole.py:172-174 | `is_active`: some slot has a nonzero angle. Its consequence is stated by `InactiveFacesAreIdentity`. |
| Dipoles.StagesOrder | cheetah/accelerator/dipole.py:221-235 | The tilt offset is set first and unset last, and the body step runs exactly once. The entrance kick runs, before the body, if and only if `fringe_at` is `"entrance_end"` or `"both_ends"`. The exit kick runs, after the body, if and only if `fringe_at` is `"exit_end"` or `"both_ends"`. Any other value, `"no_end"` included, gives offset, body, unset. |
| Dipoles.Stages | cheetah/accelerator/dipole.py:221-235 | Tracking takes three to five steps, from setting the tilt offset to unsetting it. |
| Dipoles.RunStage | cheetah/accelerator/dipole.py:221-235 | A kick step leaves `x`, `y`, `z` and `pz` unchanged. |
| Dipoles.Run | cheetah/accelerator/dipole.py:221-235 | The steps applied in order, each to the result of the one before. |
| Dipoles.FringeKick | cheetah/accelerator/dipole.py:303-332 | `_bmadx_fringe_linear` at one face: the face's own edge angle, fringe integral and gap (`gap_exit` at the exit), fed to `FaceKick`. |
| Dipoles.FaceKick | cheetah/accelerator/dipole.py:313-332 | The fringe kick's arithmetic once the face is chosen. Its properties are stated by `KickIsRescaleAndLens`. |
| Dipoles.Kick | cheetah/accelerator/dipole.py:226-231 | A fringe kick changes only `px` and `py`. `x`, `y`, `z` and the caller's `pz` are unchanged; the kick's own rescaled `pz` is dropped. |
| Dipoles.KickIsRescaleAndLens | cheetah/accelerator/dipole.py:313-332 | At `x = y = 0` the kick only rescales the momenta by `p0c_particle/p0c`. In general it adds `x` (resp. `y`) times the kick of a unit offset, so it is affine in the positions. It does not depend on `pz`, and a magnet with `angle = 0` only rescales. |
| Dipoles.KickUsesItsOwnFace | cheetah/accelerator/dipole.py:317-323 | The entrance kick depends only on `e1`, `fringe_integral` and `gap`. The exit kick depends only on `e2`, `fringe_integral_exit` and `gap_exit`. |
| Dipoles.TrackStages | cheetah/accelerator/dipole.py:221-235 | The step-by-step rebinding of `x, px, y, py, z, pz` ends in the state obtained by running the stages `fringe_at` selects, in order. |
| Dipoles.BmadxRow | cheetah/accelerator/dipole.py:209-242 | A tracked particle row has 7 coordinates and its last coordinate is 1. |
| Dipoles.TrackParticle | cheetah/accelerator/dipole.py:209-242 | Converting to Bmad coordinates, running the stages and converting back computes `BmadxRow`. |
| Dipoles.Dipole.TrackBmadx | cheetah/accelerator/dipole.py:196-248 | `_track_bmadx` returns a particle beam with the incoming slot and particle counts and the incoming charges. Particle `k` of slot `s` is `BmadxRow` of that particle with slot `s`'s parameters and reference energy, which `TrackParticle` and `TrackStages` tie to the rebinding code. Slot `s`'s outgoing reference energy is recomputed from its reference momentum. |
| Dipoles.EdgeMapShape | cheetah/accelerator/dipole.py:365-383 | A face map is 7×7, equal to the identity except at `[1,0] = hx·tan(e)` and `[3,2] = -hx·tan(e - phi)`, where `phi = f_int·hx·gap·sec(e)·(1+sin²e)`. |
| Dipoles.EdgeMapStraight | cheetah/accelerator/dipole.py:379-381 | A face with `hx = 0` is the identity map. |
| Dipoles.EdgeMap | cheetah/accelerator/dipole.py:365-383 | One face map `tm` is a 7×7 matrix. |
| Dipoles.Phi | cheetah/accelerator/dipole.py:370-377 | The fringe correction `phi` vanishes with no fringe integral, no curvature or no gap. |
| Dipoles.EnterMap | cheetah/accelerator/dipole.py:365-383 | `_transfer_map_enter` of one slot is 7×7. |
| Dipoles.ExitMap | cheetah/accelerator/dipole.py:385-403 | `_transfer_map_exit` of one slot is 7×7. |
| Dipoles.ExitMapIgnoresGapExit | cheetah/accelerator/dipole.py:385-403 | The exit map does not depend on `gap_exit`. It is the entrance formula with `e2` and `fringe_integral_exit` substituted, and `gap` kept. |
| Dipoles.ThinMapShape | cheetah/accelerator/dipole.py:349-355 | The thin-corrector body is the identity except `[0,1] = [2,3] = length` and `[2,6] = angle`. |
| Dipoles.ThinMap | cheetah/accelerator/dipole.py:349-355 | The thin-corrector body map is 7×7. |
| Dipoles.BodyMap | cheetah/accelerator/dipole.py:341-355 | A 7×7 body map: `base_rmatrix(length, k1, hx, 0, energy)` when some slot has nonzero length, else the thin-corrector map. |
| Dipoles.WithEdges | cheetah/accelerator/dipole.py:357-358 | The faces around the body, `R_exit·(R·R_enter)`, form a 7×7 map. |
| Dipoles.StraightEdges | cheetah/accelerator/dipole.py:357-358 | For a slot that does not bend, adding the faces leaves the body map unchanged. |
| Dipoles.Tilted | cheetah/accelerator/dipole.py:359-362 | The tilted map `Rot(-tilt)·(m·Rot(tilt))` is 7×7. |
| Dipoles.Untilted | cheetah/accelerator/dipole.py:359-362 | With no tilt, and `rotation_matrix(0)` the identity, the rotation leaves the map unchanged. |
| Dipoles.SlotMap | cheetah/accelerator/dipole.py:334-363 | One slot's `transfer_map`, in the composition order above, is 7×7. |
| Dipoles.StraightSlotIsBody | cheetah/accelerator/dipole.py:334-363 | A slot with no curvature and no tilt has the body map as its transfer map. |
| Dipoles.ZeroLengthSlotMap | cheetah/accelerator/dipole.py:349-362 | A zero-length thin slot's map is the tilted thin-corrector map: both faces drop out. |
| Dipoles.Dipole.TransferMap | cheetah/accelerator/dipole.py:334-363 | `transfer_map` gives one map per slot, and every one is 7×7. |
| Dipoles.Dipole.ThinDipoleMap | cheetah/accelerator/dipole.py:349-355 | With every length zero, slot `i`'s map is `Rot(-tilt)·ThinMap(0, angle)·Rot(tilt)`. |
| Dipoles.Dipole.InactiveFacesAreIdentity | cheetah/accelerator/dipole.py:172-174 | A dipole that is not active has zero curvature in every slot, so both face maps of every slot are the identity. |
| Dipoles.Dipole.EqualSlotsEqualMaps | tests/test_dipole.py:77-78 | Two slots with equal parameters and equal energy get equal maps. |
| Dipoles.SlotMapIgnoresDropped | cheetah/accelerator/dipole.py:334-403 | A slot's map reads neither `p0c` nor `gap_exit`. |
| Dipoles.Tile | cheetah/accelerator/dipole.py:407-415 | `t.repeat(k)` of a 1-D tensor has `k·n` slots, and slot `j` copies slot `j mod n`. |
| Dipoles.AnyNonzeroTile | cheetah/accelerator/dipole.py:405-419 | Repeating a tensor at least once keeps whether some slot is nonzero, so broadcasting keeps `is_active` and the thick-or-thin choice. |
| Dipoles.Dipole.Broadcast | cheetah/accelerator/dipole.py:405-419 | The new dipole repeats `length`, `angle`, `k1`, `e1`, `e2`, `tilt`, both fringe integrals and `gap`, and keeps `name`. `p0c` becomes zeros, `gap_exit` becomes `gap`, and the strings take their defaults. A dipole with uniform slot counts broadcasts to one with uniform slot counts. |
| Dipoles.BroadcastKeepsMaps | cheetah/accelerator/dipole.py:405-419 | Slot `j` of a broadcast dipole has the transfer map of slot `j mod n` of the original, at the repeated energy. |
| Dipoles.Dipole.Split | cheetah/accelerator/dipole.py:421-424 | `split` returns the dipole itself as its only piece. |
| Joss.ElementCount.constructor | joss/accelerator.py:13 | The counter starts at 0. |
| Joss.ElementCount.Register | joss/accelerator.py:19-27 | A given name is kept; otherwise the name is the class name, `_`, and the pre-increment count zero-padded to 6 digits. Either way the count rises by exactly 1. |
| Joss.ElementCount.NewDrift | joss/accelerator.py:48-53 | A new drift keeps its length and energy, is named by `Register`, and raises the count by 1. |
| Joss.ElementCount.NewQuadrupole | joss/accelerator.py:86-92 | A new quadrupole keeps length, `k1` and energy, is named by `Register`, and raises the count by 1. |
| Joss.ElementCount.NewHorizontalCorrector | joss/accelerator.py:157-162 | A new horizontal corrector keeps length and angle and drops energy. It is named by `Register` and raises the count by 1. |
| Joss.ElementCount.NewVerticalCorrector | joss/accelerator.py:204-209 | A new vertical corrector keeps length and angle and drops energy. It is named by `Register` and raises the count by 1. |
| Joss.ElementCount.NewScreen | joss/accelerator.py:249-252 | A new screen is named by `Register` and raises the count by 1. |
| Joss.ElementCount.NewSegment | joss/accelerator.py:269-276 | A segment is named after its elements were counted, and raises the count by 1. |
| Joss.DefaultNamesDistinct | joss/accelerator.py:25 | Two default names of one class are equal exactly when their counts are equal. |
| Joss.DefaultNameWidth | joss/accelerator.py:25 | The count part of a default name is exactly six characters if and only if the count is below 1,000,000. |
| Joss.CorrectorMapsDifferInKickRow | joss/accelerator.py:164-219 | The horizontal corrector's kick is at `[1,6]` and the vertical's at `[3,6]`; the two maps agree everywhere else. With zero kick both equal the drift map with `igamma2 = 0`. |
| Joss.InverseGammaSquared | joss/accelerator.py:57-58 | `igamma2` is never negative, and it is zero exactly when the energy is zero. |
| Joss.DriftMap | joss/accelerator.py:55-66 | The drift map is 7×7. |
| Joss.HorizontalCorrectorMap | joss/accelerator.py:164-172 | The horizontal corrector map is 7×7. |
| Joss.VerticalCorrectorMap | joss/accelerator.py:211-219 | The vertical corrector map is 7×7. |
| Joss.DriftsCompose | joss/accelerator.py:55-66 | Two drifts at one energy compose into the drift of the summed length. |
| Joss.ZeroDrift | joss/accelerator.py:55-66 | A zero-length drift is the identity map. |
| Joss.TransferMap | joss/accelerator.py:55-252 | The map of every element class is 7×7, whatever the quadrupole map's values, provided it returns 7×7 matrices. |
| Joss.CallAppliesMap | joss/accelerator.py:33-34 | `particles·Mᵀ` keeps the number of particles and maps every particle row `p` to `M·p`. |
| Joss.Apply | joss/accelerator.py:33-34 | `particles·Mᵀ` has one 7-coordinate row per particle. |
| Joss.Call | joss/accelerator.py:33-34 | Calling an element keeps the particle matrix's shape. A screen returns the particles themselves (joss/accelerator.py:254-255). |
| Joss.PiecesBounded | joss/accelerator.py:68-75 | Every piece of a split loop is positive and at most `resolution` long, and every piece but the last is exactly `resolution`. |
| Joss.PiecesSum | joss/accelerator.py:68-75 | A length `<= 0` gives no pieces; otherwise the pieces sum to the length. |
| Joss.PiecesCount | joss/accelerator.py:68-75 | There are `ceil(length/resolution)` pieces, or none for a length `<= 0`. |
| Joss.Pieces | joss/accelerator.py:68-75 | The piece lengths of the `while remaining > 0` loop. `PiecesBounded`, `PiecesSum` and `PiecesCount` state their properties. |
| Joss.ElementCount.Chop | joss/accelerator.py:68-75 | The `while remaining > 0` loop returns the pieces named from the counter on, and raises the counter once per piece. |
| Joss.ElementCount.Split | joss/accelerator.py:68-258 | `split` of any element, with the vertical-corrector fix described under Findings. It yields the pieces `SplitOf` describes and raises the counter once per piece. |
| Joss.ElementCount.SplitAsWritten | joss/accelerator.py:221-230 | `split` exactly as written, where a vertical corrector is cut into horizontal correctors. |
| Joss.KindOf | joss/accelerator.py:68-230 | Every split builds pieces of its element's own class. |
| Joss.KindAsWritten | joss/accelerator.py:226 | As written, the class of piece each split builds is always one that can be cut from the element. Which class that is for a vertical corrector (a horizontal one) is stated by `VerticalPieceAsWritten`. |
| Joss.SplitOf | joss/accelerator.py:68-258 | `split` of one element, corrected: pieces of the element's own class, and none for a screen. `SplitShape` and `SplitLengths` state its properties. |
| Joss.SplitOfAsWritten | joss/accelerator.py:221-230 | `split` as written, where a vertical corrector yields horizontal pieces. |
| Joss.SplitShape | joss/accelerator.py:68-230 | The piece lengths of a split are the loop's lengths. Piece `k` has the element's class and the default name with count `start + k`. |
| Joss.SplitLengths | joss/accelerator.py:68-230 | Every piece of a split is positive and at most `resolution` long. A positive length is covered exactly by `ceil(length/resolution)` pieces; a length `<= 0` gives none. |
| Joss.NamedAngles | joss/accelerator.py:178-180 | Corrector piece `k` carries the angle `angle·ℓ_k/length`. |
| Joss.CorrectorAnglesSum | joss/accelerator.py:174-183 | The piece angles of a corrector's split sum to the corrector's angle. |
| Joss.SplitDriftKeepsMap | joss/accelerator.py:68-75 | The pieces of a split drift, composed in order, have the drift's map. |
| Joss.SplitKeepsLength | joss/accelerator.py:68-258 | A split keeps an element's non-negative length; a screen has length 0 and splits into nothing. |
| Joss.ElementCount.SplitSegment | joss/accelerator.py:285-287 | `Segment.split` concatenates the splits of the elements in order, threading the counter. The element splits are the corrected ones (see Findings). |
| Joss.ElementCount.SplitSegmentAsWritten | joss/accelerator.py:285-287 | `Segment.split` with the element splits exactly as written. |
| Joss.ElementCount.SplitAll | joss/accelerator.py:285-287 | The comprehension over the elements returns their splits concatenated, and raises the counter once per piece. |
| Joss.SegmentSplitAsWrittenKicksHorizontally | joss/accelerator.py:221-230 | As written, a segment holding only a vertical corrector splits into a horizontal corrector. The corrected split keeps the piece a vertical corrector. |
| Joss.FlattenAppend | joss/accelerator.py:285-287 | Flattening the concatenation of two element lists concatenates their flattenings. |
| Joss.Flatten | joss/accelerator.py:285-287 | The nested comprehension: the element splits in order, with the counter threaded through. |
| Joss.SegmentSplitLength | joss/accelerator.py:285-287 | A segment's pieces sum to the segment's total length when no element has a negative length. |
| Joss.SegmentTransferMap | joss/accelerator.py:278-283 | The accumulation loop from the identity computes `M_n·…·M_1` over the elements in list order. |
| Joss.Chain | joss/accelerator.py:278-283 | The product of element maps in traversal order is 7×7. |
| Joss.ChainSingle | joss/accelerator.py:278-283 | A one-element chain is that element's map. |
| Joss.ChainOfDrifts | joss/accelerator.py:278-283 | Chained drifts at one energy are the single drift of the total length. |
| Joss.VerticalSplitAsWrittenKicksHorizontally | joss/accelerator.py:221-230 | As written, a 1 m vertical corrector with angle 0.5, split at resolution 1, becomes one horizontal corrector. Its map kicks `px`, not `py`, so the split changes the beamline. |
| Joss.VerticalPieceAsWritten | joss/accelerator.py:221-230 | As written, the one-piece split of a 1 m vertical corrector with angle 0.5 is `HorizontalCorrector_000000` with the same length and angle. |
| Joss.VerticalSplitKeepsKickVertical | joss/accelerator.py:221-230 | Corrected, every piece is a vertical corrector with no horizontal kick, and the piece angles sum to the angle. |
| Names.UniqueNameGenerator.constructor | cheetah/utils.py:13-15 | A new generator has counter 0 and has issued no names. |
| Names.NameAt | cheetah/utils.py:18 | The name the `k`-th call returns: the prefix, `_`, and `k` in decimal. |
| Names.UniqueNameGenerator.Generate | cheetah/utils.py:17-20 | The k-th call returns `prefix_k`, raises the counter by exactly 1, and returns a name not issued before. |
| Names.NamesDistinct | cheetah/utils.py:18 | Two calls return the same name if and only if they are the same call. |
| Names.ThreeNames | cheetah/utils.py:17-20 | Three calls return `prefix_0`, `prefix_1`, `prefix_2`, pairwise distinct. |
| Decimal.Digits | cheetah/utils.py:18 | `f"{n}"` is a non-empty string of decimal digits with no leading zero. |
| Decimal.ParseDigits | cheetah/utils.py:18 | Reading the decimal string of `n` back gives `n`. |
| Decimal.DigitsInjective | cheetah/utils.py:18 | Different counts print differently. |
| Decimal.Padded | joss/accelerator.py:25 | `f"{n:06d}"`-style padding yields only digits. |
| Decimal.ZeroPad | joss/accelerator.py:25 | Padding is at least the width, ends with the unpadded text, and is zeros before it. |
| Decimal.PaddedRoundTrip | joss/accelerator.py:25 | Reading a zero-padded count back gives the count. |
| Decimal.PaddedInjective | joss/accelerator.py:25 | Zero-padded counts are equal exactly when the counts are. |
| Decimal.PaddedSixWide | joss/accelerator.py:25 | `:06d` is exactly six characters if and only if the count is below 1,000,000. |
| ArgumentVerification.AllEqual | cheetah/utils/argument_verification.py:12-14 | `all(x == first for x in xs)` holds if and only if every element equals `first`. |
| ArgumentVerification.AreAllTheSameDevice | cheetah/utils/argument_verification.py:6-16 | No tensors give the default device, and one tensor never fails. More than one fails, with the source's message, if and only if some device differs from the first. On success the first device is returned. |
| ArgumentVerification.AreAllTheSameDType | cheetah/utils/argument_verification.py:19-29 | The same contract as for devices, for dtypes. |
| ArgumentVerification.ExtractArgumentShape | cheetah/utils/argument_verification.py:32-39 | No tensors give `Size([1])`. Otherwise it fails with the source's message unless all shapes equal the first, which is returned. |
| ArgumentVerification.NotNones | cheetah/utils/argument_verification.py:55 | `x` is kept if and only if `Some(x)` is in the list, and the result is no longer than the list. |
| ArgumentVerification.NotNonesAppend | cheetah/utils/argument_verification.py:55 | Filtering distributes over concatenation. |
| ArgumentVerification.ChosenDevice | cheetah/utils/argument_verification.py:57-61 | A desired device is taken as it is. Otherwise the choice fails, with the device message, exactly when two present tensors differ in device. On success the chosen device is every present tensor's device, and the default device when there is none. |
| ArgumentVerification.ChosenDType | cheetah/utils/argument_verification.py:62-66 | A desired dtype is taken as it is. Otherwise the choice fails, with the dtype message, exactly when two present tensors differ in dtype. On success the chosen dtype is every present tensor's dtype, and the default dtype when there is none. |
| ArgumentVerification.VerifyDeviceAndDType | cheetah/utils/argument_verification.py:42-67 | With both desired values given, it succeeds with them and compares nothing. Without a desired device, it fails on devices if and only if two present tensors differ in device. It succeeds if and only if every check not skipped finds the present tensors equal on that attribute. When no device is requested, a success returns the device of every present tensor, and the default device when no tensor is present. The same holds for the dtype. |
| ArgumentVerification.SameAsAllEqualOn | cheetah/utils/argument_verification.py:55-66 | Comparing with the first present tensor is the same as comparing every pair of present tensors. |
| ArgumentVerification.DeviceFromDevices | cheetah/utils/argument_verification.py:6-16 | The device check reads only the devices of its tensors. |
| ArgumentVerification.DTypeFromDTypes | cheetah/utils/argument_verification.py:19-29 | The dtype check reads only the dtypes of its tensors. |
| ArgumentVerification.NonesIgnored | cheetah/utils/argument_verification.py:55 | Inserting a `None` anywhere does not change the verdict. |
| ArgumentVerification.ChoicesIndependent | cheetah/utils/argument_verification.py:55-67 | Two argument lists whose present tensors carry the same devices get the same chosen device and the same device-mismatch verdict, whatever their dtypes. Lists with the same dtypes get the same chosen dtype. Lists that agree on both get the same result. |
| Kde.MarginalChecks | cheetah/utils.py:47-64 | The checks pass if and only if `values`, `bins` and `sigma` are tensors, `bins` is 1-D and `sigma` is 0-D. The first failing check raises, in source order: `TypeError` for non-tensors, `ValueError` for shapes, each with the source's message. |
| Kde.WeightShape | cheetah/utils.py:66-69 | A float weight becomes ones of `values`' shape with its last axis removed. `None` becomes the scalar `1.0`, which leaves every shape unchanged when broadcast against it. A tensor keeps its shape. What this does to the kernel is stated by `FloatWeightedMarginalShapes` and `MarginalShapesAgree`. |
| Kde.Repeat | cheetah/utils.py:71 | `repeat` fails if and only if there are no sizes or fewer sizes than dimensions. No sizes is a `TypeError`, which is what 0-D `values` leads to; too few sizes is a `RuntimeError`. On success it has one dimension per size and keeps the leading sizes. |
| Kde.RepeatOneDim | cheetah/utils.py:71 | Repeating the 1-D bins to `values.shape` multiplies the last size by the bin count. |
| Kde.Broadcast | cheetah/utils.py:71-76 | Broadcasting succeeds if and only if every right-aligned pair of sizes is equal or contains a 1. The result has the longer length, and each size is the size present or the wider of the two. |
| Kde.BroadcastSymmetric | cheetah/utils.py:71-76 | Broadcasting is symmetric. A shape broadcast against itself or against a scalar is unchanged. |
| Kde.SumSecondToLast | cheetah/utils.py:78 | `sum(dim=-2)` needs at least two dimensions and removes the second-to-last. |
| Kde.MarginalShapes | cheetah/utils.py:27-79 | A failing check decides the error. 0-D `values` that pass the checks give a `TypeError` from `repeat`. On success the checks passed, and `prob_mass`'s shape is the kernel's with dimension -2 summed away. |
| Kde.DocumentedResiduals | cheetah/utils.py:71 | Values `[B,N,1]` against `NB` bins give residuals `[B,N,NB]`. |
| Kde.UnweightedMarginalShapes | cheetah/utils.py:27-79 | Documented inputs without weights return shapes `[B,NB]` and `[B,N,NB]`. |
| Kde.FloatWeightedMarginalShapes | cheetah/utils.py:66-76 | With a float weight, documented inputs succeed if and only if `N` fits `NB` and `B` fits `N`; otherwise broadcasting raises `RuntimeError`. |
| Kde.Histogram1dAsWritten | cheetah/utils.py:144 | As written, the histogram succeeds exactly when `kde_marginal_pdf` does with `epsilon` in the weights slot. |
| Kde.Histogram1dAsWrittenShapes | cheetah/utils.py:144 | As written, for `x` of shape `[B,D]` it succeeds if and only if `D` fits `NB` and `B` fits `D`, and raises `RuntimeError` otherwise. |
| Kde.Histogram1dDocstringExampleRaises | cheetah/utils.py:136-144 | The docstring example (`x` of shape `[1,10]`, 128 bins) raises `RuntimeError` as written. |
| Kde.Histogram1d | cheetah/utils.py:119-146 | The corrected histogram raises the argument errors of `kde_marginal_pdf` unchanged. |
| Kde.Histogram1dShape | cheetah/utils.py:119-146 | Corrected, every `[B,D]` input over `NB` bins gives the documented `[B,NB]`, including `[1,128]` for the docstring example. |
| Kde.WeightOf | cheetah/utils.py:66-69 | Without per-sample weights every sample has weight 1, whether the argument was `None` or a float. What this means for the result, that a float's value never reaches the mass, is stated by `FloatWeightIgnored`. |
| Kde.FloatWeightIgnored | cheetah/utils.py:66-69 | When broadcasting the float weight's `ones([B,N])` keeps the kernel `[B,N,NB]`, the float gives the result of no weights, whatever its value. |
| Kde.KernelValues | cheetah/utils.py:66-76 | The kernel has one matrix per batch. Its rows are the sample axis widened by the weights, and its columns the bin axis widened by them: `[B, Wider(B,N), Wider(N,NB)]` for a float weight, `[B,N,NB]` otherwise. |
| Kde.ProbMass | cheetah/utils.py:78 | `prob_mass` has one entry per batch and bin. |
| Kde.MarginalPdf | cheetah/utils.py:27-79 | It raises `RuntimeError` if and only if the weights do not broadcast against the Gaussians. Otherwise it returns `(prob_mass, kernel_values)`, where `prob_mass` sums the kernel over its sample axis. |
| Kde.KernelEntry | cheetah/utils.py:71-76 | A kernel entry is the weight times the Gaussian of one residual, with each size-1 operand read at index 0. |
| Kde.Stretched | cheetah/utils.py:66-76 | An index into a broadcast dimension is a valid index into each operand. |
| Kde.PerSampleMarginalShapes | cheetah/utils.py:27-79 | Weights of shape `[B,N,1]` leave the documented shapes `[B,NB]` and `[B,N,NB]` unchanged. |
| Kde.OnesBroadcast | cheetah/utils.py:66-76 | `ones([B,N])` against `[B,N,NB]` gives `[B, Wider(B,N), Wider(N,NB)]` when the sizes fit. |
| Kde.FloatWeightedKernelShape | cheetah/utils.py:66-79 | With a float weight and fitting sizes, the shapes are `[B, Wider(N,NB)]` and `[B, Wider(B,N), Wider(N,NB)]`. |
| Kde.MarginalShapesAgree | cheetah/utils.py:27-79 | The value layer raises exactly when the shape layer does. When they succeed, the shape layer's shapes are those of the kernel and the mass that the value layer builds. |
| Kde.FloatWeightRepeatsSample | cheetah/utils.py:66-78 | With one sample per batch and `B > 1`, a float weight stretches the sample over `B` rows. The call does not raise, and every probability mass is `B` times the unweighted one. |
| Kde.FloatWeightColumn | cheetah/utils.py:66-78 | With one sample per batch and a float weight, the column of bin `k` holds that sample's Gaussian `B` times. |
| Kde.UnweightedColumn | cheetah/utils.py:71-78 | Without weights, one sample per batch gives a single row holding its Gaussian. |
| Kde.UnweightedSingleSample | cheetah/utils.py:71-78 | Without weights, the mass of one sample per batch is that sample's Gaussian, counted once. |
| Kde.SingleSampleRows | cheetah/utils.py:66-76 | With one sample per batch, the float-weighted kernel has `B` rows per batch and the unweighted one has a single row. |
| Kde.SumConstant | cheetah/utils.py:78 | Summing `n` equal entries gives `n` times the entry. |
| Kde.ProbMassAddsSample | cheetah/utils.py:78 | One more sample adds its kernel row to the probability mass of its batch. |
| Kde.MarginalPdfNonneg | cheetah/utils.py:66-78 | When the call succeeds, non-negative weights with a non-negative `exp` and a positive square root give non-negative kernel values and probability masses. |
| Kde.JointKernel | cheetah/utils.py:109 | `K1ᵀ·K2` of one batch: entry `[i][j]` is the sum over samples of `K1[n][i]·K2[n][j]`. |
| Kde.Normalize | cheetah/utils.py:114 | Every entry is divided by the normalisation. |
| Kde.JointPdf | cheetah/utils.py:109-114 | Each entry is `(K1ᵀK2)[i][j] / (S + ε)`, where `S` is the batch's total of `K1ᵀK2`, and the shape is `NB1 × NB2` per batch. |
| Kde.KdeJointPdf2d | cheetah/utils.py:82-116 | The two `TypeError`s come with the source's messages, joined without a space. It succeeds if and only if both arguments are tensors that `matmul` can multiply, and then gives `JointPdf`. |
| Kde.JointKernelNonneg | cheetah/utils.py:109-113 | For non-negative kernels `K1ᵀK2` is non-negative, so a positive `epsilon` makes every normalisation positive. |
| Kde.NormalizedTotal | cheetah/utils.py:110-114 | A non-negative joint kernel divided by `S + ε` sums to `S/(S+ε) < 1`. |
| Kde.JointPdfNonneg | cheetah/utils.py:109-116 | For non-negative kernels and `ε > 0` every entry of the joint density is non-negative. |
| Kde.JointPdfMass | cheetah/utils.py:109-116 | For non-negative kernels and `ε > 0` each batch of the joint density sums to `S/(S+ε)`, which is below 1. |

## Left out

- `_bmadx_body` (cheetah/accelerator/dipole.py:250-301) is a parameter of the Bmad-X tracking. Its floating-point geometry (`sqrt`, `arcsin`, `arctan2`, `sinc`, `cosc`) is not modelled.
- The following are parameters; their definitions are not part of this model:
  - the Bmad-X conversions `cheetah_to_bmad_z_pz` and `bmad_to_cheetah_z_pz`;
  - `offset_particle_set` and `offset_particle_unset`;
  - `base_rmatrix` and `rotation_matrix`;
  - `Element.track` (the linear tracking of `track`);
  - joss `Quadrupole.transfer_map`, which uses complex square roots;
  - `sin`, `cos`, `tan`, `exp` and `sqrt`.
- Dipoles.Dipole.TrackBmadx: the reference momentum is computed per slot from the beam's reference energy. Beam and element batch shapes are taken to have equal slot counts; torch broadcasting between them is not modelled.
- Dipoles.Dipole.Broadcast: only a one-dimensional `shape` is modelled.
- Dipoles.Dipole.constructor: when `fringe_integral_exit` is omitted, the source registers the *same* tensor as `fringe_integral`. The model copies the value, so later in-place changes to one buffer are not seen through the other.
- IEEE infinities and NaNs:
  - Divisions the source leaves unguarded are preconditions: by `p0c` and `length` in the fringe kick, by `cos(e)` in the face maps, by `sigma` and by `sqrt(2·π·sigma²)` in the kernel of `kde_marginal_pdf` (cheetah/utils.py:74-75; `Kde.KernelDefined`, a precondition of `KernelEntry`, `KernelValues`, `MarginalPdf` and the lemmas about them), and by the normalisation in `kde_joint_pdf_2d`.
  - Where the source would produce `inf` or `NaN`, the model says nothing.
- Floating point in general: every quantity is an exact real.
- torch device, dtype, `nn.Parameter`, `register_buffer` and autograd are not modelled.
- Messages of torch's own errors (from `repeat`, broadcasting, `sum` and `matmul`) are empty strings. Only their exception class is modelled.
- Kde.KdeJointPdf2d:
  - kernel values are batches of matrices of equal batch size;
  - `matmul`'s broadcasting of a batch of one against a batch of `B` is reported as an error instead;
  - with zero samples the bin counts are lost, because a matrix with no rows carries no column count.
- Kde.KernelValues: tensor weights are only of shape `[B,N,1]`, one weight per sample. Other broadcastable weight shapes are handled by the shape layer only.
- Kde.MarginalPdf: a batch of no rows carries no sample count, so with `B = 0` the model takes `N = 0`.
- Dipoles.Dipole.TrackBmadx: `BmadOps` splits the Bmad-X conversions in two. The model assumes that `p0c_particle` depends only on the reference energy, and that the outgoing reference energy depends only on `p0c_particle`. In the source these are arguments of `cheetah_to_bmad_z_pz` and `bmad_to_cheetah_z_pz`, whose definitions are not part of this model.
- Joss.ElementCount.Split: the split loops require `resolution > 0`. For `resolution <= 0` and a positive length, `while remaining > 0` never ends in the source. A screen, or an element of length `<= 0`, returns `[]` for any resolution; the model does not cover that case with `resolution <= 0` either.
- `kde_histogram_2d` (cheetah/utils.py:149-187) is not modelled separately. It is two calls of `kde_marginal_pdf` followed by `kde_joint_pdf_2d`, both modelled.
- Plotting (`plot`, `plot_reference_particles`) and `__repr__` formatting are not modelled.
- `Segment.__init__` depends on `ocelot2joss`, which is not part of this model. A segment is built from already converted elements.
- cheetah/utils/__init__.py only re-exports names.
- tests/test_kde.py targets a different interface and is not modelled.
- The statistics-based beam tests are not modelled.

## Findings

| source | as written | input that shows it | evidently intended | confidence | as-written member | corrected member |
|---|---|---|---|---|---|---|
| joss/accelerator.py:226 | `VerticalCorrector.split` builds `HorizontalCorrector` pieces, so the split beamline kicks `px` instead of `py` | `VerticalCorrector(length=1.0, angle=0.5).split(1.0)` | pieces of the element's own class, `VerticalCorrector` | not executed | Joss.VerticalSplitAsWrittenKicksHorizontally | Joss.VerticalSplitKeepsKickVertical |
| cheetah/utils.py:144 | `kde_histogram_1d` passes `epsilon` positionally into `weights`. The weights become ones of shape `[B,D]`, and these do not broadcast against the kernel `[B,D,NB]` unless `D` fits `NB` and `B` fits `D` | the docstring example: `x` of shape `[1,10]` with 128 bins raises `RuntimeError` instead of returning shape `[1,128]` | no weights (`weights=None`), giving shape `[B,NB]` | not executed | Kde.Histogram1dDocstringExampleRaises | Kde.Histogram1dShape |
| cheetah/utils.py:144 | With one sample per batch (`D = 1`) and `B > 1`, the ones of shape `[B,1]` do broadcast, stretching the kernel to `[B,B,NB]`. The call returns without raising, and every probability mass is `B` times too large | `x` of shape `[2,1]` with any bins: every mass is twice the single sample's Gaussian | the mass of the single sample, counted once | not executed | Kde.FloatWeightRepeatsSample | Kde.UnweightedSingleSample |
