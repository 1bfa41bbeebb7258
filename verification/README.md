# Bundle adjustment: parameter layout, damped step and track filtering

This project models the discrete core of a small bundle-adjustment program. The
program refines camera poses and inverse-depth point positions from feature
tracks. The model covers four things:

- **Parameter-vector layout** (`layout.dfy`, module `ParameterLayout`). With Nc
  cameras and Np points, the vector has K = 6·Nc + 3·Np entries in nine blocks:
  Tx, Ty, Tz, pose_x, pose_y and pose_z, then point x, y and inverse depth z.
  `Decode` follows the chain of comparisons that names the parameter at index k.
  The lemmas prove that the blocks are disjoint and cover 0..K-1.
- **The update step** (`update.dfy`, module `ParameterUpdate`; and
  `solver.dfy`, module `BundleAdjustment`). `Params` is the solver's parameter
  arrays as a value. `Flatten` and `Unflatten` convert between those arrays and
  the flat vector, and are proved inverse. `AsWritten` is the update exactly as
  the code performs it. `Intended` is the update the layout describes. The class
  `Solver` holds the nine parameter arrays, the K×K Hessian, the cached
  reprojection error and the damping factor `c`, and updates them in place:
  - `ScaleHessian` fills the Hessian with its diagonal scaled by `c`.
  - `ApplyUpdate` adds the solved vector `v` into the arrays.
  - `UpdateErrorAndDamping` recomputes the error and rescales `c`.
  - `RunOneStep` chains the three.
- **Damping control** (`damping.dfy`, module `Damping`). If the error strictly
  decreased, `c` is divided by 10. Otherwise it is multiplied by 10. The module
  also proves what a whole run of steps does to `c`.
- **Track-visibility filtering** (`tracks.dfy`, module `StableTracks`). A
  status mask starts as all ones. It is AND-ed with each later frame's
  optical-flow status vector. Each frame's point list is then cut down to the
  points whose mask entry survived.

The numerical routines the step calls are not in the available source: the
Hessian base values, the linear solve and the reprojection error. They enter
the model as parameters of `RunOneStep`:

- `hessianBase`: a function of the parameter state and two indices.
- `v`: the solve's result, a vector of length K.
- `reprojectionErrorOf`: a function of the parameter state.

Optical flow is also outside the model. The tracked points and the status
vectors are inputs to `StableTrackPoints`. Status bytes (`uchar`) are `bv8`,
combined with bitwise AND. A point is kept when its byte is nonzero, as in the
code.

The update code disagrees with the documented layout. Lines 120-121 of
`scripts/bundle_adjustment.cpp` add both the Ty entry and the Tz entry of `v`
into `cam_t_y`, so `cam_t_z` never changes. The `Solver` class reproduces the
code as written. Every index of `v` is still read exactly once, including the
Tz block; those entries simply land in the y translation (`SourcesPartition`).
The Findings section below sets this against the intended update.

A step that raises the error is not rolled back. `RunOneStep` keeps the moved
parameters whatever the new error is, and only the damping factor reacts.

## Model

| member | source | states |
|---|---|---|
| `ParameterLayout.BlockStart` | scripts/bundle_adjustment.cpp:80-97 | every block, from its start, fits inside the K-entry vector |
| `ParameterLayout.Index` | scripts/bundle_adjustment.cpp:80-97 | the index of a parameter lies in 0..K-1, inside its own block |
| `ParameterLayout.Decode` | scripts/bundle_adjustment.cpp:80-97 | the chain of comparisons names, for every k in 0..K-1, a parameter whose index is k (the blocks cover the vector) |
| `ParameterLayout.IndexDecodes` | scripts/bundle_adjustment.cpp:80-97 | decoding the index of a parameter gives back that parameter (the blocks are disjoint) |
| `ParameterLayout.IndexInjective` | scripts/bundle_adjustment.cpp:80-97 | two parameters share an index exactly when they are the same parameter |
| `ParameterUpdate.Unflatten` | scripts/bundle_adjustment.cpp:80-97 | cutting a K-entry vector at the block boundaries gives Nc entries per camera array and Np per point array |
| `ParameterUpdate.FlattenAt` | scripts/bundle_adjustment.cpp:80-97 | in the concatenated vector, entry Index(s) is parameter s |
| `ParameterUpdate.UnflattenAt` | scripts/bundle_adjustment.cpp:80-97 | parameter s of a cut-up vector is that vector's entry Index(s) |
| `ParameterUpdate.UnflattenFlatten` | scripts/bundle_adjustment.cpp:80-97 | arrays to vector and back gives the same arrays |
| `ParameterUpdate.FlattenUnflatten` | scripts/bundle_adjustment.cpp:80-97 | vector to arrays and back gives the same vector |
| `ParameterUpdate.SameParameters` | scripts/bundle_adjustment.cpp:80-97 | two states that agree on every parameter are equal |
| `ParameterUpdate.AsWritten` | scripts/bundle_adjustment.cpp:117-145 | the update as coded keeps Nc entries per camera array and Np per point array |
| `ParameterUpdate.Target` | scripts/bundle_adjustment.cpp:118-136 | each entry of v goes into one valid parameter, never a z translation |
| `ParameterUpdate.Sources` | scripts/bundle_adjustment.cpp:118-136 | every index the update reads for a parameter lies in 0..K-1 |
| `ParameterUpdate.AsWrittenAt` | scripts/bundle_adjustment.cpp:118-136 | cam_t_x, the three pose arrays and the three point arrays each grow by the entry at their own index; cam_t_y grows by its own entry plus the Tz entry; cam_t_z is unchanged |
| `ParameterUpdate.SourcesPartition` | scripts/bundle_adjustment.cpp:118-136 | entry k of v is added into parameter s exactly when s is k's target, so every index 0..K-1 is read exactly once |
| `ParameterUpdate.Intended` | scripts/bundle_adjustment.cpp:80-97 | the layout-faithful update keeps the array lengths |
| `ParameterUpdate.IntendedAt` | scripts/bundle_adjustment.cpp:80-97 | with the layout-faithful update, every parameter grows by the entry of v at its own index |
| `ParameterUpdate.IntendedIsVectorSum` | scripts/bundle_adjustment.cpp:80-97 | the layout-faithful update adds v to the parameter vector entry by entry |
| `ParameterUpdate.AsWrittenIsIntendedIff` | scripts/bundle_adjustment.cpp:118-124 | the coded update equals the layout-faithful one exactly when every Tz entry of v is zero |
| `ParameterUpdate.AgreeWithoutTzStep` | scripts/bundle_adjustment.cpp:118-124 | when every Tz entry of v is zero, the two updates agree |
| `ParameterUpdate.DisagreeOnTz` | scripts/bundle_adjustment.cpp:118-124 | a nonzero Tz entry for camera i makes the two updates differ on camera i's z translation |
| `ParameterUpdate.TzStepMovesTy` | scripts/bundle_adjustment.cpp:120-121 | with one camera and a unit Tz step, the code moves the y translation and leaves z, while the layout moves z |
| `Damping.NextDamping` | scripts/bundle_adjustment.cpp:150-154 | the new factor is c/10 or c·10, stays positive when c is, always differs from a nonzero c, and is smaller exactly when the error strictly decreased |
| `Damping.Improvements` | scripts/bundle_adjustment.cpp:150-154 | a run has at most one improving step per step |
| `Damping.DampingAfterRun` | scripts/bundle_adjustment.cpp:147-154 | after a run of steps, c equals the initial factor times 10 to the power (non-improving steps − improving steps) |
| `Damping.DampingStaysPositive` | scripts/bundle_adjustment.cpp:150-154 | a positive factor stays positive over any run |
| `BundleAdjustment.Solver.ScaleHessian` | scripts/bundle_adjustment.cpp:103-109 | diagonal entries become c times the base value; off-diagonal entries are the base value unscaled |
| `BundleAdjustment.Solver.UpdateCameras` | scripts/bundle_adjustment.cpp:118-130 | cam_t_x[i], cam_pose_x/y/z[i] grow by v[i], v[i+3Nc], v[i+4Nc], v[i+5Nc]; cam_t_y[i] grows by v[i+Nc] + v[i+2Nc] |
| `BundleAdjustment.Solver.UpdatePoints` | scripts/bundle_adjustment.cpp:132-145 | point_x/y/z[j] grow by v[6Nc+j], v[6Nc+Np+j], v[6Nc+2Np+j]; no other entry changes |
| `BundleAdjustment.Solver.ApplyUpdate` | scripts/bundle_adjustment.cpp:117-145 | the new parameter state is AsWritten of the old one; cam_t_z is unchanged; the object invariant is kept |
| `BundleAdjustment.Solver.UpdateErrorAndDamping` | scripts/bundle_adjustment.cpp:147-154 | the cached error becomes the error of the current parameters; c is rescaled by comparing it with the error cached before; c stays positive |
| `BundleAdjustment.Solver.RunOneStep` | scripts/bundle_adjustment.cpp:103-154 | the Hessian is built from the pre-step state and factor; the parameters move as coded; the new error is that of the new parameters; c follows the damping rule against the pre-step error |
| `StableTracks.TotalStatus` | scripts/bundleAdjustment_script.cpp:38-52 | a mask entry that starts at 1 and is AND-ed with status bytes is always 0 or 1 |
| `StableTracks.TotalStatusIsConjunction` | scripts/bundleAdjustment_script.cpp:50-52 | a mask entry is 1 exactly when every status vector covering the point had its low bit set |
| `StableTracks.TotalStatusOfBinary` | scripts/bundleAdjustment_script.cpp:50-52 | with 0/1 statuses, entry j is 1 exactly when every frame's status for j was 1 |
| `StableTracks.LostStaysLost` | scripts/bundleAdjustment_script.cpp:51-52 | once a mask entry is 0 it stays 0 through all later frames |
| `StableTracks.Mask` | scripts/bundleAdjustment_script.cpp:38 | the mask has one entry per first-frame point |
| `StableTracks.ConjoinStatuses` | scripts/bundleAdjustment_script.cpp:38-55 | the in-place loop leaves entry j equal to 1 AND-ed with every frame's status for j (all ones when there are no later frames) |
| `StableTracks.Kept` | scripts/bundleAdjustment_script.cpp:61-64 | the kept indices are in range, have nonzero mask entries, and are strictly increasing |
| `StableTracks.KeptComplete` | scripts/bundleAdjustment_script.cpp:61-64 | every index with a nonzero mask entry is kept |
| `StableTracks.FilterGathers` | scripts/bundleAdjustment_script.cpp:61-64 | a filtered frame holds exactly the points at the kept indices, in increasing index order |
| `StableTracks.FilterStable` | scripts/bundleAdjustment_script.cpp:57-67 | one filtered list per frame, each equal to that frame's masked points |
| `StableTracks.StableTrackPoints` | scripts/bundleAdjustment_script.cpp:38-67 | as many lists as frames; list i holds track[i][j] for exactly the surviving j, in increasing j; frames of the first frame's length give lists of equal length |
| `StableTracks.LostPointDropped` | scripts/bundleAdjustment_script.cpp:51-64 | a point whose status is 0 in any frame is at no position of any filtered frame |
| `StableTracks.TrackedPointKept` | scripts/bundleAdjustment_script.cpp:51-64 | a point tracked in every frame is kept in every filtered frame that covers it |

## Left out

- Reprojection and derivative caches (scripts/bundle_adjustment.cpp:50-69) and the gradient vector (72-75): these loops only store the results of routines whose source is not available. The rest of the step reads them only through those routines, so the model does not hold them.
- Hessian base values, the linear solve and the reprojection error (scripts/bundle_adjustment.cpp:106, 114, 148): their source is not available and they are floating-point numerics. They are parameters of `RunOneStep`. `v` is taken to have length K, as the solve returns. The model has no solve-failure path, and neither does the code.
- Random initialisation (`Solver::initialize`, scripts/bundle_adjustment.cpp:17-41): it uses the clock and `rand()`. The constructor instead receives the initial parameters, their error and a positive damping factor. The solver's declaration file, bundle_adjustment.hpp, is not part of this model, so the real initial value of `c` is not shown.
- Floating point: every `double` is a Dafny `real`. Rounding is ignored, and nothing is claimed about convergence or error size.
- Image reading, corner detection, sub-pixel refinement and pyramidal optical flow (scripts/bundleAdjustment_script.cpp:25-36, 48): foreign library calls. Each frame's points and each later frame's status vector are inputs.
- Logging, the CSV output with its division by `point_z`, and the fixed 20-step driver loop (scripts/bundleAdjustment_script.cpp:69-93): I/O and glue. The effect of a run of steps on `c` is stated by `Damping.DampingAfterRun`.
- The unused local `offset` (scripts/bundle_adjustment.cpp:133) has no effect.
- LensBlur/TKDDepthEstimator.h: an interface with capture delegates and an error-code enum, with no logic to model.
- `StableTracks.StableTrackPoints`: its statuses need only be no longer than the first frame, which is what keeps the code's writes in bounds. The equal-length conclusion is stated for frames as long as the first frame, which the tracker always produces.

## Findings

| source | as written | input that shows it | evidently intended | confidence | as-written member | corrected member |
|---|---|---|---|---|---|---|
| scripts/bundle_adjustment.cpp:120-121 | `cam_t_y[i] += v[i+2*Nc]` adds the Tz entry into the y translation, and `cam_t_z` is never updated | Nc = 1, Np = 0, v = [0, 0, 1, 0, 0, 0]: cam_t_y moves by 1 and cam_t_z stays put | `cam_t_z[i] += v[i+2*Nc]`, the Tz block of the layout at lines 84-85 | high; not executed | `ParameterUpdate.TzStepMovesTy` | `ParameterUpdate.IntendedAt` |

`Solver` keeps the update as written, because it models the program. The
corrected update `Intended` is the one the layout lemmas describe.
`ParameterUpdate.AsWrittenIsIntendedIff` proves that the two agree exactly
when the solved step has no z-translation component.
