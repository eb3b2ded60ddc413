# Film-stock tone curves of filters.py, in Dafny

This project models the lookup-table (LUT) engine of the image-filter
module `filters.py`. That engine has three parts:

- **Preset tables.** The five film-stock presets (Kodak Portra 400,
  Fujifilm Velvia 50, Cinestill 800T, Kodak Ektar 100, Fujifilm
  Provia 100F) and the custom warm preset each build three 256-entry uint8
  tables, one per channel.
- **`apply_lut`.** It splits a three-channel image into its planes, remaps
  each plane through its table and merges the planes back.
- **The lazy cache.** Five module-level globals hold the film-stock tables
  once they are built.

Modules:

- `ToneCurve` (`tone_curve.dfy`): one table-building comprehension.
  - A `Curve` stands for `a·i + b`. It records whether that expression is
    wrapped in `min(255, ·)` and whether the result is wrapped in
    `max(0, ·)`.
  - The gain `a` is an exact rational: 0.85 = 17/20, 0.9 = 9/10,
    0.95 = 19/20, 1.05 = 21/20 and 1.1 = 11/10.
  - `CastToUint8` is the `dtype=np.uint8` narrowing. It truncates, which
    for the non-negative values here is the floor.
  - The module proves the generic facts every preset fact rests on: range,
    monotonicity, the equivalence with clamp(floor(a·i + b), 0, 255), and
    exactly when an entry is 0 or 255.
- `FilmPresets` (`presets.dfy`): the six presets with their coefficients as
  they appear in the source, plus the per-preset facts. Every preset has a
  closed form for each of its three tables, and every `min(255, ·)` that
  never engages is proved so. Every channel that can reach 0 or 255 has
  the exact range of inputs that does. This covers every engaged
  `min(255, ·)` and `max(0, ·)`, and the gain-only channels that truncate
  to 0 at small inputs (Ektar red and green, Provia red). The identity
  tables are 0 only at input 0.
- `LutApply` (`lut_apply.dfy`): images as values of shape
  (height, width, channels). It models `cv2.split`, `cv2.LUT` and
  `cv2.merge` as functions, and `apply_lut` as their composition.
- `Filters` (`filters.dfy`): the five globals as the class `PresetCache`
  with `Option` fields, one method per film-stock filter, and
  `apply_custom_filter`.

The narrowing truncates. Storing a float into a uint8 array drops its
fraction rather than rounding to nearest. Portra green at input 1 is
12.95: rounding would give 13, but the store gives 12
(`PortraGreenTruncates`).

Provia blue is 0 for exactly the inputs 0..19 (`ProviaBlueZeroIff`). The
last of them, 19, gives 1.1·19 − 20 = 0.9, which narrows to 0.

## Model

| member | source | states |
|---|---|---|
| `ToneCurve.CastToUint8` | filters.py:30-75 | the uint8 narrowing of a non-negative value num/den is the b with b·den ≤ num < (b+1)·den (truncation toward zero), and that b lies in 0..255 |
| `ToneCurve.ClampedInRange` | filters.py:30-75 | for every curve written as in the source, the value after its min(255, ·) / max(0, ·) lies in [0, 256), so every table entry fits a uint8 |
| `ToneCurve.BuildLut` | filters.py:30-75 | a table built from `range(256)` has exactly 256 entries |
| `ToneCurve.EntryIsClampOfFloor` | filters.py:30-75 | clamping a·i + b and then truncating, as the source does, gives clamp(floor(a·i + b), 0, 255) for every entry |
| `ToneCurve.EntryZeroIff` | filters.py:30-75 | an entry is 0 exactly when a·i + b < 1 |
| `ToneCurve.EntrySaturatesIff` | filters.py:30-75 | an entry is 255 exactly when a·i + b ≥ 255 |
| `ToneCurve.EntryMonotone` | filters.py:30-75 | with non-negative gains, i ≤ j implies entry i ≤ entry j |
| `ToneCurve.BuildLutNonDecreasing` | filters.py:30-75 | every table built from a curve is non-decreasing in its index |
| `ToneCurve.IdentityLut` | filters.py:30-75 | `[i for i in range(256)]` maps every sample to itself |
| `ToneCurve.NeverSaturates` | filters.py:30-75 | when a·255 + b < 255 no entry reaches 255, so that curve's min(255, ·) never engages |
| `FilmPresets.Tables` | filters.py:30-33 | a preset's three tables (lut_r, lut_g, lut_b) each have 256 entries |
| `FilmPresets.CreateWarmLut` | filters.py:72-76 | create_warm_lut returns three 256-entry tables |
| `FilmPresets.PresetNonDecreasing` | filters.py:30-75 | all three tables of any preset are non-decreasing |
| `FilmPresets.AllPresetsBuildable` | filters.py:30-75 | all six presets' entries lie in 0..255 without any wrap-around |
| `FilmPresets.PortraEntries` | filters.py:30-32 | Portra R[i] = i, G[i] = floor(0.95·i + 12) < 255, B[i] = floor(0.85·i + 20) < 255 |
| `FilmPresets.PortraAt200` | filters.py:30-32 | Portra maps input 200 to (200, 202, 190) |
| `FilmPresets.PortraGreenTruncates` | filters.py:31 | Portra G[1] = 12: 12.95 is truncated, not rounded |
| `FilmPresets.VelviaEntries` | filters.py:39-41 | Velvia R[i] = floor(0.9·i + 10) < 255, G[i] = floor(0.85·i + 20) < 255, B[i] = i |
| `FilmPresets.CinestillBlueZeroIff` | filters.py:50 | Cinestill B[i] = 0 exactly when i ≤ 9 |
| `FilmPresets.CinestillBlueSaturatesIff` | filters.py:50 | Cinestill B[i] = 255 exactly when i ≥ 241 |
| `FilmPresets.CinestillEntries` | filters.py:48-50 | Cinestill R[i] = floor(0.9·i + 20) < 255, G[i] = floor(0.85·i + 15) < 255, B[i] = clamp(floor(1.1·i − 10), 0, 255) |
| `FilmPresets.EktarEntries` | filters.py:57-59 | Ektar R[i] = min(255, floor(1.1·i)), G[i] = floor(0.95·i) < 255, B[i] = floor(0.9·i + 10) < 255 |
| `FilmPresets.EktarRedZeroIff` | filters.py:57 | Ektar R[i] = 0 exactly when i = 0 |
| `FilmPresets.EktarGreenZeroIff` | filters.py:58 | Ektar G[i] = 0 exactly when i ≤ 1 (0.95 truncates to 0) |
| `FilmPresets.EktarRedSaturatesIff` | filters.py:57 | Ektar R[i] = 255 exactly when i ≥ 232 |
| `FilmPresets.EktarBlueFloorRedundant` | filters.py:59 | dropping Ektar blue's max(0, ·) changes no entry |
| `FilmPresets.ProviaEntries` | filters.py:66-68 | Provia R[i] = min(255, floor(1.05·i)), G[i] = floor(0.95·i + 10) < 255, B[i] = clamp(floor(1.1·i − 20), 0, 255) |
| `FilmPresets.ProviaRedZeroIff` | filters.py:66 | Provia R[i] = 0 exactly when i = 0 |
| `FilmPresets.ProviaRedSaturatesIff` | filters.py:66 | Provia R[i] = 255 exactly when i ≥ 243 |
| `FilmPresets.ProviaBlueZeroIff` | filters.py:68 | Provia B[i] = 0 exactly when i ≤ 19 |
| `FilmPresets.ProviaBlueSaturatesIff` | filters.py:68 | Provia B[i] = 255 exactly when i ≥ 250 |
| `FilmPresets.WarmEntries` | filters.py:73-75 | for every i in 0..255: warm R[i] = min(255, i + 20) ≥ i, G[i] = i, B[i] = max(0, i − 20) ≤ i |
| `FilmPresets.WarmRedSaturatesIff` | filters.py:73 | warm R[i] = 255 exactly when i ≥ 235 |
| `FilmPresets.WarmBlueZeroIff` | filters.py:75 | warm B[i] = 0 exactly when i ≤ 20 |
| `LutApply.Split` | filters.py:79 | cv2.split yields one plane per channel, each of the image's height and width, and plane c at (y, x) holds sample c of pixel (y, x) |
| `LutApply.LookUp` | filters.py:80-82 | cv2.LUT keeps the shape of the plane and replaces every sample s by lut[s] |
| `LutApply.Merge` | filters.py:83 | cv2.merge yields a well-formed image with one channel per plane, and sample c of pixel (y, x) is plane c at (y, x) |
| `LutApply.ApplyLut` | filters.py:78-83 | succeeds exactly for three-channel images and otherwise fails with an unpacking error; the result keeps height and width, has 3 channels, and out[y][x][c] = lut_c[in[y][x][c]] with channel 0 → lut_r, 1 → lut_g, 2 → lut_b |
| `LutApply.MergeSplit` | filters.py:79-83 | merging the planes that split produced gives back the image (channel order is preserved) |
| `LutApply.SplitMerge` | filters.py:79-83 | splitting a merged image gives back the planes it was merged from, in order |
| `LutApply.LookUpIdentity` | filters.py:80-82 | looking a plane up in the identity table gives back the plane |
| `LutApply.ApplyIdentityLut` | filters.py:78-83 | apply_lut with three identity tables returns the input image unchanged |
| `Filters.PresetCache.constructor` | filters.py:4-9 | at module load all five cached tables are None |
| `Filters.PresetCache.ApplyKodakPortra` | filters.py:27-34 | fills the Portra cache on first use and never changes it afterwards, leaves the other caches alone, and returns apply_lut with the Portra tables |
| `Filters.PresetCache.ApplyFujifilmVelvia` | filters.py:36-43 | the same for Velvia |
| `Filters.PresetCache.ApplyCinestill800T` | filters.py:45-52 | the same for Cinestill |
| `Filters.PresetCache.ApplyKodakEktar100` | filters.py:54-61 | the same for Ektar |
| `Filters.PresetCache.ApplyFujifilmProvia100F` | filters.py:63-70 | the same for Provia |
| `Filters.PortraIsRepeatable` | filters.py:27-34 | two Portra calls on the same image give identical results, whether or not the tables were cached beforehand |
| `Filters.ApplyCustomFilter` | filters.py:85-87 | succeeds exactly for three-channel images; red becomes min(255, r + 20), green is kept, blue becomes max(0, b − 20) |
| `Filters.PortraKeepsRed` | filters.py:27-34 | the Portra filter leaves channel 0 unchanged |

## Left out

- The coefficients are exact rationals. The source multiplies by binary
  floating-point literals, so a product that is an integer in exact
  arithmetic may land just below it and truncate to one less. The model
  does not capture this.
- Input images are uint8 arrays of shape (height, width, channels). Other
  dtypes and two-dimensional arrays are not modelled.
- The model maps an empty image (height or width 0) with three channels
  to an empty image. OpenCV's own handling of empty arrays in
  `cv2.split` is not part of this model.
- `cv2.LUT` rejects tables that do not have 256 entries. Every caller in
  the source passes 256-entry tables, so the model requires that length
  rather than modelling the error.
- The `PresetCache` methods model the module-level globals of a single
  thread. Concurrent first calls are not modelled.
- `apply_grayscale`, `apply_sepia`, `apply_blur` and
  `apply_edge_detection` are left out. They are single calls into OpenCV,
  whose rounding, saturation and border rules are not part of this model.
- `apply_vintage_effect` is left out. It draws Gaussian noise from numpy's
  random generator and works in floating point.
- `add_vignette` is left out. It is floating-point numerics (square root,
  fractional power, division by 255).
- The Streamlit front end (`app.py`) is left out. It only uploads, decodes
  and displays images and dispatches on the filter name.
