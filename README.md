# AnyTexture and the Pearl addon registry in Dafny

This project models two parts of the Fork modelling tool and proves properties of each.

**The AnyTexture engine** (`AnyTexture.java`) describes a width × height × depth texture of RGBA texels. The class itself declares no texel storage; the model gives it one, the flat buffer `pixels`, with x varying fastest, then y, then z. Four passes run over it:

- **Mip pyramid.** It has `1 + floor(log2(max(w, h, d)))` levels, and level L measures `max(1, dim >> L)` along each axis. Each texel of level L is the 2×2×2 box sample of level L-1 at twice its coordinates. Sample coordinates are clamped to the level's last texel. The pass is guarded by the `mipmapsGenerated` flag.
- **Normal map** (single-slice textures only). It snapshots the heights first. It then writes each texel from the snapshot's wrap-around central differences.
- **Displacement map** (single-slice textures only). It records a scale and a bias.
- **Color grading.** Five fixed stages: saturation, contrast, gamma, brightness/exposure and color balance. They run on every texel of every slice. Alpha passes through unchanged.

**The addon registry** (`Pearl/Pearl.addons.py`) holds three dictionaries keyed by addon name: loaded modules, active modules and metadata. Its operations are load, activate (with a dependency check), deactivate and reload. Three queries sit beside them: addon info, the active and loaded name lists, and the guard in front of executing an addon function.

Modules:

- `TexelLayout` (texel_layout.dfy) covers the buffer layout. It gives texel addressing, its inverse and bounds.
- `MipPyramid` (mip_pyramid.dfy) covers level extents, the level count, the sampler, and the level and chain builders.
- `ColorGrading` (color_grading.dfy) covers the per-pixel stages and the graded buffer.
- `NormalMap` (normal_map.dfy) covers wrap-around neighbours, gradients and the normal-mapped buffer.
- `Texture` (texture.dfy) holds the `AnyTexture` class. Its fields are updated in place, and its methods are proved against the specification functions above.
- `Addons` (addons.dfy) has the `Registry` value, the specification of every operation and the `AddonManager` class. Each class method is proved equal to its specification.

Some results cannot be seen inside the model: importing a module, running an addon's `initialize()` or `shutdown()`, and the floating-point powers. Each operation takes these as parameters. For example, `initOk` says whether `initialize()` returned normally, and `imported` is the module `load_addon` would store, or `None` when something inside its `try` raised: the import itself, or reading an unreadable or non-object `<name>_metadata.json`.

## Model

| member | source | states |
|---|---|---|
| `TexelLayout.TexelIndexInBounds` | AnyTexture.java:347-350 | every in-range (x, y, z) has texel number below w·h·d, so all four of its channels lie inside a buffer of w·h·d·4 values |
| `TexelLayout.TexelIndexRoundTrip` | AnyTexture.java:332 | decoding a texel number with `t % w`, `(t / w) % h` and `t / w / h` gives back the (x, y, z) it was computed from |
| `TexelLayout.TexelIndexInjective` | AnyTexture.java:332 | distinct in-range coordinate triples never share a texel number |
| `TexelLayout.ChannelIndexInjective` | AnyTexture.java:332-337 | channel c of texel t is stored at `t·4 + c`, and distinct (texel, channel) pairs with channels below 4 never share a slot of the flat buffer |
| `TexelLayout.TexelDecodeInRange` | AnyTexture.java:332 | every texel number below w·h·d decodes to in-range coordinates whose texel number is that number, so the address map is onto |
| `TexelLayout.RowMajorSteps` | AnyTexture.java:294-301 | the x-inner, y-middle, z-outer loop order visits texel numbers consecutively, and after the last slice every texel has been visited |
| `TexelLayout.MapTexelsTexel` | AnyTexture.java:214-225 | applying a per-texel function to a buffer in texel order leaves, at every texel number, the function of the original texel there |
| `TexelLayout.MapTexelsIdentity` | AnyTexture.java:214-225 | a per-texel pass whose function keeps every texel leaves the whole buffer as it was |
| `MipPyramid.LevelDims` | AnyTexture.java:291-293 | every level extent `max(1, dim >> L)` is at least 1 along each axis |
| `MipPyramid.MipDimBounds` | AnyTexture.java:291-293 | a level dimension is between 1 and the level-0 dimension, never grows from one level to the next, and equals the dimension at level 0 |
| `MipPyramid.MipLevelCount` | AnyTexture.java:313-315 | there is at least one level, the largest axis is shifted down to exactly 1 at the last level, and one more level would shift it to 0 |
| `MipPyramid.ShrByLog2` | AnyTexture.java:313-315 | shifting m ≥ 1 right by floor(log2 m) leaves exactly 1, and one shift more leaves 0 |
| `MipPyramid.LevelZeroIsBase` | AnyTexture.java:288-293 | level 0 has the texture's own extent |
| `MipPyramid.LastLevelIsSingleTexel` | AnyTexture.java:313-315 | the last of the `1 + floor(log2(max(w, h, d)))` levels is 1×1×1, and the level before it (when there is one) is not |
| `MipPyramid.DefaultTextureLevels` | AnyTexture.java:58-60 | the default 1024×1024×1 texture has 11 levels, and level 10 is 1×1×1 |
| `MipPyramid.SampleMipLevel` | AnyTexture.java:317-345 | the sampler takes exactly 8 samples, and its result is the bias-started sum of the 8 clamped neighbours of (x, y, z), divided by 8 |
| `MipPyramid.BoxSample` | AnyTexture.java:317-344 | the sampler's result is the mean of the 8 clamped neighbours plus bias/8 in every channel, because the accumulator starts at the bias rather than at zero |
| `MipPyramid.AccumulatedBias` | AnyTexture.java:322-339 | the accumulator started at the bias is the accumulator started at zero plus the bias in every channel, after any number of samples |
| `MipPyramid.SampleStep` | AnyTexture.java:328-338 | sample 4·oz + 2·oy + ox reads the clamped texel at offset (ox, oy, oz), and that read is inside the level |
| `MipPyramid.FetchSample` | AnyTexture.java:328-338 | the innermost body of the sampler reads the clamped texel at offset (ox, oy, oz), which is sample number 4·oz + 2·oy + ox |
| `MipPyramid.SampleCoordinateInRange` | AnyTexture.java:297-330 | a sample coordinate `2x + o` of an output texel of level L exceeds the last index of level L-1 by at most one, so the clamp `min(2x + o, dim_{L-1} - 1)` moves it by at most one texel, and only on an axis whose level L-1 extent is 1 |
| `MipPyramid.AccumulatedUniform` | AnyTexture.java:322-339 | on a level whose texels all equal v, the accumulator after k samples is the bias plus k copies of v |
| `MipPyramid.BoxSampleUniform` | AnyTexture.java:322-344 | a uniform level of value v reduces to v + bias/8 in every channel (the accumulator starts at the displacement bias and the divisor is 8), and to v exactly when the bias is 0 |
| `MipPyramid.Downsample` | AnyTexture.java:294-301 | a computed level holds exactly w_L·h_L·d_L·4 values |
| `MipPyramid.MipLevelData` | AnyTexture.java:288-301 | level L of the pyramid built from level 0 has the size of level L's extent |
| `MipPyramid.MipChain` | AnyTexture.java:288-290 | the chain has one level for each of the `1 + floor(log2(max(w, h, d)))` levels |
| `MipPyramid.MipChainPrefixLevels` | AnyTexture.java:288-301 | after the first n passes of the level loop, each built from the level before, level l of the chain is level l of the pyramid, for every l below n |
| `MipPyramid.MipChainLevels` | AnyTexture.java:288-302 | the finished chain has one level per mip level, level 0 is the texture's own buffer, and every level l is level l of the pyramid |
| `MipPyramid.BuildMipChain` | AnyTexture.java:288-302 | the level loop starts from level 0 and builds each level from the previous one, yielding exactly the specified chain |
| `MipPyramid.BuildMipLevel` | AnyTexture.java:290-301 | the triple loop fills every texel of level L with the box sample of level L-1 at (2x, 2y, 2z), and nothing else is written |
| `MipPyramid.SetMipPixel` | AnyTexture.java:347-353 | storing a sampled color writes the four channels of texel (x, y, z) with that texel's downsampled values, and leaves every value before and after those four unchanged |
| `MipPyramid.StoreTexel` | AnyTexture.java:350-352 | the channel stores at `index = t·4` put the color's r, g, b, a at `index` to `index + 3` and leave every other value of the level unchanged |
| `MipPyramid.DownsampledTexel` | AnyTexture.java:297-298 | channel c of output texel (x, y, z) is channel c of the box sample at (2x, 2y, 2z) of the level below |
| `ColorGrading.LuminanceOfGray` | AnyTexture.java:237 | the luma weights 0.299, 0.587 and 0.114 sum to 1, so a gray pixel's luminance is its level |
| `ColorGrading.ApplySaturation` | AnyTexture.java:236-243 | saturation moves a pixel along the gray axis, so its luminance is unchanged for every factor |
| `ColorGrading.SaturationExtremes` | AnyTexture.java:236-243 | saturation 0 turns a pixel into the gray of its luminance, saturation 1 is the identity, and a gray pixel is unchanged by any factor |
| `ColorGrading.SaturationInverse` | AnyTexture.java:236-243 | a nonzero saturation factor s is undone by 1/s |
| `ColorGrading.ContrastNeutral` | AnyTexture.java:250-256 | contrast `(c - 0.5)·k + 0.5` is the identity at k = 1, and mid-gray 0.5 is fixed for every k |
| `ColorGrading.ApplyContrast` | AnyTexture.java:250-256 | contrast scales the luminance's distance from mid-gray 0.5 by the same factor as each channel's |
| `ColorGrading.ContrastInverse` | AnyTexture.java:250-256 | a nonzero contrast factor k is undone by 1/k |
| `ColorGrading.ApplyColorBalance` | AnyTexture.java:275-281 | color balance with all-zero shadow, midtone and highlight tints is the identity |
| `ColorGrading.ColorBalanceExtremes` | AnyTexture.java:275-281 | a pixel of luminance 0 gains exactly the shadow tint, one of luminance 1 exactly the highlight tint, and one of luminance 0.5 half of each of the three tints |
| `ColorGrading.GradePixel` | AnyTexture.java:227-234 | when saturation and contrast are 1, the gamma curve is the identity, brightness times the exposure factor is 1 and all three tints are black, the five stages in their fixed order return the pixel unchanged |
| `ColorGrading.GradeTexel` | AnyTexture.java:218-221 | grading a texel carries its alpha over unchanged |
| `ColorGrading.NeutralGradingIsIdentity` | AnyTexture.java:227-234 | under the neutral settings (the identity curve for gamma), the five stages return the pixel unchanged |
| `ColorGrading.GradeBuffer` | AnyTexture.java:214-225 | the graded buffer has as many values as the original |
| `ColorGrading.GradeBufferTexel` | AnyTexture.java:218-221 | each texel of the graded buffer is its original texel with RGB graded and alpha carried over unchanged |
| `ColorGrading.NeutralGradingKeepsBuffer` | AnyTexture.java:214-225 | grading a whole buffer with neutral settings leaves it as it was |
| `NormalMap.NeighboursWrap` | AnyTexture.java:184-193 | wrap-around neighbours `(x - 1 + n) % n` and `(x + 1) % n` of an in-range x are in range; the first coordinate's predecessor is n - 1 and the last coordinate's successor is 0; interior neighbours are adjacent; stepping forward then back returns to x |
| `NormalMap.NormalMapped` | AnyTexture.java:168-175 | the normal-mapped buffer has as many values as the original |
| `NormalMap.NormalMappedTexel` | AnyTexture.java:168-173 | texel (x, y) of the result is the encoded normal of the original heights around (x, y), with alpha 1 |
| `NormalMap.NormalMappedChannel` | AnyTexture.java:168-173 | channel c of output texel (x, y) is channel c of its encoded normal |
| `NormalMap.NormalMapReadsHeightsOnly` | AnyTexture.java:161-166 | the result depends on the buffer only through the heights snapshotted from the red channel, so buffers with equal heights give equal normal maps |
| `NormalMap.FlatHeightsGiveFlatNormals` | AnyTexture.java:184-193 | a flat height field has zero gradient everywhere, so every texel is the encoding of the gradient (0, 0) |
| `Texture.AnyTexture.Default` | AnyTexture.java:58-60 | a new texture is 1024×1024×1, has no mipmaps, normal-map or displacement flag, has displacement scale 1 and bias 0, and is all zero |
| `Texture.AnyTexture.Flat` | AnyTexture.java:62-64 | the two-argument constructor gives depth 1 and the same defaults |
| `Texture.AnyTexture.constructor` | AnyTexture.java:66-93 | the three-argument constructor stores the extent and sets every flag and parameter to its default |
| `Texture.AnyTexture.GetPixel` | AnyTexture.java:178-181 | reading (x, y, z) returns the four channels stored at that texel's index, all inside the buffer |
| `Texture.AnyTexture.SetPixel` | AnyTexture.java:114-117 | after writing v at (x, y, z), reading (x, y, z) gives v, and every value outside that texel is unchanged |
| `Texture.AnyTexture.GenerateMipmaps` | AnyTexture.java:283-306 | when the flag is already set, nothing changes. Otherwise the stored chain becomes the specified pyramid over the current texels and the flag is set afterwards. So a second call after a first changes nothing, and no other descriptor field changes |
| `Texture.AnyTexture.ApplyNormalMap` | AnyTexture.java:156-176 | with depth ≠ 1 it signals IllegalState and changes nothing. Otherwise every texel becomes the normal of the pre-pass heights around it, and `isNormalMap` is set. The mipmap state and the displacement fields are kept |
| `Texture.AnyTexture.SnapshotHeights` | AnyTexture.java:161-166 | the snapshot's entry [y, x] is the red channel of texel (x, y) before any texel is written |
| `Texture.AnyTexture.WriteNormals` | AnyTexture.java:168-173 | writing from the snapshot produces exactly the normal map of the buffer as it was when the snapshot was taken |
| `Texture.AnyTexture.CalculateNormal` | AnyTexture.java:168-193 | one step of the write loop writes texel (x, y) with the normal that the normal-mapped buffer holds there; no other texel is touched |
| `Texture.AnyTexture.SampleGradient` | AnyTexture.java:184-193 | the four wrapped neighbour reads from the snapshot give exactly the central differences of the pre-pass heights around (x, y) |
| `Texture.AnyTexture.ApplyDisplacementMap` | AnyTexture.java:195-212 | with depth ≠ 1 it signals IllegalState and changes nothing. Otherwise it sets `isDisplacementMap` and stores the given scale and bias, and the other descriptor fields are kept |
| `Texture.AnyTexture.ApplyColorGrading` | AnyTexture.java:214-225 | after the pass the buffer is exactly the graded buffer of the buffer before it: every texel of every slice is graded once, and its alpha is written back unchanged |
| `Texture.AnyTexture.GradeTexelAt` | AnyTexture.java:218-221 | one step of the grading loop writes texel (x, y, z) with its graded value, alpha carried over, and touches no other texel |
| `Addons.FirstMissingSound` | Pearl/Pearl.addons.py:145-155 | the dependency check finds nothing missing exactly when every declared dependency is active, and a dependency it reports is declared but not active |
| `Addons.AddonManager.CheckDependencies` | Pearl/Pearl.addons.py:152-155 | the loop over the declared dependencies stops at the first one that is not active, as specified |
| `Addons.Registry.Load` | Pearl/Pearl.addons.py:40-98 | loading succeeds exactly for a name not yet loaded whose import yields a module with initialize and shutdown. Success adds the name, and only the name, to loaded and metadata, binds it to the module and to `LoadMetadata` of it (the module's attributes with their documented defaults), and keeps every other loaded module. Failure (already loaded, import error, missing callback) changes nothing. Active is never touched |
| `Addons.LoadThenInfo` | Pearl/Pearl.addons.py:84-98 | a freshly loaded addon is reported Inactive, with the module's version and author (or "Unknown"), its docstring as description and its dependencies |
| `Addons.Registry.Activate` | Pearl/Pearl.addons.py:112-143 | activation succeeds exactly for a loaded, inactive addon that has metadata, whose declared dependencies are all active and whose initialize() succeeds. Success adds exactly that name, bound to its loaded module, to active. Every failure changes nothing. Loaded and metadata are never touched |
| `Addons.Registry.Deactivate` | Pearl/Pearl.addons.py:157-181 | deactivation succeeds exactly for an active addon whose shutdown() succeeds, and it removes exactly that name from active. Failure changes nothing. Loaded and metadata are never touched |
| `Addons.DeactivateIgnoresDependents` | Pearl/Pearl.addons.py:164-177 | deactivation does not look at dependents: it can leave an active addon whose declared dependency is no longer active |
| `Addons.Registry.AddonInfo` | Pearl/Pearl.addons.py:183-203 | addon info is a not-loaded error exactly when the name is not loaded; otherwise it carries the name, reports status Active exactly when the name is active, and takes version, author, description and dependencies from the metadata |
| `Addons.ActiveListedAmongLoaded` | Pearl/Pearl.addons.py:241-255 | under the registry invariant, every name listed as active is also listed as loaded and reports status Active |
| `Addons.Registry.ExecuteGuard` | Pearl/Pearl.addons.py:257-276 | a function is reached only through an active addon that has it: not-active is reported exactly for inactive names, a missing function for an active addon without the attribute, and the call goes ahead exactly when the addon is active and has the attribute |
| `Addons.LoadKeepsValid` | Pearl/Pearl.addons.py:65-78 | loading keeps loaded and metadata on the same names, and keeps active within loaded |
| `Addons.ActivateKeepsValid` | Pearl/Pearl.addons.py:119-139 | activation keeps the registry invariant |
| `Addons.DeactivateKeepsValid` | Pearl/Pearl.addons.py:164-177 | deactivation keeps the registry invariant |
| `Addons.Registry.ReloadAsWritten` | Pearl/Pearl.addons.py:212-239 | as written, reloading a name that is not loaded returns False and changes nothing, and when an active addon's shutdown() fails the name is still active afterwards, whatever the reload's `load_addon` does |
| `Addons.ReloadAsWrittenBreaksValid` | Pearl/Pearl.addons.py:223-239 | as written, a reload whose shutdown() fails and whose `load_addon` then fails leaves the addon active but no longer loaded |
| `Addons.Registry.Reload` | Pearl/Pearl.addons.py:212-239 | the corrected reload returns False and changes nothing for a name that is not loaded and for an active addon whose shutdown() fails |
| `Addons.ReloadKeepsValid` | Pearl/Pearl.addons.py:212-239 | a reload that aborts when deactivation fails keeps the registry invariant on every path |
| `Addons.ReloadAgreesWhenShutdownSucceeds` | Pearl/Pearl.addons.py:226-231 | the corrected reload and the reload as written agree whenever shutdown() succeeds |
| `Addons.ReloadRestoresActive` | Pearl/Pearl.addons.py:223-238 | reloading an active addon ends with it active again, bound to the newly imported module, when its shutdown, re-import and initialize all succeed and its dependencies are active |
| `Addons.AddonManager.constructor` | Pearl/Pearl.addons.py:19-28 | a new manager has three empty dictionaries and satisfies the registry invariant |
| `Addons.AddonManager.LoadAddon` | Pearl/Pearl.addons.py:40-82 | the dictionaries after load_addon and its result are those the load specification gives, and the invariant is kept |
| `Addons.AddonManager.ActivateAddon` | Pearl/Pearl.addons.py:112-143 | the dictionaries after activate_addon and its result are those the activation specification gives, and the invariant is kept |
| `Addons.AddonManager.DeactivateAddon` | Pearl/Pearl.addons.py:157-181 | the dictionaries after deactivate_addon and its result are those the deactivation specification gives, and the invariant is kept |
| `Addons.AddonManager.ReloadAddon` | Pearl/Pearl.addons.py:212-239 | the dictionaries after reload_addon and its result are those the corrected reload gives, and the invariant is kept |

## Left out

- Noise synthesis is not modelled. This covers `generateProceduralTexture` and the Perlin, Worley, Simplex and fractal-Brownian-motion generators. The generator classes are not part of this model, the entry point ignores its type and seed, and the loop bodies are empty or use undefined names.
- Texel values are real numbers. Float rounding, NaN and infinities are not modelled.
- Integer width is not modelled. Java's `int` arithmetic wraps once a product exceeds 2^31 - 1: for a 1024×1024×1024 texture, the sampler's index `(sampleZ·mipHeight·mipWidth + sampleY·mipWidth + sampleX)·4` wraps when `generateMipmaps` samples level 0 at z ≥ 512. The indices `setMipPixel` computes, for levels 1 and up, stay below 2^31 - 1. The model's unbounded integers do not capture this.
- The gamma and exposure stages use `Math.pow` on floats. Gamma is a caller-supplied curve standing for `c ↦ c^(1/gamma)`, and exposure is a caller-supplied factor standing for `2^exposure`.
- `MipPyramid.MipLevelCount` replaces the floating-point ratio `Math.log(m) / Math.log(2)` of `calculateMipLevels` with an exact integer floor-log2. Rounding in the double division is not modelled.
- The material, compression, animation and sampling descriptor fields (roughness, metallic, base color, sRGB, compression format, seamless, animation, wrap, filter and anisotropy) are stored but never read, so they are omitted.
- `Texture.AnyTexture.constructor` requires every dimension to be at least 1. Java accepts any `int`; zero or negative sizes are not modelled.
- `Texture.AnyTexture.GetPixel` and `SetPixel` work on the field `pixels`, which the model adds: `AnyTexture.java` declares no field holding texels.
- `getPixel`, `setPixel` and `lerp` are unimplemented stubs that throw. The model gives them their evident meaning:
  - `GetPixel` and `SetPixel` read and write the four channels of a texel of the flat level-0 buffer;
  - `Lerp(a, b, t)` is `a + (b - a)·t`.
- `generateMipmaps` has several broken steps:
  - `flattenMipmaps` is a stub that throws, and its result would be discarded anyway;
  - the `mipmaps` rows are never allocated;
  - level 0 is never filled.

  The model keeps the chain in the field `mipmaps`, and level 0 is the texture's own buffer.
- `Texture.AnyTexture.GenerateMipmaps` models the intended behaviour. As written, the throwing `flattenMipmaps` call comes before `mipmapsGenerated = true`, so the flag is never set and every call ends in an exception. The flag the model sets, and the idempotence of a second call, hold only for the intended code.
- `MipPyramid.SetMipPixel` writes all four channels. The source's `setMipPixel` does not type-check, stores only the first two channels, and the file ends there.
- `Texture.AnyTexture.ApplyNormalMap` writes a texel the source never writes. The source's write loop body is empty, and its `calculateNormal` computes the four neighbour heights and discards them. The model writes the caller-supplied encoding `shade(dx, dy)` of the central-difference gradient, with alpha 1. Normalising `(-dx, -dy, 1)` needs a square root, so the encoding is a parameter.
- `NormalMap.HeightAt` takes a texel's height from its red channel. The source reads the height as `(float) getPixel(x, y, 0)`, a stub returning `Object`, so which channel holds the height is the model's choice.
- `Texture.AnyTexture.ApplyDisplacementMap` has no loop. The source's loop only reads each texel into an unused local, so the model leaves the texels unchanged.
- `applyColorGradingToPixel` reads the static constants of `ColorGradingSettings` (all 0 or null) instead of its argument. The model grades with the settings passed in.
- `Texture.AnyTexture.ApplyColorGrading` and `ApplyNormalMap` do not reset `mipmapsGenerated` when they rewrite level 0. The model keeps this, so a later `GenerateMipmaps` leaves the stale chain in place.
- The addon manager's I/O and reflection are not modelled. This covers `discover_addons` (`os.listdir`), the `sys.path` edits, `importlib`, the `<name>_metadata.json` merge (which can overwrite any key, including `dependencies` and `name`, so the model's metadata always keeps the module's own dependencies and the addon's name), logging, `main`, and the call of the addon function itself. The outcome of `load_addon`'s `try` (import and metadata file) becomes the `imported` parameter, and `initialize()` and `shutdown()` become `initOk` and `shutdownOk`.
- `Addons.Registry.AddonInfo` returns the info dictionary, the intended behaviour. As written, `get_addon_info` never returns it for a real module: the predicate handed to `inspect.getmembers` reads `x.__name__` of every member, and a module's members include values without `__name__` (its `__doc__` string, its `__builtins__` dictionary), so the call raises AttributeError. The `functions` and `classes` lists it would build are not modelled.
- `Addons.ActiveListedAmongLoaded` treats `get_active_addons` and `get_loaded_addons` as sets of names. Their list order (dictionary insertion order) is not modelled.
- Reload removes the name from the metadata map without checking it is there. `del self.addon_metadata[name]` raises `KeyError` when a loaded name has no metadata, but every reachable registry keeps loaded and metadata on the same names, so that case cannot arise.

## Findings

| source | as written | input that shows it | evidently intended | confidence | as-written member | corrected member |
|---|---|---|---|---|---|---|
| Pearl/Pearl.addons.py:226-231 | `reload_addon` calls `deactivate_addon` and ignores its result. It then deletes the name from `loaded_addons` and `addon_metadata` | addon `a` is loaded and active; its `shutdown()` raises; then the reload's `load_addon` fails inside its `try`, for instance because `a_metadata.json` is unreadable or not a JSON object | when deactivation fails, return False and leave the registry unchanged, so active stays within loaded | high (not executed) | `Addons.ReloadAsWrittenBreaksValid` | `Addons.ReloadKeepsValid` |
