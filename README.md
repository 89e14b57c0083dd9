# AliceVision lens-correction profile and image-I/O value types, in Dafny

This project models two groups of sequential code from AliceVision:

- **The Lens Correction Profile (LCP) container** (`lcp.dfy`, module
  `LensCorrectionProfile`). It covers the distortion, vignetting and camera-settings
  records (`settingsInfo`, `PerspectiveModel`, `VignetteModel`, `FisheyeModel`)
  and their in-place `reset()`. It covers `LensParam` with its fisheye and
  vignetting flags. It covers `LCPinfo`, the store that the LCP file parser fills:
  metadata setters and getters, the append-only lists of alternate lens IDs and
  names, the list of stored parameter sets, the model counter and the seven
  parser loading-state flags. Everything here updates objects in place, so each
  record is a Dafny `class`. Each class has a `Value()` function that gives its
  contents as a datatype. `std::vector<LensParam>` holds copies, so the stored
  parameter sets are a `seq` of such values.
- **The image-I/O value types** (`io.dfy`, module `ImageIO`). It covers the three
  `OutputFileColorSpace` constructors, the `ImageReadOptions` constructor with its
  default arguments, and the `ColorTypeInfo` traits table (channel count and base
  type per pixel type). These are pure values: datatypes, functions and lemmas.

Floating-point fields are `real`s. The model only stores and compares them.

Loading-state flags are named by the `LoadingFlag` datatype. `LoadingState.Set`
changes exactly one of them. The open/close methods of `LcpInfo` are stated
through `Set`. `Replay` applies a sequence of such calls, the way the XML
handlers issue them. The lemmas about `Replay` show that each flag ends with
the value of the last call that names it.

The getters (`LcpInfo.GetAuthor` to `LcpInfo.IsRawProfile`, `IsSeqOpened` to
`IsGetText`, `GetModelCount`, and `LensParam.IsFisheye`/`HasVignetteParams`)
are plain field reads without contracts of their own. The rows of the matching
setters and open/close methods state what they return.

## Model

| member | source | states |
|---|---|---|
| ImageIO.DefaultOutputFileColorSpace | src/aliceVision/image/io.hpp:53-71 | a default-constructed pair has source LINEAR and target AUTO |
| ImageIO.OutputFileColorSpaceFromTo | src/aliceVision/image/io.hpp:58-62 | the two-argument constructor stores both colour spaces unchanged |
| ImageIO.OutputFileColorSpaceTo | src/aliceVision/image/io.hpp:63-70 | the one-argument constructor keeps source LINEAR; NO_CONVERSION makes the target equal the source, any other target is stored; the target is never NO_CONVERSION |
| ImageIO.OneArgumentIsLinearSource | src/aliceVision/image/io.hpp:58-70 | the one-argument constructor equals the two-argument one with source LINEAR and NO_CONVERSION replaced by LINEAR |
| ImageIO.OneArgumentNormalises | src/aliceVision/image/io.hpp:63-70 | NO_CONVERSION and LINEAR give the same pair, and feeding the result's target back in changes nothing |
| ImageIO.MakeImageReadOptions | src/aliceVision/image/io.hpp:89-102 | the constructor stores colour space, white-balance flag and region unchanged |
| ImageIO.ImageReadOptionsDefaults | src/aliceVision/image/io.hpp:91-93 | omitted arguments default to AUTO, white balance on, and the default (whole-image) region |
| ImageIO.ColorTypeInfoOf | src/aliceVision/image/io.hpp:367-409 | channel count 1 for grey, 3 for RGB, 4 for RGBA; base type UINT8 for byte pixels and FLOAT for float pixels |
| ImageIO.ColorTypeInfoIdentifiesType | src/aliceVision/image/io.hpp:374-409 | distinct pixel types have distinct traits rows |
| LensCorrectionProfile.SettingsInfo.constructor | src/aliceVision/lensCorrectionProfile/lcp.hpp:14-18 | a new record holds zero focal length, focus distance and aperture |
| LensCorrectionProfile.SettingsInfo.Reset | src/aliceVision/lensCorrectionProfile/lcp.hpp:20-25 | reset restores the default-initialised record whatever it held |
| LensCorrectionProfile.PerspectiveModel.constructor | src/aliceVision/lensCorrectionProfile/lcp.hpp:28-40 | a new record has Version -1, every float 0 and isEmpty true |
| LensCorrectionProfile.PerspectiveModel.Reset | src/aliceVision/lensCorrectionProfile/lcp.hpp:42-55 | reset restores Version -1, every float 0 and isEmpty true |
| LensCorrectionProfile.VignetteModel.constructor | src/aliceVision/lensCorrectionProfile/lcp.hpp:58-65 | a new record has every float 0 and isEmpty true |
| LensCorrectionProfile.VignetteModel.Reset | src/aliceVision/lensCorrectionProfile/lcp.hpp:67-75 | reset restores every float 0 and isEmpty true |
| LensCorrectionProfile.FisheyeModel.constructor | src/aliceVision/lensCorrectionProfile/lcp.hpp:78-89 | a new record has Version -1, every float 0 and isEmpty true |
| LensCorrectionProfile.FisheyeModel.Reset | src/aliceVision/lensCorrectionProfile/lcp.hpp:91-103 | reset restores Version -1, every float 0 and isEmpty true |
| LensCorrectionProfile.ResetTwiceIsResetOnce | src/aliceVision/lensCorrectionProfile/lcp.hpp:20-103 | after two resets in a row each of the four records holds its default value, the value one reset already gives |
| LensCorrectionProfile.LensParam.constructor | src/aliceVision/lensCorrectionProfile/lcp.hpp:112-168 | a new parameter set has default records and is neither fisheye nor has vignetting parameters |
| LensCorrectionProfile.LensParam.SetFisheyeStatus | src/aliceVision/lensCorrectionProfile/lcp.hpp:122-138 | the fisheye getter then returns the given status; the vignetting flag and the records are unchanged |
| LensCorrectionProfile.LensParam.SetVignetteParamsStatus | src/aliceVision/lensCorrectionProfile/lcp.hpp:128-144 | the vignetting getter then returns the given status; the fisheye flag and the records are unchanged |
| LensCorrectionProfile.LoadingState.Set | src/aliceVision/lensCorrectionProfile/lcp.hpp:402-429 | setting a loading flag gives it the new value and every other flag its old value |
| LensCorrectionProfile.ReplayKeepsUntouchedFlag | src/aliceVision/lensCorrectionProfile/lcp.hpp:402-429 | a flag that no open/close call names keeps its starting value |
| LensCorrectionProfile.ReplayKeepsLastCall | src/aliceVision/lensCorrectionProfile/lcp.hpp:402-429 | after a sequence of open/close calls a flag is true exactly when the last call naming it was an open/set |
| LensCorrectionProfile.UnraisedFlagStaysDown | src/aliceVision/lensCorrectionProfile/lcp.hpp:441-448 | from the initial all-false state, a flag never opened or set is still false |
| LensCorrectionProfile.LcpInfo.constructor | src/aliceVision/lensCorrectionProfile/lcp.hpp:181 | the defaulted constructor, with the member initialisers declared at lines 436-468: every loading flag false, model counter 0, no parameter sets, empty strings and lists, and a freshly allocated default parameter set in progress whose four records are fresh too, so they share nothing with other objects |
| LensCorrectionProfile.LcpInfo.IsEmpty | src/aliceVision/lensCorrectionProfile/lcp.hpp:218 | the profile is empty exactly when no parameter set is stored |
| LensCorrectionProfile.LcpInfo.GetModelNumber | src/aliceVision/lensCorrectionProfile/lcp.hpp:308 | the model number is the count of stored parameter sets, zero exactly when empty |
| LensCorrectionProfile.LcpInfo.GetLensIDs | src/aliceVision/lensCorrectionProfile/lcp.hpp:272 | returns the whole list of lens IDs in insertion order |
| LensCorrectionProfile.LcpInfo.GetLensModels | src/aliceVision/lensCorrectionProfile/lcp.hpp:278 | returns the whole list of lens model names in insertion order |
| LensCorrectionProfile.LcpInfo.SetAuthor | src/aliceVision/lensCorrectionProfile/lcp.hpp:314 | the author getter returns the new value; no other field changes |
| LensCorrectionProfile.LcpInfo.SetProfileName | src/aliceVision/lensCorrectionProfile/lcp.hpp:320 | the profile-name getter returns the new value; no other field changes |
| LensCorrectionProfile.LcpInfo.SetCameraMaker | src/aliceVision/lensCorrectionProfile/lcp.hpp:326 | the camera-maker getter returns the new value; no other field changes |
| LensCorrectionProfile.LcpInfo.SetCameraModel | src/aliceVision/lensCorrectionProfile/lcp.hpp:332 | the camera-model getter returns the new value; no other field changes |
| LensCorrectionProfile.LcpInfo.SetUniqueCameraModel | src/aliceVision/lensCorrectionProfile/lcp.hpp:338 | the unique-camera-model getter returns the new value; no other field changes |
| LensCorrectionProfile.LcpInfo.SetCameraPrettyName | src/aliceVision/lensCorrectionProfile/lcp.hpp:344 | the camera-pretty-name getter returns the new value; no other field changes |
| LensCorrectionProfile.LcpInfo.SetLensPrettyName | src/aliceVision/lensCorrectionProfile/lcp.hpp:350 | the lens-pretty-name getter returns the new value; no other field changes |
| LensCorrectionProfile.LcpInfo.SetLensInfo | src/aliceVision/lensCorrectionProfile/lcp.hpp:356 | the lens-info getter returns the new value; no other field changes |
| LensCorrectionProfile.LcpInfo.AddLensID | src/aliceVision/lensCorrectionProfile/lcp.hpp:362 | appends one ID after the earlier ones; no other field changes |
| LensCorrectionProfile.LcpInfo.AddLensModel | src/aliceVision/lensCorrectionProfile/lcp.hpp:368 | appends one model name after the earlier ones; no other field changes |
| LensCorrectionProfile.LcpInfo.SetImageWidth | src/aliceVision/lensCorrectionProfile/lcp.hpp:374 | the image-width getter returns the new value; no other field changes |
| LensCorrectionProfile.LcpInfo.SetImageLength | src/aliceVision/lensCorrectionProfile/lcp.hpp:380 | the image-length getter returns the new value; no other field changes |
| LensCorrectionProfile.LcpInfo.SetSensorFormatFactor | src/aliceVision/lensCorrectionProfile/lcp.hpp:386 | the sensor-format-factor getter returns the new value; no other field changes |
| LensCorrectionProfile.LcpInfo.SetAsRawProfile | src/aliceVision/lensCorrectionProfile/lcp.hpp:392 | the profile then reports itself as raw; no other field changes |
| LensCorrectionProfile.LcpInfo.OpenSequence | src/aliceVision/lensCorrectionProfile/lcp.hpp:404 | the sequence flag becomes true; no other flag or field changes |
| LensCorrectionProfile.LcpInfo.CloseSequence | src/aliceVision/lensCorrectionProfile/lcp.hpp:405 | the sequence flag becomes false; no other flag or field changes |
| LensCorrectionProfile.LcpInfo.SetCommonOK | src/aliceVision/lensCorrectionProfile/lcp.hpp:408 | the common-info flag becomes true; no other flag or field changes |
| LensCorrectionProfile.LcpInfo.UnsetCommonOK | src/aliceVision/lensCorrectionProfile/lcp.hpp:409 | the common-info flag becomes false; no other flag or field changes |
| LensCorrectionProfile.LcpInfo.SetCamDataOK | src/aliceVision/lensCorrectionProfile/lcp.hpp:412 | the camera-data flag becomes true; no other flag or field changes |
| LensCorrectionProfile.LcpInfo.UnsetCamDataOK | src/aliceVision/lensCorrectionProfile/lcp.hpp:413 | the camera-data flag becomes false; no other flag or field changes |
| LensCorrectionProfile.LcpInfo.OpenAlternateLensIDs | src/aliceVision/lensCorrectionProfile/lcp.hpp:416 | the alternate-lens-IDs flag becomes true; no other flag or field changes |
| LensCorrectionProfile.LcpInfo.CloseAlternateLensIDs | src/aliceVision/lensCorrectionProfile/lcp.hpp:417 | the alternate-lens-IDs flag becomes false; no other flag or field changes |
| LensCorrectionProfile.LcpInfo.OpenAlternateLensNames | src/aliceVision/lensCorrectionProfile/lcp.hpp:420 | the alternate-lens-names flag becomes true; no other flag or field changes |
| LensCorrectionProfile.LcpInfo.CloseAlternateLensNames | src/aliceVision/lensCorrectionProfile/lcp.hpp:421 | the alternate-lens-names flag becomes false; no other flag or field changes |
| LensCorrectionProfile.LcpInfo.SetWaitPerspModelDescription | src/aliceVision/lensCorrectionProfile/lcp.hpp:424 | the perspective-model-wait flag becomes true; no other flag or field changes |
| LensCorrectionProfile.LcpInfo.UnsetWaitPerspModelDescription | src/aliceVision/lensCorrectionProfile/lcp.hpp:425 | the perspective-model-wait flag becomes false; no other flag or field changes |
| LensCorrectionProfile.LcpInfo.SetGetText | src/aliceVision/lensCorrectionProfile/lcp.hpp:428 | the text-capture flag becomes true; no other flag or field changes |
| LensCorrectionProfile.LcpInfo.UnsetGetText | src/aliceVision/lensCorrectionProfile/lcp.hpp:429 | the text-capture flag becomes false; no other flag or field changes |
| LensCorrectionProfile.LcpInfo.IncreaseModelCount | src/aliceVision/lensCorrectionProfile/lcp.hpp:431-432 | the model counter rises by exactly one; nothing else changes |
| LensCorrectionProfile.LcpInfo.StoreCurrParams | src/aliceVision/lensCorrectionProfile/lcp.hpp:434 | appends a copy of the parameter set in progress after the earlier ones; the count rises by one and the profile is no longer empty |
| LensCorrectionProfile.StoredParamsIgnoreOtherObjects | src/aliceVision/lensCorrectionProfile/lcp.hpp:434-452 | any change that leaves the profile's own fields alone, including any change to the parameter set in progress or its records, leaves the stored sets and their count as they were |
| LensCorrectionProfile.StoredParamsAreCopies | src/aliceVision/lensCorrectionProfile/lcp.hpp:434-452 | an example: after storing, setting the in-progress set's fisheye flag and resetting its perspective record, the stored copy still holds the values from before |

## Left out

- Loading a profile: the filename constructor, `load` and the expat XML handlers (src/aliceVision/lensCorrectionProfile/lcp.hpp:188, src/aliceVision/lensCorrectionProfile/lcp.hpp:196, src/aliceVision/lensCorrectionProfile/lcp.hpp:396-400). Their bodies are not part of this model. The order in which they call the loading-state methods is represented only by `Replay` over an arbitrary call sequence.
- `getDistortionParams`, `getVignettingParams`, `search` and `combine` (src/aliceVision/lensCorrectionProfile/lcp.hpp:204, src/aliceVision/lensCorrectionProfile/lcp.hpp:212, src/aliceVision/lensCorrectionProfile/lcp.hpp:438-439): their bodies are not part of this model, and they interpolate floating-point values.
- `findLCPInfo` (src/aliceVision/lensCorrectionProfile/lcp.hpp:486, src/aliceVision/lensCorrectionProfile/lcp.hpp:502): it walks the filesystem.
- `LensParam::clear` (src/aliceVision/lensCorrectionProfile/lcp.hpp:120): its body is not part of this model.
- LensCorrectionProfile.LcpInfo.constructor: promises nothing about the raw-profile flag, the sensor format factor, or the image width and length, because the source leaves them uninitialised.
- LensCorrectionProfile.LcpInfo.IncreaseModelCount: does not model 32-bit overflow of the counter, because signed overflow is undefined behaviour in the source and is not reached by a profile of realistic size.
- LensCorrectionProfile.LcpInfo.GetModelNumber: does not model the conversion of the vector size (an unsigned `size_t`) to the `int` result. The model returns the exact count, which differs only for more than 2^31 - 1 stored parameter sets.
- Float fields are `real`s: single-precision rounding, NaN and infinities are not modelled. No operation here computes with them.
- ImageIO.ColorTypeInfoOf: covers only the six specialised pixel types. The unspecialised template has no members and is rejected at compile time. That case is not a runtime behaviour.
- ImageIO.MakeImageReadOptions: treats the OpenImageIO region as an opaque value. `Unbounded` stands for the default-constructed region (the whole image). OpenImageIO's own region semantics are not part of this model.
- Image reading and writing, metadata conversion, `getBufferFromImage`, extension checks, OpenColorIO configuration and environment-variable access in src/aliceVision/image/io.hpp: file I/O and external libraries.
- The enum/string converters and stream operators (src/aliceVision/image/io.hpp:45-51, src/aliceVision/image/io.hpp:109-139, src/aliceVision/image/io.hpp:166-170, src/aliceVision/image/io.hpp:185-215): their bodies are not part of this model.
- src/aliceVision/depthMap/cuda/planeSweeping/deviceDepthSimilarityMap.hpp is not part of this model. It only declares GPU kernels, without bodies. The behaviour of the GPU depth/similarity-map stage cannot be read from it.
- src/aliceVision/sfm/pipeline/panorama/ReconstructionEngine_panorama.cpp is not part of this model. It orchestrates external solvers (RANSAC, SVD, bundle adjustment) and writes reports.
