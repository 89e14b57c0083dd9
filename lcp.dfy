/**
 * The Lens Correction Profile container: the distortion, vignetting and
 * camera-settings records, the lens parameter set that groups them, and the
 * profile store that an LCP file loader fills one parameter set at a time.
 *
 * Floating-point fields are `real`s that are only stored and compared.
 */
module LensCorrectionProfile {

  // ---------------------------------------------------------------------
  // Model records: values, their declared defaults, and the objects that
  // hold them and are reset in place.
  // ---------------------------------------------------------------------

  /** The camera settings one parameter set applies to. */
  datatype SettingsData = SettingsData(focalLength: real, focusDistance: real, apertureValue: real)

  const DefaultSettings := SettingsData(0.0, 0.0, 0.0)

  /** The pinhole (perspective) distortion model. */
  datatype PerspectiveData = PerspectiveData(
    version: int,
    focalLengthX: real, focalLengthY: real,
    imageXCenter: real, imageYCenter: real,
    residualMeanError: real, residualStandardDeviation: real,
    radialDistortParam1: real, radialDistortParam2: real, radialDistortParam3: real,
    isEmpty: bool)

  const DefaultPerspective := PerspectiveData(-1, 0.0, 0.0, 0.0, 0.0, 0.0, 0.0, 0.0, 0.0, 0.0, true)

  /** The vignetting model. */
  datatype VignetteData = VignetteData(
    focalLengthX: real, focalLengthY: real,
    vignetteModelParam1: real, vignetteModelParam2: real, vignetteModelParam3: real,
    isEmpty: bool)

  const DefaultVignette := VignetteData(0.0, 0.0, 0.0, 0.0, 0.0, true)

  /** The fisheye distortion model. */
  datatype FisheyeData = FisheyeData(
    version: int,
    focalLengthX: real, focalLengthY: real,
    imageXCenter: real, imageYCenter: real,
    residualMeanError: real, residualStandardDeviation: real,
    radialDistortParam1: real, radialDistortParam2: real,
    isEmpty: bool)

  const DefaultFisheye := FisheyeData(-1, 0.0, 0.0, 0.0, 0.0, 0.0, 0.0, 0.0, 0.0, true)

  class SettingsInfo {
    var focalLength: real
    var focusDistance: real
    var apertureValue: real

    function Value(): SettingsData
      reads this
    {
      SettingsData(focalLength, focusDistance, apertureValue)
    }

    constructor ()
      ensures Value() == DefaultSettings
    {
      focalLength, focusDistance, apertureValue := 0.0, 0.0, 0.0;
    }

    /** Restores the default-initialised record, whatever it held. */
    method Reset()
      modifies this
      ensures Value() == DefaultSettings
    {
      focalLength := 0.0;
      focusDistance := 0.0;
      apertureValue := 0.0;
    }
  }

  class PerspectiveModel {
    var version: int
    var focalLengthX: real
    var focalLengthY: real
    var imageXCenter: real
    var imageYCenter: real
    var residualMeanError: real
    var residualStandardDeviation: real
    var radialDistortParam1: real
    var radialDistortParam2: real
    var radialDistortParam3: real
    var isEmpty: bool

    function Value(): PerspectiveData
      reads this
    {
      PerspectiveData(version, focalLengthX, focalLengthY, imageXCenter, imageYCenter,
                      residualMeanError, residualStandardDeviation,
                      radialDistortParam1, radialDistortParam2, radialDistortParam3, isEmpty)
    }

    constructor ()
      ensures Value() == DefaultPerspective
    {
      version := -1;
      focalLengthX, focalLengthY := 0.0, 0.0;
      imageXCenter, imageYCenter := 0.0, 0.0;
      residualMeanError, residualStandardDeviation := 0.0, 0.0;
      radialDistortParam1, radialDistortParam2, radialDistortParam3 := 0.0, 0.0, 0.0;
      isEmpty := true;
    }

    /** Restores the default-initialised record, whatever it held. */
    method Reset()
      modifies this
      ensures Value() == DefaultPerspective
      ensures version == -1 && isEmpty
    {
      version := -1;
      focalLengthX := 0.0;
      focalLengthY := 0.0;
      imageXCenter := 0.0;
      imageYCenter := 0.0;
      residualMeanError := 0.0;
      residualStandardDeviation := 0.0;
      radialDistortParam1 := 0.0;
      radialDistortParam2 := 0.0;
      radialDistortParam3 := 0.0;
      isEmpty := true;
    }
  }

  class VignetteModel {
    var focalLengthX: real
    var focalLengthY: real
    var vignetteModelParam1: real
    var vignetteModelParam2: real
    var vignetteModelParam3: real
    var isEmpty: bool

    function Value(): VignetteData
      reads this
    {
      VignetteData(focalLengthX, focalLengthY,
                   vignetteModelParam1, vignetteModelParam2, vignetteModelParam3, isEmpty)
    }

    constructor ()
      ensures Value() == DefaultVignette
    {
      focalLengthX, focalLengthY := 0.0, 0.0;
      vignetteModelParam1, vignetteModelParam2, vignetteModelParam3 := 0.0, 0.0, 0.0;
      isEmpty := true;
    }

    /** Restores the default-initialised record, whatever it held. */
    method Reset()
      modifies this
      ensures Value() == DefaultVignette
      ensures isEmpty
    {
      focalLengthX := 0.0;
      focalLengthY := 0.0;
      vignetteModelParam1 := 0.0;
      vignetteModelParam2 := 0.0;
      vignetteModelParam3 := 0.0;
      isEmpty := true;
    }
  }

  class FisheyeModel {
    var version: int
    var focalLengthX: real
    var focalLengthY: real
    var imageXCenter: real
    var imageYCenter: real
    var residualMeanError: real
    var residualStandardDeviation: real
    var radialDistortParam1: real
    var radialDistortParam2: real
    var isEmpty: bool

    function Value(): FisheyeData
      reads this
    {
      FisheyeData(version, focalLengthX, focalLengthY, imageXCenter, imageYCenter,
                  residualMeanError, residualStandardDeviation,
                  radialDistortParam1, radialDistortParam2, isEmpty)
    }

    constructor ()
      ensures Value() == DefaultFisheye
    {
      version := -1;
      focalLengthX, focalLengthY := 0.0, 0.0;
      imageXCenter, imageYCenter := 0.0, 0.0;
      residualMeanError, residualStandardDeviation := 0.0, 0.0;
      radialDistortParam1, radialDistortParam2 := 0.0, 0.0;
      isEmpty := true;
    }

    /** Restores the default-initialised record, whatever it held. */
    method Reset()
      modifies this
      ensures Value() == DefaultFisheye
      ensures version == -1 && isEmpty
    {
      version := -1;
      focalLengthX := 0.0;
      focalLengthY := 0.0;
      imageXCenter := 0.0;
      imageYCenter := 0.0;
      residualMeanError := 0.0;
      residualStandardDeviation := 0.0;
      radialDistortParam1 := 0.0;
      radialDistortParam2 := 0.0;
      isEmpty := true;
    }
  }

  /**
   * Two resets in a row leave each record at its default value, which is
   * also what a single reset leaves, since Reset does not depend on what the
   * record held.
   */
  method ResetTwiceIsResetOnce(p: PerspectiveModel, v: VignetteModel, f: FisheyeModel, s: SettingsInfo)
    modifies p, v, f, s
    ensures p.Value() == DefaultPerspective && v.Value() == DefaultVignette
    ensures f.Value() == DefaultFisheye && s.Value() == DefaultSettings
  {
    p.Reset();
    p.Reset();
    v.Reset();
    v.Reset();
    f.Reset();
    f.Reset();
    s.Reset();
    s.Reset();
  }

  // ---------------------------------------------------------------------
  // Lens parameter set
  // ---------------------------------------------------------------------

  /** A copy of a lens parameter set, as stored in a profile. */
  datatype LensParamData = LensParamData(
    fisheyeParams: FisheyeData,
    perspParams: PerspectiveData,
    vignParams: VignetteData,
    camData: SettingsData,
    isFisheye: bool,
    hasVignetteParams: bool)

  const DefaultLensParam := LensParamData(DefaultFisheye, DefaultPerspective, DefaultVignette,
                                          DefaultSettings, false, false)

  /**
   * The distortion, vignetting and settings records for one set of camera
   * settings, and whether the fisheye model and a vignetting model apply.
   */
  class LensParam {
    const fisheyeParams: FisheyeModel
    const perspParams: PerspectiveModel
    const vignParams: VignetteModel
    const camData: SettingsInfo
    var fisheyeStatus: bool
    var vignetteParamsStatus: bool

    function Value(): LensParamData
      reads this, fisheyeParams, perspParams, vignParams, camData
    {
      LensParamData(fisheyeParams.Value(), perspParams.Value(), vignParams.Value(),
                    camData.Value(), fisheyeStatus, vignetteParamsStatus)
    }

    /** A fresh parameter set: default records, neither fisheye nor vignetting. */
    constructor ()
      ensures fresh(fisheyeParams) && fresh(perspParams) && fresh(vignParams) && fresh(camData)
      ensures Value() == DefaultLensParam
      ensures !IsFisheye() && !HasVignetteParams()
    {
      fisheyeParams := new FisheyeModel();
      perspParams := new PerspectiveModel();
      vignParams := new VignetteModel();
      camData := new SettingsInfo();
      fisheyeStatus, vignetteParamsStatus := false, false;
    }

    function IsFisheye(): bool
      reads this
    {
      fisheyeStatus
    }

    function HasVignetteParams(): bool
      reads this
    {
      vignetteParamsStatus
    }

    /** Sets the fisheye flag; the vignetting flag and the records are unchanged. */
    method SetFisheyeStatus(s: bool)
      modifies this
      ensures IsFisheye() == s
      ensures Value() == old(Value()).(isFisheye := s)
    {
      fisheyeStatus := s;
    }

    /** Sets the vignetting flag; the fisheye flag and the records are unchanged. */
    method SetVignetteParamsStatus(s: bool)
      modifies this
      ensures HasVignetteParams() == s
      ensures Value() == old(Value()).(hasVignetteParams := s)
    {
      vignetteParamsStatus := s;
    }
  }

  // ---------------------------------------------------------------------
  // Loading states of the profile parser
  // ---------------------------------------------------------------------

  /** The seven loading-state flags the file parser raises and lowers. */
  datatype LoadingFlag =
    | SequenceOpened
    | CommonOK
    | CamDataOK
    | AlternateLensIDsOpened
    | AlternateLensNamesOpened
    | WaitPerspModelDescription
    | GetText

  /** The values of all loading-state flags. */
  datatype LoadingState = LoadingState(
    seqOpened: bool,
    commonOK: bool,
    camDataOK: bool,
    inAlternateLensIDs: bool,
    inAlternateLensNames: bool,
    waitPerspModelDescription: bool,
    getText: bool)
  {
    function Get(f: LoadingFlag): bool {
      match f
      case SequenceOpened => seqOpened
      case CommonOK => commonOK
      case CamDataOK => camDataOK
      case AlternateLensIDsOpened => inAlternateLensIDs
      case AlternateLensNamesOpened => inAlternateLensNames
      case WaitPerspModelDescription => waitPerspModelDescription
      case GetText => getText
    }

    /** Gives flag `f` the value `v` and every other flag its current value. */
    function Set(f: LoadingFlag, v: bool): (s: LoadingState)
      ensures s.Get(f) == v
      ensures forall g :: g != f ==> s.Get(g) == Get(g)
    {
      match f
      case SequenceOpened => this.(seqOpened := v)
      case CommonOK => this.(commonOK := v)
      case CamDataOK => this.(camDataOK := v)
      case AlternateLensIDsOpened => this.(inAlternateLensIDs := v)
      case AlternateLensNamesOpened => this.(inAlternateLensNames := v)
      case WaitPerspModelDescription => this.(waitPerspModelDescription := v)
      case GetText => this.(getText := v)
    }
  }

  const AllFlagsDown := LoadingState(false, false, false, false, false, false, false)

  /** One call on a loading-state flag: an open/set call or a close/unset call. */
  datatype LoadingCall = Raise(flag: LoadingFlag) | Lower(flag: LoadingFlag)

  /** The loading state after making `calls` in order, starting from `s`. */
  function Replay(s: LoadingState, calls: seq<LoadingCall>): LoadingState
    decreases |calls|
  {
    if calls == [] then s
    else
      var last := calls[|calls| - 1];
      Replay(s, calls[..|calls| - 1]).Set(last.flag, last.Raise?)
  }

  /** Call `i` is the last one in `calls` that names flag `f`. */
  predicate IsLastCallOn(calls: seq<LoadingCall>, f: LoadingFlag, i: int) {
    0 <= i < |calls| && calls[i].flag == f &&
    forall j :: i < j < |calls| ==> calls[j].flag != f
  }

  /** A flag that no call names keeps its starting value. */
  lemma {:induction false} ReplayKeepsUntouchedFlag(s: LoadingState, calls: seq<LoadingCall>, f: LoadingFlag)
    requires forall i :: 0 <= i < |calls| ==> calls[i].flag != f
    ensures Replay(s, calls).Get(f) == s.Get(f)
  {
    if calls != [] {
      var n := |calls| - 1;
      assert calls[n].flag != f;
      ReplayKeepsUntouchedFlag(s, calls[..n], f);
    }
  }

  /** After any sequence of open/close calls, a flag holds the value of the last call that names it. */
  lemma {:induction false} ReplayKeepsLastCall(s: LoadingState, calls: seq<LoadingCall>, f: LoadingFlag, i: int)
    requires IsLastCallOn(calls, f, i)
    ensures Replay(s, calls).Get(f) == calls[i].Raise?
  {
    var n := |calls| - 1;
    if i < n {
      var prefix := calls[..n];
      assert calls[n].flag != f;
      assert IsLastCallOn(prefix, f, i) by {
        forall j | i < j < |prefix| ensures prefix[j].flag != f {
          assert prefix[j] == calls[j];
        }
      }
      ReplayKeepsLastCall(s, prefix, f, i);
    }
  }

  /** Finds the last call on `f` at or after call `i`, which names `f`. */
  lemma {:induction false} LastCallExists(calls: seq<LoadingCall>, f: LoadingFlag, i: int)
    returns (k: int)
    requires 0 <= i < |calls| && calls[i].flag == f
    ensures IsLastCallOn(calls, f, k) && i <= k
    decreases |calls| - i
  {
    if forall j :: i < j < |calls| ==> calls[j].flag != f {
      k := i;
    } else {
      var j :| i < j < |calls| && calls[j].flag == f;
      k := LastCallExists(calls, f, j);
    }
  }

  /** Starting with every flag down, a flag that was never opened or set is still down. */
  lemma {:induction false} UnraisedFlagStaysDown(calls: seq<LoadingCall>, f: LoadingFlag)
    requires forall i :: 0 <= i < |calls| ==> calls[i] != Raise(f)
    ensures !Replay(AllFlagsDown, calls).Get(f)
  {
    if exists i :: 0 <= i < |calls| && calls[i].flag == f {
      var i :| 0 <= i < |calls| && calls[i].flag == f;
      var k := LastCallExists(calls, f, i);
      ReplayKeepsLastCall(AllFlagsDown, calls, f, k);
      assert calls[k] != Raise(f);
    } else {
      ReplayKeepsUntouchedFlag(AllFlagsDown, calls, f);
    }
  }

  // ---------------------------------------------------------------------
  // The profile store
  // ---------------------------------------------------------------------

  /** The camera and lens information common to every parameter set of a profile. */
  datatype ProfileInfo = ProfileInfo(
    author: string,
    make: string,
    model: string,
    uniqueCameraModel: string,
    cameraRawProfile: bool,
    lensIDs: seq<int>,
    lensModels: seq<string>,
    lensInfo: string,
    cameraPrettyName: string,
    lensPrettyName: string,
    profileName: string,
    sensorFormatFactor: real,
    imageWidth: int,
    imageLength: int)

  /**
   * The content of one Lens Correction Profile: the common camera and lens
   * information, the parameter sets read so far, and the parser state used
   * while reading them (loading flags, model counter, parameter set in
   * progress).
   */
  class LcpInfo {
    // Loading states
    var seqOpened: bool
    var commonOK: bool
    var camDataOK: bool
    var inAlternateLensIDs: bool
    var inAlternateLensNames: bool
    var waitPerspModelDescription: bool
    var getText: bool
    var modelCount: int

    /** The parameter set being read; stored by copy. */
    const currLensParam: LensParam

    /** The parameter sets of the profile, in the order they were stored. */
    var lensParams: seq<LensParamData>

    // Camera and lens information
    var author: string
    var make: string
    var model: string
    var uniqueCameraModel: string
    var cameraRawProfile: bool
    var lensIDs: seq<int>
    var lensModels: seq<string>
    var lensInfo: string
    var cameraPrettyName: string
    var lensPrettyName: string
    var profileName: string
    var sensorFormatFactor: real
    var imageWidth: int
    var imageLength: int

    function Info(): ProfileInfo
      reads this
    {
      ProfileInfo(author, make, model, uniqueCameraModel, cameraRawProfile, lensIDs, lensModels,
                  lensInfo, cameraPrettyName, lensPrettyName, profileName,
                  sensorFormatFactor, imageWidth, imageLength)
    }

    function Flags(): LoadingState
      reads this
    {
      LoadingState(seqOpened, commonOK, camDataOK, inAlternateLensIDs, inAlternateLensNames,
                   waitPerspModelDescription, getText)
    }

    /** Neither the loading flags, the model counter nor the stored sets changed. */
    twostate predicate LoaderUnchanged()
      reads this
    {
      Flags() == old(Flags()) && modelCount == old(modelCount) && lensParams == old(lensParams)
    }

    /** The raw-profile flag, the sensor format factor and the image size are
        left uninitialised, so nothing is promised about them. */
    constructor ()
      ensures fresh(currLensParam) && currLensParam.Value() == DefaultLensParam
      ensures fresh(currLensParam.fisheyeParams) && fresh(currLensParam.perspParams)
      ensures fresh(currLensParam.vignParams) && fresh(currLensParam.camData)
      ensures Flags() == AllFlagsDown && modelCount == 0
      ensures lensParams == [] && IsEmpty()
      ensures author == make == model == uniqueCameraModel == lensInfo == ""
      ensures cameraPrettyName == lensPrettyName == profileName == ""
      ensures lensIDs == [] && lensModels == []
    {
      seqOpened, commonOK, camDataOK := false, false, false;
      inAlternateLensIDs, inAlternateLensNames := false, false;
      waitPerspModelDescription, getText := false, false;
      modelCount := 0;
      currLensParam := new LensParam();
      lensParams := [];
      author, make, model, uniqueCameraModel, lensInfo := "", "", "", "", "";
      cameraPrettyName, lensPrettyName, profileName := "", "", "";
      lensIDs, lensModels := [], [];
    }

    /** No lens parameter set is available. */
    function IsEmpty(): (r: bool)
      reads this
      ensures r <==> |lensParams| == 0
    {
      lensParams == []
    }

    /** The number of lens parameter sets available. */
    function GetModelNumber(): (n: int)
      reads this
      ensures n == |lensParams|
      ensures n == 0 <==> IsEmpty()
    {
      |lensParams|
    }

    function GetAuthor(): string reads this { author }
    function GetProfileName(): string reads this { profileName }
    function GetCameraMaker(): string reads this { make }
    function GetCameraModel(): string reads this { model }
    function GetUniqueCameraModel(): string reads this { uniqueCameraModel }
    function GetCameraPrettyName(): string reads this { cameraPrettyName }
    function GetLensPrettyName(): string reads this { lensPrettyName }
    function GetLensInfo(): string reads this { lensInfo }
    function GetImageWidth(): int reads this { imageWidth }
    function GetImageLength(): int reads this { imageLength }
    function GetSensorFormatFactor(): real reads this { sensorFormatFactor }
    function IsRawProfile(): bool reads this { cameraRawProfile }

    /** Copies out every known lens ID, in the order they were added. */
    method GetLensIDs() returns (ids: seq<int>)
      ensures ids == Info().lensIDs
    {
      ids := lensIDs;
    }

    /** Copies out every known lens model name, in the order they were added. */
    method GetLensModels() returns (names: seq<string>)
      ensures names == Info().lensModels
    {
      names := lensModels;
    }

    method SetAuthor(str: string)
      modifies this
      ensures GetAuthor() == str && Info() == old(Info()).(author := str) && LoaderUnchanged()
    {
      author := str;
    }

    method SetProfileName(str: string)
      modifies this
      ensures GetProfileName() == str && Info() == old(Info()).(profileName := str) && LoaderUnchanged()
    {
      profileName := str;
    }

    method SetCameraMaker(str: string)
      modifies this
      ensures GetCameraMaker() == str && Info() == old(Info()).(make := str) && LoaderUnchanged()
    {
      make := str;
    }

    method SetCameraModel(str: string)
      modifies this
      ensures GetCameraModel() == str && Info() == old(Info()).(model := str) && LoaderUnchanged()
    {
      model := str;
    }

    method SetUniqueCameraModel(str: string)
      modifies this
      ensures GetUniqueCameraModel() == str && Info() == old(Info()).(uniqueCameraModel := str)
      ensures LoaderUnchanged()
    {
      uniqueCameraModel := str;
    }

    method SetCameraPrettyName(str: string)
      modifies this
      ensures GetCameraPrettyName() == str && Info() == old(Info()).(cameraPrettyName := str)
      ensures LoaderUnchanged()
    {
      cameraPrettyName := str;
    }

    method SetLensPrettyName(str: string)
      modifies this
      ensures GetLensPrettyName() == str && Info() == old(Info()).(lensPrettyName := str)
      ensures LoaderUnchanged()
    {
      lensPrettyName := str;
    }

    method SetLensInfo(str: string)
      modifies this
      ensures GetLensInfo() == str && Info() == old(Info()).(lensInfo := str) && LoaderUnchanged()
    {
      lensInfo := str;
    }

    /** Appends an alternate lens ID; earlier IDs keep their places. */
    method AddLensID(lensID: int)
      modifies this
      ensures Info() == old(Info()).(lensIDs := old(lensIDs) + [lensID]) && LoaderUnchanged()
    {
      lensIDs := lensIDs + [lensID];
    }

    /** Appends an alternate lens model name; earlier names keep their places. */
    method AddLensModel(lensModel: string)
      modifies this
      ensures Info() == old(Info()).(lensModels := old(lensModels) + [lensModel]) && LoaderUnchanged()
    {
      lensModels := lensModels + [lensModel];
    }

    method SetImageWidth(w: int)
      modifies this
      ensures GetImageWidth() == w && Info() == old(Info()).(imageWidth := w) && LoaderUnchanged()
    {
      imageWidth := w;
    }

    method SetImageLength(l: int)
      modifies this
      ensures GetImageLength() == l && Info() == old(Info()).(imageLength := l) && LoaderUnchanged()
    {
      imageLength := l;
    }

    method SetSensorFormatFactor(f: real)
      modifies this
      ensures GetSensorFormatFactor() == f && Info() == old(Info()).(sensorFormatFactor := f)
      ensures LoaderUnchanged()
    {
      sensorFormatFactor := f;
    }

    /** Marks the profile as made for raw images; there is no way back. */
    method SetAsRawProfile()
      modifies this
      ensures IsRawProfile() && Info() == old(Info()).(cameraRawProfile := true) && LoaderUnchanged()
    {
      cameraRawProfile := true;
    }

    // Loading states control

    function IsSeqOpened(): bool reads this { seqOpened }
    function IsCommonOK(): bool reads this { commonOK }
    function IsCamDataOK(): bool reads this { camDataOK }
    function IsAlternateLensIDsOpened(): bool reads this { inAlternateLensIDs }
    function IsAlternateLensNamesOpened(): bool reads this { inAlternateLensNames }
    function IsWaitPerspModelDescription(): bool reads this { waitPerspModelDescription }
    function IsGetText(): bool reads this { getText }

    method OpenSequence()
      modifies this
      ensures IsSeqOpened() && Flags() == old(Flags()).Set(SequenceOpened, true)
      ensures Info() == old(Info()) && modelCount == old(modelCount) && lensParams == old(lensParams)
    {
      seqOpened := true;
    }

    method CloseSequence()
      modifies this
      ensures !IsSeqOpened() && Flags() == old(Flags()).Set(SequenceOpened, false)
      ensures Info() == old(Info()) && modelCount == old(modelCount) && lensParams == old(lensParams)
    {
      seqOpened := false;
    }

    method SetCommonOK()
      modifies this
      ensures IsCommonOK() && Flags() == old(Flags()).Set(CommonOK, true)
      ensures Info() == old(Info()) && modelCount == old(modelCount) && lensParams == old(lensParams)
    {
      commonOK := true;
    }

    method UnsetCommonOK()
      modifies this
      ensures !IsCommonOK() && Flags() == old(Flags()).Set(CommonOK, false)
      ensures Info() == old(Info()) && modelCount == old(modelCount) && lensParams == old(lensParams)
    {
      commonOK := false;
    }

    method SetCamDataOK()
      modifies this
      ensures IsCamDataOK() && Flags() == old(Flags()).Set(CamDataOK, true)
      ensures Info() == old(Info()) && modelCount == old(modelCount) && lensParams == old(lensParams)
    {
      camDataOK := true;
    }

    method UnsetCamDataOK()
      modifies this
      ensures !IsCamDataOK() && Flags() == old(Flags()).Set(CamDataOK, false)
      ensures Info() == old(Info()) && modelCount == old(modelCount) && lensParams == old(lensParams)
    {
      camDataOK := false;
    }

    method OpenAlternateLensIDs()
      modifies this
      ensures IsAlternateLensIDsOpened() && Flags() == old(Flags()).Set(AlternateLensIDsOpened, true)
      ensures Info() == old(Info()) && modelCount == old(modelCount) && lensParams == old(lensParams)
    {
      inAlternateLensIDs := true;
    }

    method CloseAlternateLensIDs()
      modifies this
      ensures !IsAlternateLensIDsOpened() && Flags() == old(Flags()).Set(AlternateLensIDsOpened, false)
      ensures Info() == old(Info()) && modelCount == old(modelCount) && lensParams == old(lensParams)
    {
      inAlternateLensIDs := false;
    }

    method OpenAlternateLensNames()
      modifies this
      ensures IsAlternateLensNamesOpened() && Flags() == old(Flags()).Set(AlternateLensNamesOpened, true)
      ensures Info() == old(Info()) && modelCount == old(modelCount) && lensParams == old(lensParams)
    {
      inAlternateLensNames := true;
    }

    method CloseAlternateLensNames()
      modifies this
      ensures !IsAlternateLensNamesOpened() && Flags() == old(Flags()).Set(AlternateLensNamesOpened, false)
      ensures Info() == old(Info()) && modelCount == old(modelCount) && lensParams == old(lensParams)
    {
      inAlternateLensNames := false;
    }

    method SetWaitPerspModelDescription()
      modifies this
      ensures IsWaitPerspModelDescription() && Flags() == old(Flags()).Set(WaitPerspModelDescription, true)
      ensures Info() == old(Info()) && modelCount == old(modelCount) && lensParams == old(lensParams)
    {
      waitPerspModelDescription := true;
    }

    method UnsetWaitPerspModelDescription()
      modifies this
      ensures !IsWaitPerspModelDescription() && Flags() == old(Flags()).Set(WaitPerspModelDescription, false)
      ensures Info() == old(Info()) && modelCount == old(modelCount) && lensParams == old(lensParams)
    {
      waitPerspModelDescription := false;
    }

    method SetGetText()
      modifies this
      ensures IsGetText() && Flags() == old(Flags()).Set(GetText, true)
      ensures Info() == old(Info()) && modelCount == old(modelCount) && lensParams == old(lensParams)
    {
      getText := true;
    }

    method UnsetGetText()
      modifies this
      ensures !IsGetText() && Flags() == old(Flags()).Set(GetText, false)
      ensures Info() == old(Info()) && modelCount == old(modelCount) && lensParams == old(lensParams)
    {
      getText := false;
    }

    function GetModelCount(): int reads this { modelCount }

    /** Adds exactly one to the model counter; nothing else changes. */
    method IncreaseModelCount()
      modifies this
      ensures GetModelCount() == old(GetModelCount()) + 1
      ensures Info() == old(Info()) && Flags() == old(Flags()) && lensParams == old(lensParams)
    {
      modelCount := modelCount + 1;
    }

    /**
     * Appends a copy of the parameter set in progress after the stored ones,
     * which keep their places; the profile is then not empty.
     */
    method StoreCurrParams()
      modifies this
      ensures lensParams == old(lensParams) + [currLensParam.Value()]
      ensures GetModelNumber() == old(GetModelNumber()) + 1 && !IsEmpty()
      ensures Info() == old(Info()) && Flags() == old(Flags()) && modelCount == old(modelCount)
    {
      lensParams := lensParams + [currLensParam.Value()];
    }
  }

  /**
   * The stored parameter sets are values held by the profile itself: any
   * change that leaves the profile's own fields alone, such as any change to
   * the parameter set in progress or to its four records, leaves every
   * stored set as it was.
   */
  twostate lemma StoredParamsIgnoreOtherObjects(info: LcpInfo)
    requires unchanged(info)
    ensures info.lensParams == old(info.lensParams)
    ensures info.GetModelNumber() == old(info.GetModelNumber())
  {
  }

  /**
   * An example of the above: store the parameter set in progress, then mark
   * it fisheye and reset its perspective record, as the parser does when it
   * moves on to the next set; the stored copy keeps the old values.
   */
  method StoredParamsAreCopies(info: LcpInfo)
    modifies info, info.currLensParam, info.currLensParam.perspParams
    ensures |info.lensParams| == |old(info.lensParams)| + 1
    ensures info.lensParams[|info.lensParams| - 1] == old(info.currLensParam.Value())
    ensures info.currLensParam.IsFisheye() && info.currLensParam.perspParams.Value() == DefaultPerspective
  {
    info.StoreCurrParams();
    info.currLensParam.SetFisheyeStatus(true);
    info.currLensParam.perspParams.Reset();
  }
}
