// The two earlier revisions of the laser calibration. Both ignore the image
// they are given and work on an image loaded from a fixed file (here the
// parameter `loaded`); both transpose it, centre it in an N x N zero field
// and take its spectrum. 'auto' does nothing yet, 'man' fits the two
// windows and reports the fits in window-local coordinates, and any other
// mode only prints a message. The first revision fixes N = 2 ** 12; the
// second takes N = 2 ** resolution.

module LegacyCalibration {
  import opened Wrappers
  import opened PyNum
  import opened SpectralCalibration

  /** What a legacy calibration run ends with. The source discards the
      fits; they are kept here so the run can be compared with the current
      revision. */
  datatype LegacyOutcome =
    | AutoSkipped
    | ManualFitted(center: Fit, secondary: Fit)
    | UnknownModeReported

  /** CalibrateLaserMan / GaussManual of the earlier revisions: crop each
      window row-first, fit it, and return the fits without translating
      their positions. */
  function LocalFits(g: Grid, w: Windows, fit: Grid -> Fit): (Fit, Fit) {
    (fit(CropWindow(g, w.cPoint, w.cSize)), fit(CropWindow(g, w.sPoint, w.sSize)))
  }

  /** The current gaussManual differs from the earlier one only in where it
      reports the peaks: the heights are the fitted heights, and a fit at
      window cell (kx, ky) is reported at the spectrum cell the window took
      it from, the window's start plus (kx, ky). */
  lemma {:induction false} LocateAddsWindowOffset(g: Grid, c: Point, s: int, fit: Grid -> Fit,
                                                  kx: nat, ky: nat)
    requires 0 <= s <= 2 * c.x && s <= 2 * c.y
    requires fit(CropWindow(g, c, s)).x == kx as real && fit(CropWindow(g, c, s)).y == ky as real
    ensures Locate(g, c, s, fit)
      == Peak(fit(CropWindow(g, c, s)).height, WindowSpan(c.x, s).0 + kx, WindowSpan(c.y, s).0 + ky)
  {
    ToGlobalInvertsWindow(kx, c.x, s);
    ToGlobalInvertsWindow(ky, c.y, s);
  }

  /** Both revisions fit the same two windows: the current peaks carry the
      earlier fits' heights. */
  lemma GaussManualKeepsLocalHeights(g: Grid, w: Windows, fit: Grid -> Fit)
    ensures GaussManual(g, w, fit).0.height == LocalFits(g, w, fit).0.height
    ensures GaussManual(g, w, fit).1.height == LocalFits(g, w, fit).1.height
  {
  }

  /** The mode dispatch of the earlier revisions, on the spectrum. */
  function LegacyDispatch(spec: Grid, mode: string, manual: Option<Windows>, fit: Grid -> Fit)
    : (r: Result<LegacyOutcome, CalError>)
    ensures r.Failure? <==> mode == "man" && manual.None?
    ensures r.Failure? ==> r.error == MissingWindowArgs
    ensures mode == "auto" ==> r == Success(AutoSkipped)
    ensures mode != "auto" && mode != "man" ==> r == Success(UnknownModeReported)
    ensures r.Success? && r.value.ManualFitted? ==>
      mode == "man" && (r.value.center, r.value.secondary) == LocalFits(spec, manual.value, fit)
  {
    if mode == "auto" then Success(AutoSkipped)
    else if mode == "man" then
      match manual
      case None => Failure(MissingWindowArgs)
      case Some(w) =>
        var fits := LocalFits(spec, w, fit);
        Success(ManualFitted(fits.0, fits.1))
    else Success(UnknownModeReported)
  }

  /** A whole legacy run on the loaded image with field side n. */
  function LegacyRun(loaded: Grid, n: nat, mode: string, manual: Option<Windows>,
                     spectrum: Grid -> Grid, fit: Grid -> Fit): (r: Result<LegacyOutcome, CalError>)
    requires Rect(loaded)
    ensures r.Failure? <==> !Fits(Transpose(loaded), n) || (mode == "man" && manual.None?)
    ensures r.Failure? ==> r.error == if Fits(Transpose(loaded), n) then MissingWindowArgs else ImageTooLarge
    ensures r.Success? ==> (r.value == AutoSkipped <==> mode == "auto")
    ensures r.Success? ==> (r.value == UnknownModeReported <==> mode != "auto" && mode != "man")
    ensures r.Success? && mode == "man" ==>
      var peaks := GaussManual(spectrum(Padded(Transpose(loaded), n)), manual.value, fit);
      && r.value.ManualFitted?
      && r.value.center.height == peaks.0.height && r.value.secondary.height == peaks.1.height
  {
    var t := Transpose(loaded);
    if !Fits(t, n) then Failure(ImageTooLarge)
    else LegacyDispatch(spectrum(Padded(t, n)), mode, manual, fit)
  }

  /** In manual mode the earlier revision (N = 2 ** resolution) and the
      current calibration fit the same windows of the same spectrum: the
      heights agree, and the current one only adds the window offset. */
  lemma {:induction false} LegacyManualAgreesWithCurrent(loaded: Grid, resolution: nat, w: Windows,
                                                         spectrum: Grid -> Grid, fit: Grid -> Fit)
    requires Rect(loaded)
    requires LegacyRun(loaded, Pow2(resolution), "man", Some(w), spectrum, fit).Success?
    ensures Calibration(loaded, "man", resolution, Some(w), spectrum, fit).Success?
    ensures
      var legacy := LegacyRun(loaded, Pow2(resolution), "man", Some(w), spectrum, fit).value;
      var current := Calibration(loaded, "man", resolution, Some(w), spectrum, fit).value;
      && legacy.ManualFitted?
      && current.0.height == legacy.center.height
      && current.1.height == legacy.secondary.height
  {
    var spec := spectrum(Padded(Transpose(loaded), Pow2(resolution)));
    assert Calibration(loaded, "man", resolution, Some(w), spectrum, fit)
        == Success(GaussManual(spec, w, fit));
    GaussManualKeepsLocalHeights(spec, w, fit);
  }

  /** The shared body: transpose, pad in place, transform, dispatch. */
  method LegacyCalibrate(loaded: Grid, n: nat, mode: string, manual: Option<Windows>,
                         spectrum: Grid -> Grid, fit: Grid -> Fit)
    returns (r: Result<LegacyOutcome, CalError>)
    requires Rect(loaded)
    ensures r == LegacyRun(loaded, n, mode, manual, spectrum, fit)
  {
    var image := Transpose(loaded);
    var largeImage := EmbedCentered(image, n);
    if largeImage.Failure? {
      return Failure(largeImage.error);
    }
    var fourier := spectrum(Rows(largeImage.value));
    r := LegacyDispatch(fourier, mode, manual, fit);
  }

  /** The first revision: field side fixed at 2 ** 12; the image argument
      is replaced by the loaded one. */
  method CalibrateLaserFixed(image: Grid, mode: string, manual: Option<Windows>, loaded: Grid,
                             spectrum: Grid -> Grid, fit: Grid -> Fit)
    returns (r: Result<LegacyOutcome, CalError>)
    requires Rect(loaded)
    ensures r.Failure? <==> !Fits(Transpose(loaded), 4096) || (mode == "man" && manual.None?)
    ensures r == LegacyRun(loaded, 4096, mode, manual, spectrum, fit)
  {
    var n := Pow2(12);
    assert n == 4096;
    r := LegacyCalibrate(loaded, n, mode, manual, spectrum, fit);
  }

  /** The second revision, with the manual fit called under its defined
      name: field side 2 ** resolution. */
  method CalibrateLaserMac(image: Grid, mode: string, resolution: int, manual: Option<Windows>,
                           loaded: Grid, spectrum: Grid -> Grid, fit: Grid -> Fit)
    returns (r: Result<LegacyOutcome, CalError>)
    requires Rect(loaded)
    ensures resolution < 0 ==> r == Failure(NegativeResolution)
    ensures resolution >= 0 ==> r == LegacyRun(loaded, Pow2(resolution), mode, manual, spectrum, fit)
  {
    if resolution < 0 {
      return Failure(NegativeResolution);
    }
    var n := Pow2(resolution);
    r := LegacyCalibrate(loaded, n, mode, manual, spectrum, fit);
  }

  /** The second revision as written: its 'man' branch calls GuassManual,
      a name defined nowhere, so every manual run fails once the image has
      been padded. */
  method CalibrateLaserMacAsWritten(image: Grid, mode: string, resolution: int, manual: Option<Windows>,
                                    loaded: Grid, spectrum: Grid -> Grid, fit: Grid -> Fit)
    returns (r: Result<LegacyOutcome, CalError>)
    requires Rect(loaded)
    ensures resolution >= 0 && mode == "man" && Fits(Transpose(loaded), Pow2(resolution)) ==>
      r == Failure(UndefinedFunction)
    ensures mode != "man" ==> r.Success? || r.error != UndefinedFunction
  {
    if resolution < 0 {
      return Failure(NegativeResolution);
    }
    var n := Pow2(resolution);
    var image := Transpose(loaded);
    var largeImage := EmbedCentered(image, n);
    if largeImage.Failure? {
      return Failure(largeImage.error);
    }
    var fourier := spectrum(Rows(largeImage.value));
    if mode == "man" {
      return Failure(UndefinedFunction);
    }
    r := LegacyDispatch(fourier, mode, manual, fit);
  }
}
