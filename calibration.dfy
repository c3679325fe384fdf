// The index arithmetic around the laser calibration's numerics: centring an
// image inside an N x N zero field, cropping row-first windows out of the
// spectrum, translating window-local fit coordinates back to spectrum
// coordinates, the preset windows per resolution, and the proportional
// current rescale. The Fourier transform and the 2-D Gaussian fit are not
// modelled: they reach this module as function parameters.

module SpectralCalibration {
  import opened Wrappers
  import opened PyNum

  /** A 2-D array of floats, row by row. */
  type Grid = seq<seq<real>>

  datatype CalError =
    | NegativeResolution     // 2 ** resolution is a float; np.zeros refuses it
    | ImageTooLarge          // the slice assignment cannot broadcast the image
    | UnsupportedResolution  // gaussAuto has presets only for 11 and 12
    | MissingWindowArgs      // 'man' without the four window arguments
    | UnknownMode            // neither 'auto' nor 'man'
    | ZeroSecondaryHeight    // 0.9 / 0.0
    | NoCurrent              // the laser's current was never set
    | UndefinedFunction      // a call through a misspelt function name

  /** Number of columns (of the first row). */
  function Width(g: Grid): nat {
    if |g| == 0 then 0 else |g[0]|
  }

  /** Every row has the same length, as in a numpy 2-D array. */
  predicate Rect(g: Grid) {
    forall i :: 0 <= i < |g| ==> |g[i]| == Width(g)
  }

  /** np.transpose of a 2-D array. */
  function Transpose(g: Grid): (t: Grid)
    requires Rect(g)
    ensures Rect(t) && |t| == Width(g)
    ensures |t| > 0 ==> Width(t) == |g|
    ensures forall i, j :: 0 <= i < |t| && 0 <= j < |g| ==> t[i][j] == g[j][i]
  {
    seq(Width(g), i requires 0 <= i < Width(g) =>
      seq(|g|, j requires 0 <= j < |g| => g[j][i]))
  }

  // ---------------------------------------------------------------------
  // Padding: the image is written into rows [int((N-x)/2), int((N+x)/2))
  // and columns [int((N-y)/2), int((N+y)/2)) of an N x N zero field.

  /** The half-open range int((n - x) / 2) .. int((n + x) / 2): for an image
      extent that fits, exactly x cells inside 0 .. n. */
  function CentredSpan(n: int, x: int): (b: (int, int))
    ensures 0 <= x <= n ==> 0 <= b.0 && b.1 - b.0 == x && b.1 <= n
  {
    (TruncHalf(n - x), TruncHalf(n + x))
  }

  predicate Fits(img: Grid, n: int) {
    |img| <= n && Width(img) <= n
  }

  /** Cell (i, j) of the N x N field after the block write. */
  function PaddedAt(img: Grid, n: int, i: int, j: int): real
    requires Rect(img) && Fits(img, n)
  {
    var rows := CentredSpan(n, |img|);
    var cols := CentredSpan(n, Width(img));
    if rows.0 <= i < rows.1 && cols.0 <= j < cols.1 then img[i - rows.0][j - cols.0]
    else 0.0
  }

  /** The whole N x N field that the Fourier transform receives. */
  function Padded(img: Grid, n: nat): (f: Grid)
    requires Rect(img) && Fits(img, n)
    ensures |f| == n && Rect(f) && (n > 0 ==> Width(f) == n)
  {
    seq(n, i requires 0 <= i < n => seq(n, j requires 0 <= j < n => PaddedAt(img, n, i, j)))
  }

  /** Outside the centred block every cell of the field is zero. */
  lemma PaddedZeroOutside(img: Grid, n: nat, i: int, j: int)
    requires Rect(img) && Fits(img, n) && 0 <= i < n && 0 <= j < n
    requires !(CentredSpan(n, |img|).0 <= i < CentredSpan(n, |img|).1)
          || !(CentredSpan(n, Width(img)).0 <= j < CentredSpan(n, Width(img)).1)
    ensures Padded(img, n)[i][j] == 0.0
  {
  }

  // ---------------------------------------------------------------------
  // Cropping with numpy's basic-slice semantics.

  function Clamp(k: int, len: nat): (c: nat)
    ensures c <= len
  {
    if k < 0 then 0 else if k > len then len else k
  }

  /** The cells a[lo:hi] actually selects from a sequence of length len:
      negative bounds count from the end, everything is clipped to 0 .. len,
      and a stop before the start gives an empty slice. */
  function SliceBounds(lo: int, hi: int, len: nat): (b: (nat, nat))
    ensures b.0 <= b.1 <= len
    ensures 0 <= lo <= hi <= len ==> b == (lo, hi)
  {
    var a := Clamp(if lo < 0 then lo + len else lo, len);
    var z := Clamp(if hi < 0 then hi + len else hi, len);
    if z < a then (a, a) else (a, z)
  }

  function SliceRow(row: seq<real>, cols: (int, int)): (s: seq<real>)
    ensures 0 <= cols.0 <= cols.1 <= |row| ==> s == row[cols.0..cols.1]
  {
    var b := SliceBounds(cols.0, cols.1, |row|);
    row[b.0..b.1]
  }

  /** g[rows.0 : rows.1, cols.0 : cols.1]. */
  function Crop(g: Grid, rows: (int, int), cols: (int, int)): (w: Grid)
    ensures 0 <= rows.0 <= rows.1 <= |g| ==> |w| == rows.1 - rows.0
    ensures Rect(g) && 0 <= rows.0 <= rows.1 <= |g| && 0 <= cols.0 <= cols.1 <= Width(g) ==>
      forall i :: 0 <= i < |w| ==> w[i] == g[rows.0 + i][cols.0..cols.1]
  {
    var b := SliceBounds(rows.0, rows.1, |g|);
    var w := seq(b.1 - b.0, i requires 0 <= i < b.1 - b.0 => SliceRow(g[b.0 + i], cols));
    assert 0 <= rows.0 <= rows.1 <= |g| ==> b.0 == rows.0 && b.1 == rows.1;
    assert forall i :: 0 <= i < |w| ==> w[i] == SliceRow(g[b.0 + i], cols);
    w
  }

  /** Cutting the centred block back out of the padded field returns the
      image unchanged. */
  lemma {:induction false} CropOfPaddedIsImage(img: Grid, n: nat)
    requires Rect(img) && Fits(img, n)
    ensures Crop(Padded(img, n), CentredSpan(n, |img|), CentredSpan(n, Width(img))) == img
  {
    var f := Padded(img, n);
    var rows := CentredSpan(n, |img|);
    var cols := CentredSpan(n, Width(img));
    var w := Crop(f, rows, cols);
    assert |w| == |img|;
    forall i | 0 <= i < |img| ensures w[i] == img[i] {
      assert w[i] == f[rows.0 + i][cols.0..cols.1];
      forall j | 0 <= j < |img[i]| ensures w[i][j] == img[i][j] {
        assert f[rows.0 + i][cols.0 + j] == PaddedAt(img, n, rows.0 + i, cols.0 + j);
      }
    }
  }

  // ---------------------------------------------------------------------
  // Crop windows and coordinate translation.

  datatype Point = Point(x: int, y: int)

  /** [int(p - s/2), int(p + s/2)): since p - s/2 == (2p - s)/2, this is
      Python's truncating division of 2p -+ s by two. */
  function WindowSpan(p: int, s: int): (b: (int, int))
    ensures 0 <= s <= 2 * p ==> 0 <= b.0 && b.1 - b.0 == s
  {
    (TruncHalf(2 * p - s), TruncHalf(2 * p + s))
  }

  /** The window of side s around c: rows come from the y coordinate and
      are cut first, columns from the x coordinate. */
  function CropWindow(g: Grid, c: Point, s: int): Grid {
    Crop(g, WindowSpan(c.y, s), WindowSpan(c.x, s))
  }

  /** A window lying inside the spectrum has exactly s rows of s cells, and
      its cell (i, j) is the spectrum's cell (row lo + i, column lo' + j). */
  lemma WindowShape(g: Grid, c: Point, s: int)
    requires Rect(g) && 0 <= s <= 2 * c.x && s <= 2 * c.y
    requires WindowSpan(c.y, s).1 <= |g| && WindowSpan(c.x, s).1 <= Width(g)
    ensures |CropWindow(g, c, s)| == s
    ensures forall i :: 0 <= i < s ==> |CropWindow(g, c, s)[i]| == s
    ensures forall i, j :: 0 <= i < s && 0 <= j < s ==>
      CropWindow(g, c, s)[i][j] == g[WindowSpan(c.y, s).0 + i][WindowSpan(c.x, s).0 + j]
  {
  }

  /** int(local + p - s/2): a window-local fit coordinate in spectrum
      coordinates. */
  function ToGlobal(local: real, p: int, s: int): (t: int)
    ensures 0 < s <= 2 * p && 0.0 <= local <= (s - 1) as real ==> WindowSpan(p, s).0 <= t < WindowSpan(p, s).1
  {
    TruncReal(local + p as real - s as real / 2.0)
  }

  /** Translating window index k back gives exactly the spectrum index the
      window took that cell from, for odd and even sides alike. */
  lemma {:induction false} ToGlobalInvertsWindow(k: nat, p: int, s: int)
    requires 0 <= s <= 2 * p
    ensures ToGlobal(k as real, p, s) == WindowSpan(p, s).0 + k
  {
    var lo := WindowSpan(p, s).0;
    var v := k as real + p as real - s as real / 2.0;
    assert 2 * lo == 2 * p - s || 2 * lo == 2 * p - s - 1;
    assert (lo + k) as real <= v < (lo + k) as real + 1.0;
    var t := ToGlobal(k as real, p, s);
    assert t as real <= v < t as real + 1.0;
  }

  /** The translated coordinates of an integral fit position address the very
      spectrum cell the fitter saw at that position of the window. */
  lemma TranslatedCellIsWindowCell(g: Grid, c: Point, s: int, kx: nat, ky: nat)
    requires Rect(g) && 0 <= s <= 2 * c.x && s <= 2 * c.y
    requires WindowSpan(c.y, s).1 <= |g| && WindowSpan(c.x, s).1 <= Width(g)
    requires kx < s && ky < s
    ensures 0 <= ToGlobal(ky as real, c.y, s) < |g|
    ensures 0 <= ToGlobal(kx as real, c.x, s) < Width(g)
    ensures CropWindow(g, c, s)[ky][kx] == g[ToGlobal(ky as real, c.y, s)][ToGlobal(kx as real, c.x, s)]
  {
    WindowShape(g, c, s);
    ToGlobalInvertsWindow(kx, c.x, s);
    ToGlobalInvertsWindow(ky, c.y, s);
  }

  // ---------------------------------------------------------------------
  // Peak location.

  /** What the Gaussian fitter reports for a window: height and the peak
      position in window coordinates. */
  datatype Fit = Fit(height: real, x: real, y: real)

  /** A located peak: height and spectrum coordinates. */
  datatype Peak = Peak(height: real, x: int, y: int)

  /** The four manual window arguments: centre point, secondary point and
      the two window sides. */
  datatype Windows = Windows(cPoint: Point, sPoint: Point, cSize: int, sSize: int)

  /** Fit one window and translate the fitted position back. A peak the
      fitter places inside its window is reported inside that window's span
      of the spectrum. */
  function Locate(g: Grid, c: Point, s: int, fit: Grid -> Fit): (r: Peak)
    ensures r.height == fit(CropWindow(g, c, s)).height
    ensures var f := fit(CropWindow(g, c, s));
      0 < s <= 2 * c.x && s <= 2 * c.y && 0.0 <= f.x <= (s - 1) as real && 0.0 <= f.y <= (s - 1) as real ==>
        && WindowSpan(c.x, s).0 <= r.x < WindowSpan(c.x, s).1
        && WindowSpan(c.y, s).0 <= r.y < WindowSpan(c.y, s).1
  {
    var f := fit(CropWindow(g, c, s));
    Peak(f.height, ToGlobal(f.x, c.x, s), ToGlobal(f.y, c.y, s))
  }

  /** gaussManual: fit each window and translate the positions back. */
  function GaussManual(g: Grid, w: Windows, fit: Grid -> Fit): (r: (Peak, Peak))
    ensures r.0.height == fit(CropWindow(g, w.cPoint, w.cSize)).height
    ensures r.1.height == fit(CropWindow(g, w.sPoint, w.sSize)).height
  {
    (Locate(g, w.cPoint, w.cSize, fit), Locate(g, w.sPoint, w.sSize, fit))
  }

  function Doubled(w: Windows): Windows {
    Windows(Point(2 * w.cPoint.x, 2 * w.cPoint.y), Point(2 * w.sPoint.x, 2 * w.sPoint.y),
            2 * w.cSize, 2 * w.sSize)
  }

  /** The preset windows gaussAuto uses, keyed by resolution. */
  function AutoWindows(resolution: int): (w: Option<Windows>)
    ensures w.Some? <==> resolution == 11 || resolution == 12
  {
    if resolution == 11 then Some(Windows(Point(1025, 1025), Point(950, 1025), 85, 34))
    else if resolution == 12 then Some(Windows(Point(2050, 2050), Point(1900, 2050), 170, 68))
    else None
  }

  /** The resolution-12 presets are the resolution-11 presets doubled, as the
      field side 2 ** resolution doubles. */
  lemma AutoWindowsScaleWithField()
    ensures AutoWindows(12) == Some(Doubled(AutoWindows(11).value))
  {
  }

  /** gaussAuto: gaussManual with the preset windows; no result for any
      resolution without presets. */
  function GaussAuto(g: Grid, resolution: int, fit: Grid -> Fit): (r: Option<(Peak, Peak)>)
    ensures r.Some? <==> resolution == 11 || resolution == 12
    ensures r.Some? ==> r.value == GaussManual(g, AutoWindows(resolution).value, fit)
  {
    match AutoWindows(resolution)
    case None => None
    case Some(w) => Some(GaussManual(g, w, fit))
  }

  /** The mode dispatch of calibrateLaser ('auto' or 'man', compared as
      given). */
  function LocatePeaks(g: Grid, mode: string, resolution: int, manual: Option<Windows>,
                       fit: Grid -> Fit): (r: Result<(Peak, Peak), CalError>)
    ensures r.Success? ==> mode == "auto" || mode == "man"
    ensures mode == "man" && manual.Some? ==> r == Success(GaussManual(g, manual.value, fit))
    ensures mode == "auto" ==> (r.Success? <==> resolution == 11 || resolution == 12)
    ensures mode == "auto" && r.Success? ==> r.value == GaussAuto(g, resolution, fit).value
    ensures mode == "man" && manual.None? ==> r == Failure(MissingWindowArgs)
    ensures mode != "auto" && mode != "man" ==> r == Failure(UnknownMode)
  {
    if mode == "auto" then
      match GaussAuto(g, resolution, fit)
      case None => Failure(UnsupportedResolution)
      case Some(peaks) => Success(peaks)
    else if mode == "man" then
      match manual
      case None => Failure(MissingWindowArgs)
      case Some(w) => Success(GaussManual(g, w, fit))
    else Failure(UnknownMode)
  }

  /** calibrateLaser as written hands gaussAuto the field side
      N = 2 ** resolution where gaussAuto expects the resolution. */
  function LocatePeaksAsWritten(g: Grid, mode: string, resolution: nat, manual: Option<Windows>,
                                fit: Grid -> Fit): (r: Result<(Peak, Peak), CalError>)
    ensures mode == "auto" ==> r == Failure(UnsupportedResolution)
    ensures mode != "auto" ==> r == LocatePeaks(g, mode, resolution, manual, fit)
  {
    Pow2NeverElevenOrTwelve(resolution);
    LocatePeaks(g, mode, Pow2(resolution), manual, fit)
  }

  lemma {:induction false} Pow2AtLeastSixteen(n: nat)
    requires n >= 4
    ensures Pow2(n) >= 16
  {
    if n > 4 {
      Pow2AtLeastSixteen(n - 1);
    }
  }

  /** No power of two is 11 or 12. */
  lemma {:induction false} Pow2NeverElevenOrTwelve(n: nat)
    ensures Pow2(n) != 11 && Pow2(n) != 12
  {
    if n >= 4 {
      Pow2AtLeastSixteen(n);
    } else {
      assert Pow2(n) in {1, 2, 4, 8} by {
        assert Pow2(0) == 1 && Pow2(1) == 2 && Pow2(2) == 4 && Pow2(3) == 8;
      }
    }
  }

  /** As written, auto mode finds no peaks at any resolution, while the
      dispatch given the resolution itself finds them at 11 and 12. */
  lemma {:induction false} AutoModeAsWrittenNeverLocates(g: Grid, resolution: nat, manual: Option<Windows>,
                                                         fit: Grid -> Fit)
    ensures LocatePeaksAsWritten(g, "auto", resolution, manual, fit) == Failure(UnsupportedResolution)
    ensures resolution == 11 || resolution == 12 ==> LocatePeaks(g, "auto", resolution, manual, fit).Success?
  {
    Pow2NeverElevenOrTwelve(resolution);
  }

  /** calibrateLaser up to the rescale: transpose, pad to 2 ** resolution,
      transform, locate both peaks. */
  function Calibration(image: Grid, mode: string, resolution: int, manual: Option<Windows>,
                       spectrum: Grid -> Grid, fit: Grid -> Fit): (r: Result<(Peak, Peak), CalError>)
    requires Rect(image)
    ensures resolution < 0 ==> r == Failure(NegativeResolution)
    ensures resolution >= 0 && !Fits(Transpose(image), Pow2(resolution)) ==> r == Failure(ImageTooLarge)
    ensures r.Success? ==> resolution >= 0 && Width(image) <= Pow2(resolution)
    ensures r.Success? && Width(image) > 0 ==> |image| <= Pow2(resolution)
  {
    if resolution < 0 then Failure(NegativeResolution)
    else
      var n := Pow2(resolution);
      var t := Transpose(image);
      if !Fits(t, n) then Failure(ImageTooLarge)
      else LocatePeaks(spectrum(Padded(t, n)), mode, resolution, manual, fit)
  }

  // ---------------------------------------------------------------------
  // The single-step proportional correction.

  datatype Correction = Correction(center: Peak, secondary: Peak, newCurrent: real)

  /** scale = 0.9 / secondary height, applied to both heights and to the
      current; positions are kept. */
  function Rescale(center: Peak, secondary: Peak, current: real): (c: Correction)
    requires secondary.height != 0.0
    ensures c.secondary == secondary.(height := 0.9)
    ensures c.center.x == center.x && c.center.y == center.y
    ensures c.center.height * secondary.height == 0.9 * center.height
    ensures c.newCurrent * secondary.height == 0.9 * current
  {
    var scale := 0.9 / secondary.height;
    Correction(center.(height := scale * center.height),
               secondary.(height := scale * secondary.height),
               scale * current)
  }

  // ---------------------------------------------------------------------
  // The in-place block write.

  /** The contents of a 2-D array, row by row. */
  function Rows(a: array2<real>): (g: Grid)
    reads a
    ensures |g| == a.Length0
    ensures forall i :: 0 <= i < a.Length0 ==> |g[i]| == a.Length1
    ensures forall i, j :: 0 <= i < a.Length0 && 0 <= j < a.Length1 ==> g[i][j] == a[i, j]
  {
    seq(a.Length0, i requires 0 <= i < a.Length0 reads a =>
      seq(a.Length1, j requires 0 <= j < a.Length1 reads a => a[i, j]))
  }

  /** largeImage = np.zeros((N, N)); largeImage[rows, cols] = image. */
  method EmbedCentered(img: Grid, n: nat) returns (r: Result<array2<real>, CalError>)
    requires Rect(img)
    ensures r.Success? <==> Fits(img, n)
    ensures r.Failure? ==> r.error == ImageTooLarge
    ensures r.Success? ==> fresh(r.value) && Rows(r.value) == Padded(img, n)
  {
    var a := new real[n, n]((i, j) => 0.0);
    var x, y := |img|, Width(img);
    if x > n || y > n {
      return Failure(ImageTooLarge);
    }
    var rows := CentredSpan(n, x);
    var cols := CentredSpan(n, y);
    var r0, c0 := rows.0, cols.0;
    var i := 0;
    while i < x
      invariant 0 <= i <= x
      invariant forall p, q :: 0 <= p < n && 0 <= q < n ==>
        a[p, q] == if r0 <= p < r0 + i && c0 <= q < c0 + y then img[p - r0][q - c0] else 0.0
    {
      var j := 0;
      while j < y
        invariant 0 <= j <= y
        invariant forall p, q :: 0 <= p < n && 0 <= q < n ==>
          a[p, q] == if (r0 <= p < r0 + i && c0 <= q < c0 + y) || (p == r0 + i && c0 <= q < c0 + j)
                     then img[p - r0][q - c0] else 0.0
      {
        a[r0 + i, c0 + j] := img[i][j];
        j := j + 1;
      }
      i := i + 1;
    }
    var g := Rows(a);
    assert forall p, q :: 0 <= p < n && 0 <= q < n ==> g[p][q] == PaddedAt(img, n, p, q);
    forall p | 0 <= p < n ensures g[p] == Padded(img, n)[p] {
      assert |g[p]| == |Padded(img, n)[p]|;
    }
    return Success(a);
  }
}
