// The camera module: averaged exposures, dark frames, and the start-up and
// shut-down sequences, all driven through the controller's dispatcher. The
// frames the camera delivers are given by an oracle indexed by exposure
// number.

module CcdCamera {
  import opened Wrappers
  import opened PyText
  import opened CameraCtrl

  /** range(num) has this many elements. */
  function Count(num: int): (c: nat)
    ensures num >= 0 ==> c == num
    ensures num < 0 ==> c == 0
  {
    if num > 0 then num else 0
  }

  predicate HasShape(f: Frame, rows: int, cols: int) {
    |f| == rows && forall i :: 0 <= i < |f| ==> |f[i]| == cols
  }

  /** The first k frames all have the given shape. */
  predicate AllShaped(frames: nat -> Frame, k: nat, rows: int, cols: int) {
    forall t :: 0 <= t < k ==> HasShape(frames(t), rows, cols)
  }

  /** Pixel (i, j) summed over the first k frames. */
  function FrameSum(frames: nat -> Frame, k: nat, i: nat, j: nat): int
    requires forall t :: 0 <= t < k ==> i < |frames(t)| && j < |frames(t)[i]|
  {
    if k == 0 then 0 else FrameSum(frames, k - 1, i, j) + frames(k - 1)[i][j]
  }

  /** Pixel (i, j) of (1 / num) * the sum of the first range(num) frames. */
  function Mean(frames: nat -> Frame, num: int, i: nat, j: nat): (m: real)
    requires num != 0
    requires forall t :: 0 <= t < Count(num) ==> i < |frames(t)| && j < |frames(t)[i]|
    ensures num < 0 ==> m == 0.0
  {
    FrameSum(frames, Count(num), i, j) as real / num as real
  }

  lemma {:induction false} FrameSumOfRepeatedFrame(frames: nat -> Frame, k: nat, f: Frame, i: nat, j: nat)
    requires forall t :: 0 <= t < k ==> frames(t) == f
    requires i < |f| && j < |f[i]|
    ensures FrameSum(frames, k, i, j) == k * f[i][j]
  {
    if k > 0 {
      FrameSumOfRepeatedFrame(frames, k - 1, f, i, j);
    }
  }

  /** Averaging num copies of the same frame gives that frame back. */
  lemma {:induction false} MeanOfRepeatedFrame(frames: nat -> Frame, num: int, f: Frame, i: nat, j: nat)
    requires num >= 1
    requires forall t :: 0 <= t < num ==> frames(t) == f
    requires i < |f| && j < |f[i]|
    ensures Mean(frames, num, i, j) == f[i][j] as real
  {
    FrameSumOfRepeatedFrame(frames, num, f, i, j);
  }

  /** A pixel summed over k frames lies between k times the smallest and
      k times the largest value the frames hold there. */
  lemma {:induction false} FrameSumBetween(frames: nat -> Frame, k: nat, i: nat, j: nat, lo: int, hi: int)
    requires forall t :: 0 <= t < k ==> i < |frames(t)| && j < |frames(t)[i]|
    requires forall t :: 0 <= t < k ==> lo <= frames(t)[i][j] <= hi
    ensures k * lo <= FrameSum(frames, k, i, j) <= k * hi
  {
    if k > 0 {
      FrameSumBetween(frames, k - 1, i, j, lo, hi);
      assert k * lo == (k - 1) * lo + lo && k * hi == (k - 1) * hi + hi;
    }
  }

  /** The averaged pixel never leaves the range of the pixel values it
      averages. */
  lemma {:induction false} MeanBetween(frames: nat -> Frame, num: int, i: nat, j: nat, lo: int, hi: int)
    requires num >= 1
    requires forall t :: 0 <= t < num ==> i < |frames(t)| && j < |frames(t)[i]|
    requires forall t :: 0 <= t < num ==> lo <= frames(t)[i][j] <= hi
    ensures lo as real <= Mean(frames, num, i, j) <= hi as real
  {
    FrameSumBetween(frames, num, i, j, lo, hi);
    var sum := FrameSum(frames, num, i, j);
    assert (num * lo) as real == num as real * lo as real;
    assert (num * hi) as real == num as real * hi as real;
    QuotientBetween(lo as real, sum as real, hi as real, num as real);
  }

  lemma QuotientBetween(lo: real, x: real, hi: real, n: real)
    requires n > 0.0 && n * lo <= x <= n * hi
    ensures lo <= x / n <= hi
  {
    assert x / n - lo == (x - n * lo) / n;
    assert hi - x / n == (n * hi - x) / n;
  }

  /** The exposures takeImg asks for, in order. */
  function ExposureOps(time: Arg, k: nat): (ops: seq<CameraOp>)
    ensures |ops| == k && forall t :: 0 <= t < k ==> ops[t] == Exposure(time)
  {
    seq(k, _ => Exposure(time))
  }

  /** tempImg += currentImg, in place. */
  method AddFrame(acc: array2<int>, f: Frame)
    requires HasShape(f, acc.Length0, acc.Length1)
    modifies acc
    ensures forall i, j :: 0 <= i < acc.Length0 && 0 <= j < acc.Length1 ==>
      acc[i, j] == old(acc[i, j]) + f[i][j]
  {
    var i := 0;
    while i < acc.Length0
      invariant 0 <= i <= acc.Length0
      invariant forall p, q :: 0 <= p < i && 0 <= q < acc.Length1 ==> acc[p, q] == old(acc[p, q]) + f[p][q]
      invariant forall p, q :: i <= p < acc.Length0 && 0 <= q < acc.Length1 ==> acc[p, q] == old(acc[p, q])
    {
      var j := 0;
      while j < acc.Length1
        invariant 0 <= j <= acc.Length1
        invariant forall p, q :: 0 <= p < i && 0 <= q < acc.Length1 ==> acc[p, q] == old(acc[p, q]) + f[p][q]
        invariant forall q :: 0 <= q < j ==> acc[i, q] == old(acc[i, q]) + f[i][q]
        invariant forall p, q :: i <= p < acc.Length0 && 0 <= q < acc.Length1 && (p > i || q >= j) ==>
          acc[p, q] == old(acc[p, q])
      {
        acc[i, j] := acc[i, j] + f[i][j];
        j := j + 1;
      }
      i := i + 1;
    }
  }

  /** (1 / num) * tempImg. */
  method Averaged(acc: array2<int>, num: int) returns (img: array2<real>)
    requires num != 0
    ensures fresh(img) && img.Length0 == acc.Length0 && img.Length1 == acc.Length1
    ensures forall i, j :: 0 <= i < img.Length0 && 0 <= j < img.Length1 ==>
      img[i, j] == acc[i, j] as real / num as real
  {
    var scale := 1.0 / num as real;
    img := new real[acc.Length0, acc.Length1]((i, j) reads acc
      requires 0 <= i < acc.Length0 && 0 <= j < acc.Length1 => scale * acc[i, j] as real);
    forall i, j | 0 <= i < img.Length0 && 0 <= j < img.Length1
      ensures img[i, j] == acc[i, j] as real / num as real
    {
      assert scale * acc[i, j] as real == acc[i, j] as real / num as real;
    }
  }

  /** The exposure loop of takeImg: range(num) exposures through the
      controller, each frame added to the accumulator in place. A frame of
      the wrong shape stops the loop. */
  method ExposeAll(h: Handle, acc: array2<int>, num: int, exptime: Arg, frames: nat -> Frame)
    returns (r: Result<(), CtrlError>)
    requires h.Valid()
    requires forall i, j :: 0 <= i < acc.Length0 && 0 <= j < acc.Length1 ==> acc[i, j] == 0
    modifies h, acc
    ensures h.Valid() && h.shutter == old(h.shutter) && h.camera == old(h.camera)
    ensures old(h.history) <= h.history
    ensures r.Success? <==> AllShaped(frames, Count(num), acc.Length0, acc.Length1)
    ensures r.Failure? ==> r.error == FrameShapeMismatch
    ensures r.Success? ==>
      && h.history == old(h.history) + ExposureOps(exptime, Count(num))
      && forall i, j :: 0 <= i < acc.Length0 && 0 <= j < acc.Length1 ==>
           acc[i, j] == FrameSum(frames, Count(num), i, j)
  {
    var k := 0;
    while k < num
      invariant 0 <= k <= Count(num)
      invariant h.Valid() && h.shutter == old(h.shutter) && h.camera == old(h.camera)
      invariant h.history == old(h.history) + ExposureOps(exptime, k)
      invariant AllShaped(frames, k, acc.Length0, acc.Length1)
      invariant forall i, j :: 0 <= i < acc.Length0 && 0 <= j < acc.Length1 ==>
        acc[i, j] == FrameSum(frames, k, i, j)
    {
      ParseRoundTrip(Exposure(exptime));
      var shot := Ctrl(h, "exposure", [exptime], h.camera, frames(k));
      var currentImg := shot.value.frame;
      if !HasShape(currentImg, acc.Length0, acc.Length1) {
        return Failure(FrameShapeMismatch);
      }
      AddFrame(acc, currentImg);
      k := k + 1;
    }
    return Success(());
  }

  /** takeImg: set the geometry, take num exposures, return their mean as a
      size[1] x size[0] image. Each exposure's frame must have that shape;
      num == 0 fails when averaging, a negative num gives zeros. */
  method TakeImg(h: Handle, num: int, exptime: Arg, start: Arg, size: Arg, bin: Arg,
                 frames: nat -> Frame)
    returns (r: Result<array2<real>, CtrlError>)
    requires h.Valid()
    modifies h
    ensures h.Valid() && h.shutter == old(h.shutter)
    ensures GeometryOf(start, size, bin).Failure? ==>
      r == Failure(GeometryOf(start, size, bin).error) && unchanged(h)
    ensures GeometryOf(start, size, bin).Success? ==>
      var g := GeometryOf(start, size, bin).value;
      && h.camera == GeometryRegs(old(h.camera), g)
      && old(h.history) + [ExposureProperties(g)] <= h.history
      && ((g.numX < 0 || g.numY < 0) ==> r == Failure(NegativeSize))
      && (g.numX >= 0 && g.numY >= 0 ==>
            && (r.Success? <==> num != 0 && AllShaped(frames, Count(num), g.numY, g.numX))
            && (r.Failure? ==>
                  r.error == if AllShaped(frames, Count(num), g.numY, g.numX) then NoFrames else FrameShapeMismatch))
    ensures r.Success? ==>
      && GeometryOf(start, size, bin).Success?
      && var g := GeometryOf(start, size, bin).value;
      && num != 0 && g.numX >= 0 && g.numY >= 0
      && AllShaped(frames, Count(num), g.numY, g.numX)
      && h.history == old(h.history) + [ExposureProperties(g)] + ExposureOps(exptime, Count(num))
      && fresh(r.value) && r.value.Length0 == g.numY && r.value.Length1 == g.numX
      && forall i, j :: 0 <= i < g.numY && 0 <= j < g.numX ==> r.value[i, j] == Mean(frames, num, i, j)
  {
    LowerOfLowercase("exposureproperties");
    var set_ := Ctrl(h, "exposureproperties", [start, size, bin], h.camera, []);
    if set_.Failure? {
      return Failure(set_.error);
    }
    var rows, cols := size.items[1], size.items[0];
    if rows < 0 || cols < 0 {
      return Failure(NegativeSize);
    }
    var acc := new int[rows, cols]((i, j) => 0);
    var shot := ExposeAll(h, acc, num, exptime, frames);
    if shot.Failure? {
      return Failure(shot.error);
    }
    if num == 0 {
      return Failure(NoFrames);
    }
    var img := Averaged(acc, num);
    return Success(img);
  }

  /** The geometry of a dark frame: origin, 500 x 500, the given bins. */
  function DarkGeometry(binX: int, binY: int): Geometry {
    Geometry(0, 0, 500, 500, binX, binY)
  }

  /** The registers once takeDarkCam has closed the shutter, set priority
      and readout speed to 0 and set the dark geometry. */
  function DarkRegs(r: Registers, binX: int, binY: int): Registers {
    GeometryRegs(
      ShutterRegs(r, Num(0.0)).(shutterPriority := Num(0.0), readoutSpeed := Num(0.0)),
      DarkGeometry(binX, binY))
  }

  /** The commands takeDarkCam sends before its exposures. */
  function DarkOps(binX: int, binY: int): seq<CameraOp> {
    [Shutter(Num(0.0)), ShutterPriority(Num(0.0)), ReadoutSpeed(Num(0.0)),
     ExposureProperties(DarkGeometry(binX, binY))]
  }

  /** The first three commands of takeDarkCam: close the shutter, then
      shutter priority and readout speed 0. */
  method PrepareDark(h: Handle)
    requires h.Valid()
    modifies h
    ensures h.Valid() && h.shutter == 0
    ensures h.camera == ShutterRegs(old(h.camera), Num(0.0)).(shutterPriority := Num(0.0), readoutSpeed := Num(0.0))
    ensures h.history == old(h.history) + [Shutter(Num(0.0)), ShutterPriority(Num(0.0)), ReadoutSpeed(Num(0.0))]
  {
    ParseRoundTrip(Shutter(Num(0.0)));
    var closed := Ctrl(h, "shutter", [Num(0.0)], h.camera, []);
    ParseRoundTrip(ShutterPriority(Num(0.0)));
    var _ := Ctrl(h, "shutterpriority", [Num(0.0)], h.camera, []);
    ParseRoundTrip(ReadoutSpeed(Num(0.0)));
    var _ := Ctrl(h, "readout speed", [Num(0.0)], h.camera, []);
  }

  /** takeDarkCam with the command names the controller accepts: close the
      shutter, set shutter priority and readout speed to 0, then average
      numIm exposures of a 500 x 500 window at the origin. The shutter stays
      closed afterwards. */
  method TakeDarkCam(h: Handle, exptime: Arg, numIm: int, binX: int, binY: int, frames: nat -> Frame)
    returns (r: Result<array2<real>, CtrlError>)
    requires h.Valid()
    modifies h
    ensures h.Valid() && h.shutter == 0
    ensures h.camera == DarkRegs(old(h.camera), binX, binY)
    ensures r.Success? <==> numIm != 0 && AllShaped(frames, Count(numIm), 500, 500)
    ensures r.Failure? ==>
      r.error == if AllShaped(frames, Count(numIm), 500, 500) then NoFrames else FrameShapeMismatch
    ensures r.Success? ==>
      && h.history == old(h.history) + DarkOps(binX, binY) + ExposureOps(exptime, Count(numIm))
      && fresh(r.value) && r.value.Length0 == 500 && r.value.Length1 == 500
      && forall i, j :: 0 <= i < 500 && 0 <= j < 500 ==> r.value[i, j] == Mean(frames, numIm, i, j)
  {
    PrepareDark(h);
    var startPos, binPixels, sizePixels := Tuple([0, 0]), Tuple([binX, binY]), Tuple([500, 500]);
    r := TakeImg(h, numIm, exptime, startPos, sizePixels, binPixels, frames);
  }

  /** takeDarkCam as written: 'shuttepriority' is not a command, so the
      controller raises after the shutter has been closed and nothing after
      that call runs. */
  method TakeDarkCamAsWritten(h: Handle, exptime: Arg, numIm: int, binX: int, binY: int,
                              frames: nat -> Frame)
    returns (r: Result<array2<real>, CtrlError>)
    requires h.Valid()
    modifies h
    ensures r == Failure(UnknownCommand("shuttepriority"))
    ensures h.camera == ShutterRegs(old(h.camera), Num(0.0)) && h.shutter == 0
  {
    ParseRoundTrip(Shutter(Num(0.0)));
    var closed := Ctrl(h, "shutter", [Num(0.0)], h.camera, []);
    var hc := closed.value.h;
    LowerOfLowercase("shuttepriority");
    var priority := Ctrl(hc, "shuttepriority", [Num(0.0)], hc.camera, []);
    r := Failure(priority.error);
  }

  /** Neither misspelt name reaches a branch of the controller. */
  lemma {:induction false} MisspeltDarkCommandsAreUnknown(flag: Arg)
    ensures Parse("shuttepriority", [flag]) == Failure(UnknownCommand("shuttepriority"))
    ensures Parse("readoutspeed", [flag]) == Failure(UnknownCommand("readoutspeed"))
  {
    ParseOfLowercase("shuttepriority", [flag]);
    ParseOfLowercase("readoutspeed", [flag]);
  }

  /** A camera: its handle, its window and binning, its dark frame, whether
      a new dark frame is wanted at start-up, and the exposure time. */
  class Camera {
    var handle: Handle
    var darkFrame: array2?<real>
    const startPosition: Arg
    const imageSize: Arg
    const binXi: int
    const binEta: int
    const newDarkFrame: bool
    const exposure: Arg

    constructor (device: Registers, startPosition: Arg, imageSize: Arg, binXi: int, binEta: int,
                 darkFrame: array2?<real>, newDarkFrame: bool, exposure: Arg)
      ensures fresh(handle) && handle.Valid() && handle.camera == device && handle.serialNumber == "0"
      ensures handle.shutter == 1 && handle.history == []
      ensures handle.defaultStartPos == (0, 0) && handle.defaultSizePixels == (0, 0) && handle.defaultBinPixels == (0, 0)
      ensures this.darkFrame == darkFrame
      ensures this.startPosition == startPosition && this.imageSize == imageSize
      ensures this.binXi == binXi && this.binEta == binEta
      ensures this.newDarkFrame == newDarkFrame && this.exposure == exposure
    {
      handle := new Handle.Blank(device);
      this.darkFrame := darkFrame;
      this.startPosition, this.imageSize := startPosition, imageSize;
      this.binXi, this.binEta := binXi, binEta;
      this.newDarkFrame, this.exposure := newDarkFrame, exposure;
    }
  }

  /** The registers after enable, init(-15), shutterpriority(1) and
      shutter(1), starting from what the camera reports. */
  function OpenedRegs(device: Registers): Registers {
    ShutterRegs(InitRegs(EnableRegs(device), Num(-15.0)).(shutterPriority := Num(1.0)), Num(1.0))
  }

  /** ... followed by exposureproperties(g). */
  function StartupRegs(device: Registers, g: Geometry): Registers {
    GeometryRegs(OpenedRegs(device), g)
  }

  /** enable, init(-15), shutterpriority(1), shutter(1). */
  const OpeningOps: seq<CameraOp> := [Enable, Init(Num(-15.0)), ShutterPriority(Num(1.0)), Shutter(Num(1.0))]

  function StartupOps(g: Geometry): seq<CameraOp> {
    OpeningOps + [ExposureProperties(g)]
  }

  /** After start-up the camera is connected, main, cooled with the fan at
      full, set to low gain, and the shutter is open in manual mode. */
  lemma StartupState(device: Registers, g: Geometry)
    ensures var s := StartupRegs(device, g);
      && s.connected && s.isMainCamera && s.fanMode == FanFull && s.coolerOn && s.cameraGain == 1
      && s.manualShutterMode && s.manualShutterOpen && s.shutterPriority == Num(1.0)
      && Geometry(s.startX, s.startY, s.numX, s.numY, s.binX, s.binY) == g
  {
  }

  /** The first four commands of initializeCamera: attach a fresh handle,
      init at -15, shutter priority 1, shutter open. */
  method OpenCamera(device: Registers) returns (h: Handle)
    ensures fresh(h) && h.Valid() && h.ControllerDefaults()
    ensures h.camera == OpenedRegs(device) && h.shutter == 1 && h.history == OpeningOps
  {
    ParseRoundTrip(Enable);
    var attached := Ctrl(null, "enable", [], device, []);
    h := attached.value.h;
    ParseRoundTrip(Init(Num(-15.0)));
    var _ := Ctrl(h, "init", [Num(-15.0)], h.camera, []);
    ParseRoundTrip(ShutterPriority(Num(1.0)));
    var _ := Ctrl(h, "shutterpriority", [Num(1.0)], h.camera, []);
    ParseRoundTrip(Shutter(Num(1.0)));
    var _ := Ctrl(h, "shutter", [Num(1.0)], h.camera, []);
  }

  /** initializeCamera: attach a fresh handle, start the camera, open the
      shutter, set the window; then take a dark frame of 30 exposures if one
      is wanted, and otherwise keep the stored one. */
  method InitializeCamera(camera: Camera, device: Registers, frames: nat -> Frame)
    returns (r: Result<(), CtrlError>)
    modifies camera
    ensures fresh(camera.handle) && camera.handle.Valid() && camera.handle.ControllerDefaults()
    ensures r.Failure? ==> camera.darkFrame == old(camera.darkFrame)
    ensures GeometryOf(camera.startPosition, camera.imageSize, Tuple([camera.binXi, camera.binEta])).Failure? ==>
      && r == Failure(GeometryOf(camera.startPosition, camera.imageSize, Tuple([camera.binXi, camera.binEta])).error)
      && camera.handle.camera == OpenedRegs(device) && camera.handle.shutter == 1
      && camera.handle.history == OpeningOps
    ensures GeometryOf(camera.startPosition, camera.imageSize, Tuple([camera.binXi, camera.binEta])).Success? ==>
      var g := GeometryOf(camera.startPosition, camera.imageSize, Tuple([camera.binXi, camera.binEta])).value;
      && (!camera.newDarkFrame ==>
            && r.Success? && camera.darkFrame == old(camera.darkFrame)
            && camera.handle.camera == StartupRegs(device, g) && camera.handle.shutter == 1
            && camera.handle.history == StartupOps(g))
      && (camera.newDarkFrame ==>
            && (r.Success? <==> AllShaped(frames, 30, 500, 500))
            && (r.Failure? ==> r.error == FrameShapeMismatch)
            && camera.handle.camera == DarkRegs(StartupRegs(device, g), camera.binXi, camera.binEta)
            && camera.handle.shutter == 0)
    ensures r.Success? && camera.newDarkFrame ==>
      var g := GeometryOf(camera.startPosition, camera.imageSize, Tuple([camera.binXi, camera.binEta])).value;
      && camera.handle.history
         == StartupOps(g) + DarkOps(camera.binXi, camera.binEta) + ExposureOps(camera.exposure, 30)
      && camera.handle.shutter == 0
      && camera.darkFrame != null && fresh(camera.darkFrame)
      && camera.darkFrame.Length0 == 500 && camera.darkFrame.Length1 == 500
      && forall i, j :: 0 <= i < 500 && 0 <= j < 500 ==> camera.darkFrame[i, j] == Mean(frames, 30, i, j)
  {
    camera.handle := OpenCamera(device);
    LowerOfLowercase("exposureproperties");
    var set_ := Ctrl(camera.handle, "exposureproperties",
                     [camera.startPosition, camera.imageSize, Tuple([camera.binXi, camera.binEta])],
                     camera.handle.camera, []);
    if set_.Failure? {
      return Failure(set_.error);
    }
    if camera.newDarkFrame {
      var numIm := 30;
      var dark := TakeDarkCam(camera.handle, camera.exposure, numIm, camera.binXi, camera.binEta, frames);
      if dark.Failure? {
        return Failure(dark.error);
      }
      camera.darkFrame := dark.value;
    }
    return Success(());
  }

  /** The registers after shutter(0), finalize and disable. */
  function ShutdownRegs(r: Registers): Registers {
    DisableRegs(FinalizeRegs(ShutterRegs(r, Num(0.0))))
  }

  /** After shut-down the camera is disconnected, fan and cooler are off,
      and the shutter is closed in automatic mode. */
  lemma ShutdownState(r: Registers)
    ensures var s := ShutdownRegs(r);
      && !s.connected && s.fanMode == FanOff && !s.coolerOn
      && !s.manualShutterOpen && !s.manualShutterMode
  {
  }

  /** finalizeCamera: close the shutter, finalize, disconnect. */
  method FinalizeCamera(camera: Camera)
    modifies camera, camera.handle
    ensures camera.handle == old(camera.handle)
    ensures camera.darkFrame == old(camera.darkFrame)
    ensures camera.handle.camera == ShutdownRegs(old(camera.handle.camera))
    ensures camera.handle.shutter == 0
    ensures camera.handle.history == old(camera.handle.history) + [Shutter(Num(0.0)), Finalize, Disable]
  {
    ParseRoundTrip(Shutter(Num(0.0)));
    var closed := Ctrl(camera.handle, "shutter", [Num(0.0)], camera.handle.camera, []);
    camera.handle := closed.value.h;
    ParseRoundTrip(Finalize);
    var _ := Ctrl(camera.handle, "finalize", [], camera.handle.camera, []);
    ParseRoundTrip(Disable);
    var _ := Ctrl(camera.handle, "disable", [], camera.handle.camera, []);
  }
}
