// The CCD camera controller: one entry point takes a handle, a command name
// and its arguments, checks the name (case-insensitively) and the argument
// shapes, then writes a fixed set of camera registers. The camera's COM
// object is modelled by the register values it holds; the exposure's
// start/poll/read cycle is replaced by the frame the camera delivers, given
// as a parameter.

module CameraCtrl {
  import opened Wrappers
  import opened PyText

  /** One positional argument: a number or a tuple of integers. */
  datatype Arg = Num(v: real) | Tuple(items: seq<int>)

  datatype FanMode = FanOff | FanQuiet | FanFull

  /** The COM registers the controller reads and writes. */
  datatype Registers = Registers(
    connected: bool,
    isMainCamera: bool,
    fanMode: FanMode,
    coolerOn: bool,
    canSetCcdTemperature: bool,
    ccdTemperatureSetpoint: Arg,
    cameraGain: int,
    manualShutterMode: bool,
    manualShutterOpen: bool,
    startX: int, startY: int,
    numX: int, numY: int,
    binX: int, binY: int,
    shutterPriority: Arg,
    readoutSpeed: Arg)

  /** Start position, frame size and binning, each per axis (x, y). */
  datatype Geometry = Geometry(startX: int, startY: int, numX: int, numY: int, binX: int, binY: int)

  /** A recognised command with its checked arguments. */
  datatype CameraOp =
    | Enable
    | Init(temperature: Arg)
    | Shutter(flag: Arg)
    | ExposureProperties(geometry: Geometry)
    | ShutterPriority(flag: Arg)
    | ReadoutSpeed(flag: Arg)
    | Exposure(time: Arg)
    | Realtime
    | Finalize
    | Disable

  datatype CtrlError =
    | WrongArgCount            // 'Wrong number of input arguments'
    | WrongStartDimension      // 'Wrong dimension of start position'
    | WrongSizeDimension       // 'Wrong dimension of picture size'
    | WrongBinDimension        // 'Wrong dimension of binned pixels'
    | NotATuple                // len() of a number
    | UnknownCommand(name: string)
    | NoHandle                 // a command other than enable without a handle
    | BadShutterState          // the exposure guard
    | FrameShapeMismatch       // a frame that does not fit the accumulator
    | NegativeSize             // np.zeros with a negative dimension
    | NoFrames                 // 1 / 0 when averaging zero frames

  /** An image as the camera delivers it, row by row. */
  type Frame = seq<seq<int>>

  /** What a command hands back to its caller. */
  datatype Reply = NoReply | Attached(h: Handle) | Image(frame: Frame)

  const CommandNames: set<string> :=
    {"enable", "init", "shutter", "exposureproperties", "shutterpriority", "readout speed",
     "exposure", "realtime", "finalize", "disable"}

  /** The argument count a command checks, if it checks one. */
  function Arity(name: string): Option<nat> {
    if name in {"init", "shutter", "shutterpriority", "readout speed", "exposure"} then Some(1)
    else if name == "exposureproperties" then Some(3)
    else None
  }

  /** The three tuples of exposureproperties, checked in order: each must be
      a tuple of exactly two integers. */
  function GeometryOf(start: Arg, size: Arg, bin: Arg): (r: Result<Geometry, CtrlError>)
    ensures r.Success? <==>
      && start.Tuple? && |start.items| == 2
      && size.Tuple? && |size.items| == 2
      && bin.Tuple? && |bin.items| == 2
    ensures r.Success? ==>
      && [r.value.startX, r.value.startY] == start.items
      && [r.value.numX, r.value.numY] == size.items
      && [r.value.binX, r.value.binY] == bin.items
  {
    if !start.Tuple? then Failure(NotATuple)
    else if |start.items| != 2 then Failure(WrongStartDimension)
    else if !size.Tuple? then Failure(NotATuple)
    else if |size.items| != 2 then Failure(WrongSizeDimension)
    else if !bin.Tuple? then Failure(NotATuple)
    else if |bin.items| != 2 then Failure(WrongBinDimension)
    else Success(Geometry(start.items[0], start.items[1], size.items[0], size.items[1],
                          bin.items[0], bin.items[1]))
  }

  /** The name the command is lower-cased to and dispatched on. */
  function Name(op: CameraOp): string {
    match op
    case Enable => "enable"
    case Init(_) => "init"
    case Shutter(_) => "shutter"
    case ExposureProperties(_) => "exposureproperties"
    case ShutterPriority(_) => "shutterpriority"
    case ReadoutSpeed(_) => "readout speed"
    case Exposure(_) => "exposure"
    case Realtime => "realtime"
    case Finalize => "finalize"
    case Disable => "disable"
  }

  /** The positional arguments that carry an operation. */
  function ArgsOf(op: CameraOp): seq<Arg> {
    match op
    case Init(t) => [t]
    case Shutter(f) => [f]
    case ExposureProperties(g) =>
      [Tuple([g.startX, g.startY]), Tuple([g.numX, g.numY]), Tuple([g.binX, g.binY])]
    case ShutterPriority(f) => [f]
    case ReadoutSpeed(f) => [f]
    case Exposure(t) => [t]
    case _ => []
  }

  /** The dispatch on an already lower-cased command name: the argument
      count, and for exposureproperties the three tuples. */
  function ParseLowered(c: string, args: seq<Arg>): (r: Result<CameraOp, CtrlError>)
    ensures c !in CommandNames <==> r == Failure(UnknownCommand(c))
    ensures c in CommandNames && Arity(c).Some? && |args| != Arity(c).value ==> r == Failure(WrongArgCount)
    ensures r.Success? ==> Name(r.value) == c
    ensures r.Success? && Arity(c).Some? ==> |args| == Arity(c).value
  {
    if c == "enable" then Success(Enable)
    else if c == "init" then
      if |args| != 1 then Failure(WrongArgCount) else Success(Init(args[0]))
    else if c == "shutter" then
      if |args| != 1 then Failure(WrongArgCount) else Success(Shutter(args[0]))
    else if c == "exposureproperties" then
      if |args| != 3 then Failure(WrongArgCount)
      else
        match GeometryOf(args[0], args[1], args[2])
        case Failure(e) => Failure(e)
        case Success(g) => Success(ExposureProperties(g))
    else if c == "shutterpriority" then
      if |args| != 1 then Failure(WrongArgCount) else Success(ShutterPriority(args[0]))
    else if c == "readout speed" then
      if |args| != 1 then Failure(WrongArgCount) else Success(ReadoutSpeed(args[0]))
    else if c == "exposure" then
      if |args| != 1 then Failure(WrongArgCount) else Success(Exposure(args[0]))
    else if c == "realtime" then Success(Realtime)
    else if c == "finalize" then Success(Finalize)
    else if c == "disable" then Success(Disable)
    else Failure(UnknownCommand(c))
  }

  /** Everything the controller checks before touching the handle: the
      command name, lower-cased, then ParseLowered. */
  function Parse(cmd: string, args: seq<Arg>): Result<CameraOp, CtrlError> {
    ParseLowered(Lower(cmd), args)
  }

  /** A name outside the command set, whatever its case, is reported as
      unknown in lower case; a known name with the wrong number of
      arguments is refused; an accepted command bears the lower-cased name. */
  lemma ParseChecks(cmd: string, args: seq<Arg>)
    ensures Lower(cmd) !in CommandNames <==> Parse(cmd, args) == Failure(UnknownCommand(Lower(cmd)))
    ensures Lower(cmd) in CommandNames && Arity(Lower(cmd)).Some? && |args| != Arity(Lower(cmd)).value
      ==> Parse(cmd, args) == Failure(WrongArgCount)
    ensures Parse(cmd, args).Success? ==> Name(Parse(cmd, args).value) == Lower(cmd)
  {
  }

  /** Command names are written in lower case. */
  lemma NameIsLowercase(op: CameraOp)
    ensures Lower(Name(op)) == Name(op)
  {
    var name := Name(op);
    forall i | 0 <= i < |name| ensures !IsUpper(name[i]) {
    }
    LowerOfLowercase(name);
  }

  lemma ParseLoweredRoundTrip(op: CameraOp)
    ensures ParseLowered(Name(op), ArgsOf(op)) == Success(op)
  {
  }

  /** Every operation, sent under its own name with its own arguments, is
      parsed back to itself. */
  lemma {:induction false} ParseRoundTrip(op: CameraOp)
    ensures Parse(Name(op), ArgsOf(op)) == Success(op)
  {
    NameIsLowercase(op);
    ParseLoweredRoundTrip(op);
  }

  /** A command name with no upper-case letter is dispatched as written. */
  lemma {:induction false} ParseOfLowercase(c: string, args: seq<Arg>)
    requires forall i :: 0 <= i < |c| ==> !IsUpper(c[i])
    ensures Parse(c, args) == ParseLowered(c, args)
  {
    LowerOfLowercase(c);
  }

  /** Command names are matched without regard to case. */
  lemma {:induction false} ParseIgnoresCase(cmd: string, args: seq<Arg>)
    ensures Parse(cmd, args) == Parse(Lower(cmd), args)
  {
    LowerIdempotent(cmd);
  }

  // ---------------------------------------------------------------------
  // What each command does to the registers and to handle.shutter.

  /** enable: a fresh handle on the camera, connected. */
  function EnableRegs(device: Registers): (e: Registers)
    ensures e.connected && e.(connected := device.connected) == device
  {
    device.(connected := true)
  }

  /** init: main camera, fan full, cooler on, low gain; the set-point only on
      a camera that can set its temperature. */
  function InitRegs(r: Registers, temperature: Arg): (e: Registers)
    ensures e.isMainCamera && e.fanMode == FanFull && e.coolerOn && e.cameraGain == 1
    ensures e.ccdTemperatureSetpoint == if r.canSetCcdTemperature then temperature else r.ccdTemperatureSetpoint
    ensures e.(isMainCamera := r.isMainCamera, fanMode := r.fanMode, coolerOn := r.coolerOn,
               cameraGain := r.cameraGain, ccdTemperatureSetpoint := r.ccdTemperatureSetpoint) == r
  {
    r.(isMainCamera := true, fanMode := FanFull, coolerOn := true, cameraGain := 1,
       ccdTemperatureSetpoint := if r.canSetCcdTemperature then temperature else r.ccdTemperatureSetpoint)
  }

  /** openflag == 1 (True and 1.0 included). */
  predicate OpensShutter(flag: Arg) { flag == Num(1.0) }

  function ShutterRegs(r: Registers, flag: Arg): (e: Registers)
    ensures e.manualShutterMode == OpensShutter(flag) && e.manualShutterOpen == OpensShutter(flag)
    ensures e.(manualShutterMode := r.manualShutterMode, manualShutterOpen := r.manualShutterOpen) == r
  {
    if OpensShutter(flag) then r.(manualShutterMode := true, manualShutterOpen := true)
    else r.(manualShutterOpen := false, manualShutterMode := false)
  }

  function ShutterValue(flag: Arg): int {
    if OpensShutter(flag) then 1 else 0
  }

  function GeometryRegs(r: Registers, g: Geometry): (e: Registers)
    ensures Geometry(e.startX, e.startY, e.numX, e.numY, e.binX, e.binY) == g
    ensures e.(startX := r.startX, startY := r.startY, numX := r.numX, numY := r.numY,
               binX := r.binX, binY := r.binY) == r
  {
    r.(startX := g.startX, startY := g.startY, numX := g.numX, numY := g.numY,
       binX := g.binX, binY := g.binY)
  }

  /** finalize: fan off, cooler off, then the shutter command with False. */
  function FinalizeRegs(r: Registers): (e: Registers)
    ensures e.fanMode == FanOff && !e.coolerOn && !e.manualShutterMode && !e.manualShutterOpen
    ensures e.(fanMode := r.fanMode, coolerOn := r.coolerOn, manualShutterMode := r.manualShutterMode,
               manualShutterOpen := r.manualShutterOpen) == r
  {
    ShutterRegs(r.(fanMode := FanOff, coolerOn := false), Num(0.0))
  }

  function DisableRegs(r: Registers): (e: Registers)
    ensures !e.connected && e.(connected := r.connected) == r
  {
    r.(connected := false)
  }

  /** The registers and shutter value after a command other than enable. */
  function Step(r: Registers, shutter: int, op: CameraOp): (s: (Registers, int))
    ensures s.0.canSetCcdTemperature == r.canSetCcdTemperature
    ensures (shutter == 0 || shutter == 1) ==> (s.1 == 0 || s.1 == 1)
    ensures !(op.Shutter? || op.Finalize?) ==> s.1 == shutter
    ensures !op.Disable? ==> s.0.connected == r.connected
    ensures op.Enable? || op.Exposure? || op.Realtime? ==> s == (r, shutter)
  {
    match op
    case Init(t) => (InitRegs(r, t), shutter)
    case Shutter(f) => (ShutterRegs(r, f), ShutterValue(f))
    case ExposureProperties(g) => (GeometryRegs(r, g), shutter)
    case ShutterPriority(f) => (r.(shutterPriority := f), shutter)
    case ReadoutSpeed(f) => (r.(readoutSpeed := f), shutter)
    case Finalize => (FinalizeRegs(r), ShutterValue(Num(0.0)))
    case Disable => (DisableRegs(r), shutter)
    case _ => (r, shutter)
  }

  /** init reaches the same state however often it runs. */
  lemma InitIdempotent(r: Registers, shutter: int, t: Arg)
    ensures var once := Step(r, shutter, Init(t));
      Step(once.0, once.1, Init(t)) == once
  {
  }

  /** After init the camera is main, fan full, cooler on, low gain, and the
      set-point is the argument exactly when the camera can set it. */
  lemma InitEndState(r: Registers, shutter: int, t: Arg)
    ensures var s := Step(r, shutter, Init(t)).0;
      && s.isMainCamera && s.fanMode == FanFull && s.coolerOn && s.cameraGain == 1
      && (r.canSetCcdTemperature ==> s.ccdTemperatureSetpoint == t)
      && (!r.canSetCcdTemperature ==> s.ccdTemperatureSetpoint == r.ccdTemperatureSetpoint)
  {
  }

  /** Flag 1 leaves the shutter in manual mode and open; any other flag
      leaves it closed, back in automatic mode, and handle.shutter at 0. */
  lemma ShutterEndState(r: Registers, shutter: int, flag: Arg)
    ensures var s := Step(r, shutter, Shutter(flag));
      if flag == Num(1.0) then s.0.manualShutterMode && s.0.manualShutterOpen && s.1 == 1
      else !s.0.manualShutterMode && !s.0.manualShutterOpen && s.1 == 0
  {
  }

  /** exposureproperties writes the six geometry registers and nothing else. */
  lemma ExposurePropertiesWritesOnlyGeometry(r: Registers, shutter: int, g: Geometry)
    ensures var s := Step(r, shutter, ExposureProperties(g));
      && s.1 == shutter
      && s.0.(startX := r.startX, startY := r.startY, numX := r.numX, numY := r.numY,
              binX := r.binX, binY := r.binY) == r
      && Geometry(s.0.startX, s.0.startY, s.0.numX, s.0.numY, s.0.binX, s.0.binY) == g
  {
  }

  /** finalize turns fan and cooler off and closes the shutter. */
  lemma FinalizeEndState(r: Registers, shutter: int)
    ensures var s := Step(r, shutter, Finalize);
      && s.0.fanMode == FanOff && !s.0.coolerOn
      && !s.0.manualShutterOpen && !s.0.manualShutterMode && s.1 == 0
      && s.0.connected == r.connected
  {
  }

  /** disable disconnects, and on a disconnected camera changes nothing. */
  lemma DisableEndState(r: Registers, shutter: int)
    ensures !Step(r, shutter, Disable).0.connected
    ensures !r.connected ==> Step(r, shutter, Disable) == (r, shutter)
  {
  }

  // ---------------------------------------------------------------------
  // The exposure guard.

  /** The guard as written: shutter == True or shutter == False, where True
      and False compare equal to 1 and 0. */
  predicate ExposureGuardRaisesAsWritten(shutter: int) {
    shutter == 1 || shutter == 0
  }

  /** The guard as evidently intended: refuse a shutter value that is
      neither open (1) nor closed (0). */
  predicate ExposureGuardRaises(shutter: int) {
    shutter != 1 && shutter != 0
  }


  /** The guard as written is the intended guard turned around: it raises
      exactly where the intended one lets the exposure through, and so on
      every shutter value a handle can hold. */
  lemma AsWrittenGuardBlocksEveryExposure(h: Handle)
    requires h.Valid()
    ensures ExposureGuardRaisesAsWritten(h.shutter) && !ExposureGuardRaises(h.shutter)
    ensures forall s :: ExposureGuardRaisesAsWritten(s) <==> !ExposureGuardRaises(s)
  {
  }

  function ReplyFor(op: CameraOp, h: Handle, frame: Frame): Reply {
    match op
    case Shutter(_) => Attached(h)
    case Exposure(_) => Image(frame)
    case _ => NoReply
  }

  // ---------------------------------------------------------------------
  // The handle.

  class Handle {
    /** The camera's registers. */
    var camera: Registers
    /** handle.shutter: True (1) on creation, then 1 or 0. */
    var shutter: int
    const serialNumber: string
    const defaultStartPos: (int, int)
    const defaultSizePixels: (int, int)
    const defaultBinPixels: (int, int)
    /** The commands dispatched on this handle, oldest first. */
    ghost var history: seq<CameraOp>

    ghost predicate Valid()
      reads this
    {
      shutter == 0 || shutter == 1
    }

    /** The identity Handle() gives a camera: serial 00602768, default
        start (0, 0), size (2758, 2208) and bins (1, 1). */
    predicate ControllerDefaults() {
      && serialNumber == "00602768"
      && defaultStartPos == (0, 0) && defaultSizePixels == (2758, 2208) && defaultBinPixels == (1, 1)
    }

    /** The controller's Handle(): serial 00602768, shutter True, default
        start (0, 0), size (2758, 2208), bins (1, 1). */
    constructor (device: Registers)
      ensures Valid() && camera == device && shutter == 1
      ensures serialNumber == "00602768"
      ensures defaultStartPos == (0, 0) && defaultSizePixels == (2758, 2208) && defaultBinPixels == (1, 1)
      ensures history == []
    {
      camera := device;
      serialNumber := "00602768";
      shutter := 1;
      defaultStartPos := (0, 0);
      defaultSizePixels := (2758, 2208);
      defaultBinPixels := (1, 1);
      history := [];
    }

    /** The camera module's placeholder Handle(): serial 0, shutter True,
        every default pair (0, 0). */
    constructor Blank(device: Registers)
      ensures Valid() && camera == device && shutter == 1
      ensures serialNumber == "0"
      ensures defaultStartPos == (0, 0) && defaultSizePixels == (0, 0) && defaultBinPixels == (0, 0)
      ensures history == []
    {
      camera := device;
      serialNumber := "0";
      shutter := 1;
      defaultStartPos := (0, 0);
      defaultSizePixels := (0, 0);
      defaultBinPixels := (0, 0);
      history := [];
    }

    method Connect()
      modifies this
      ensures camera == EnableRegs(old(camera))
      ensures shutter == old(shutter) && history == old(history)
    {
      if camera.connected == false {
        camera := camera.(connected := true);
      }
    }

    /** The first three guarded writes of init: main camera, fan full,
        cooler on. */
    method StartCooling()
      modifies this
      ensures camera == old(camera).(isMainCamera := true, fanMode := FanFull, coolerOn := true)
      ensures shutter == old(shutter) && history == old(history)
    {
      ghost var c0 := camera;
      if camera.isMainCamera == false {
        camera := camera.(isMainCamera := true);
      }
      assert camera == c0.(isMainCamera := true);
      if camera.fanMode != FanFull {
        camera := camera.(fanMode := FanFull);
      }
      assert camera == c0.(isMainCamera := true, fanMode := FanFull);
      if camera.coolerOn != true {
        camera := camera.(coolerOn := true);
      }
    }

    method Init(temperature: Arg)
      modifies this
      ensures camera == InitRegs(old(camera), temperature)
      ensures shutter == old(shutter) && history == old(history)
    {
      StartCooling();
      ghost var c1 := camera;
      if camera.canSetCcdTemperature == true {
        camera := camera.(ccdTemperatureSetpoint := temperature);
      }
      ghost var c2 := camera;
      assert c2 == c1.(ccdTemperatureSetpoint := if c1.canSetCcdTemperature then temperature else c1.ccdTemperatureSetpoint);
      if camera.cameraGain != 1 {
        camera := camera.(cameraGain := 1);
      }
      assert camera == c2.(cameraGain := 1);
    }

    method SetShutter(flag: Arg)
      modifies this
      ensures camera == ShutterRegs(old(camera), flag)
      ensures shutter == ShutterValue(flag) && history == old(history)
    {
      if flag == Num(1.0) {
        camera := camera.(manualShutterMode := true);
        camera := camera.(manualShutterOpen := true);
        shutter := 1;
      } else {
        camera := camera.(manualShutterMode := true);
        camera := camera.(manualShutterOpen := false);
        camera := camera.(manualShutterMode := false);
        shutter := 0;
      }
    }

    method SetExposureProperties(g: Geometry)
      modifies this
      ensures camera == GeometryRegs(old(camera), g)
      ensures shutter == old(shutter) && history == old(history)
    {
      camera := camera.(startX := g.startX);
      camera := camera.(startY := g.startY);
      camera := camera.(numX := g.numX);
      camera := camera.(numY := g.numY);
      camera := camera.(binX := g.binX);
      camera := camera.(binY := g.binY);
    }

    method Finalize()
      modifies this
      ensures camera == FinalizeRegs(old(camera))
      ensures shutter == 0 && history == old(history)
    {
      if camera.fanMode != FanOff {
        camera := camera.(fanMode := FanOff);
      }
      if camera.coolerOn != false {
        camera := camera.(coolerOn := false);
      }
      SetShutter(Num(0.0));
    }

    method Disconnect()
      modifies this
      ensures camera == DisableRegs(old(camera))
      ensures shutter == old(shutter) && history == old(history)
    {
      if camera.connected == true {
        camera := camera.(connected := false);
      }
    }
  }

  /** Camera_ctrl(handle, cmd, *args). `device` is what the camera's COM
      object reports when enable attaches a fresh handle to it; `frame` is
      the image the camera delivers if the command is an exposure. A null
      handle stands for the 0 callers pass before enable. */
  method Ctrl(handle: Handle?, cmd: string, args: seq<Arg>, device: Registers, frame: Frame)
    returns (r: Result<Reply, CtrlError>)
    modifies handle
    ensures handle != null && old(handle.Valid()) ==> handle.Valid()
    ensures Parse(cmd, args).Failure? ==>
      r == Failure(Parse(cmd, args).error) && (handle != null ==> unchanged(handle))
    ensures Parse(cmd, args) == Success(Enable) ==>
      && r.Success? && r.value.Attached? && fresh(r.value.h)
      && r.value.h.camera == EnableRegs(device) && r.value.h.shutter == 1
      && r.value.h.ControllerDefaults() && r.value.h.history == [Enable]
      && (handle != null ==> unchanged(handle))
    ensures Parse(cmd, args).Success? && Parse(cmd, args).value != Enable && handle == null ==>
      r == Failure(NoHandle)
    ensures Parse(cmd, args).Success? && Parse(cmd, args).value.Exposure? && handle != null
            && ExposureGuardRaises(old(handle.shutter)) ==>
      r == Failure(BadShutterState) && unchanged(handle)
    ensures Parse(cmd, args).Success? && Parse(cmd, args).value != Enable && handle != null
            && !(Parse(cmd, args).value.Exposure? && ExposureGuardRaises(old(handle.shutter))) ==>
      var op := Parse(cmd, args).value;
      && (handle.camera, handle.shutter) == Step(old(handle.camera), old(handle.shutter), op)
      && handle.history == old(handle.history) + [op]
      && r == Success(ReplyFor(op, handle, frame))
  {
    var parsed := Parse(cmd, args);
    if parsed.Failure? {
      return Failure(parsed.error);
    }
    var op := parsed.value;
    if op == Enable {
      var h := new Handle(device);
      h.Connect();
      h.history := [Enable];
      return Success(Attached(h));
    }
    if handle == null {
      return Failure(NoHandle);
    }
    match op {
      case Init(t) => handle.Init(t);
      case Shutter(f) => handle.SetShutter(f);
      case ExposureProperties(g) => handle.SetExposureProperties(g);
      case ShutterPriority(f) => handle.camera := handle.camera.(shutterPriority := f);
      case ReadoutSpeed(f) => handle.camera := handle.camera.(readoutSpeed := f);
      case Exposure(_) =>
        if ExposureGuardRaises(handle.shutter) {
          return Failure(BadShutterState);
        }
      case Realtime =>
      case Finalize => handle.Finalize();
      case Disable => handle.Disconnect();
    }
    handle.history := handle.history + [op];
    r := Success(ReplyFor(op, handle, frame));
  }

  /** Camera_ctrl as written: the exposure branch raises on
      handle.shutter == True or handle.shutter == False, so no exposure on
      any handle is ever taken. Realtime starts with such an exposure, and
      the ValueError it raises is not the KeyboardInterrupt it catches, so
      realtime on a handle fails too. Every other command behaves as in
      Ctrl. */
  method CtrlAsWritten(handle: Handle?, cmd: string, args: seq<Arg>, device: Registers, frame: Frame)
    returns (r: Result<Reply, CtrlError>)
    requires handle != null ==> handle.Valid()
    modifies handle
    ensures handle != null ==> handle.Valid()
    ensures Parse(cmd, args).Failure? ==>
      r == Failure(Parse(cmd, args).error) && (handle != null ==> unchanged(handle))
    ensures Parse(cmd, args).Success? && Parse(cmd, args).value.Exposure? && handle != null ==>
      r == Failure(BadShutterState) && unchanged(handle)
    ensures Parse(cmd, args).Success? && (Parse(cmd, args).value.Exposure? || Parse(cmd, args).value.Realtime?)
            && handle == null ==>
      r == Failure(NoHandle)
    ensures Parse(cmd, args).Success? && Parse(cmd, args).value.Realtime? && handle != null ==>
      r == Failure(BadShutterState) && unchanged(handle)
  {
    var parsed := Parse(cmd, args);
    if parsed.Success? && (parsed.value.Exposure? || parsed.value.Realtime?) && handle != null
       && ExposureGuardRaisesAsWritten(handle.shutter) {
      return Failure(BadShutterState);
    }
    r := Ctrl(handle, cmd, args, device, frame);
  }
}
