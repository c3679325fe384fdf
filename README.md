# Lab hardware control: a verified model of its sequential core

The repository drives a wavefront-control testbed. It has a four-channel
laser on a serial port, a QSI CCD camera reached over COM, and a
deformable-mirror (DM) image pipeline. This project models the parts of it
that are sequential logic rather than numerics or device I/O, and proves
what that logic guarantees.

- **Laser** (`LaserDevice`, laser.dfy). A `Laser` class holds the fields
  `current`, `channel` and `status` and the ordered log of commands written
  to the serial port. `enable`, `disbale` and `changeCurrent` keep the
  per-channel current ceilings. `calibrateLaser` centres the image in an
  N x N zero field, locates the central and secondary peaks of its
  spectrum, and scales the current so that the secondary peak would read
  0.9.
- **Calibration arithmetic** (`SpectralCalibration`, calibration.dfy).
  - Centring spans `[int((N-x)/2), int((N+x)/2))`, with an in-place block
    write into a fresh `array2`.
  - Row-first crop windows `[int(p-s/2), int(p+s/2))`, with numpy slice
    semantics.
  - Translation of window-local fit positions back to spectrum coordinates.
  - The preset windows keyed by resolution.
  - The proportional rescale.
- **Earlier calibration revisions** (`LegacyCalibration`,
  legacy_calibration.dfy). The fixed N = 4096 revision and the
  N = 2 ** resolution revision. Both report window-local fits.
- **Camera controller** (`CameraCtrl`, camera_ctrl.dfy).
  - The camera's COM registers are a `Registers` value held by a `Handle`
    class.
  - `Ctrl` lower-cases the command name and checks the argument counts and
    tuple shapes. It then writes exactly the registers that command writes.
  - A ghost `history` records every command dispatched on a handle.
- **Camera helpers** (`CcdCamera`, ccd_camera.dfy). `takeImg` averages
  exposures in an in-place `array2<int>` accumulator. `takeDarkCam`,
  `initializeCamera` and `finalizeCamera` are fixed command sequences through
  `Ctrl`.
- **DM command check** (`DmImage`, get_img.dfy). NaN and voltage-limit
  checks on both DM commands, then a case-insensitive dispatch on the mode.

Shared pieces live in common.dfy:
- `Option` and `Result`.
- Python's `str.lower` on ASCII, `str(int)` with a parser that reads it
  back, `int()` truncation toward zero, and `2 ** n`.

The Fourier transform and the 2-D Gaussian fit are function parameters
(`spectrum`, `fit`). The frames the camera delivers come from an oracle
`frames: nat -> Frame`. Python's `str()` of a float is the laser's `format`
parameter.

### Where the model follows the evident intent rather than the text

Much of the Python cannot run as written. The model does what each line
evidently means:

- Laser.py:36: the port is opened with `'port' = port` keyword syntax, which
  is a syntax error. The port itself is not modelled; the constructor sets
  `current`, `channel` and `status` to None as lines 38-40 do.
- Laser.py:42: `enable` takes an unused `enableStatus` argument; `Enable`
  has none.
- Laser.py:101-103: the decision tests an undefined `power`. The model
  tests the `current` argument.
- Laser.py:102, 104, 109, 112, 115: strings are concatenated with numbers.
  The model writes the decimal text of the channel (`IntText`) and the
  `format`ted current.
- Laser.py:121: `calibrateLaser` has no `self`. It is modelled as a method
  of the laser.
- Laser.py:177: `reutrn`. The model returns the two predicted peaks.
- Laser.py:234, 237: `gaussAuto` calls `GaussManual`, while the method is
  `gaussManual`. The model calls `gaussManual`.
- Laser.py:158, 160, 180, 225: `gaussManual` and `gaussAuto` are defined in
  the class body without `self`, and `calibrateLaser` calls them by their
  bare names. A method body does not see the class scope, so each call
  raises NameError. The model calls them as the laser's own functions
  (`GaussAuto`, `GaussManual`).
- Laser.py:136-142: when `image == 0` a file is loaded. The model takes the
  image as given. On a numpy image that comparison is an array, and `if`
  on it raises ValueError (an ambiguous truth value); the model does not
  raise there.
- CCDCclasses.py:38: the module `Camera_ctrl` is called as a function. The
  model calls the controller's `Camera_ctrl` function (`Ctrl`).
- CCDCclasses.py:27-33: `Camera.__init__` reads attributes it never set.
  The constructor takes them as parameters.
- CCDCclasses.py:48: `camera.newDarkFrame()` calls a flag. The model tests
  the flag.
- CCDCclasses.py:50: `camera.exposrure` is misspelt. The model reads
  `exposure`.
- CCDCclasses.py:54: the else branch assigns an undefined `darkCam`. The
  model keeps the stored dark frame.
- getImg.py:38-41: the two commands are checked against attributes spelt
  `voltageLimit` and `voltagelimit`. The model keeps both names, and a
  missing attribute is an error (`MissingAttribute`).

### What the code does not do

- The rescaled current is not clamped to the channel ceiling. A current
  above the ceiling is rejected, and nothing is written (Laser.py:101-103).
- Crop windows are not bounds-checked. numpy slicing clips them silently;
  see `SliceBounds` (Laser.py:189-192).
- `exposureproperties` performs no chip-bounds check; the check is
  commented out (Camera_ctrl.py:114-119).
- The dark frame is not cached. The shutter is left closed afterwards, not
  restored (CCDCclasses.py:73-90).

## Model

| member | source | states |
|---|---|---|
| `PyText.Lower` | Camera_ctrl.py:51 | ASCII lower-casing keeps the length of the text |
| `PyText.LowerChars` | Camera_ctrl.py:51 | lower-casing leaves no upper-case letter, shifts A-Z by 32 and keeps every other character |
| `PyText.LowerIdempotent` | getImg.py:43 | lower-casing twice is lower-casing once |
| `PyText.IntTextRoundTrip` | Laser.py:104 | the decimal text written for a channel reads back as that channel, negative channels included |
| `PyText.IntTextInjective` | Laser.py:109 | distinct channels produce distinct `channel=` commands |
| `PyNum.TruncHalf` | Laser.py:151-152 | `int(a/2)` truncates toward zero: the remainder is 0 or 1 away from zero on both signs |
| `PyNum.TruncReal` | Laser.py:214-217 | `int(r)` truncates a float toward zero |
| `PyNum.Pow2` | Laser.py:147 | `2 ** n` is at least 1 and even for n >= 1 |
| `LaserDevice.MaxCurrent` | Laser.py:89-99 | the ceiling is positive exactly for channels 1-4, never above 68.09, and 0 for any other channel |
| `LaserDevice.Decide` | Laser.py:101-117 | rejected iff the current exceeds the channel ceiling; switched off iff it is 0; set iff it is non-zero and within the ceiling |
| `LaserDevice.AcceptedIffWithinCeiling` | Laser.py:101-117 | a current is accepted iff it is at most the ceiling; the ceiling itself is accepted |
| `LaserDevice.UnknownChannelRejectsPositive` | Laser.py:97-102 | on a channel outside 1-4 every positive current is rejected |
| `LaserDevice.CurrentCommands` | Laser.py:101-117 | nothing is written iff the current is rejected; 0 writes `channel=c`, `enable=0`; any other accepted current writes `channel=c`, `enable=c`, `current=x` in that order |
| `LaserDevice.FirstCommandNamesChannel` | Laser.py:104-109 | every accepted change starts with a `channel=` command that parses back to the requested channel |
| `LaserDevice.Laser.constructor` | Laser.py:38-40 | a new laser has no current, no channel, no status and an empty port log |
| `LaserDevice.Laser.Enable` | Laser.py:42-53 | appends exactly `system=1`, sets status enabled, keeps current and channel and the ceiling invariant |
| `LaserDevice.Laser.Disable` | Laser.py:55-67 | appends `enable=0` then `system=0`, sets status disabled, keeps current and channel |
| `LaserDevice.Laser.ChangeCurrent` | Laser.py:83-119 | the log grows by exactly the decision's commands; only a set current updates current, channel and status; the recorded current never exceeds its channel's ceiling |
| `LaserDevice.Laser.CalibrateLaser` | Laser.py:121-178 | every failure leaves the laser untouched; on success the new current is the rescaled current sent to the recorded channel, the channel is unchanged, status becomes enabled only when the current is set, and the returned peaks are the rescaled located peaks |
| `SpectralCalibration.Transpose` | Laser.py:144 | the transpose is rectangular, of swapped shape, with cell (i, j) the image's (j, i) |
| `SpectralCalibration.CentredSpan` | Laser.py:151-152 | for 0 <= x <= N the span lies inside 0..N and has length exactly x |
| `SpectralCalibration.Padded` | Laser.py:148-152 | the padded field is N x N |
| `SpectralCalibration.PaddedZeroOutside` | Laser.py:148-152 | every cell outside the centred block is zero |
| `SpectralCalibration.SliceBounds` | Laser.py:189-192 | numpy slice bounds: in range, ordered, and exactly (lo, hi) when those lie inside the array |
| `SpectralCalibration.Crop` | Laser.py:189-192 | a crop inside the array has the requested rows, each cut to the requested columns |
| `SpectralCalibration.CropOfPaddedIsImage` | Laser.py:151-152 | cropping the centred block out of the padded field gives back the image |
| `SpectralCalibration.WindowSpan` | Laser.py:189-192 | for integer p >= s/2 the window has length exactly s and starts inside the array |
| `SpectralCalibration.WindowShape` | Laser.py:189-192 | a window inside the spectrum is s x s, rows taken from y and columns from x, cell (i, j) being the spectrum's (row start + i, column start + j) |
| `SpectralCalibration.ToGlobalInvertsWindow` | Laser.py:214-217 | the global coordinate of window index k is the window start plus k, for odd and even sides |
| `SpectralCalibration.ToGlobal` | Laser.py:214-217 | a local coordinate between 0 and s - 1 is translated into the window's span of the spectrum |
| `SpectralCalibration.TranslatedCellIsWindowCell` | Laser.py:189-217 | the translated coordinates of an integral fit position address the spectrum cell the fitter saw there |
| `SpectralCalibration.Locate` | Laser.py:189-217 | the reported height is the window's fitted height, and a peak the fitter places inside its window is reported inside that window's span |
| `SpectralCalibration.GaussManual` | Laser.py:180-223 | each reported height is the fit's height on its own window |
| `SpectralCalibration.AutoWindows` | Laser.py:233-238 | presets exist exactly for resolutions 11 and 12 |
| `SpectralCalibration.AutoWindowsScaleWithField` | Laser.py:233-238 | the resolution-12 presets are the resolution-11 presets doubled |
| `SpectralCalibration.GaussAuto` | Laser.py:225-239 | there is a result iff the resolution is 11 or 12, and it is gaussManual with the presets |
| `SpectralCalibration.LocatePeaks` | Laser.py:157-163 | succeeds only for 'auto' or 'man'; 'man' with windows is gaussManual and without them fails; 'auto' succeeds iff the resolution is 11 or 12, with gaussAuto's peaks; any other mode fails as unknown |
| `SpectralCalibration.LocatePeaksAsWritten` | Laser.py:157-163 | with the bare-name calls resolved, auto mode as written fails at every resolution; every other mode behaves as the corrected dispatch |
| `SpectralCalibration.Pow2NeverElevenOrTwelve` | Laser.py:158 | no power of two equals 11 or 12 |
| `SpectralCalibration.AutoModeAsWrittenNeverLocates` | Laser.py:158 | auto mode given N = 2 ** resolution fails at every resolution; given the resolution it succeeds at 11 and 12 |
| `SpectralCalibration.Calibration` | Laser.py:139-163 | a negative resolution fails; an image larger than the field fails; success implies the image fits the field |
| `SpectralCalibration.Rescale` | Laser.py:166-178 | the secondary peak becomes exactly 0.9, positions are kept, and the centre height and the current scale by 0.9 / secondary height |
| `SpectralCalibration.EmbedCentered` | Laser.py:147-152 | the fresh N x N array holds exactly the padded field, and it fails iff the image does not fit |
| `LegacyCalibration.LocateAddsWindowOffset` | Laser.py:214-217 | the current revision reports an integral local fit (kx, ky) at window start + (kx, ky); the earlier ones report (kx, ky) |
| `LegacyCalibration.GaussManualKeepsLocalHeights` | LaserCalibrationFunctionsMac.py:5-21 | the current and earlier manual fits carry the same heights |
| `LegacyCalibration.LegacyDispatch` | LaserCalibrationFunctions.py:32-38 | only 'man' without windows fails; 'auto' does nothing; an unknown mode is only reported; 'man' fits the windows locally |
| `LegacyCalibration.LegacyRun` | LaserCalibrationFunctions.py:22-38 | fails iff the loaded image does not fit (ImageTooLarge) or 'man' lacks windows (MissingWindowArgs); 'auto' only is skipped; an unknown mode is only reported; 'man' fits both windows with the heights gaussManual finds on the same spectrum |
| `LegacyCalibration.LegacyManualAgreesWithCurrent` | LaserCalibrationFunctionsMac.py:23-40 | where the earlier revision's manual run succeeds, the current calibration succeeds with the same peak heights |
| `LegacyCalibration.LegacyCalibrate` | LaserCalibrationFunctions.py:22-31 | the in-place padding run equals the specification `LegacyRun` |
| `LegacyCalibration.CalibrateLaserFixed` | LaserCalibrationFunctions.py:21-38 | N is 4096 whatever the input; it fails iff the image does not fit or 'man' lacks windows |
| `LegacyCalibration.CalibrateLaserMac` | LaserCalibrationFunctionsMac.py:23-40 | N is 2 ** resolution; a negative resolution fails |
| `LegacyCalibration.CalibrateLaserMacAsWritten` | LaserCalibrationFunctionsMac.py:37-38 | as written, every manual run whose image fits fails on the undefined name |
| `CameraCtrl.GeometryOf` | Camera_ctrl.py:104-112 | accepted iff all three arguments are tuples of length 2, and then the geometry is exactly their entries |
| `CameraCtrl.ParseLowered` | Camera_ctrl.py:53-172 | an unmatched name is reported; a wrong argument count is refused; an accepted command bears the name it was sent under |
| `CameraCtrl.ParseChecks` | Camera_ctrl.py:51-172 | the same, for any spelling of the name after lower-casing |
| `CameraCtrl.ParseRoundTrip` | Camera_ctrl.py:51-172 | every command, sent under its own name with its own arguments, parses back to itself |
| `CameraCtrl.ParseIgnoresCase` | Camera_ctrl.py:51 | names are matched without regard to case |
| `CameraCtrl.EnableRegs` | Camera_ctrl.py:56-57 | enable sets Connected and no other register |
| `CameraCtrl.InitRegs` | Camera_ctrl.py:65-81 | main camera, fan full, cooler on, gain 1, set-point written only when the camera can set it, and no other register changed |
| `CameraCtrl.ShutterRegs` | Camera_ctrl.py:85-99 | manual mode and open follow the flag being 1, and no other register changes |
| `CameraCtrl.GeometryRegs` | Camera_ctrl.py:120-125 | the six geometry registers read back as the geometry, and no other register changes |
| `CameraCtrl.FinalizeRegs` | Camera_ctrl.py:159-166 | fan off, cooler off, shutter closed in automatic mode, and no other register changes |
| `CameraCtrl.DisableRegs` | Camera_ctrl.py:167-170 | Connected cleared and no other register changed |
| `CameraCtrl.Step` | Camera_ctrl.py:61-170 | no command changes what the camera can do; handle.shutter stays 0 or 1, and only shutter and finalize move it; only disable disconnects; exposure and realtime write no register |
| `CameraCtrl.InitIdempotent` | Camera_ctrl.py:61-81 | running init twice gives the state of running it once |
| `CameraCtrl.InitEndState` | Camera_ctrl.py:61-81 | init leaves main camera, fan full, cooler on and gain 1; the set-point is written only when the camera can set it |
| `CameraCtrl.ShutterEndState` | Camera_ctrl.py:82-100 | flag 1 leaves manual mode, shutter open and handle.shutter 1; any other flag leaves it closed in automatic mode with 0 |
| `CameraCtrl.ExposurePropertiesWritesOnlyGeometry` | Camera_ctrl.py:120-125 | exposureproperties writes the six geometry registers and nothing else |
| `CameraCtrl.FinalizeEndState` | Camera_ctrl.py:159-166 | finalize turns fan and cooler off and closes the shutter |
| `CameraCtrl.DisableEndState` | Camera_ctrl.py:167-170 | disable disconnects, and is a no-op on a disconnected camera |
| `CameraCtrl.AsWrittenGuardBlocksEveryExposure` | Camera_ctrl.py:141-142 | the guard as written is the negation of the intended guard, so it trips on the shutter value of every handle |
| `CameraCtrl.Handle.constructor` | Camera_ctrl.py:39-45 | serial 00602768, shutter True, defaults (0, 0), (2758, 2208), (1, 1) |
| `CameraCtrl.Handle.Blank` | CCDCclasses.py:15-21 | serial 0, shutter True, every default (0, 0) |
| `CameraCtrl.Handle.Connect` | Camera_ctrl.py:56-57 | sets Connected and nothing else |
| `CameraCtrl.Handle.StartCooling` | Camera_ctrl.py:65-73 | the first three guarded writes leave main camera, fan full and cooler on |
| `CameraCtrl.Handle.Init` | Camera_ctrl.py:65-81 | the guarded writes leave exactly the init registers |
| `CameraCtrl.Handle.SetShutter` | Camera_ctrl.py:85-99 | the shutter registers and handle.shutter follow the flag |
| `CameraCtrl.Handle.SetExposureProperties` | Camera_ctrl.py:120-125 | writes the six geometry registers |
| `CameraCtrl.Handle.Finalize` | Camera_ctrl.py:159-166 | fan off, cooler off, then the shutter-close transition |
| `CameraCtrl.Handle.Disconnect` | Camera_ctrl.py:167-170 | clears Connected and nothing else |
| `CameraCtrl.Ctrl` | Camera_ctrl.py:48-172 | parse errors come first and change nothing; enable returns a fresh connected handle with serial 00602768 and defaults (0, 0), (2758, 2208), (1, 1); other commands without a handle fail; an exposure with an invalid shutter value fails; every other command moves the registers and shutter by exactly `Step` and appends itself to the history |
| `CameraCtrl.CtrlAsWritten` | Camera_ctrl.py:136-158 | as written, every exposure on a handle fails with the shutter-state error and changes nothing, and so does realtime, whose first exposure raises an error its `except KeyboardInterrupt` does not catch; parse errors and a missing handle are reported as in `Ctrl` |
| `CcdCamera.MeanOfRepeatedFrame` | CCDCclasses.py:67-70 | averaging num >= 1 copies of a frame returns that frame |
| `CcdCamera.Mean` | CCDCclasses.py:67-70 | with a negative count no exposure is taken and the pixel is zero |
| `CcdCamera.MeanBetween` | CCDCclasses.py:67-70 | an averaged pixel lies between the smallest and the largest value the frames hold there |
| `CcdCamera.AddFrame` | CCDCclasses.py:69 | the accumulator grows by the frame, cell by cell |
| `CcdCamera.Averaged` | CCDCclasses.py:70 | each cell is the accumulated value divided by num |
| `CcdCamera.ExposeAll` | CCDCclasses.py:67-69 | range(num) exposures, each appended to the history; the accumulator ends as the frame sums; a misshaped frame fails; registers and shutter unchanged |
| `CcdCamera.TakeImg` | CCDCclasses.py:62-71 | geometry set once before any exposure; exactly range(num) exposures; a size[1] x size[0] image whose cells are the frame means; num == 0 (NoFrames), negative sizes and misshaped frames (FrameShapeMismatch) fail |
| `CcdCamera.TakeDarkCam` | CCDCclasses.py:73-90 | shutter closed first, priority and readout speed 0, geometry (0, 0), 500 x 500, (BinX, BinY); the result is the mean of numIm frames |
| `CcdCamera.PrepareDark` | CCDCclasses.py:76-78 | the shutter is closed, then priority and readout speed set to 0, in that order |
| `CcdCamera.TakeDarkCamAsWritten` | CCDCclasses.py:76-77 | as written, the run fails on `shuttepriority` after closing the shutter |
| `CcdCamera.MisspeltDarkCommandsAreUnknown` | CCDCclasses.py:77-78 | `shuttepriority` and `readoutspeed` match no command |
| `CcdCamera.Camera.constructor` | CCDCclasses.py:10-33 | a camera starts with its given settings and a fresh placeholder handle: serial "0", shutter open, every default pair (0, 0), nothing dispatched yet |
| `CcdCamera.StartupState` | CCDCclasses.py:38-46 | after start-up the camera is connected, main, cooled, fan full, gain 1, shutter open, with the requested geometry |
| `CcdCamera.OpenCamera` | CCDCclasses.py:38-43 | a fresh controller handle (serial 00602768, defaults (0, 0), (2758, 2208), (1, 1)) enabled, initialised at -15, with shutter priority 1 and the shutter open |
| `CcdCamera.InitializeCamera` | CCDCclasses.py:35-54 | the placeholder handle is replaced by a fresh controller handle (serial 00602768 and its default pairs); commands go enable, init(-15), shutterpriority(1), shutter(1), exposureproperties; a new dark frame averages 30 exposures and leaves the dark-run registers and the shutter closed, otherwise the stored one is kept; a bad geometry stops after shutter(1); every failure keeps the stored dark frame |
| `CcdCamera.ShutdownState` | CCDCclasses.py:56-60 | after shut-down the camera is disconnected, fan and cooler off, shutter closed |
| `CcdCamera.FinalizeCamera` | CCDCclasses.py:56-60 | commands go shutter(0), finalize, disable on the same handle, which ends disconnected with fan and cooler off and the shutter closed; the stored dark frame is kept |
| `DmImage.MaxAbs` | getImg.py:38-41 | the largest magnitude bounds every entry and is one of them |
| `DmImage.CheckLimit` | getImg.py:38-41 | passes iff the command is non-empty, the limit exists and every magnitude is at most the limit |
| `DmImage.Validate` | getImg.py:34-41 | a NaN in either command is refused |
| `DmImage.GetImg` | getImg.py:32-51 | a failed validation is returned as is; after it the request succeeds iff the lower-cased mode is 'simulation' or 'lab', and the source is Lab iff the mode is 'lab' |
| `DmImage.GetImgAcceptsIff` | getImg.py:32-51 | a request is served iff both commands are NaN-free, non-empty and within their limits (the limit included), and the mode is 'simulation' or 'lab' in any case |
| `DmImage.OverLimitRefused` | getImg.py:38-39 | one entry above the limit refuses the request under any mode |
| `DmImage.ValidationPrecedesDispatch` | getImg.py:34-50 | a request that fails validation fails the same way whatever the mode |
| `DmImage.ModeIgnoresCase` | getImg.py:43 | the mode is matched without regard to case |

## Left out

- Serial-port opening, closing and the settle delays of the laser (`time.sleep`) are device I/O; only the ordered log of written commands is kept.
- `Laser.status()` (Laser.py:69-81) reads the port until it is empty; it is device I/O.
- The Fourier transform, its magnitude and max-normalisation, and `fit_gauss_2D` are floating-point numerics from code not shown; they are the function parameters `spectrum` and `fit`.
- Python's `str()` of a float is the parameter `format`.
- Float rounding: currents, heights and fit positions are exact reals, indices are integers.
- IEEE infinities and NaN are not modelled, except `Voltage.NaN` in the DM commands. A secondary height of 0.0 makes `.9 / secondary[0]` (Laser.py:166) raise ZeroDivisionError on a Python float but give inf with a warning on a numpy float; the model fails with `ZeroSecondaryHeight` in both cases.
- PyText.Lower: lower-cases ASCII letters only; Python's Unicode case mapping (which can change the length, as `'İ'.lower()` does) is not modelled. The only non-ASCII characters it maps into ASCII are 'İ' (to 'i' plus a combining dot) and the Kelvin sign (to 'k'), and no command or mode name contains 'k' or a combining dot, so no accepted name is affected.
- Loading the image file (`np.loadtxt`) is I/O; the loaded image is a parameter.
- The exposure start, busy-wait on ImageReady and ImageArray read (Camera_ctrl.py:143-150) are device I/O; the frame is a parameter of `Ctrl`, and the frames of `TakeImg` come from an oracle.
- The realtime loop (Camera_ctrl.py:151-158) plots exposures until interrupted; `Realtime` writes no register and returns nothing.
- `os.chdir` in `takeDarkCam` (CCDCclasses.py:87-89) is filesystem I/O.
- `getSimImg` draws random noise and `getLabImg` is not defined anywhere; `GetImg` returns which source was asked for, not an image.
- Motor.py, motor_op.py, initializeCamera.py and FourierMac.py are not part of this model: they are device wrappers and top-level scripts.
- CameraCtrl.Parse has no contract of its own, to keep the cost of its many call sites down; `ParseChecks`, `ParseRoundTrip` and `ParseIgnoresCase` state what it guarantees.
- CameraCtrl.CtrlAsWritten: requires a handle to satisfy its invariant (shutter 0 or 1), which every handle the controller creates does.
- CcdCamera.TakeImg: the accumulator is an unbounded integer array, where numpy's is int32 and would wrap on overflow.
- CcdCamera.TakeImg: a frame must have exactly the accumulator's shape; numpy would also broadcast a frame of one row or one column, which the model refuses as `FrameShapeMismatch`.
- SpectralCalibration.Calibration: an image with no columns has an empty transpose, so only its width is related to the field side.
- Window centres are integer points; Python would also accept float centres, which `int(p - s/2)` then truncates.
- Arguments are numbers or tuples of integers; the strings and other objects Python would also accept as register values are not modelled.
- The ghost `history` of a handle records the commands dispatched on it; finalize's internal shutter command is part of `Finalize`, not a separate entry.

## Findings

| source | as written | input that shows it | evidently intended | confidence | as-written member | corrected member |
|---|---|---|---|---|---|---|
| Camera_ctrl.py:141-142 | the exposure guard raises when `handle.shutter == True or handle.shutter == False`, and True and False equal 1 and 0 | any handle, shutter 1 or 0, command `exposure` | raise only for a shutter value that is neither open nor closed | not executed | `CameraCtrl.CtrlAsWritten` | `CameraCtrl.Ctrl` |
| Laser.py:158 | auto mode calls the bare name `gaussAuto`, which raises NameError first; called as the laser's function, it is given N = 2 ** resolution, and gaussAuto has presets only for 11 and 12 | resolution 11: NameError; with the call resolved, gaussAuto gets 2048 and leaves `center` unbound | pass the resolution | not executed | `SpectralCalibration.AutoModeAsWrittenNeverLocates` | `SpectralCalibration.LocatePeaks` |
| CCDCclasses.py:77-78 | takeDarkCam sends `shuttepriority` and `readoutspeed`, which the controller's dispatch does not know; `readoutspeed` is how the controller's own usage note (Camera_ctrl.py:17) spells it, so for that name the fault may lie in the dispatch at Camera_ctrl.py:131 instead | any dark-frame request (`shuttepriority` is sent first and raises) | `shutterpriority`, and one agreed spelling of the readout-speed command (the model takes the dispatch's `readout speed`) | not executed | `CcdCamera.TakeDarkCamAsWritten` | `CcdCamera.TakeDarkCam` |
| LaserCalibrationFunctionsMac.py:38 | the 'man' branch calls `GuassManual`, which is not defined | mode 'man' with an image that fits | call `GaussManual` | not executed | `LegacyCalibration.CalibrateLaserMacAsWritten` | `LegacyCalibration.CalibrateLaserMac` |
