// The laser controller: a serial-port device with four channels, each with
// its own current ceiling. The port is modelled by the ordered list of ASCII
// commands written to it; opening and closing the port, the settle delays and
// the status read-back are not part of the model.

module LaserDevice {
  import opened Wrappers
  import opened PyText
  import opened SpectralCalibration

  /** The status attribute: None until a command sets it. */
  datatype LaserStatus = NoStatus | Enabled | Disabled

  /** The three outcomes of changeCurrent. */
  datatype Decision = Rejected | SwitchedOff | CurrentSet

  /** The per-channel ceiling in mA; any other channel gets ceiling 0. */
  function MaxCurrent(channel: int): (m: real)
    ensures m >= 0.0
    ensures m > 0.0 <==> 1 <= channel <= 4
    ensures m <= 68.09
  {
    if channel == 1 then 68.09
    else if channel == 2 then 63.89
    else if channel == 3 then 41.59
    else if channel == 4 then 67.39
    else 0.0
  }

  /** Above the ceiling: reject; exactly zero: switch the channel off;
      anything else: set it. */
  function Decide(current: real, channel: int): (d: Decision)
    ensures d == Rejected <==> current > MaxCurrent(channel)
    ensures d == SwitchedOff <==> current == 0.0
    ensures d == CurrentSet <==> current != 0.0 && current <= MaxCurrent(channel)
  {
    if current > MaxCurrent(channel) then Rejected
    else if current == 0.0 then SwitchedOff
    else CurrentSet
  }

  /** A current is accepted exactly when it does not exceed the channel's
      ceiling; the ceiling itself is accepted. */
  lemma AcceptedIffWithinCeiling(current: real, channel: int)
    ensures Decide(current, channel) != Rejected <==> current <= MaxCurrent(channel)
    ensures Decide(MaxCurrent(channel), channel) != Rejected
  {
  }

  /** On a channel outside 1..4 every positive current is rejected. */
  lemma UnknownChannelRejectsPositive(current: real, channel: int)
    requires !(1 <= channel <= 4) && current > 0.0
    ensures Decide(current, channel) == Rejected
  {
  }

  function ChannelCommand(channel: int): string { "channel=" + IntText(channel) }

  function EnableCommand(channel: int): string { "enable=" + IntText(channel) }

  /** The commands changeCurrent writes, in order; `format` renders the
      current as Python's str() does for a float. */
  function CurrentCommands(current: real, channel: int, format: real -> string): (cmds: seq<string>)
    ensures Decide(current, channel) == Rejected <==> cmds == []
    ensures Decide(current, channel) == SwitchedOff ==> cmds == [ChannelCommand(channel), "enable=0"]
    ensures Decide(current, channel) == CurrentSet ==>
      cmds == [ChannelCommand(channel), EnableCommand(channel), "current=" + format(current)]
  {
    match Decide(current, channel)
    case Rejected => []
    case SwitchedOff => [ChannelCommand(channel), "enable=0"]
    case CurrentSet => [ChannelCommand(channel), EnableCommand(channel), "current=" + format(current)]
  }

  /** Whatever changeCurrent writes starts with a channel selection from
      which the laser reads back exactly the requested channel. */
  lemma {:induction false} FirstCommandNamesChannel(current: real, channel: int, format: real -> string)
    requires Decide(current, channel) != Rejected
    ensures |CurrentCommands(current, channel, format)| >= 2
    ensures var cmd := CurrentCommands(current, channel, format)[0];
      |cmd| > 8 && cmd[..8] == "channel=" && ParseInt(cmd[8..]) == Some(channel)
  {
    var cmd := ChannelCommand(channel);
    assert cmd[8..] == IntText(channel);
    IntTextRoundTrip(channel);
  }

  class Laser {
    var current: Option<real>
    var channel: Option<int>
    var status: LaserStatus
    /** Every command written to the serial port, oldest first. */
    var written: seq<string>
    /** Python's str() on a float, which the model does not spell out. */
    const format: real -> string

    /** A current and a channel are recorded together, and the recorded
        current never exceeds its channel's ceiling. */
    ghost predicate Valid()
      reads this
    {
      && (current.Some? <==> channel.Some?)
      && (current.Some? ==> current.value <= MaxCurrent(channel.value))
    }

    constructor (format: real -> string)
      ensures Valid()
      ensures current == None && channel == None && status == NoStatus && written == []
      ensures this.format == format
    {
      this.format := format;
      current, channel, status := None, None, NoStatus;
      written := [];
    }

    /** enable: system=1. */
    method Enable()
      requires Valid()
      modifies this
      ensures Valid()
      ensures written == old(written) + ["system=1"]
      ensures status == Enabled
      ensures current == old(current) && channel == old(channel)
    {
      written := written + ["system=1"];
      status := Enabled;
    }

    /** disbale: enable=0, then system=0. */
    method Disable()
      requires Valid()
      modifies this
      ensures Valid()
      ensures written == old(written) + ["enable=0", "system=0"]
      ensures status == Disabled
      ensures current == old(current) && channel == old(channel)
    {
      written := written + ["enable=0"];
      written := written + ["system=0"];
      status := Disabled;
    }

    /** changeCurrent: check the ceiling, then either write nothing, switch
        the channel off, or select, enable and set it. */
    method ChangeCurrent(x: real, ch: int) returns (d: Decision)
      requires Valid()
      modifies this
      ensures Valid()
      ensures d == Decide(x, ch)
      ensures written == old(written) + CurrentCommands(x, ch, format)
      ensures d == CurrentSet ==> current == Some(x) && channel == Some(ch) && status == Enabled
      ensures d != CurrentSet ==>
        current == old(current) && channel == old(channel) && status == old(status)
    {
      var maxCurrent := MaxCurrent(ch);
      if x > maxCurrent {
        d := Rejected;
      } else if x == 0.0 {
        written := written + [ChannelCommand(ch)];
        written := written + ["enable=0"];
        d := SwitchedOff;
      } else {
        written := written + [ChannelCommand(ch)];
        channel := Some(ch);
        written := written + [EnableCommand(ch)];
        status := Enabled;
        written := written + ["current=" + format(x)];
        current := Some(x);
        d := CurrentSet;
      }
    }

    /** calibrateLaser: locate the two peaks in the spectrum of the padded
        image, scale the current so that the secondary peak would read 0.9,
        send that current to the recorded channel, and return the predicted
        peaks. Every failure happens before anything is written. */
    method CalibrateLaser(image: Grid, mode: string, resolution: int, manual: Option<Windows>,
                          spectrum: Grid -> Grid, fit: Grid -> Fit)
      returns (r: Result<(Peak, Peak), CalError>)
      requires Valid() && Rect(image)
      modifies this
      ensures Valid()
      ensures r.Failure? ==> unchanged(this)
      ensures r.Success? ==>
        && old(current).Some?
        && Calibration(image, mode, resolution, manual, spectrum, fit).Success?
        && Calibration(image, mode, resolution, manual, spectrum, fit).value.1.height != 0.0
      ensures r.Success? ==>
        var peaks := Calibration(image, mode, resolution, manual, spectrum, fit).value;
        var c := Rescale(peaks.0, peaks.1, old(current).value);
        && r.value == (c.center, c.secondary)
        && written == old(written) + CurrentCommands(c.newCurrent, old(channel).value, format)
        && (Decide(c.newCurrent, old(channel).value) == CurrentSet ==> current == Some(c.newCurrent))
        && (Decide(c.newCurrent, old(channel).value) != CurrentSet ==> current == old(current))
        && channel == old(channel)
        && status == (if Decide(c.newCurrent, old(channel).value) == CurrentSet then Enabled else old(status))
      ensures Calibration(image, mode, resolution, manual, spectrum, fit).Failure? ==>
        r == Failure(Calibration(image, mode, resolution, manual, spectrum, fit).error)
      ensures Calibration(image, mode, resolution, manual, spectrum, fit).Success? ==>
        var peaks := Calibration(image, mode, resolution, manual, spectrum, fit).value;
        && (peaks.1.height == 0.0 ==> r == Failure(ZeroSecondaryHeight))
        && (peaks.1.height != 0.0 && old(current).None? ==> r == Failure(NoCurrent))
    {
      if resolution < 0 {
        return Failure(NegativeResolution);
      }
      var n := PyNum.Pow2(resolution);
      var t := Transpose(image);
      var field := EmbedCentered(t, n);
      if field.Failure? {
        return Failure(field.error);
      }
      var spec := spectrum(Rows(field.value));
      var located := LocatePeaks(spec, mode, resolution, manual, fit);
      if located.Failure? {
        return Failure(located.error);
      }
      var (center, secondary) := located.value;
      if secondary.height == 0.0 {
        return Failure(ZeroSecondaryHeight);
      }
      if current.None? {
        return Failure(NoCurrent);
      }
      var c := Rescale(center, secondary, current.value);
      var _ := ChangeCurrent(c.newCurrent, channel.value);
      return Success((c.center, c.secondary));
    }
  }
}
