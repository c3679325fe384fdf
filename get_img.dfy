// The deformable-mirror command check that precedes every image request:
// neither voltage command may hold a NaN or exceed its mirror's voltage
// limit, and the image source is chosen by a case-insensitive mode name.
// The images themselves are not modelled; the result says which source
// was asked for.

module DmImage {
  import opened Wrappers
  import opened PyText

  /** One entry of a voltage command: a float or NaN. */
  datatype Voltage = Finite(v: real) | NaN

  /** The two limit attributes the check reads from the mirror model; the
      first command is checked against DM.voltageLimit, the second against
      DM.voltagelimit. An attribute the model does not have is None. */
  datatype MirrorModel = MirrorModel(voltageLimit: Option<real>, voltagelimit: Option<real>)

  datatype ImageSource = Simulation | Lab

  datatype DmError =
    | CommandsExceedLimit        // 'DM COMMANDS EXCEED LIMIT!!', NaN or over the limit
    | EmptyCommand               // numpy.amax of an empty array
    | MissingAttribute(name: string)
    | UnknownMode                // 'We only have two modes, simulation or lab.'

  predicate HasNaN(cmd: seq<Voltage>) {
    exists i :: 0 <= i < |cmd| && cmd[i].NaN?
  }

  function Abs(x: real): real { if x < 0.0 then -x else x }

  /** numpy.amax(numpy.absolute(cmd)) on a NaN-free, non-empty command: an
      upper bound of every |v| that is itself some |v|. */
  function MaxAbs(cmd: seq<Voltage>): (m: real)
    requires |cmd| > 0 && !HasNaN(cmd)
    ensures forall i :: 0 <= i < |cmd| ==> Abs(cmd[i].v) <= m
    ensures exists i :: 0 <= i < |cmd| && m == Abs(cmd[i].v)
  {
    if |cmd| == 1 then Abs(cmd[0].v)
    else
      var rest := MaxAbs(cmd[1..]);
      assert forall i :: 1 <= i < |cmd| ==> cmd[i] == cmd[1..][i - 1];
      if Abs(cmd[0].v) >= rest then Abs(cmd[0].v) else rest
  }

  /** Every entry of a NaN-free command is within the limit. */
  predicate WithinLimit(cmd: seq<Voltage>, limit: real)
    requires !HasNaN(cmd)
  {
    forall i :: 0 <= i < |cmd| ==> Abs(cmd[i].v) <= limit
  }

  /** The check on one command after both NaN checks: non-empty, limit
      attribute present, largest magnitude not above the limit. */
  function CheckLimit(cmd: seq<Voltage>, limit: Option<real>, attribute: string): (r: Result<(), DmError>)
    requires !HasNaN(cmd)
    ensures r.Success? <==> |cmd| > 0 && limit.Some? && WithinLimit(cmd, limit.value)
    ensures r.Failure? && |cmd| > 0 && limit.Some? ==> r.error == CommandsExceedLimit
  {
    if |cmd| == 0 then Failure(EmptyCommand)
    else if limit.None? then Failure(MissingAttribute(attribute))
    else if MaxAbs(cmd) > limit.value then Failure(CommandsExceedLimit)
    else Success(())
  }

  /** All of getImg's checks on the two commands, in the source's order. */
  function Validate(dm: MirrorModel, dm1: seq<Voltage>, dm2: seq<Voltage>): (r: Result<(), DmError>)
    ensures HasNaN(dm1) || HasNaN(dm2) ==> r == Failure(CommandsExceedLimit)
  {
    if HasNaN(dm1) then Failure(CommandsExceedLimit)
    else if HasNaN(dm2) then Failure(CommandsExceedLimit)
    else
      var _ :- CheckLimit(dm1, dm.voltageLimit, "voltageLimit");
      CheckLimit(dm2, dm.voltagelimit, "voltagelimit")
  }

  /** getImg: validate both commands, then choose the image source by the
      lower-cased mode. */
  function GetImg(dm: MirrorModel, dm1: seq<Voltage>, dm2: seq<Voltage>, simOrLab: string)
    : (r: Result<ImageSource, DmError>)
    ensures Validate(dm, dm1, dm2).Failure? ==> r == Failure(Validate(dm, dm1, dm2).error)
    ensures Validate(dm, dm1, dm2).Success? ==>
      (r.Success? <==> Lower(simOrLab) == "simulation" || Lower(simOrLab) == "lab")
    ensures r.Success? ==> (r.value == Lab <==> Lower(simOrLab) == "lab")
    ensures r.Failure? && Validate(dm, dm1, dm2).Success? ==> r.error == UnknownMode
  {
    var _ :- Validate(dm, dm1, dm2);
    var mode := Lower(simOrLab);
    if mode == "simulation" then Success(Simulation)
    else if mode == "lab" then Success(Lab)
    else Failure(UnknownMode)
  }

  /** A request is served exactly when both commands are NaN-free and
      non-empty, both limit attributes exist, every |v| is at most its
      command's limit (the limit itself included), and the mode is
      'simulation' or 'lab' in any case. */
  lemma {:induction false} GetImgAcceptsIff(dm: MirrorModel, dm1: seq<Voltage>, dm2: seq<Voltage>,
                                            simOrLab: string)
    ensures GetImg(dm, dm1, dm2, simOrLab).Success? <==>
      && !HasNaN(dm1) && !HasNaN(dm2)
      && |dm1| > 0 && |dm2| > 0
      && dm.voltageLimit.Some? && dm.voltagelimit.Some?
      && WithinLimit(dm1, dm.voltageLimit.value) && WithinLimit(dm2, dm.voltagelimit.value)
      && Lower(simOrLab) in {"simulation", "lab"}
    ensures GetImg(dm, dm1, dm2, simOrLab).Success? ==>
      (GetImg(dm, dm1, dm2, simOrLab).value == Lab <==> Lower(simOrLab) == "lab")
  {
    if !HasNaN(dm1) && !HasNaN(dm2) {
      var c1 := CheckLimit(dm1, dm.voltageLimit, "voltageLimit");
      var c2 := CheckLimit(dm2, dm.voltagelimit, "voltagelimit");
      assert Validate(dm, dm1, dm2).Success? <==> c1.Success? && c2.Success?;
    }
  }

  /** A command with an entry strictly above its limit is refused whatever
      the mode. */
  lemma {:induction false} OverLimitRefused(dm: MirrorModel, dm1: seq<Voltage>, dm2: seq<Voltage>,
                                            simOrLab: string, i: nat)
    requires !HasNaN(dm1) && dm.voltageLimit.Some?
    requires i < |dm1| && Abs(dm1[i].v) > dm.voltageLimit.value
    ensures GetImg(dm, dm1, dm2, simOrLab) == Failure(CommandsExceedLimit)
  {
    assert !WithinLimit(dm1, dm.voltageLimit.value);
    assert Validate(dm, dm1, dm2) == Failure(CommandsExceedLimit);
  }

  /** Every check finishes before the mode is looked at: a request that
      fails validation fails the same way under any mode. */
  lemma ValidationPrecedesDispatch(dm: MirrorModel, dm1: seq<Voltage>, dm2: seq<Voltage>,
                                   mode1: string, mode2: string)
    requires Validate(dm, dm1, dm2).Failure?
    ensures GetImg(dm, dm1, dm2, mode1) == GetImg(dm, dm1, dm2, mode2)
    ensures GetImg(dm, dm1, dm2, mode1) == Failure(Validate(dm, dm1, dm2).error)
  {
  }

  /** The mode name is matched without regard to case. */
  lemma {:induction false} ModeIgnoresCase(dm: MirrorModel, dm1: seq<Voltage>, dm2: seq<Voltage>,
                                           simOrLab: string)
    ensures GetImg(dm, dm1, dm2, simOrLab) == GetImg(dm, dm1, dm2, Lower(simOrLab))
  {
    LowerIdempotent(simOrLab);
  }
}
