/** The gripper's last known status, GeckoGripperState, as the class the
    status node fills in and the value its fields make up. */
module GeckoTypes {
  import opened GuestScience

  /** The value of every field of a GeckoGripperState. `validity` and
      `newStatusReceived` are the two members the status node and the
      command service use besides the ten reported ones. */
  datatype GripperFields = GripperFields(
    lastStatusReadTime: int,
    errorStatus: int,
    adhesiveEngage: bool,
    wristLock: bool,
    automaticModeEnable: bool,
    experimentInProgress: bool,
    overtemperatureFlag: bool,
    fileIsOpen: bool,
    expIdx: int,
    delay: int,
    validity: bool,
    newStatusReceived: bool)

  /** The fields of a freshly constructed GeckoGripperState: -1 for the
      counters, 0 for the error status, every flag false (`validity` and
      `newStatusReceived` start as Java's false). */
  const DefaultFields := GripperFields(-1, 0, false, false, false, false, false, false, -1, -1, false, false)

  /** The ten keys of toJSON, in the order the code puts them. */
  const ReportKeys: seq<string> := [
    "Last Status Read Time", "Error Status", "Adhesive Engage", "Wrist Lock",
    "Automatic Mode Enable", "Experiment in Progress", "Overtemperature Flag",
    "File is Open", "Experiment Idx", "Delay"]

  /** The report toJSON builds from the fields: the ten keys in order, each
      with its field's value, the error status as its raw integer; `validity`
      and `newStatusReceived` are not reported. */
  function Report(f: GripperFields): (r: Json)
    ensures r.JObject? && |r.members| == |ReportKeys|
    ensures forall i :: 0 <= i < |ReportKeys| ==> r.members[i].0 == ReportKeys[i]
  {
    JObject([
      ("Last Status Read Time", JInt(f.lastStatusReadTime)),
      ("Error Status", JInt(f.errorStatus)),
      ("Adhesive Engage", JBool(f.adhesiveEngage)),
      ("Wrist Lock", JBool(f.wristLock)),
      ("Automatic Mode Enable", JBool(f.automaticModeEnable)),
      ("Experiment in Progress", JBool(f.experimentInProgress)),
      ("Overtemperature Flag", JBool(f.overtemperatureFlag)),
      ("File is Open", JBool(f.fileIsOpen)),
      ("Experiment Idx", JInt(f.expIdx)),
      ("Delay", JInt(f.delay))])
  }

  /** The ten report keys are distinct, so the report has exactly ten keys. */
  lemma ReportKeysDistinct()
    ensures forall i, j :: 0 <= i < j < |ReportKeys| ==> ReportKeys[i] != ReportKeys[j]
  {
    forall i, j | 0 <= i < j < |ReportKeys|
      ensures ReportKeys[i] != ReportKeys[j]
    {
      if |ReportKeys[i]| == |ReportKeys[j]| {
        assert ReportKeys[i][0] != ReportKeys[j][0];
      }
    }
  }

  /** The report loses exactly `validity` and `newStatusReceived`: two states
      that agree on those two have the same report if and only if they are
      equal. */
  lemma ReportDeterminesFields(a: GripperFields, b: GripperFields)
    requires a.validity == b.validity && a.newStatusReceived == b.newStatusReceived
    ensures Report(a) == Report(b) <==> a == b
  {
    if Report(a) == Report(b) {
      var ma, mb := Report(a).members, Report(b).members;
      assert ma[0] == mb[0] && ma[1] == mb[1] && ma[2] == mb[2] && ma[3] == mb[3] && ma[4] == mb[4];
      assert ma[5] == mb[5] && ma[6] == mb[6] && ma[7] == mb[7] && ma[8] == mb[8] && ma[9] == mb[9];
    }
  }

  /** The gripper state object. Each setter writes its own field and nothing
      else (its `modifies` clause names that one field), and the getter of
      that field then returns the written value. The overtemperature setter
      always writes false (the control board has no temperature sensor), so
      the flag, false after construction, stays false in every reachable
      state. */
  class GeckoGripperState {
    var lastStatusReadTime: int
    var errorStatus: int
    var adhesiveEngage: bool
    var wristLock: bool
    var automaticModeEnable: bool
    var experimentInProgress: bool
    var overtemperatureFlag: bool
    var fileIsOpen: bool
    var expIdx: int
    var delay: int
    var validity: bool
    var newStatusReceived: bool

    /** The current value of every field. */
    function Value(): GripperFields
      reads this
    {
      GripperFields(lastStatusReadTime, errorStatus, adhesiveEngage, wristLock,
        automaticModeEnable, experimentInProgress, overtemperatureFlag, fileIsOpen,
        expIdx, delay, validity, newStatusReceived)
    }

    constructor ()
      ensures Value() == DefaultFields
    {
      lastStatusReadTime := -1;
      errorStatus := 0;
      adhesiveEngage := false;
      wristLock := false;
      automaticModeEnable := false;
      experimentInProgress := false;
      overtemperatureFlag := false;
      fileIsOpen := false;
      expIdx := -1;
      delay := -1;
      validity := false;
      newStatusReceived := false;
    }

    /** toJSON: the report of the current fields; it only reads them. */
    function ToJson(): (r: Json)
      reads this
      ensures r == Report(Value())
    {
      Report(Value())
    }

    method SetLastStatusReadTime(x: int)
      modifies this`lastStatusReadTime
      ensures lastStatusReadTime == x
    {
      lastStatusReadTime := x;
    }

    method SetErrorStatus(x: int)
      modifies this`errorStatus
      ensures errorStatus == x
    {
      errorStatus := x;
    }

    method SetAdhesiveEngage(x: bool)
      modifies this`adhesiveEngage
      ensures adhesiveEngage == x
    {
      adhesiveEngage := x;
    }

    method SetWristLock(x: bool)
      modifies this`wristLock
      ensures wristLock == x
    {
      wristLock := x;
    }

    method SetAutomaticModeEnable(x: bool)
      modifies this`automaticModeEnable
      ensures automaticModeEnable == x
    {
      automaticModeEnable := x;
    }

    method SetExperimentInProgress(x: bool)
      modifies this`experimentInProgress
      ensures experimentInProgress == x
    {
      experimentInProgress := x;
    }

    /** Ignores its argument: the flag is stored false whatever is passed. */
    method SetOverTemperatureFlag(x: bool)
      modifies this`overtemperatureFlag
      ensures !overtemperatureFlag
    {
      overtemperatureFlag := false;
    }

    method SetFileIsOpen(x: bool)
      modifies this`fileIsOpen
      ensures fileIsOpen == x
    {
      fileIsOpen := x;
    }

    method SetExpIdx(x: int)
      modifies this`expIdx
      ensures expIdx == x
    {
      expIdx := x;
    }

    method SetDelay(x: int)
      modifies this`delay
      ensures delay == x
    {
      delay := x;
    }

    method SetValidity(x: bool)
      modifies this`validity
      ensures validity == x
    {
      validity := x;
    }

    method SetNewStatusReceived(x: bool)
      modifies this`newStatusReceived
      ensures newStatusReceived == x
    {
      newStatusReceived := x;
    }

    /** Latches the change flag: it becomes true when `x` is, and stays as it
        was otherwise; only SetNewStatusReceived(false) clears it. */
    method UpdateNewStatusReceived(x: bool)
      modifies this`newStatusReceived
      ensures newStatusReceived == (old(newStatusReceived) || x)
    {
      newStatusReceived := newStatusReceived || x;
    }
  }
}
