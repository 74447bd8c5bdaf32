/** StartGeckoperchinggripperService: turns a ground command into JointState
    messages on the gripper's joint_goals publisher and a reply to the Guest
    Science manager. Every command the switch lets through ends with one
    message naming the command itself; print_status and reset_gripper send
    their queries first; five commands carry a parameter in position slot 0. */
module GeckoCommandService {
  import opened GuestScience
  import opened Ros
  import opened GeckoTypes
  import opened GeckoGripperStatus

  const PrintStatus := "gecko_gripper_print_status"
  const ResetGripper := "gecko_gripper_reset_gripper"

  /** The commands whose case only breaks out of the switch. */
  const PlainCommands: seq<string> := [
    "gecko_gripper_open", "gecko_gripper_close", "gecko_gripper_engage",
    "gecko_gripper_disengage", "gecko_gripper_lock", "gecko_gripper_unlock",
    "gecko_gripper_enable_auto", "gecko_gripper_disable_auto",
    "gecko_gripper_toggle_auto", "gecko_gripper_close_exp", "gecko_gripper_status",
    "gecko_gripper_record", "gecko_gripper_exp", "gecko_gripper_delay"]

  /** The command key whose value goes into position slot 0, for the five
      commands that take one. */
  function ParameterKey(name: string): Option<string>
  {
    if name == "gecko_gripper_mark_gripper" || name == "gecko_gripper_open_exp" then Some("IDX")
    else if name == "gecko_gripper_set_delay" then Some("DL")
    else if name == "gecko_gripper_next_record" then Some("SKIP")
    else if name == "gecko_gripper_seek_record" then Some("RN")
    else None
  }

  /** The single-name queries a command publishes before its own message. */
  function QueryNames(name: string): seq<string>
  {
    if name == PrintStatus then ["gecko_gripper_delay", "gecko_gripper_exp"]
    else if name == ResetGripper then
      ["gecko_gripper_disable_auto", "gecko_gripper_disengage", "gecko_gripper_unlock",
       "gecko_gripper_delay", "gecko_gripper_exp"]
    else []
  }

  /** One single-name message per name, all with the same position. */
  function SingleNameMessages(names: seq<string>, slot: real): (r: seq<JointStateMsg>)
    ensures |r| == |names|
    ensures forall i :: 0 <= i < |names| ==> r[i] == JointStateMsg([names[i]], [slot])
  {
    if names == [] then [] else [JointStateMsg([names[0]], [slot])] + SingleNameMessages(names[1..], slot)
  }

  /** The value of position slot 0: the command's parameter for the five
      commands that take one (getString raises JSONException for a missing
      key, parseFloat NumberFormatException for text that is not a number),
      0 for every other command. */
  function SlotValue(cmd: Command): Result<real>
  {
    match ParameterKey(cmd.name)
    case None => Ok(0.0)
    case Some(key) =>
      if key !in cmd.params then Raise(JSONException)
      else if cmd.params[key].NotNumeric? then Raise(NumberFormatException)
      else Ok(cmd.params[key].number)
  }

  /** The reply sent on "data" for a command that leaves the switch. */
  function SummaryReply(name: string): Json
  {
    JObject([("Summary", JString(name))])
  }

  /** Everything one custom command does: the messages published, the
      messages sent to the Guest Science manager, and the stored gripper
      state afterwards (None while the node has decoded no telemetry). */
  datatype Effect = Effect(published: seq<JointStateMsg>, sent: seq<Output>, state: Option<GripperFields>)

  /** onGuestScienceCustomCmd as a function of the command and the stored
      gripper state. */
  function Handle(cmd: Command, state: Option<GripperFields>): (e: Effect)
    ensures |e.sent| >= 2 && e.sent[0] == ReceivedCustomCommand
    ensures |e.published| <= |QueryNames(cmd.name)| + 1
    ensures e.state.Some? <==> state.Some?
    ensures e.state != state ==> cmd.name == PrintStatus && e.state == Some(state.value.(newStatusReceived := false))
  {
    match SlotValue(cmd)
    case Raise(e) => Effect([], [ReceivedCustomCommand, ExceptionReply(e)], state)
    case Ok(slot) =>
      var queries := SingleNameMessages(QueryNames(cmd.name), slot);
      if cmd.name == PrintStatus && state.None? then
        // the queries are out, then toJSON on a null state raises
        Effect(queries, [ReceivedCustomCommand, ExceptionReply(NullDereference)], state)
      else
        var report := if cmd.name == PrintStatus then [Data("gripper state", Report(state.value))] else [];
        var after := if cmd.name == PrintStatus then Some(state.value.(newStatusReceived := false)) else state;
        Effect(queries + [JointStateMsg([cmd.name], [slot])],
               [ReceivedCustomCommand] + report + [Data("data", SummaryReply(cmd.name))],
               after)
  }

  /** Every command that leaves the switch, known or not, ends with one
      message naming exactly the command, with slot 0 holding the parameter
      of the five commands that take one and 0 otherwise; the last reply is
      its Summary. */
  lemma {:induction false} FinalMessageNamesCommand(cmd: Command, state: Option<GripperFields>)
    requires SlotValue(cmd).Ok? && !(cmd.name == PrintStatus && state.None?)
    ensures var e := Handle(cmd, state);
      && |e.published| == |QueryNames(cmd.name)| + 1
      && e.published[|e.published| - 1] ==
           JointStateMsg([cmd.name], [if ParameterKey(cmd.name).Some? then cmd.params[ParameterKey(cmd.name).value].number else 0.0])
      && e.sent[|e.sent| - 1] == Data("data", SummaryReply(cmd.name))
  {
    var e := Handle(cmd, state);
    assert e.published == SingleNameMessages(QueryNames(cmd.name), SlotValue(cmd).value) + [JointStateMsg([cmd.name], [SlotValue(cmd).value])];
  }

  /** reset_gripper publishes disable_auto, disengage, unlock, delay and exp,
      one name each, then its own name, all at position 0, and changes no
      state. */
  lemma ResetGripperSequence(cmd: Command, state: Option<GripperFields>)
    requires cmd.name == ResetGripper
    ensures Handle(cmd, state).published == [
      JointStateMsg(["gecko_gripper_disable_auto"], [0.0]), JointStateMsg(["gecko_gripper_disengage"], [0.0]),
      JointStateMsg(["gecko_gripper_unlock"], [0.0]), JointStateMsg(["gecko_gripper_delay"], [0.0]),
      JointStateMsg(["gecko_gripper_exp"], [0.0]), JointStateMsg([ResetGripper], [0.0])]
    ensures Handle(cmd, state).sent == [ReceivedCustomCommand, Data("data", SummaryReply(ResetGripper))]
    ensures Handle(cmd, state).state == state
  {
    var q := SingleNameMessages(QueryNames(cmd.name), 0.0);
    assert |q| == 5 && q[0] == JointStateMsg(["gecko_gripper_disable_auto"], [0.0]);
  }

  /** print_status queries the delay and then the experiment index, reports
      the stored state under "gripper state" before the Summary, and leaves
      the state with its change flag cleared and every other field as it
      was. With no state yet, the two queries go out and the handler ends
      with "Unrecognized ERROR". */
  lemma PrintStatusReportsThenClears(cmd: Command, state: Option<GripperFields>)
    requires cmd.name == PrintStatus
    ensures state.Some? ==>
      && Handle(cmd, state).published == [
           JointStateMsg(["gecko_gripper_delay"], [0.0]), JointStateMsg(["gecko_gripper_exp"], [0.0]),
           JointStateMsg([PrintStatus], [0.0])]
      && Handle(cmd, state).sent == [ReceivedCustomCommand, Data("gripper state", Report(state.value)),
                                     Data("data", SummaryReply(PrintStatus))]
      && Handle(cmd, state).state == Some(state.value.(newStatusReceived := false))
    ensures state.None? ==>
      && Handle(cmd, state).published == [
           JointStateMsg(["gecko_gripper_delay"], [0.0]), JointStateMsg(["gecko_gripper_exp"], [0.0])]
      && Handle(cmd, state).sent == [ReceivedCustomCommand, Data("data", JString("Unrecognized ERROR"))]
  {
    var q := SingleNameMessages(QueryNames(cmd.name), 0.0);
    assert |q| == 2 && q[0] == JointStateMsg(["gecko_gripper_delay"], [0.0]);
  }

  /** A command that takes a parameter and whose parameter is a number
      publishes only its own name, with the number in slot 0. */
  lemma ParameterCommandPublishesSlot(cmd: Command, state: Option<GripperFields>)
    requires ParameterKey(cmd.name).Some?
    requires ParameterKey(cmd.name).value in cmd.params && cmd.params[ParameterKey(cmd.name).value].Numeric?
    ensures Handle(cmd, state) ==
      Effect([JointStateMsg([cmd.name], [cmd.params[ParameterKey(cmd.name).value].number])],
             [ReceivedCustomCommand, Data("data", SummaryReply(cmd.name))], state)
  {
    assert cmd.name != PrintStatus && cmd.name != ResetGripper;
  }

  /** A parameter that is missing replies "ERROR parsing JSON", one that is
      not a number "Unrecognized ERROR"; either way nothing is published and
      the state is untouched. */
  lemma BadParameterPublishesNothing(cmd: Command, state: Option<GripperFields>)
    requires ParameterKey(cmd.name).Some?
    requires ParameterKey(cmd.name).value !in cmd.params || cmd.params[ParameterKey(cmd.name).value].NotNumeric?
    ensures Handle(cmd, state).published == []
    ensures Handle(cmd, state).state == state
    ensures Handle(cmd, state).sent ==
      [ReceivedCustomCommand,
       Data("data", JString(if ParameterKey(cmd.name).value !in cmd.params then "ERROR parsing JSON" else "Unrecognized ERROR"))]
  {
  }

  /** A command outside the switch, toggle_auto among the listed ones, is
      published and answered like a known plain command: its own name at
      position 0, and the Summary is the name, the error summary of the
      default case having been overwritten in place. */
  lemma UnknownCommandIsPublished(cmd: Command, state: Option<GripperFields>)
    requires cmd.name != PrintStatus && cmd.name != ResetGripper && ParameterKey(cmd.name).None?
    ensures Handle(cmd, state) ==
      Effect([JointStateMsg([cmd.name], [0.0])], [ReceivedCustomCommand, Data("data", SummaryReply(cmd.name))], state)
    ensures Put(Put([], "Summary", ErrorSummary("Unrecognized command")), "Summary", JString(cmd.name)) ==
            SummaryReply(cmd.name).members
  {
  }

  /** None of the commands whose case only breaks takes a parameter or
      sends queries. */
  lemma PlainCommandsAreOrdinary(name: string)
    requires name in PlainCommands
    ensures ParameterKey(name).None? && name != PrintStatus && name != ResetGripper
  {
  }

  /** The stored gripper state of a status node, None while it is null. */
  function StoredState(node: GeckoGripperStatusNode): Option<GripperFields>
    reads node, node.gripperState
  {
    if node.gripperState == null then None else Some(node.gripperState.Value())
  }

  /** The service: its link to the Guest Science manager and the status
      node whose publisher and gripper state the commands use. */
  class GeckoperchinggripperService {
    const link: GuestScienceLink
    const node: GeckoGripperStatusNode

    constructor (link: GuestScienceLink, node: GeckoGripperStatusNode)
      ensures this.link == link && this.node == node
    {
      this.link := link;
      this.node := node;
    }

    /** onGuestScienceCustomCmd: acknowledge, run the switch, and turn an
        exception into its reply. */
    method OnGuestScienceCustomCmd(cmd: Command)
      modifies link, node.mPublisher, node.gripperState
      ensures node.mPublisher.published == old(node.mPublisher.published) + Handle(cmd, old(StoredState(node))).published
      ensures link.sent == old(link.sent) + Handle(cmd, old(StoredState(node))).sent
      ensures StoredState(node) == Handle(cmd, old(StoredState(node))).state
    {
      link.SendReceivedCustomCommand();
      var outcome := RunCommand(cmd);
      if outcome.Raise? {
        var reply := ExceptionReply(outcome.exception);
        link.SendData(reply.topic, reply.payload);
      }
    }

    /** The two queries of print_status: delay, then exp, one name each. */
    method PublishPrintStatusQueries(msgPos: array<real>)
      requires msgPos.Length == 1
      modifies node.mPublisher
      ensures node.mPublisher.published == old(node.mPublisher.published) + SingleNameMessages(QueryNames(PrintStatus), msgPos[0])
    {
      assert msgPos[..] == [msgPos[0]];
      var msgName: seq<string> := [];
      msgName := msgName + ["gecko_gripper_delay"];
      assert msgName == ["gecko_gripper_delay"];
      node.mPublisher.Publish(JointStateMsg(msgName, msgPos[..]));
      msgName := [];
      msgName := msgName + ["gecko_gripper_exp"];
      assert msgName == ["gecko_gripper_exp"];
      node.mPublisher.Publish(JointStateMsg(msgName, msgPos[..]));
      ghost var expected := SingleNameMessages(QueryNames(PrintStatus), msgPos[0]);
      assert expected == [JointStateMsg(["gecko_gripper_delay"], [msgPos[0]])] + [JointStateMsg(["gecko_gripper_exp"], [msgPos[0]])];
    }

    /** The five queries of reset_gripper, in order, one name each. */
    method PublishResetQueries(msgPos: array<real>)
      requires msgPos.Length == 1
      modifies node.mPublisher
      ensures node.mPublisher.published == old(node.mPublisher.published) + SingleNameMessages(QueryNames(ResetGripper), msgPos[0])
    {
      var msgName: seq<string> := [];
      msgName := msgName + ["gecko_gripper_disable_auto"];
      assert msgName == ["gecko_gripper_disable_auto"];
      node.mPublisher.Publish(JointStateMsg(msgName, msgPos[..]));
      msgName := [];
      msgName := msgName + ["gecko_gripper_disengage"];
      assert msgName == ["gecko_gripper_disengage"];
      node.mPublisher.Publish(JointStateMsg(msgName, msgPos[..]));
      msgName := [];
      msgName := msgName + ["gecko_gripper_unlock"];
      assert msgName == ["gecko_gripper_unlock"];
      node.mPublisher.Publish(JointStateMsg(msgName, msgPos[..]));
      msgName := [];
      msgName := msgName + ["gecko_gripper_delay"];
      assert msgName == ["gecko_gripper_delay"];
      node.mPublisher.Publish(JointStateMsg(msgName, msgPos[..]));
      msgName := [];
      msgName := msgName + ["gecko_gripper_exp"];
      assert msgName == ["gecko_gripper_exp"];
      node.mPublisher.Publish(JointStateMsg(msgName, msgPos[..]));
      assert msgPos[..] == [msgPos[0]];
      ghost var expected := SingleNameMessages(QueryNames(ResetGripper), msgPos[0]);
      assert expected == [
        JointStateMsg(["gecko_gripper_disable_auto"], [msgPos[0]]), JointStateMsg(["gecko_gripper_disengage"], [msgPos[0]]),
        JointStateMsg(["gecko_gripper_unlock"], [msgPos[0]]), JointStateMsg(["gecko_gripper_delay"], [msgPos[0]]),
        JointStateMsg(["gecko_gripper_exp"], [msgPos[0]])];
    }

    /** The code after the switch: the Summary becomes the command name
        (replacing the error summary of the default case), the name is
        appended to the (empty) name list and published with the slot, and
        the reply goes out on "data". */
    method FinishCommand(sCommand: string, jResult: seq<(string, Json)>, msgName: seq<string>, msgPos: array<real>)
      requires msgName == [] && msgPos.Length == 1
      requires jResult == [] || jResult == [("Summary", ErrorSummary("Unrecognized command"))]
      modifies link, node.mPublisher
      ensures node.mPublisher.published == old(node.mPublisher.published) + [JointStateMsg([sCommand], [msgPos[0]])]
      ensures link.sent == old(link.sent) + [Data("data", SummaryReply(sCommand))]
    {
      var jResult := jResult;
      var msgName := msgName;
      jResult := Put(jResult, "Summary", JString(sCommand));
      assert jResult == SummaryReply(sCommand).members;
      msgName := msgName + [sCommand];
      assert msgName == [sCommand] && msgPos[..] == [msgPos[0]];
      node.mPublisher.Publish(JointStateMsg(msgName, msgPos[..]));
      link.SendData("data", JObject(jResult));
    }

    /** The five parameter cases: position slot 0 takes the command's
        parameter, or the case raises. */
    static method ReadSlotParameter(cmd: Command, msgPos: array<real>) returns (outcome: Result<()>)
      requires ParameterKey(cmd.name).Some? && msgPos.Length == 1
      modifies msgPos
      ensures outcome.Raise? <==> SlotValue(cmd).Raise?
      ensures outcome.Raise? ==> outcome.exception == SlotValue(cmd).exception && msgPos[0] == old(msgPos[0])
      ensures outcome.Ok? ==> msgPos[0] == SlotValue(cmd).value
    {
      var key := ParameterKey(cmd.name).value;
      if key !in cmd.params {
        return Raise(JSONException);
      }
      var text := cmd.params[key];
      if text.NotNumeric? {
        return Raise(NumberFormatException);
      }
      msgPos[0] := text.number;
      return Ok(());
    }

    /** The print_status case: the delay and exp queries, then the report of
        the stored state under "gripper state" and the clearing of its change
        flag; toJSON raises when no state has been decoded yet. */
    method PrintStatusCase(msgPos: array<real>) returns (outcome: Result<()>)
      requires msgPos.Length == 1 && msgPos[0] == 0.0
      modifies link, node.mPublisher, node.gripperState
      ensures node.mPublisher.published == old(node.mPublisher.published) + SingleNameMessages(QueryNames(PrintStatus), 0.0)
      ensures outcome.Raise? <==> old(StoredState(node)).None?
      ensures outcome.Raise? ==> outcome.exception == NullDereference && link.sent == old(link.sent) &&
                                 StoredState(node) == old(StoredState(node))
      ensures outcome.Ok? ==> link.sent == old(link.sent) + [Data("gripper state", Report(old(StoredState(node)).value))] &&
                              StoredState(node) == Some(old(StoredState(node)).value.(newStatusReceived := false))
    {
      PublishPrintStatusQueries(msgPos);
      if node.gripperState == null {
        return Raise(NullDereference);
      }
      var jsonGripperState := node.gripperState.ToJson();
      link.SendData("gripper state", jsonGripperState);
      node.gripperState.SetNewStatusReceived(false);
      return Ok(());
    }

    /** The switch of the try block: each case's queries, parameter and
        report; the default case leaves the error summary in the reply. */
    method Switch(cmd: Command, msgPos: array<real>) returns (outcome: Result<()>, jResult: seq<(string, Json)>)
      requires msgPos.Length == 1 && msgPos[0] == 0.0
      modifies link, node.mPublisher, node.gripperState, msgPos
      ensures outcome.Raise? <==> SlotValue(cmd).Raise? || (cmd.name == PrintStatus && old(StoredState(node)).None?)
      ensures outcome.Raise? ==> link.sent == old(link.sent) && StoredState(node) == old(StoredState(node))
      ensures outcome.Raise? ==> outcome.exception == if SlotValue(cmd).Raise? then SlotValue(cmd).exception else NullDereference
      ensures node.mPublisher.published == old(node.mPublisher.published) +
        if SlotValue(cmd).Raise? then [] else SingleNameMessages(QueryNames(cmd.name), SlotValue(cmd).value)
      ensures outcome.Ok? ==>
        && msgPos[0] == SlotValue(cmd).value
        && link.sent == old(link.sent) + (if cmd.name == PrintStatus then [Data("gripper state", Report(old(StoredState(node)).value))] else [])
        && StoredState(node) == (if cmd.name == PrintStatus then Some(old(StoredState(node)).value.(newStatusReceived := false)) else old(StoredState(node)))
        && (jResult == [] || jResult == [("Summary", ErrorSummary("Unrecognized command"))])
    {
      var sCommand := cmd.name;
      jResult := [];
      if sCommand in PlainCommands {
        PlainCommandsAreOrdinary(sCommand);
      } else if ParameterKey(sCommand).Some? {
        outcome := ReadSlotParameter(cmd, msgPos);
        return;
      } else if sCommand == PrintStatus {
        outcome := PrintStatusCase(msgPos);
        return;
      } else if sCommand == ResetGripper {
        PublishResetQueries(msgPos);
      } else {
        jResult := Put(jResult, "Summary", ErrorSummary("Unrecognized command"));
      }
      return Ok(()), jResult;
    }

    /** The body of the try block; an exception ends it where it is raised. */
    method RunCommand(cmd: Command) returns (outcome: Result<()>)
      modifies link, node.mPublisher, node.gripperState
      ensures node.mPublisher.published == old(node.mPublisher.published) + Handle(cmd, old(StoredState(node))).published
      ensures StoredState(node) == Handle(cmd, old(StoredState(node))).state
      ensures outcome.Ok? ==> link.sent == old(link.sent) + Handle(cmd, old(StoredState(node))).sent[1..]
      ensures outcome.Raise? ==> link.sent == old(link.sent) &&
                                 Handle(cmd, old(StoredState(node))).sent == [ReceivedCustomCommand, ExceptionReply(outcome.exception)]
    {
      var msgName: seq<string> := [];
      var msgPos := new real[1];
      msgPos[0] := 0.0;
      var jResult;
      outcome, jResult := Switch(cmd, msgPos);
      if outcome.Raise? {
        return;
      }
      FinishCommand(cmd.name, jResult, msgName, msgPos);
      return Ok(());
    }
  }
}
