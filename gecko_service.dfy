/** StartGeckoService (the GeckoPerchingGripper app): each recognised
    gripper command becomes one message naming its `perching_` command, and
    a reply whose Summary names it too. Its status node field is never
    assigned, so as written every command ends in the catch-all handler. */
module GeckoService {
  import opened GuestScience
  import opened Ros
  import opened GeckoGripperStatus

  /** The commands of the switch, in the order of its cases. */
  const PerchingCommands: seq<string> := [
    "gecko_gripper_open", "gecko_gripper_close", "gecko_gripper_engage",
    "gecko_gripper_disengage", "gecko_gripper_lock", "gecko_gripper_unlock",
    "gecko_gripper_enable_auto", "gecko_gripper_disable_auto", "gecko_gripper_toggle_auto",
    "gecko_gripper_mark_gripper", "gecko_gripper_set_delay", "gecko_gripper_open_exp",
    "gecko_gripper_next_record", "gecko_gripper_seek_record", "gecko_gripper_close_exp",
    "gecko_gripper_status", "gecko_gripper_record", "gecko_gripper_exp", "gecko_gripper_delay"]

  /** The one case that breaks the `perching_` pattern in its message. */
  const RecordCommand := "gecko_gripper_record"

  /** A case of the switch: the name its message carries and the Summary of
      its reply. Every case publishes and replies its own command with a
      `perching_` prefix, except record, whose message is
      perching_gecko_record while its Summary keeps the full name. */
  function PerchingCommand(name: string): (r: Option<(string, string)>)
    ensures r.Some? <==> name in PerchingCommands
    ensures r.Some? ==> r.value.1 == "perching_" + name
    ensures r.Some? ==> r.value.0 == if name == RecordCommand then "perching_gecko_record" else r.value.1
  {
    if name !in PerchingCommands then None
    else if name == RecordCommand then Some(("perching_gecko_record", "perching_" + name))
    else Some(("perching_" + name, "perching_" + name))
  }

  /** What one custom command does: the messages published and the messages
      sent to the Guest Science manager. */
  datatype Effect = Effect(published: seq<JointStateMsg>, sent: seq<Output>)

  /** onGuestScienceCustomCmd, given whether the status node field holds a
      node. Without one, fetching a message from its publisher raises
      before the switch. With one, a recognised command publishes its name
      alone, with no position, and replies its Summary; any other command
      replies "ERROR: Unrecognized command" and publishes nothing. No
      parameter of the command is read. */
  function Handle(cmd: Command, nodeAssigned: bool): (e: Effect)
    ensures |e.sent| == 2 && e.sent[0] == ReceivedCustomCommand
    ensures |e.published| <= 1
    ensures e.published != [] ==> nodeAssigned && cmd.name in PerchingCommands
  {
    if !nodeAssigned then Effect([], [ReceivedCustomCommand, ExceptionReply(NullDereference)])
    else match PerchingCommand(cmd.name)
      case None => Effect([], [ReceivedCustomCommand, Data("data", JString("ERROR: Unrecognized command"))])
      case Some(entry) =>
        Effect([JointStateMsg([entry.0], [])],
               [ReceivedCustomCommand, Data("data", JObject([("Summary", JString(entry.1))]))])
  }

  /** As written, the node field is never assigned: every command, known or
      not, publishes nothing and is answered "Unrecognized ERROR"; so
      gecko_gripper_open, for one, does not do what it would with a node. */
  lemma NodeNeverAssignedFailsEveryCommand(cmd: Command)
    ensures Handle(cmd, false) == Effect([], [ReceivedCustomCommand, Data("data", JString("Unrecognized ERROR"))])
    ensures Handle(Command("gecko_gripper_open", map[]), false) != Handle(Command("gecko_gripper_open", map[]), true)
  {
    assert PerchingCommands[0] == "gecko_gripper_open" != RecordCommand;
    assert "perching_" + "gecko_gripper_open" == "perching_gecko_gripper_open";
    assert Handle(Command("gecko_gripper_open", map[]), true).published == [JointStateMsg(["perching_gecko_gripper_open"], [])];
  }

  /** With the node assigned, a recognised command publishes exactly one
      message, whose single name is its `perching_` command (the record
      command's being perching_gecko_record), and replies a Summary that
      equals that name for every recognised command except record. An
      unrecognised command publishes nothing. The parameters of the command
      make no difference. */
  lemma RecognisedCommandPublishesOnce(cmd: Command)
    ensures |Handle(cmd, true).published| == if cmd.name in PerchingCommands then 1 else 0
    ensures cmd.name in PerchingCommands && cmd.name != RecordCommand ==>
      && Handle(cmd, true).published == [JointStateMsg(["perching_" + cmd.name], [])]
      && Handle(cmd, true).sent[1] == Data("data", JObject([("Summary", JString("perching_" + cmd.name))]))
    ensures cmd.name == RecordCommand ==>
      && Handle(cmd, true).published == [JointStateMsg(["perching_gecko_record"], [])]
      && Handle(cmd, true).sent[1] == Data("data", JObject([("Summary", JString("perching_gecko_gripper_record"))]))
    ensures cmd.name !in PerchingCommands ==>
      Handle(cmd, true).sent == [ReceivedCustomCommand, Data("data", JString("ERROR: Unrecognized command"))]
    ensures forall p :: Handle(Command(cmd.name, p), true) == Handle(cmd, true)
  {
    assert RecordCommand in PerchingCommands by { assert PerchingCommands[16] == RecordCommand; }
    assert "perching_" + RecordCommand == "perching_gecko_gripper_record";
  }

  /** The service. As written its status node is never assigned; the node
      constructor gives it one, as the geckoperchinggripper service does in
      onGuestScienceStart. */
  class GeckoGripperService {
    const link: GuestScienceLink
    var node: GeckoGripperStatusNode?

    /** The service as written: the node field keeps its default null. */
    constructor (link: GuestScienceLink)
      ensures this.link == link && node == null
    {
      this.link := link;
      node := null;
    }

    /** The service with its node assigned. */
    constructor WithNode(link: GuestScienceLink, node: GeckoGripperStatusNode)
      ensures this.link == link && this.node == node
    {
      this.link := link;
      this.node := node;
    }

    /** onGuestScienceCustomCmd: acknowledge, run the switch, and turn an
        exception into its reply. */
    method OnGuestScienceCustomCmd(cmd: Command)
      modifies link, if node == null then {} else {node.mPublisher}
      ensures node != null ==>
        node.mPublisher.published == old(node.mPublisher.published) + Handle(cmd, true).published
      ensures link.sent == old(link.sent) + Handle(cmd, node != null).sent
    {
      link.SendReceivedCustomCommand();
      var outcome := RunCommand(cmd);
      if outcome.Raise? {
        var reply := ExceptionReply(outcome.exception);
        link.SendData(reply.topic, reply.payload);
      }
    }

    /** The body of the try block; an exception ends it where it is raised. */
    method RunCommand(cmd: Command) returns (outcome: Result<()>)
      modifies link, if node == null then {} else {node.mPublisher}
      ensures outcome.Raise? <==> node == null
      ensures outcome.Raise? ==> outcome.exception == NullDereference && link.sent == old(link.sent)
      ensures node != null ==>
        && node.mPublisher.published == old(node.mPublisher.published) + Handle(cmd, true).published
        && link.sent == old(link.sent) + Handle(cmd, true).sent[1..]
    {
      var commandStr := cmd.name;
      var jResponse: seq<(string, Json)> := [];
      var msgName: seq<string> := [];
      if node == null {
        return Raise(NullDereference);
      }
      var entry := PerchingCommand(commandStr);
      if entry.None? {
        link.SendData("data", JString("ERROR: Unrecognized command"));
        return Ok(());
      }
      msgName := msgName + [entry.value.0];
      jResponse := Put(jResponse, "Summary", JString(entry.value.1));
      assert msgName == [entry.value.0] && jResponse == [("Summary", JString(entry.value.1))];
      node.mPublisher.Publish(JointStateMsg(msgName, []));
      link.SendData("data", JObject(jResponse));
      return Ok(());
    }
  }
}
