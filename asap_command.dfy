/** The custom-command handler of the two commandasap services
    (StartcommandasapService, and the StartCommandAsapService class of
    StarcommandasapService.java, which is in the same commandasap package and
    drives the same /asap/ status node): a command name becomes at most one
    call on the status node and a reply that names the command. The two
    differ only in the role names they write. */
module AsapCommand {
  import opened GuestScience
  import opened Ros
  import opened JavaInt
  import opened StatusTelemetry
  import opened AsapStatus

  /** The roles written by SetRoleChaser and SetRoleTarget. */
  datatype RoleNames = RoleNames(chaser: string, target: string)

  /** StartcommandasapService's roles. */
  const PrimarySecondary := RoleNames("primary", "secondary")

  /** StarcommandasapService's roles. */
  const ChaserTarget := RoleNames("chaser", "target")

  /** The names with a case of their own in the switch. */
  const FixedCommands: seq<string> := [
    "StopTest", "SetRoleChaser", "SetRoleTarget", "SetRoleFromHardware",
    "SetGround", "SetISS", "EnableRoamBagger", "DisableRoamBagger"]

  /** What the switch decides: one node call, or no call and the message of
      the error Summary. */
  datatype Decision = Call(call: NodeCall) | Refuse(message: string)

  /** The switch. A name without a case of its own that starts with "Test"
      has the rest of it read by Integer.valueOf; a number becomes the test
      number sent, any other text is an invalid test number. */
  function Dispatch(name: string, roles: RoleNames): (d: Decision)
    ensures d.Refuse? ==> d.message == "Invalid test number" || d.message == "Unrecognized command"
    ensures d.Refuse? && d.message == "Invalid test number" ==> StartsWith(name, "Test")
    ensures d.Call? && d.call.SendCommand? ==> InInt32(d.call.testNumber)
  {
    if name == "StopTest" then Call(SendCommand(-1))
    else if name == "SetRoleChaser" then Call(SetRole(roles.chaser))
    else if name == "SetRoleTarget" then Call(SetRole(roles.target))
    else if name == "SetRoleFromHardware" then Call(SetRole("robot_name"))
    else if name == "SetGround" then Call(SetGround)
    else if name == "SetISS" then Call(SetISS)
    else if name == "EnableRoamBagger" then Call(SetRoamBagger("enabled"))
    else if name == "DisableRoamBagger" then Call(SetRoamBagger("disabled"))
    else if StartsWith(name, "Test") then
      match ParseInt(name[4..])
      case Some(n) => Call(SendCommand(n))
      case None => Refuse("Invalid test number")
    else Refuse("Unrecognized command")
  }

  /** The reply sent on "data": the error Summary when the switch refused,
      then the command's name under "command". */
  function Reply(name: string, decision: Decision): (r: Json)
    ensures r.JObject?
    ensures Lookup(r.members, "command") == Some(JString(name))
    ensures Lookup(r.members, "Summary").Some? <==> decision.Refuse?
    ensures decision.Refuse? ==> Lookup(r.members, "Summary") == Some(ErrorSummary(decision.message))
  {
    var summary := if decision.Refuse? then Put([], "Summary", ErrorSummary(decision.message)) else [];
    JObject(Put(summary, "command", JString(name)))
  }

  /** The parameter server after the decision: the one key of its call
      written, or nothing. */
  function Effect(params: map<string, Value>, decision: Decision): (r: map<string, Value>)
    ensures params.Keys <= r.Keys
    ensures decision.Refuse? ==> r == params
    ensures forall k :: k in params && (decision.Refuse? || k != Write(Keys, decision.call).0) ==> r[k] == params[k]
  {
    if decision.Call? then Applied(params, Keys, decision.call) else params
  }

  /** No fixed command starts with "Test", so every Test name goes to the
      default case. */
  lemma FixedCommandsAreNotTests()
    ensures forall i :: 0 <= i < |FixedCommands| ==> !StartsWith(FixedCommands[i], "Test")
  {
    forall i | 0 <= i < |FixedCommands| ensures !StartsWith(FixedCommands[i], "Test") {
      var c := FixedCommands[i];
      assert c[0] != 'T' && c[..4][0] == c[0];
    }
  }

  /** A name that starts with "Test" sends the number after the prefix when
      Integer.valueOf reads one, and otherwise is refused as an invalid test
      number, with no node call. */
  lemma TestPrefixParsed(name: string, roles: RoleNames)
    requires StartsWith(name, "Test")
    ensures ParseInt(name[4..]).Some? ==> Dispatch(name, roles) == Call(SendCommand(ParseInt(name[4..]).value))
    ensures ParseInt(name[4..]).None? ==> Dispatch(name, roles) == Refuse("Invalid test number")
  {
    FixedCommandsAreNotTests();
    assert name !in FixedCommands;
  }

  /** "Test" followed by Integer.toString of any int sends that int: the
      prefix parser reads back every number written in Java's decimal
      form, negative ones included. */
  lemma {:induction false} TestNumberRoundTrip(n: int, roles: RoleNames)
    requires InInt32(n)
    ensures Dispatch("Test" + IntToString(n), roles) == Call(SendCommand(n))
  {
    var name := "Test" + IntToString(n);
    assert StartsWith(name, "Test") && name[4..] == IntToString(n);
    ParseIntRoundTrip(n);
    TestPrefixParsed(name, roles);
  }

  /** "Test" alone and "Test" followed by text that is not a number are
      invalid test numbers. */
  lemma InvalidTestNumbers(roles: RoleNames, suffix: string)
    requires suffix != [] && !IsDigit(suffix[0]) && suffix[0] != '-' && suffix[0] != '+'
    ensures Dispatch("Test", roles) == Refuse("Invalid test number")
    ensures Dispatch("Test" + suffix, roles) == Refuse("Invalid test number")
  {
    assert StartsWith("Test", "Test") && "Test"[4..] == [];
    TestPrefixParsed("Test", roles);
    var name := "Test" + suffix;
    assert StartsWith(name, "Test") && name[4..] == suffix;
    ParseIntRejectsNonDigit(suffix, 0);
    TestPrefixParsed(name, roles);
  }

  /** A name with no case of its own and no "Test" prefix is refused as
      unrecognised, with no node call. */
  lemma UnrecognisedMakesNoCall(name: string, roles: RoleNames)
    requires name !in FixedCommands && !StartsWith(name, "Test")
    ensures Dispatch(name, roles) == Refuse("Unrecognized command")
  {
  }

  /** The role commands write the service's own role names. */
  lemma RoleCommands(roles: RoleNames)
    ensures Dispatch("SetRoleChaser", roles) == Call(SetRole(roles.chaser))
    ensures Dispatch("SetRoleTarget", roles) == Call(SetRole(roles.target))
    ensures Dispatch("SetRoleFromHardware", roles) == Call(SetRole("robot_name"))
  {
  }

  /** A command changes at most one parameter: every key but the one its
      call writes keeps its value, and a refused command changes nothing. */
  lemma AtMostOneParameterWritten(params: map<string, Value>, name: string, roles: RoleNames)
    ensures Dispatch(name, roles).Refuse? ==> Effect(params, Dispatch(name, roles)) == params
    ensures Dispatch(name, roles).Call? ==>
      var key := Write(Keys, Dispatch(name, roles).call).0;
      && Effect(params, Dispatch(name, roles)).Keys == params.Keys + {key}
      && forall k :: k in params && k != key ==> Effect(params, Dispatch(name, roles))[k] == params[k]
  {
  }

  /** The service: its link to the Guest Science manager, its status node
      and the role names it writes. */
  class CommandasapService {
    const link: GuestScienceLink
    const statusNode: StatusNode
    const roles: RoleNames

    constructor (link: GuestScienceLink, statusNode: StatusNode, roles: RoleNames)
      ensures this.link == link && this.statusNode == statusNode && this.roles == roles
    {
      this.link := link;
      this.statusNode := statusNode;
      this.roles := roles;
    }

    /** onGuestScienceCustomCmd: acknowledge, run the switch (at most one
        node call), and reply with the command's name. */
    method OnGuestScienceCustomCmd(cmd: Command)
      modifies link, statusNode`rosparam
      ensures statusNode.rosparam == Effect(old(statusNode.rosparam), Dispatch(cmd.name, roles))
      ensures link.sent == old(link.sent) + [ReceivedCustomCommand, Data("data", Reply(cmd.name, Dispatch(cmd.name, roles)))]
    {
      link.SendReceivedCustomCommand();
      var sCommand := cmd.name;
      var jResult: seq<(string, Json)> := [];
      if sCommand == "StopTest" {
        statusNode.SendCommand(-1);
      } else if sCommand == "SetRoleChaser" {
        statusNode.SetRole(roles.chaser);
      } else if sCommand == "SetRoleTarget" {
        statusNode.SetRole(roles.target);
      } else if sCommand == "SetRoleFromHardware" {
        statusNode.SetRole("robot_name");
      } else if sCommand == "SetGround" {
        statusNode.SetGround();
      } else if sCommand == "SetISS" {
        statusNode.SetISS();
      } else if sCommand == "EnableRoamBagger" {
        statusNode.SetRoamBagger("enabled");
      } else if sCommand == "DisableRoamBagger" {
        statusNode.SetRoamBagger("disabled");
      } else if StartsWith(sCommand, "Test") {
        var strTestCode := sCommand[4..];
        var testCode := ParseInt(strTestCode);
        if testCode.Some? {
          statusNode.SendCommand(testCode.value);
        } else {
          jResult := Put(jResult, "Summary", ErrorSummary("Invalid test number"));
        }
      } else {
        jResult := Put(jResult, "Summary", ErrorSummary("Unrecognized command"));
      }
      jResult := Put(jResult, "command", JString(sCommand));
      link.SendData("data", JObject(jResult));
    }
  }
}
