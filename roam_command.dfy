/** The custom-command handler of StartRoamcommandasapService: every command
    makes exactly one call on the ROAM status node. The unit and scenario
    tests have a case each, whose name is "Test" and the number it sends;
    the default case has no break and falls through into StopTest. */
module RoamCommand {
  import opened GuestScience
  import opened Ros
  import opened JavaInt
  import opened StatusTelemetry
  import opened RoamStatus

  /** The unit tests, Test1 to Test12. */
  const UnitTests: set<int> := set n | 1 <= n <= 12

  /** The scenario tests, Test111 to Test343: three digits, a tumble case 1
      to 3, a test 1 to 4 and a mode 1 to 3. */
  const ScenarioTests: set<int> :=
    set n | 111 <= n <= 343 && 1 <= n / 100 <= 3 && 1 <= n / 10 % 10 <= 4 && 1 <= n % 10 <= 3

  /** The test numbers with a case of their own. */
  const TestCodes: set<int> := UnitTests + ScenarioTests

  /** A three-digit number is a scenario test exactly when its digits are
      a tumble case 1 to 3, a test 1 to 4 and a mode 1 to 3. */
  lemma ScenarioTestDigits(tumble: int, test: int, mode: int)
    requires 0 <= tumble <= 9 && 0 <= test <= 9 && 0 <= mode <= 9
    ensures 100 * tumble + 10 * test + mode in ScenarioTests <==>
      1 <= tumble <= 3 && 1 <= test <= 4 && 1 <= mode <= 3
  {
    var n := 100 * tumble + 10 * test + mode;
    assert n / 100 == tumble && n / 10 % 10 == test && n % 10 == mode;
  }

  /** The case label of a test number. */
  function TestName(code: int): (r: string)
    ensures |r| > 4 && StartsWith(r, "Test")
  {
    "Test" + IntToString(code)
  }

  /** The test case whose label is exactly `name`, if there is one. A label
      is "Test" and the decimal form of its number, so the number after the
      prefix, read back and written out again, must give the name itself:
      "Test01", "Test+1" and "Test13" have no case. */
  function TestCase(name: string): (r: Option<int>)
    ensures r.Some? ==> r.value in TestCodes && name == TestName(r.value)
  {
    if !StartsWith(name, "Test") then None
    else match ParseInt(name[4..])
      case Some(n) => if n in TestCodes && TestName(n) == name then Some(n) else None
      case None => None
  }

  /** The node call the switch makes for a name: a role, a location, the
      test number of a test case, and for StopTest and every other name,
      through the fall-through of the default case, the stop. */
  function RoamCall(name: string): (r: NodeCall)
    ensures r.SendCommand? ==> r.testNumber == -1 || r.testNumber in TestCodes
    ensures r.SetRole? ==> r.role == "chaser" || r.role == "target" || r.role == "robot_name"
    ensures !r.SetRoamBagger?
  {
    if name == "SetRoleChaser" then SetRole("chaser")
    else if name == "SetRoleTarget" then SetRole("target")
    else if name == "SetRoleFromHardware" then SetRole("robot_name")
    else if name == "SetGround" then SetGround
    else if name == "SetISS" then SetISS
    else match TestCase(name)
      case Some(code) => SendCommand(code)
      case None => SendCommand(-1)
  }

  /** The test numbers are positive and fit in an int. */
  lemma TestCodesInRange(code: int)
    requires code in TestCodes
    ensures 0 < code <= 343 && InInt32(code)
  {
  }

  /** Two test numbers with the same case label are the same number, for
      every label Integer.toString can write. */
  lemma {:induction false} TestNameInjective(a: int, b: int)
    requires InInt32(a) && InInt32(b)
    requires TestName(a) == TestName(b)
    ensures a == b
  {
    assert TestName(a)[4..] == IntToString(a);
    assert TestName(b)[4..] == IntToString(b);
    ParseIntRoundTrip(a);
    ParseIntRoundTrip(b);
  }

  /** The lookup is exact matching against the case labels: it finds a case
      exactly when the name is the label of a listed number, and then that
      number. */
  lemma {:induction false} TestCaseMatchesLabels(name: string)
    ensures TestCase(name).Some? ==> TestCase(name).value in TestCodes && name == TestName(TestCase(name).value)
    ensures TestCase(name).None? ==> forall c :: c in TestCodes ==> name != TestName(c)
  {
    if TestCase(name).None? {
      forall c | c in TestCodes ensures name != TestName(c) {
        if name == TestName(c) {
          TestCodesInRange(c);
          assert StartsWith(name, "Test") && name[4..] == IntToString(c);
          ParseIntRoundTrip(c);
        }
      }
    }
  }

  /** No role or location command is a test label: they do not start with
      "Test". */
  lemma TestNamesAreNotFixed(code: int)
    ensures TestName(code) != "SetRoleChaser" && TestName(code) != "SetRoleTarget"
    ensures TestName(code) != "SetRoleFromHardware" && TestName(code) != "SetGround"
    ensures TestName(code) != "SetISS"
  {
    assert TestName(code)[0] == 'T';
  }

  /** Each test case sends its own number: the label "Test<n>" of a listed
      number n makes the call sendCommand(n). */
  lemma {:induction false} EachTestSendsItsNumber(code: int)
    requires code in TestCodes
    ensures RoamCall(TestName(code)) == SendCommand(code)
  {
    TestNamesAreNotFixed(code);
    TestCaseMatchesLabels(TestName(code));
    var found := TestCase(TestName(code));
    TestCodesInRange(code);
    TestCodesInRange(found.value);
    TestNameInjective(found.value, code);
  }

  /** A test number with no case, 13 or 144 or any other, falls through
      the default case into the stop. */
  lemma {:induction false} UnlistedTestsStop(code: int)
    requires InInt32(code) && code !in TestCodes
    ensures RoamCall(TestName(code)) == SendCommand(-1)
  {
    TestNamesAreNotFixed(code);
    TestCaseMatchesLabels(TestName(code));
    var found := TestCase(TestName(code));
    if found.Some? {
      TestCodesInRange(found.value);
      TestNameInjective(found.value, code);
    }
  }

  /** The number is not parsed, the label is matched: Test1 written with a
      leading zero has no case and stops the test. */
  lemma LeadingZeroStops()
    ensures RoamCall("Test01") == SendCommand(-1)
  {
    assert StartsWith("Test01", "Test") && "Test01"[4..] == "01";
    assert ParseInt("01") == Some(1) by { assert DigitsValue("01") == 1 by { assert "01"[..1] == "0"; } }
    assert TestName(1) == "Test1";
  }

  /** A name that is neither a role, a location nor a case label stops the
      test; so do StopTest itself and the ROAM bagger commands, which this
      service has no case for. */
  lemma {:induction false} UnrecognisedStops(name: string)
    requires name != "SetRoleChaser" && name != "SetRoleTarget" && name != "SetRoleFromHardware"
    requires name != "SetGround" && name != "SetISS"
    requires forall c :: c in TestCodes ==> name != TestName(c)
    ensures RoamCall(name) == SendCommand(-1)
    ensures RoamCall("StopTest") == SendCommand(-1)
    ensures RoamCall("EnableRoamBagger") == SendCommand(-1) && RoamCall("DisableRoamBagger") == SendCommand(-1)
  {
    TestCaseMatchesLabels(name);
    assert !StartsWith("StopTest", "Test") by { assert "StopTest"[..4][0] == 'S'; }
    assert !StartsWith("EnableRoamBagger", "Test") by { assert "EnableRoamBagger"[..4][0] == 'E'; }
    assert !StartsWith("DisableRoamBagger", "Test") by { assert "DisableRoamBagger"[..4][0] == 'D'; }
  }

  /** The service: its link to the Guest Science manager and its node. */
  class RoamcommandasapService {
    const link: GuestScienceLink
    const roamNode: RoamStatusNode

    constructor (link: GuestScienceLink, roamNode: RoamStatusNode)
      ensures this.link == link && this.roamNode == roamNode
    {
      this.link := link;
      this.roamNode := roamNode;
    }

    /** onGuestScienceCustomCmd: acknowledge, make the one node call of the
        switch, and send the command's name on "command". The error Summary
        of the default case is built but never sent. */
    method OnGuestScienceCustomCmd(cmd: Command)
      modifies link, roamNode`rosparam
      ensures roamNode.rosparam == Applied(old(roamNode.rosparam), Keys, RoamCall(cmd.name))
      ensures link.sent == old(link.sent) + [ReceivedCustomCommand, Data("command", JString(cmd.name))]
    {
      link.SendReceivedCustomCommand();
      var sCommand := cmd.name;
      var jResult: seq<(string, Json)> := [];
      if sCommand == "SetRoleChaser" {
        roamNode.SetRole("chaser");
      } else if sCommand == "SetRoleTarget" {
        roamNode.SetRole("target");
      } else if sCommand == "SetRoleFromHardware" {
        roamNode.SetRole("robot_name");
      } else if sCommand == "SetGround" {
        roamNode.SetGround();
      } else if sCommand == "SetISS" {
        roamNode.SetISS();
      } else {
        var code := TestCase(sCommand);
        if code.Some? {
          roamNode.SendCommand(code.value);
        } else {
          if sCommand != "StopTest" {
            jResult := Put(jResult, "Summary", ErrorSummary("Unrecognized command"));
          }
          roamNode.SendCommand(-1);
        }
      }
      link.SendData("command", JString(sCommand));
    }
  }
}
