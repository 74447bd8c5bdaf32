/** StatusNode of the commandasap services: the ROS node through which a
    command service writes the ASAP parameters under /asap/, and which
    keeps the last telemetry it unpacked from /asap/gds_telem. */
module AsapStatus {
  import opened GuestScience
  import opened Ros
  import opened StatusTelemetry

  const TelemetryKey := "/asap/gds_telem"
  const TestNumberKey := "/asap/gds_test_num"
  const RoleKey := "/asap/gds_role"
  const GroundKey := "/asap/gds_ground"
  const RoamBaggerKey := "/asap/gds_roam_bagger"
  const ApkStatusKey := "/asap/gds_apk_status"
  const SimKey := "/asap/gds_sim"

  /** The telemetry fields, in the order updateParams assigns them from the
      list: field i takes element i. */
  const TelemetryFields: seq<string> := [
    "global_gds_param_count", "test_num", "flight_mode", "test_finished", "coord_ok",
    "control_mode", "regulate_finished", "uc_bound_activated", "uc_bound_finished",
    "mrpi_finished", "traj_sent", "traj_finished", "gain_mode", "lqrrrt_activated",
    "lqrrrt_finished", "info_traj_send", "solver_status", "cost_value", "kkt_value", "sol_time"]

  /** The keys its command calls write. */
  const Keys := NodeKeys(TestNumberKey, RoleKey, GroundKey, RoamBaggerKey)

  /** The node. Its telemetry fields are kept as one sequence indexed as
      TelemetryFields lists them, all the empty string until the first
      unpacking. */
  class StatusNode {
    var rosparam: map<string, Value>
    var telemetry: seq<string>

    predicate Valid()
      reads this
    {
      |telemetry| == |TelemetryFields|
    }

    constructor ()
      ensures Valid() && rosparam == map[]
      ensures forall i :: 0 <= i < |telemetry| ==> telemetry[i] == ""
    {
      rosparam := map[];
      telemetry := seq(|TelemetryFields|, _ => "");
    }

    /** onStart: take the parameter tree and announce the app as started, on
        hardware, not on the ground. */
    method OnStart(tree: map<string, Value>)
      modifies this`rosparam
      ensures rosparam == tree[ApkStatusKey := VString("started")][SimKey := VString("hardware")][GroundKey := VString("false")]
    {
      rosparam := tree;
      rosparam := rosparam[ApkStatusKey := VString("started")];
      rosparam := rosparam[SimKey := VString("hardware")];
      rosparam := rosparam[GroundKey := VString("false")];
    }

    /** updateParams: unpack the telemetry list; whatever goes wrong is
        caught and logged, the fields assigned before it keeping their new
        values. */
    method UpdateParams()
      requires Valid()
      modifies this`telemetry
      ensures Valid()
      ensures telemetry == match GetList(rosparam, TelemetryKey)
        case Raise(_) => old(telemetry)
        case Ok(items) => Unpacked(items, old(telemetry))
    {
      var outcome := UnpackTelemetry();
    }

    /** The try block of updateParams: fetch the list, then assign the
        fields from its elements in order; the first element that is
        missing or not a string raises, the fields before it assigned. */
    method UnpackTelemetry() returns (outcome: Result<()>)
      requires Valid()
      modifies this`telemetry
      ensures Valid()
      ensures outcome.Ok? <==> GetList(rosparam, TelemetryKey).Ok? && Delivers(GetList(rosparam, TelemetryKey).value, |TelemetryFields|)
      ensures telemetry == match GetList(rosparam, TelemetryKey)
        case Raise(_) => old(telemetry)
        case Ok(items) => Unpacked(items, old(telemetry))
    {
      var items :- GetList(rosparam, TelemetryKey);
      var i := 0;
      while i < |TelemetryFields|
        invariant 0 <= i <= |TelemetryFields| && |telemetry| == |TelemetryFields|
        invariant Delivers(items, i)
        invariant forall j :: 0 <= j < |telemetry| ==> telemetry[j] == if j < i then items[j].s else old(telemetry)[j]
      {
        var field :- Element(items, i);
        telemetry := telemetry[i := field];
        i := i + 1;
      }
      return Ok(());
    }

    /** sendCommand: the test number goes to /asap/gds_test_num. */
    method SendCommand(testNumber: int)
      modifies this`rosparam
      ensures rosparam == old(rosparam)[TestNumberKey := VInt(testNumber)]
    {
      rosparam := rosparam[TestNumberKey := VInt(testNumber)];
    }

    method SetRole(role: string)
      modifies this`rosparam
      ensures rosparam == old(rosparam)[RoleKey := VString(role)]
    {
      rosparam := rosparam[RoleKey := VString(role)];
    }

    method SetGround()
      modifies this`rosparam
      ensures rosparam == old(rosparam)[GroundKey := VString("true")]
    {
      rosparam := rosparam[GroundKey := VString("true")];
    }

    method SetISS()
      modifies this`rosparam
      ensures rosparam == old(rosparam)[GroundKey := VString("false")]
    {
      rosparam := rosparam[GroundKey := VString("false")];
    }

    method SetRoamBagger(enabled: string)
      modifies this`rosparam
      ensures rosparam == old(rosparam)[RoamBaggerKey := VString(enabled)]
    {
      rosparam := rosparam[RoamBaggerKey := VString(enabled)];
    }

    /** sendStopped: the app announces that it has stopped. */
    method SendStopped()
      modifies this`rosparam
      ensures rosparam == old(rosparam)[ApkStatusKey := VString("stopped")]
    {
      rosparam := rosparam[ApkStatusKey := VString("stopped")];
    }
  }
}
