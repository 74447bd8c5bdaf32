/** RoamStatusNode of the roamcommandasap service: the ROS node through
    which the service writes the ROAM parameters under /td/, and which keeps
    the last chaser telemetry it unpacked from /td/chaser/gds_telem. */
module RoamStatus {
  import opened GuestScience
  import opened Ros
  import opened StatusTelemetry

  const TelemetryKey := "/td/chaser/gds_telem"
  const TestNumberKey := "/td/gds_test_num"
  const RoleKey := "/td/role_from_GDS"
  const GroundKey := "/td/gds_ground"
  const RoamBaggerKey := "/td/gds_roam_bagger"
  const ApkStatusKey := "/td/gds_apk_status"
  const SimKey := "/td/gds_sim"

  /** The telemetry fields, in the order updateParams assigns them from the
      list: field i takes element i. */
  const TelemetryFields: seq<string> := [
    "global_gds_param_count", "test_num", "td_flight_mode", "td_control_mode", "slam_activate",
    "target_regulate_finished", "chaser_regulate_finished", "motion_plan_finished",
    "motion_plan_wait_time", "default_control", "my_role", "test_LUT", "test_tumble_type",
    "test_control_mode", "test_state_mode", "dlr_LUT_param", "traj_gen_dlr_activate",
    "uc_bound_activate", "slam_converged", "inertia_estimated", "uc_bound_finished",
    "mrpi_finished", "traj_finished", "test_finished", "td_state_mode", "casadi_on_target"]

  /** The keys its command calls write. */
  const Keys := NodeKeys(TestNumberKey, RoleKey, GroundKey, RoamBaggerKey)

  /** The node. Its telemetry fields are kept as one sequence indexed as
      TelemetryFields lists them, all the empty string until the first
      unpacking. */
  class RoamStatusNode {
    var rosparam: map<string, Value>
    var telemetry: seq<string>

    predicate Valid()
      reads this
    {
      |telemetry| == |TelemetryFields|
    }

    constructor ()
      ensures Valid() && rosparam == map[]
      ensures forall i :: 0 <= i < |telemetry| ==> telemetry[i] == ""
    {
      rosparam := map[];
      telemetry := seq(|TelemetryFields|, _ => "");
    }

    /** onStart: take the parameter tree and announce the app as started, on
        hardware, not on the ground. */
    method OnStart(tree: map<string, Value>)
      modifies this`rosparam
      ensures rosparam == tree[ApkStatusKey := VString("started")][SimKey := VString("hardware")][GroundKey := VString("false")]
    {
      rosparam := tree;
      rosparam := rosparam[ApkStatusKey := VString("started")];
      rosparam := rosparam[SimKey := VString("hardware")];
      rosparam := rosparam[GroundKey := VString("false")];
    }

    /** updateParams: fetch the list, then assign the fields from its
        elements in order. Nothing catches here: the first element that is
        missing or not a string raises out of the method, the fields before
        it already assigned. */
    method UpdateParams() returns (outcome: Result<()>)
      requires Valid()
      modifies this`telemetry
      ensures Valid()
      ensures outcome.Ok? <==> GetList(rosparam, TelemetryKey).Ok? && Delivers(GetList(rosparam, TelemetryKey).value, |TelemetryFields|)
      ensures telemetry == match GetList(rosparam, TelemetryKey)
        case Raise(_) => old(telemetry)
        case Ok(items) => Unpacked(items, old(telemetry))
    {
      var items :- GetList(rosparam, TelemetryKey);
      var i := 0;
      while i < |TelemetryFields|
        invariant 0 <= i <= |TelemetryFields| && |telemetry| == |TelemetryFields|
        invariant Delivers(items, i)
        invariant forall j :: 0 <= j < |telemetry| ==> telemetry[j] == if j < i then items[j].s else old(telemetry)[j]
      {
        var field :- Element(items, i);
        telemetry := telemetry[i := field];
        i := i + 1;
      }
      return Ok(());
    }

    /** sendCommand: the test number goes to /td/gds_test_num. */
    method SendCommand(testNumber: int)
      modifies this`rosparam
      ensures rosparam == old(rosparam)[TestNumberKey := VInt(testNumber)]
    {
      rosparam := rosparam[TestNumberKey := VInt(testNumber)];
    }

    method SetRole(role: string)
      modifies this`rosparam
      ensures rosparam == old(rosparam)[RoleKey := VString(role)]
    {
      rosparam := rosparam[RoleKey := VString(role)];
    }

    method SetGround()
      modifies this`rosparam
      ensures rosparam == old(rosparam)[GroundKey := VString("true")]
    {
      rosparam := rosparam[GroundKey := VString("true")];
    }

    method SetISS()
      modifies this`rosparam
      ensures rosparam == old(rosparam)[GroundKey := VString("false")]
    {
      rosparam := rosparam[GroundKey := VString("false")];
    }

    method SetRoamBagger(enabled: string)
      modifies this`rosparam
      ensures rosparam == old(rosparam)[RoamBaggerKey := VString(enabled)]
    {
      rosparam := rosparam[RoamBaggerKey := VString(enabled)];
    }

    /** sendStopped: the app announces that it has stopped. */
    method SendStopped()
      modifies this`rosparam
      ensures rosparam == old(rosparam)[ApkStatusKey := VString("stopped")]
    {
      rosparam := rosparam[ApkStatusKey := VString("stopped")];
    }
  }
}
