/** GeckoGripperStatusNode: decodes each gecko_states telemetry message into a
    fresh gripper state, and watches the controller's position error to send
    one engage+lock command when armed. */
module GeckoGripperStatus {
  import opened GuestScience
  import opened Ros
  import opened JavaInt
  import opened GeckoTypes

  /** Slot 0 of a gecko_states message: non-zero marks a science packet. */
  const ReadSdSlot := 0
  /** The slots of a status packet. */
  const ErrorStatusSlot := 1
  const LastStatusReadTimeSlot := 2
  const OvertemperatureSlot := 3
  const ExperimentInProgressSlot := 4
  const FileIsOpenSlot := 5
  const AutomaticModeEnableSlot := 6
  const WristLockSlot := 7
  const AdhesiveEngageSlot := 8
  const DelaySlot := 9
  const ExpIdxSlot := 10
  /** A status packet is read up to and including slot 10. */
  const StatusSlotCount := 11

  /** updateGripperState: the state a gecko_states message decodes to, or the
      exception that escapes when the position array is too short to read.
      - a science packet (slot 0 non-zero) decodes to a fresh default state;
      - a raised overtemperature slot decodes to the default state marked
        invalid;
      - otherwise the fields come from their slots (the integers through
        Java's saturating cast), validity is true, and the change flag says
        whether the status differs from a FRESH default state, not from the
        previous message, so it is true exactly when one of the flags other
        than automatic mode is set or the delay or the experiment index is
        not -1.
      The error status only ever decodes to 0, and the overtemperature flag
      is never true. */
  function UpdateGripperState(position: seq<int>): (r: Result<GripperFields>)
    ensures r.Raise? <==> |position| == 0 || (position[ReadSdSlot] == 0 && |position| < StatusSlotCount)
    ensures r.Raise? ==> r.exception == IndexOutOfBounds
    ensures |position| > 0 && position[ReadSdSlot] != 0 ==> r == Ok(DefaultFields)
    ensures |position| >= StatusSlotCount && position[ReadSdSlot] == 0 && position[OvertemperatureSlot] != 0 ==>
              r == Ok(DefaultFields.(validity := false))
    ensures |position| >= StatusSlotCount && position[ReadSdSlot] == 0 && position[OvertemperatureSlot] == 0 ==>
              && r.Ok? && r.value.validity
              && r.value.lastStatusReadTime == SaturatingCast(position[LastStatusReadTimeSlot])
              && r.value.experimentInProgress == (position[ExperimentInProgressSlot] != 0)
              && r.value.fileIsOpen == (position[FileIsOpenSlot] != 0)
              && r.value.automaticModeEnable == (position[AutomaticModeEnableSlot] != 0)
              && r.value.wristLock == (position[WristLockSlot] != 0)
              && r.value.adhesiveEngage == (position[AdhesiveEngageSlot] != 0)
              && r.value.delay == SaturatingCast(position[DelaySlot])
              && r.value.expIdx == SaturatingCast(position[ExpIdxSlot])
              && (r.value.newStatusReceived <==>
                    r.value.experimentInProgress || r.value.fileIsOpen || r.value.wristLock ||
                    r.value.adhesiveEngage || r.value.delay != -1 || r.value.expIdx != -1)
    ensures r.Ok? ==> r.value.errorStatus == 0 && !r.value.overtemperatureFlag
  {
    var initial := DefaultFields;
    if |position| == 0 then Raise(IndexOutOfBounds)
    else if position[ReadSdSlot] != 0 then Ok(initial)  // science packet: not read
    else if |position| < StatusSlotCount then Raise(IndexOutOfBounds)
    else
      var errorStatus := SaturatingCast(position[ErrorStatusSlot]);
      var lastStatusReadTime := SaturatingCast(position[LastStatusReadTimeSlot]);
      var overtemperatureFlag := position[OvertemperatureSlot] != 0;
      var experimentInProgress := position[ExperimentInProgressSlot] != 0;
      var fileIsOpen := position[FileIsOpenSlot] != 0;
      var automaticModeEnable := position[AutomaticModeEnableSlot] != 0;
      var wristLock := position[WristLockSlot] != 0;
      var adhesiveEngage := position[AdhesiveEngageSlot] != 0;
      var delay := SaturatingCast(position[DelaySlot]);
      var expIdx := SaturatingCast(position[ExpIdxSlot]);
      if overtemperatureFlag then Ok(initial.(validity := false))
      else
        var newStatusReceived :=
          if overtemperatureFlag != initial.overtemperatureFlag then true
          else if experimentInProgress != initial.experimentInProgress then true
          else if fileIsOpen != initial.fileIsOpen then true
          else if wristLock != initial.wristLock then true
          else if adhesiveEngage != initial.adhesiveEngage then true
          else if delay != initial.delay then true
          else if expIdx != initial.expIdx then true
          else false;
        var latched := initial.(newStatusReceived := initial.newStatusReceived || newStatusReceived);
        var cleared := if errorStatus == 0 then latched.(errorStatus := errorStatus) else latched;
        Ok(cleared.(
          lastStatusReadTime := lastStatusReadTime,
          overtemperatureFlag := false,
          experimentInProgress := experimentInProgress,
          fileIsOpen := fileIsOpen,
          automaticModeEnable := automaticModeEnable,
          wristLock := wristLock,
          adhesiveEngage := adhesiveEngage,
          delay := delay,
          expIdx := expIdx,
          validity := true))
  }

  /** The decoded state does not depend on anything but the message: two
      messages that agree on the slots a status packet reads decode alike,
      and every science packet decodes alike whatever its other slots. */
  lemma DecodeReadsOnlyItsSlots(p: seq<int>, q: seq<int>)
    requires |p| > 0 && |q| > 0
    requires (p[ReadSdSlot] != 0 && q[ReadSdSlot] != 0) ||
             (|p| >= StatusSlotCount && |q| >= StatusSlotCount && p[..StatusSlotCount] == q[..StatusSlotCount])
    ensures UpdateGripperState(p) == UpdateGripperState(q)
  {
    if |p| >= StatusSlotCount && |q| >= StatusSlotCount && p[..StatusSlotCount] == q[..StatusSlotCount] {
      assert forall i :: 0 <= i < StatusSlotCount ==> p[i] == p[..StatusSlotCount][i] == q[i];
    }
  }

  /** The decoded fields of a status packet whose overtemperature slot is
      clear, written out as one value. */
  lemma StatusPacketDecodes(position: seq<int>)
    requires |position| >= StatusSlotCount && position[ReadSdSlot] == 0 && position[OvertemperatureSlot] == 0
    ensures UpdateGripperState(position) == Ok(GripperFields(
              SaturatingCast(position[LastStatusReadTimeSlot]), 0,
              position[AdhesiveEngageSlot] != 0, position[WristLockSlot] != 0,
              position[AutomaticModeEnableSlot] != 0, position[ExperimentInProgressSlot] != 0,
              false, position[FileIsOpenSlot] != 0,
              SaturatingCast(position[ExpIdxSlot]), SaturatingCast(position[DelaySlot]), true,
              position[ExperimentInProgressSlot] != 0 || position[FileIsOpenSlot] != 0 ||
              position[WristLockSlot] != 0 || position[AdhesiveEngageSlot] != 0 ||
              SaturatingCast(position[DelaySlot]) != -1 || SaturatingCast(position[ExpIdxSlot]) != -1))
  {
  }

  /** The position error at or beyond which the armed feedback listener
      fires; nothing in the node changes it. */
  const ErrorTol: real := 0.18

  function Abs(x: real): real { if x < 0.0 then -x else x }

  /** The one message the feedback listener publishes: engage, then lock,
      in a single message with position 0. */
  const EngageLockMsg := JointStateMsg(["gecko_gripper_engage", "gecko_gripper_lock"], [0.0])

  /** Whether a feedback sample makes the listener publish. */
  predicate Fires(armed: bool, errorPosition: real)
  {
    armed && Abs(errorPosition) >= ErrorTol
  }

  /** What the feedback listener publishes over a run of samples with no
      re-arming in between, and whether it is still armed afterwards. */
  function FeedbackRun(armed: bool, samples: seq<real>): (seq<JointStateMsg>, bool)
    decreases |samples|
  {
    if samples == [] then ([], armed)
    else
      var fire := Fires(armed, samples[0]);
      var rest := FeedbackRun(armed && !fire, samples[1..]);
      ((if fire then [EngageLockMsg] else []) + rest.0, rest.1)
  }

  /** Fire-once: over any run of samples the listener publishes at most one
      message, the engage+lock one; it publishes it exactly when it starts
      armed and some sample's error reaches the tolerance, and it ends armed
      exactly when it did not publish. */
  lemma {:induction false} FeedbackFiresAtMostOnce(armed: bool, samples: seq<real>)
    ensures |FeedbackRun(armed, samples).0| <= 1
    ensures forall m :: m in FeedbackRun(armed, samples).0 ==> m == EngageLockMsg
    ensures |FeedbackRun(armed, samples).0| == 1 <==>
              armed && exists i :: 0 <= i < |samples| && Abs(samples[i]) >= ErrorTol
    ensures FeedbackRun(armed, samples).1 <==> armed && |FeedbackRun(armed, samples).0| == 0
    decreases |samples|
  {
    if samples != [] {
      var fire := Fires(armed, samples[0]);
      FeedbackFiresAtMostOnce(armed && !fire, samples[1..]);
      if armed && !fire && exists i :: 0 <= i < |samples| && Abs(samples[i]) >= ErrorTol {
        var i :| 0 <= i < |samples| && Abs(samples[i]) >= ErrorTol;
        assert samples[1..][i - 1] == samples[i];
      }
      if armed && !fire && exists i :: 0 <= i < |samples[1..]| && Abs(samples[1..][i]) >= ErrorTol {
        var i :| 0 <= i < |samples[1..]| && Abs(samples[1..][i]) >= ErrorTol;
        assert samples[i + 1] == samples[1..][i];
      }
    }
  }

  /** A disarmed listener stays silent: over any run of samples it publishes
      nothing and stays disarmed. The flag starts false and the listener only
      ever clears it, so from construction this is all the listener does. */
  lemma {:induction false} DisarmedListenerPublishesNothing(samples: seq<real>)
    ensures FeedbackRun(false, samples) == ([], false)
  {
    FeedbackFiresAtMostOnce(false, samples);
  }

  /** The status node: the last decoded gripper state (null until the first
      gecko_states message), the last position error, whether the feedback
      engage+lock is armed, and the joint_goals publisher. */
  class GeckoGripperStatusNode {
    var gripperState: GeckoGripperState?
    var errorPosition: real
    var feedbackPerchingEnable: bool
    const mPublisher: Publisher

    constructor (publisher: Publisher)
      ensures gripperState == null && errorPosition == 0.0 && !feedbackPerchingEnable
      ensures mPublisher == publisher
    {
      gripperState := null;
      errorPosition := 0.0;
      feedbackPerchingEnable := false;
      mPublisher := publisher;
    }

    /** The setter calls that copy a status packet's slots into the state:
        the error status only when it is 0, the overtemperature flag through
        its setter (which stores false), every other slot as read. */
    static method StoreStatus(gripperState: GeckoGripperState, errorStatus: int, lastStatusReadTime: int,
                              overtemperatureFlag: bool, experimentInProgress: bool, fileIsOpen: bool,
                              automaticModeEnable: bool, wristLock: bool, adhesiveEngage: bool,
                              delay: int, expIdx: int)
      modifies gripperState
      ensures gripperState.errorStatus == if errorStatus == 0 then 0 else old(gripperState.errorStatus)
      ensures gripperState.lastStatusReadTime == lastStatusReadTime
      ensures !gripperState.overtemperatureFlag
      ensures gripperState.experimentInProgress == experimentInProgress
      ensures gripperState.fileIsOpen == fileIsOpen
      ensures gripperState.automaticModeEnable == automaticModeEnable
      ensures gripperState.wristLock == wristLock
      ensures gripperState.adhesiveEngage == adhesiveEngage
      ensures gripperState.delay == delay
      ensures gripperState.expIdx == expIdx
      ensures gripperState.validity == old(gripperState.validity)
      ensures gripperState.newStatusReceived == old(gripperState.newStatusReceived)
    {
        if errorStatus == 0 {
          gripperState.SetErrorStatus(errorStatus);
        }
        gripperState.SetLastStatusReadTime(lastStatusReadTime);
        gripperState.SetOverTemperatureFlag(overtemperatureFlag);
        gripperState.SetExperimentInProgress(experimentInProgress);
        gripperState.SetFileIsOpen(fileIsOpen);
        gripperState.SetAutomaticModeEnable(automaticModeEnable);
        gripperState.SetWristLock(wristLock);
        gripperState.SetAdhesiveEngage(adhesiveEngage);
        gripperState.SetDelay(delay);
        gripperState.SetExpIdx(expIdx);
    }

    /** updateGripperState written as the node does it: a new state object
        filled in through its setters. */
    static method BuildGripperState(position: seq<int>) returns (r: Result<GeckoGripperState>)
      ensures r.Raise? <==> UpdateGripperState(position).Raise?
      ensures r.Ok? ==> fresh(r.value) && r.value.Value() == UpdateGripperState(position).value
    {
      var gripperState := new GeckoGripperState();
      if |position| == 0 {
        return Raise(IndexOutOfBounds);
      }
      if position[ReadSdSlot] != 0 {
        return Ok(gripperState);
      }
      if |position| < StatusSlotCount {
        return Raise(IndexOutOfBounds);
      }
      var errorStatus := SaturatingCast(position[ErrorStatusSlot]);
      var lastStatusReadTime := SaturatingCast(position[LastStatusReadTimeSlot]);
      var overtemperatureFlag := position[OvertemperatureSlot] != 0;
      var experimentInProgress := position[ExperimentInProgressSlot] != 0;
      var fileIsOpen := position[FileIsOpenSlot] != 0;
      var automaticModeEnable := position[AutomaticModeEnableSlot] != 0;
      var wristLock := position[WristLockSlot] != 0;
      var adhesiveEngage := position[AdhesiveEngageSlot] != 0;
      var delay := SaturatingCast(position[DelaySlot]);
      var expIdx := SaturatingCast(position[ExpIdxSlot]);

      if overtemperatureFlag {
        gripperState.SetValidity(false);
        return Ok(gripperState);
      }

      var newStatusReceived := false;
      if overtemperatureFlag != gripperState.overtemperatureFlag {
        newStatusReceived := true;
      } else if experimentInProgress != gripperState.experimentInProgress {
        newStatusReceived := true;
      } else if fileIsOpen != gripperState.fileIsOpen {
        newStatusReceived := true;
      } else if wristLock != gripperState.wristLock {
        newStatusReceived := true;
      } else if adhesiveEngage != gripperState.adhesiveEngage {
        newStatusReceived := true;
      } else if delay != gripperState.delay {
        newStatusReceived := true;
      } else if expIdx != gripperState.expIdx {
        newStatusReceived := true;
      }
      gripperState.UpdateNewStatusReceived(newStatusReceived);

      StoreStatus(gripperState, errorStatus, lastStatusReadTime, overtemperatureFlag, experimentInProgress,
        fileIsOpen, automaticModeEnable, wristLock, adhesiveEngage, delay, expIdx);

      gripperState.SetValidity(true);
      StatusPacketDecodes(position);
      return Ok(gripperState);
    }

    /** The gecko_states listener: every message that decodes replaces the
        stored state wholesale with a new object (science and invalid packets
        included); one too short to read raises before the assignment, so the
        stored state stays as it was. */
    method OnGeckoStates(position: seq<int>) returns (outcome: Result<()>)
      modifies this`gripperState
      ensures outcome.Raise? <==> UpdateGripperState(position).Raise?
      ensures outcome.Ok? ==> gripperState != null && fresh(gripperState) &&
                              gripperState.Value() == UpdateGripperState(position).value
      ensures outcome.Raise? ==> gripperState == old(gripperState)
    {
      var decoded := BuildGripperState(position);
      if decoded.Raise? {
        return Raise(decoded.exception);
      }
      gripperState := decoded.value;
      return Ok(());
    }

    /** The ControlActionFeedback listener: stores the sample's position
        error, and when armed and the error reaches the tolerance publishes
        the engage+lock message once and disarms. */
    method OnControlFeedback(sample: real)
      modifies this`errorPosition, this`feedbackPerchingEnable, mPublisher
      ensures errorPosition == sample
      ensures mPublisher.published ==
                old(mPublisher.published) + (if Fires(old(feedbackPerchingEnable), sample) then [EngageLockMsg] else [])
      ensures feedbackPerchingEnable == (old(feedbackPerchingEnable) && !Fires(old(feedbackPerchingEnable), sample))
    {
      errorPosition := sample;
      if feedbackPerchingEnable && Abs(errorPosition) >= ErrorTol {
        var msgName: seq<string> := [];
        var msgPos := new real[1];
        msgPos[0] := 0.0;
        msgName := msgName + ["gecko_gripper_engage"];
        msgName := msgName + ["gecko_gripper_lock"];
        assert msgPos[..] == [0.0];
        assert msgName == EngageLockMsg.name;
        mPublisher.Publish(JointStateMsg(msgName, msgPos[..]));
        feedbackPerchingEnable := false;
      }
    }

    /** The listener over a run of samples delivered one after another with
        no re-arming in between: it publishes what FeedbackRun says, so by
        FeedbackFiresAtMostOnce at most one engage+lock message. */
    method OnControlFeedbackRun(samples: seq<real>)
      modifies this`errorPosition, this`feedbackPerchingEnable, mPublisher
      ensures mPublisher.published == old(mPublisher.published) + FeedbackRun(old(feedbackPerchingEnable), samples).0
      ensures feedbackPerchingEnable == FeedbackRun(old(feedbackPerchingEnable), samples).1
    {
      ghost var armed0 := feedbackPerchingEnable;
      ghost var pub0 := mPublisher.published;
      var i := 0;
      while i < |samples|
        invariant 0 <= i <= |samples|
        invariant |pub0| <= |mPublisher.published| && mPublisher.published[..|pub0|] == pub0
        invariant FeedbackRun(armed0, samples).0 ==
                    mPublisher.published[|pub0|..] + FeedbackRun(feedbackPerchingEnable, samples[i..]).0
        invariant FeedbackRun(armed0, samples).1 == FeedbackRun(feedbackPerchingEnable, samples[i..]).1
      {
        assert samples[i..][1..] == samples[i + 1..];
        ghost var before := mPublisher.published;
        OnControlFeedback(samples[i]);
        assert mPublisher.published[|pub0|..] == before[|pub0|..] + mPublisher.published[|before|..];
        i := i + 1;
      }
      assert samples[i..] == [];
      assert mPublisher.published == pub0 + mPublisher.published[|pub0|..];
    }
  }
}
