# Astrobee guest-science services: gripper telemetry and command dispatch

This project models, in Dafny, the command-handling core of the Astrobee guest-science Android apps:

- **GeckoGripperState**: the gripper's last known status.
- **GeckoGripperStatusNode**:
  - decodes each `gecko_states` JointState message into a fresh state;
  - fires a single engage+lock command when armed by `feedbackPerchingEnable` and the controller's position error reaches the tolerance. Nothing in the app ever sets that flag: it starts false and the listener only clears it. So from construction, a run of feedback samples publishes nothing (DisarmedListenerPublishesNothing).
- **StartGeckoperchinggripperService**: turns a ground command into JointState messages on `joint_goals` and a JSON reply. It handles the query sequences of `print_status` and `reset_gripper`, and the parameters of the five commands that take one.
- **StartGeckoService** (the GeckoPerchingGripper app): maps each gripper command to its `perching_` command.
- **The two commandasap dispatchers**: StartcommandasapService, and the `StartCommandAsapService` class of StarcommandasapService.java. That file sits in a directory named roamcommandasap but declares package commandasap. Both dispatchers map a command name to at most one status-node call. This includes the `Test<n>` prefix, which is read by `Integer.valueOf`.
- **StartRoamcommandasapService**: dispatches on its table of 48 test cases. Its default case falls through into StopTest.
- **StatusNode and RoamStatusNode**: write the parameters each command sets, and unpack the telemetry list from the parameter server into their fields.

Modules, one per source concept:

- `GuestScience`: JSON values, replies, commands, and Java exceptions as a `Result`.
- `Ros`: JointState messages, the publisher, and parameter values.
- `JavaInt`: int32 casts, `Integer.valueOf`, `Integer.toString` and `String.startsWith`.
- `GeckoTypes`: GeckoGripperState.
- `GeckoGripperStatus`: GeckoGripperStatusNode.
- `GeckoCommandService`: StartGeckoperchinggripperService.
- `GeckoService`: StartGeckoService.
- `StatusTelemetry`: the node calls, the parameter keys and the telemetry list that both status nodes share.
- `AsapStatus` and `RoamStatus`: the two nodes.
- `AsapCommand` and `RoamCommand`: the dispatchers.

Objects whose fields the source updates are Dafny classes, and their methods state their new state:

- the link to the Guest Science manager and the ROS publisher record what was sent;
- the gripper state object;
- the status nodes;
- the services.

Each method is proved against a function of its inputs and old state, for example `Handle`, `UpdateGripperState`, `Dispatch`, `RoamCall` and `Unpacked`. The lemmas prove the properties of those functions.

Exceptions are values: a method that can raise returns `Result<()>`, and each `catch` block becomes a reply (`ExceptionReply`). I/O to the Guest Science manager and to ROS is recorded in sequence fields (`sent`, `published`) rather than performed. The ROS parameter server is a `map<string, Value>` held by each status node.

## Model

| member | source | states |
|---|---|---|
| GuestScience.Put | guest_science_projects/commandasap/app/src/main/java/edu/mit/ssl/commandasap/StartcommandasapService.java:214 | `JSONObject.put`: the key then reads the new value, every other key reads what it read before, and the object grows only when the key is new |
| GuestScience.ExceptionReply | guest_science_projects/geckoperchinggripper/app/src/main/java/edu/stanford/asl/geckoperchinggripper/StartGeckoperchinggripperService.java:242-250 | a `JSONException` is answered "ERROR parsing JSON" on "data"; every other exception is answered "Unrecognized ERROR" |
| GeckoTypes.Report | guest_science_projects/geckoperchinggripper/app/src/main/java/edu/stanford/asl/geckoperchinggripper/types/GeckoGripperState.java:52-65 | `toJSON` has exactly the ten keys, in the order the code puts them |
| GeckoTypes.ReportKeysDistinct | guest_science_projects/geckoperchinggripper/app/src/main/java/edu/stanford/asl/geckoperchinggripper/types/GeckoGripperState.java:54-63 | the ten report keys are pairwise distinct |
| GeckoTypes.ReportDeterminesFields | guest_science_projects/geckoperchinggripper/app/src/main/java/edu/stanford/asl/geckoperchinggripper/types/GeckoGripperState.java:52-65 | the report loses only `validity` and `newStatusReceived`: for states that agree on those two, equal reports mean equal states |
| GeckoTypes.GeckoGripperState.constructor | guest_science_projects/geckoperchinggripper/app/src/main/java/edu/stanford/asl/geckoperchinggripper/types/GeckoGripperState.java:39-50 | a new state has -1 for the counters, 0 for the error status, and every flag false |
| GeckoTypes.GeckoGripperState.SetLastStatusReadTime | guest_science_projects/geckoperchinggripper/app/src/main/java/edu/stanford/asl/geckoperchinggripper/types/GeckoGripperState.java:71-73 | writes its field and no other |
| GeckoTypes.GeckoGripperState.SetErrorStatus | guest_science_projects/geckoperchinggripper/app/src/main/java/edu/stanford/asl/geckoperchinggripper/types/GeckoGripperState.java:79-81 | writes its field and no other |
| GeckoTypes.GeckoGripperState.SetAdhesiveEngage | guest_science_projects/geckoperchinggripper/app/src/main/java/edu/stanford/asl/geckoperchinggripper/types/GeckoGripperState.java:87-89 | writes its field and no other |
| GeckoTypes.GeckoGripperState.SetWristLock | guest_science_projects/geckoperchinggripper/app/src/main/java/edu/stanford/asl/geckoperchinggripper/types/GeckoGripperState.java:95-97 | writes its field and no other |
| GeckoTypes.GeckoGripperState.SetAutomaticModeEnable | guest_science_projects/geckoperchinggripper/app/src/main/java/edu/stanford/asl/geckoperchinggripper/types/GeckoGripperState.java:103-105 | writes its field and no other |
| GeckoTypes.GeckoGripperState.SetExperimentInProgress | guest_science_projects/geckoperchinggripper/app/src/main/java/edu/stanford/asl/geckoperchinggripper/types/GeckoGripperState.java:111-113 | writes its field and no other |
| GeckoTypes.GeckoGripperState.SetOverTemperatureFlag | guest_science_projects/geckoperchinggripper/app/src/main/java/edu/stanford/asl/geckoperchinggripper/types/GeckoGripperState.java:119-122 | stores false whatever it is passed, so (by the constructor and the setters' one-field frames) the flag stays false in every reachable state |
| GeckoTypes.GeckoGripperState.SetFileIsOpen | guest_science_projects/geckoperchinggripper/app/src/main/java/edu/stanford/asl/geckoperchinggripper/types/GeckoGripperState.java:128-130 | writes its field and no other |
| GeckoTypes.GeckoGripperState.SetExpIdx | guest_science_projects/geckoperchinggripper/app/src/main/java/edu/stanford/asl/geckoperchinggripper/types/GeckoGripperState.java:136-138 | writes its field and no other |
| GeckoTypes.GeckoGripperState.SetDelay | guest_science_projects/geckoperchinggripper/app/src/main/java/edu/stanford/asl/geckoperchinggripper/types/GeckoGripperState.java:144-146 | writes its field and no other |
| GeckoTypes.GeckoGripperState.SetValidity | guest_science_projects/geckoperchinggripper/app/src/main/java/edu/stanford/asl/geckoperchinggripper/GeckoGripperStatusNode.java:175 | writes `validity` and no other field |
| GeckoTypes.GeckoGripperState.SetNewStatusReceived | guest_science_projects/geckoperchinggripper/app/src/main/java/edu/stanford/asl/geckoperchinggripper/StartGeckoperchinggripperService.java:190 | writes the change flag and no other field; this is how the flag is cleared |
| GeckoTypes.GeckoGripperState.UpdateNewStatusReceived | guest_science_projects/geckoperchinggripper/app/src/main/java/edu/stanford/asl/geckoperchinggripper/GeckoGripperStatusNode.java:159 | latches the change flag: it becomes true when the argument is, and otherwise keeps its value |
| GeckoGripperStatus.UpdateGripperState | guest_science_projects/geckoperchinggripper/app/src/main/java/edu/stanford/asl/geckoperchinggripper/GeckoGripperStatusNode.java:112-177 | a message with an empty position array, or a status packet shorter than 11 slots, raises. A science packet decodes to the default state. A raised overtemperature slot decodes to the default state marked invalid. Otherwise each field is its slot, with int fields saturating-cast, and validity is true. The change flag compares against a fresh default object, so it is set exactly when a non-automatic flag is set or the delay or index is not -1. The error status is always 0 and the overtemperature flag never true |
| GeckoGripperStatus.DecodeReadsOnlyItsSlots | guest_science_projects/geckoperchinggripper/app/src/main/java/edu/stanford/asl/geckoperchinggripper/GeckoGripperStatusNode.java:116-135 | the decoded state depends only on slots 0 to 10 of a status packet, and on nothing at all for a science packet |
| GeckoGripperStatus.StatusPacketDecodes | guest_science_projects/geckoperchinggripper/app/src/main/java/edu/stanford/asl/geckoperchinggripper/GeckoGripperStatusNode.java:126-176 | the full decoded value of a status packet whose overtemperature slot is clear |
| GeckoGripperStatus.FeedbackFiresAtMostOnce | guest_science_projects/geckoperchinggripper/app/src/main/java/edu/stanford/asl/geckoperchinggripper/GeckoGripperStatusNode.java:80-103 | over any run of feedback samples, at most one engage+lock message is published. It is published exactly when the listener starts armed and some sample's error reaches `errorTol`. The listener ends armed exactly when nothing was published |
| GeckoGripperStatus.GeckoGripperStatusNode.constructor | guest_science_projects/geckoperchinggripper/app/src/main/java/edu/stanford/asl/geckoperchinggripper/GeckoGripperStatusNode.java:46-52 | no state yet, position error 0, and feedback not armed |
| GeckoGripperStatus.GeckoGripperStatusNode.StoreStatus | guest_science_projects/geckoperchinggripper/app/src/main/java/edu/stanford/asl/geckoperchinggripper/GeckoGripperStatusNode.java:161-173 | the setter calls store every slot and touch error status only when it reads 0; validity and the change flag keep their values |
| GeckoGripperStatus.GeckoGripperStatusNode.BuildGripperState | guest_science_projects/geckoperchinggripper/app/src/main/java/edu/stanford/asl/geckoperchinggripper/GeckoGripperStatusNode.java:112-177 | building the state through a new object and its setters raises exactly when `UpdateGripperState` does, and otherwise yields a fresh object holding its value |
| GeckoGripperStatus.GeckoGripperStatusNode.OnGeckoStates | guest_science_projects/geckoperchinggripper/app/src/main/java/edu/stanford/asl/geckoperchinggripper/GeckoGripperStatusNode.java:70-76 | each message that decodes replaces the stored state with a fresh object. A message that raises leaves the stored reference as it was |
| GeckoGripperStatus.GeckoGripperStatusNode.OnControlFeedback | guest_science_projects/geckoperchinggripper/app/src/main/java/edu/stanford/asl/geckoperchinggripper/GeckoGripperStatusNode.java:80-103 | the error is stored. When armed and the absolute error is at least 0.18, the single engage+lock message is published and the listener disarms; otherwise nothing is published |
| GeckoGripperStatus.GeckoGripperStatusNode.OnControlFeedbackRun | guest_science_projects/geckoperchinggripper/app/src/main/java/edu/stanford/asl/geckoperchinggripper/GeckoGripperStatusNode.java:80-103 | delivering a run of samples to the listener publishes exactly what `FeedbackRun` gives, and leaves it armed as `FeedbackRun` says. So by FeedbackFiresAtMostOnce the listener itself publishes engage+lock at most once |
| GeckoGripperStatus.DisarmedListenerPublishesNothing | guest_science_projects/geckoperchinggripper/app/src/main/java/edu/stanford/asl/geckoperchinggripper/GeckoGripperStatusNode.java:47-48 | the flag `feedbackPerchingEnable` starts false (:48), and the listener at :84-99 only clears it. Over any run of samples, a disarmed listener publishes nothing and stays disarmed |
| GeckoCommandService.SingleNameMessages | guest_science_projects/geckoperchinggripper/app/src/main/java/edu/stanford/asl/geckoperchinggripper/StartGeckoperchinggripperService.java:194-222 | one message per query name, in order, each carrying just that name and slot 0 |
| GeckoCommandService.Handle | guest_science_projects/geckoperchinggripper/app/src/main/java/edu/stanford/asl/geckoperchinggripper/StartGeckoperchinggripperService.java:104-251 | the reference effect of a custom command. The acknowledgement comes first, and at least one reply follows. The command publishes at most its queries plus one message. The stored state stays present or absent as it was, and only print_status changes it, by clearing its change flag |
| GeckoCommandService.FinalMessageNamesCommand | guest_science_projects/geckoperchinggripper/app/src/main/java/edu/stanford/asl/geckoperchinggripper/StartGeckoperchinggripperService.java:234-241 | every command that leaves the switch, known or not, ends with one message carrying exactly its own name and slot 0 (the parameter, or 0). Its last reply is a Summary holding the name |
| GeckoCommandService.ResetGripperSequence | guest_science_projects/geckoperchinggripper/app/src/main/java/edu/stanford/asl/geckoperchinggripper/StartGeckoperchinggripperService.java:192-225 | reset_gripper publishes disable_auto, disengage, unlock, delay, exp and then itself, all at position 0, replies its Summary and changes no state |
| GeckoCommandService.PrintStatusReportsThenClears | guest_science_projects/geckoperchinggripper/app/src/main/java/edu/stanford/asl/geckoperchinggripper/StartGeckoperchinggripperService.java:171-191 | print_status publishes the delay and exp queries, then reports the stored state under "gripper state", then clears only its change flag. With no state decoded yet, the two queries go out and the handler ends with "Unrecognized ERROR" |
| GeckoCommandService.ParameterCommandPublishesSlot | guest_science_projects/geckoperchinggripper/app/src/main/java/edu/stanford/asl/geckoperchinggripper/StartGeckoperchinggripperService.java:146-160 | a command that takes a parameter, given a number, publishes only its own name with that number in slot 0 |
| GeckoCommandService.BadParameterPublishesNothing | guest_science_projects/geckoperchinggripper/app/src/main/java/edu/stanford/asl/geckoperchinggripper/StartGeckoperchinggripperService.java:146-160 | a missing parameter replies "ERROR parsing JSON" and a non-numeric one "Unrecognized ERROR". Either way nothing is published and the state is untouched |
| GeckoCommandService.UnknownCommandIsPublished | guest_science_projects/geckoperchinggripper/app/src/main/java/edu/stanford/asl/geckoperchinggripper/StartGeckoperchinggripperService.java:227-234 | an unrecognised command is still published under its own name at position 0. Its Summary is the name, because the later put overwrites the error summary |
| GeckoCommandService.PlainCommandsAreOrdinary | guest_science_projects/geckoperchinggripper/app/src/main/java/edu/stanford/asl/geckoperchinggripper/StartGeckoperchinggripperService.java:127-170 | the cases that only break take no parameter and send no queries |
| GeckoCommandService.GeckoperchinggripperService.OnGuestScienceCustomCmd | guest_science_projects/geckoperchinggripper/app/src/main/java/edu/stanford/asl/geckoperchinggripper/StartGeckoperchinggripperService.java:104-251 | what is published, what is sent and the stored state afterwards are exactly those `Handle` gives for the command and the old state |
| GeckoCommandService.GeckoperchinggripperService.PublishPrintStatusQueries | guest_science_projects/geckoperchinggripper/app/src/main/java/edu/stanford/asl/geckoperchinggripper/StartGeckoperchinggripperService.java:174-184 | publishes the delay query and then the exp query |
| GeckoCommandService.GeckoperchinggripperService.PublishResetQueries | guest_science_projects/geckoperchinggripper/app/src/main/java/edu/stanford/asl/geckoperchinggripper/StartGeckoperchinggripperService.java:194-222 | publishes the five reset queries in order |
| GeckoCommandService.GeckoperchinggripperService.FinishCommand | guest_science_projects/geckoperchinggripper/app/src/main/java/edu/stanford/asl/geckoperchinggripper/StartGeckoperchinggripperService.java:234-241 | publishes the command's own name with the slot and replies its Summary, whichever Summary was there before |
| GeckoCommandService.GeckoperchinggripperService.ReadSlotParameter | guest_science_projects/geckoperchinggripper/app/src/main/java/edu/stanford/asl/geckoperchinggripper/StartGeckoperchinggripperService.java:146-160 | slot 0 takes the parameter's number. A missing key raises `JSONException` and a non-number raises `NumberFormatException`, and in both cases the slot is untouched |
| GeckoCommandService.GeckoperchinggripperService.PrintStatusCase | guest_science_projects/geckoperchinggripper/app/src/main/java/edu/stanford/asl/geckoperchinggripper/StartGeckoperchinggripperService.java:171-191 | the queries go out first. It raises `NullDereference` exactly when no state is stored; otherwise it reports the state and clears its change flag |
| GeckoCommandService.GeckoperchinggripperService.Switch | guest_science_projects/geckoperchinggripper/app/src/main/java/edu/stanford/asl/geckoperchinggripper/StartGeckoperchinggripperService.java:125-232 | raises exactly on a bad parameter or on print_status with no state. Publishes the command's queries, and otherwise leaves the reply empty or holding only the default case's error summary |
| GeckoCommandService.GeckoperchinggripperService.RunCommand | guest_science_projects/geckoperchinggripper/app/src/main/java/edu/stanford/asl/geckoperchinggripper/StartGeckoperchinggripperService.java:109-241 | the try block: its effects are those of `Handle`, and an exception ends it with nothing more sent |
| GeckoService.PerchingCommand | guest_science_projects/GeckoPerchingGripper/app/src/main/java/edu/stanford/asl/geckoperchinggripper/StartGeckoService.java:71-157 | a name has a case exactly when it is one of the 19 commands. Every Summary is `perching_` plus the name; the message name equals the Summary except for record, whose message is `perching_gecko_record` |
| GeckoService.Handle | guest_science_projects/GeckoPerchingGripper/app/src/main/java/edu/stanford/asl/geckoperchinggripper/StartGeckoService.java:51-175 | the reference effect: the acknowledgement and exactly one reply. At most one message is published, and only when the node is held and the command is one of the 19 cases |
| GeckoService.NodeNeverAssignedFailsEveryCommand | guest_science_projects/GeckoPerchingGripper/app/src/main/java/edu/stanford/asl/geckoperchinggripper/StartGeckoService.java:48-68 | with the node field never assigned, every command publishes nothing and is answered "Unrecognized ERROR". gecko_gripper_open, for one, then differs from its effect with a node |
| GeckoService.RecognisedCommandPublishesOnce | guest_science_projects/GeckoPerchingGripper/app/src/main/java/edu/stanford/asl/geckoperchinggripper/StartGeckoService.java:71-167 | with a node: a recognised command publishes exactly one message with its `perching_` name and replies its Summary. An unrecognised command publishes nothing and replies "ERROR: Unrecognized command". The command's parameters make no difference |
| GeckoService.GeckoGripperService.constructor | guest_science_projects/GeckoPerchingGripper/app/src/main/java/edu/stanford/asl/geckoperchinggripper/StartGeckoService.java:48 | the node field starts null |
| GeckoService.GeckoGripperService.WithNode | guest_science_projects/geckoperchinggripper/app/src/main/java/edu/stanford/asl/geckoperchinggripper/StartGeckoperchinggripperService.java:71 | the corrected service holds a status node, as the geckoperchinggripper service assigns one on start |
| GeckoService.GeckoGripperService.OnGuestScienceCustomCmd | guest_science_projects/GeckoPerchingGripper/app/src/main/java/edu/stanford/asl/geckoperchinggripper/StartGeckoService.java:51-175 | publishes and sends exactly what `Handle` gives, for whether the node field holds a node |
| GeckoService.GeckoGripperService.RunCommand | guest_science_projects/GeckoPerchingGripper/app/src/main/java/edu/stanford/asl/geckoperchinggripper/StartGeckoService.java:56-167 | raises `NullDereference` exactly when there is no node. Otherwise it publishes the case's one message and replies, or replies the unrecognised error and publishes nothing |
| JavaInt.SaturatingCast | guest_science_projects/geckoperchinggripper/app/src/main/java/edu/stanford/asl/geckoperchinggripper/GeckoGripperStatusNode.java:126-135 | `(int)` of a whole double: the result fits in an int, equals the input when the input fits, and otherwise is the nearer end of the range |
| JavaInt.ParseInt | guest_science_projects/commandasap/app/src/main/java/edu/mit/ssl/commandasap/StartcommandasapService.java:194 | `Integer.valueOf`: the empty text is refused. Digits are read as their decimal value when that fits in an int, and any result fits in an int |
| JavaInt.NatToString | guest_science_projects/roamcommandasap/app/src/main/java/edu/mit/ssl/roamcommandasap/StartRoamcommandasapService.java:178-325 | the decimal text of a number is non-empty and all digits |
| JavaInt.NatToStringValue | guest_science_projects/roamcommandasap/app/src/main/java/edu/mit/ssl/roamcommandasap/StartRoamcommandasapService.java:178-325 | the digits written for n denote n |
| JavaInt.ParseIntRoundTrip | guest_science_projects/commandasap/app/src/main/java/edu/mit/ssl/commandasap/StartcommandasapService.java:191-195 | `Integer.valueOf(Integer.toString(n)) == n` for every int n, negative ones included |
| JavaInt.ParseIntRejectsNonDigit | guest_science_projects/commandasap/app/src/main/java/edu/mit/ssl/commandasap/StartcommandasapService.java:193-203 | a text with a non-digit anywhere but a leading sign is refused |
| StatusTelemetry.Applied | guest_science_projects/commandasap/app/src/main/java/edu/mit/ssl/commandasap/StatusNode.java:176-206 | a node call writes its one parameter with its value, and every other key keeps its value |
| StatusTelemetry.GetList | guest_science_projects/commandasap/app/src/main/java/edu/mit/ssl/commandasap/StatusNode.java:132 | `getList` succeeds exactly when the key is set to a list, and returns that list |
| StatusTelemetry.Element | guest_science_projects/commandasap/app/src/main/java/edu/mit/ssl/commandasap/StatusNode.java:134-153 | `get(i)` of a string element succeeds. Past the end it raises `IndexOutOfBounds`, and on a non-string element the assignment raises `ClassCastException` |
| StatusTelemetry.DeliversUpToLeading | guest_science_projects/commandasap/app/src/main/java/edu/mit/ssl/commandasap/StatusNode.java:134-153 | the first n assignments go through exactly when the list starts with at least n strings |
| StatusTelemetry.Unpacked | guest_science_projects/commandasap/app/src/main/java/edu/mit/ssl/commandasap/StatusNode.java:131-154 | field i takes element i exactly when elements 0 to i are all strings, and keeps its value otherwise. So exactly a prefix of the fields changes, as long as the list's leading run of strings |
| StatusTelemetry.FullListReplacesAll | guest_science_projects/commandasap/app/src/main/java/edu/mit/ssl/commandasap/StatusNode.java:134-153 | a list of at least as many strings as fields sets every field to its element |
| AsapStatus.StatusNode.constructor | guest_science_projects/commandasap/app/src/main/java/edu/mit/ssl/commandasap/StatusNode.java:49-70 | every telemetry field starts as the empty string |
| AsapStatus.StatusNode.OnStart | guest_science_projects/commandasap/app/src/main/java/edu/mit/ssl/commandasap/StatusNode.java:90-94 | takes the parameter tree, then sets the apk status to "started", sim to "hardware" and ground to "false" |
| AsapStatus.StatusNode.UpdateParams | guest_science_projects/commandasap/app/src/main/java/edu/mit/ssl/commandasap/StatusNode.java:130-159 | when the list is missing nothing changes; otherwise the fields become `Unpacked` of the list. Whatever raises is caught, and the fields already assigned keep their new values |
| AsapStatus.StatusNode.UnpackTelemetry | guest_science_projects/commandasap/app/src/main/java/edu/mit/ssl/commandasap/StatusNode.java:131-154 | the try block succeeds exactly when the list exists and starts with 20 strings; either way the fields are as `Unpacked` says |
| AsapStatus.StatusNode.SendCommand | guest_science_projects/commandasap/app/src/main/java/edu/mit/ssl/commandasap/StatusNode.java:176 | writes the test number to /asap/gds_test_num |
| AsapStatus.StatusNode.SetRole | guest_science_projects/commandasap/app/src/main/java/edu/mit/ssl/commandasap/StatusNode.java:182 | writes the role to /asap/gds_role |
| AsapStatus.StatusNode.SetGround | guest_science_projects/commandasap/app/src/main/java/edu/mit/ssl/commandasap/StatusNode.java:188 | writes "true" to /asap/gds_ground |
| AsapStatus.StatusNode.SetISS | guest_science_projects/commandasap/app/src/main/java/edu/mit/ssl/commandasap/StatusNode.java:194 | writes "false" to /asap/gds_ground |
| AsapStatus.StatusNode.SetRoamBagger | guest_science_projects/commandasap/app/src/main/java/edu/mit/ssl/commandasap/StatusNode.java:200 | writes the argument to /asap/gds_roam_bagger |
| AsapStatus.StatusNode.SendStopped | guest_science_projects/commandasap/app/src/main/java/edu/mit/ssl/commandasap/StatusNode.java:206 | writes "stopped" to /asap/gds_apk_status |
| RoamStatus.RoamStatusNode.constructor | guest_science_projects/roamcommandasap/app/src/main/java/edu/mit/ssl/roamcommandasap/RoamStatusNode.java:40-65 | every telemetry field starts as the empty string |
| RoamStatus.RoamStatusNode.OnStart | guest_science_projects/roamcommandasap/app/src/main/java/edu/mit/ssl/roamcommandasap/RoamStatusNode.java:85-89 | takes the parameter tree, then sets the /td/ apk status, sim and ground parameters |
| RoamStatus.RoamStatusNode.UpdateParams | guest_science_projects/roamcommandasap/app/src/main/java/edu/mit/ssl/roamcommandasap/RoamStatusNode.java:125-154 | nothing is caught: it succeeds exactly when the list exists and starts with 26 strings. The fields are as `Unpacked` says, including those assigned before an exception |
| RoamStatus.RoamStatusNode.SendCommand | guest_science_projects/roamcommandasap/app/src/main/java/edu/mit/ssl/roamcommandasap/RoamStatusNode.java:171 | writes the test number to /td/gds_test_num |
| RoamStatus.RoamStatusNode.SetRole | guest_science_projects/roamcommandasap/app/src/main/java/edu/mit/ssl/roamcommandasap/RoamStatusNode.java:177 | writes the role to /td/role_from_GDS |
| RoamStatus.RoamStatusNode.SetGround | guest_science_projects/roamcommandasap/app/src/main/java/edu/mit/ssl/roamcommandasap/RoamStatusNode.java:183 | writes "true" to /td/gds_ground |
| RoamStatus.RoamStatusNode.SetISS | guest_science_projects/roamcommandasap/app/src/main/java/edu/mit/ssl/roamcommandasap/RoamStatusNode.java:189 | writes "false" to /td/gds_ground |
| RoamStatus.RoamStatusNode.SetRoamBagger | guest_science_projects/roamcommandasap/app/src/main/java/edu/mit/ssl/roamcommandasap/RoamStatusNode.java:195 | writes the argument to /td/gds_roam_bagger |
| RoamStatus.RoamStatusNode.SendStopped | guest_science_projects/roamcommandasap/app/src/main/java/edu/mit/ssl/roamcommandasap/RoamStatusNode.java:201 | writes "stopped" to /td/gds_apk_status |
| AsapCommand.Dispatch | guest_science_projects/commandasap/app/src/main/java/edu/mit/ssl/commandasap/StartcommandasapService.java:159-211 | the switch. A refusal is either "Invalid test number", only for a name starting with "Test", or "Unrecognized command". Every test number sent fits in an int |
| AsapCommand.Effect | guest_science_projects/commandasap/app/src/main/java/edu/mit/ssl/commandasap/StartcommandasapService.java:159-211 | the parameters after the switch. No key is lost, a refusal changes nothing, and every key other than the written one keeps its value |
| AsapCommand.Reply | guest_science_projects/commandasap/app/src/main/java/edu/mit/ssl/commandasap/StartcommandasapService.java:199-215 | the reply is an object naming the command. It carries a Summary exactly when the switch refused, and that Summary is the ERROR object with the refusal's message |
| AsapCommand.FixedCommandsAreNotTests | guest_science_projects/commandasap/app/src/main/java/edu/mit/ssl/commandasap/StartcommandasapService.java:159-191 | no command with a case of its own starts with "Test", so every Test name reaches the default case |
| AsapCommand.TestPrefixParsed | guest_science_projects/commandasap/app/src/main/java/edu/mit/ssl/commandasap/StartcommandasapService.java:191-203 | after the "Test" prefix, a number that `Integer.valueOf` reads is sent as the test number; any other text is refused as "Invalid test number" |
| AsapCommand.TestNumberRoundTrip | guest_science_projects/commandasap/app/src/main/java/edu/mit/ssl/commandasap/StartcommandasapService.java:191-195 | "Test" followed by `Integer.toString(n)` sends n, for every int n |
| AsapCommand.InvalidTestNumbers | guest_science_projects/commandasap/app/src/main/java/edu/mit/ssl/commandasap/StartcommandasapService.java:198-203 | "Test" alone, and "Test" followed by text that is not a number, are refused as invalid test numbers |
| AsapCommand.UnrecognisedMakesNoCall | guest_science_projects/commandasap/app/src/main/java/edu/mit/ssl/commandasap/StartcommandasapService.java:205-210 | a name with no case and no "Test" prefix is refused as "Unrecognized command" |
| AsapCommand.RoleCommands | guest_science_projects/commandasap/app/src/main/java/edu/mit/ssl/roamcommandasap/StarcommandasapService.java:183-191 | the role commands write the service's own role names (primary/secondary in one service, chaser/target in the other), and robot_name from hardware |
| AsapCommand.AtMostOneParameterWritten | guest_science_projects/commandasap/app/src/main/java/edu/mit/ssl/commandasap/StartcommandasapService.java:159-211 | a command changes at most one parameter. A refused command changes none; an accepted one writes its call's key and keeps every other key |
| AsapCommand.CommandasapService.OnGuestScienceCustomCmd | guest_science_projects/commandasap/app/src/main/java/edu/mit/ssl/commandasap/StartcommandasapService.java:143-224 | the parameters become `Effect` of the decision of `Dispatch`, and the link receives the acknowledgement and then the `Reply` on "data" |
| RoamCommand.ScenarioTestDigits | guest_science_projects/roamcommandasap/app/src/main/java/edu/mit/ssl/roamcommandasap/StartRoamcommandasapService.java:216-325 | a three-digit number has a scenario case exactly when its digits are a tumble case 1 to 3, a test 1 to 4 and a mode 1 to 3 |
| RoamCommand.TestName | guest_science_projects/roamcommandasap/app/src/main/java/edu/mit/ssl/roamcommandasap/StartRoamcommandasapService.java:178-325 | every case label starts with "Test" and has at least one character after it |
| RoamCommand.TestCase | guest_science_projects/roamcommandasap/app/src/main/java/edu/mit/ssl/roamcommandasap/StartRoamcommandasapService.java:178-325 | a case is found only for a listed number, and only when the name is exactly that number's label |
| RoamCommand.RoamCall | guest_science_projects/roamcommandasap/app/src/main/java/edu/mit/ssl/roamcommandasap/StartRoamcommandasapService.java:165-343 | the switch's one node call. A test number sent is either -1 or a listed number, the role is chaser, target or robot_name, and the ROAM bagger is never set |
| RoamCommand.TestCodesInRange | guest_science_projects/roamcommandasap/app/src/main/java/edu/mit/ssl/roamcommandasap/StartRoamcommandasapService.java:178-325 | every case's test number is positive, at most 343, and fits in an int |
| RoamCommand.TestNameInjective | guest_science_projects/roamcommandasap/app/src/main/java/edu/mit/ssl/roamcommandasap/StartRoamcommandasapService.java:178-325 | two test numbers with the same case label are the same number |
| RoamCommand.TestCaseMatchesLabels | guest_science_projects/roamcommandasap/app/src/main/java/edu/mit/ssl/roamcommandasap/StartRoamcommandasapService.java:178-325 | the lookup finds a case exactly when the name is the label of a listed number, and then finds that number |
| RoamCommand.TestNamesAreNotFixed | guest_science_projects/roamcommandasap/app/src/main/java/edu/mit/ssl/roamcommandasap/StartRoamcommandasapService.java:328-342 | no test label is a role or location command |
| RoamCommand.EachTestSendsItsNumber | guest_science_projects/roamcommandasap/app/src/main/java/edu/mit/ssl/roamcommandasap/StartRoamcommandasapService.java:178-325 | the label "Test<n>" of each of the 48 listed numbers sends n |
| RoamCommand.UnlistedTestsStop | guest_science_projects/roamcommandasap/app/src/main/java/edu/mit/ssl/roamcommandasap/StartRoamcommandasapService.java:167-175 | "Test" followed by an unlisted number falls through the default case into sendCommand(-1) |
| RoamCommand.LeadingZeroStops | guest_science_projects/roamcommandasap/app/src/main/java/edu/mit/ssl/roamcommandasap/StartRoamcommandasapService.java:167-175 | labels are matched, not parsed: "Test01" stops the test |
| RoamCommand.UnrecognisedStops | guest_science_projects/roamcommandasap/app/src/main/java/edu/mit/ssl/roamcommandasap/StartRoamcommandasapService.java:167-175 | every name without a case stops the test. So do StopTest and the ROAM bagger commands, which this service has no case for |
| RoamCommand.RoamcommandasapService.OnGuestScienceCustomCmd | guest_science_projects/roamcommandasap/app/src/main/java/edu/mit/ssl/roamcommandasap/StartRoamcommandasapService.java:140-356 | the parameters become `Applied` to the call of `RoamCall`. The link receives the acknowledgement and then the command's name on "command"; the error Summary is never sent |

## Left out

- Parsing the command's JSON text is not modelled: a command arrives already split into its name and its other keys. A command with no "name" key, which every handler answers "ERROR parsing JSON", is therefore not represented.
- `Float.parseFloat` is not modelled: a parameter is either a number (a real) or text it refuses. Rounding to float, NaN, infinities and hexadecimal forms are not modelled.
- `Integer.valueOf` accepts ASCII digits only here. Java also accepts other Unicode decimal digits.
- Each telemetry list is held as one sequence of fields, indexed as `TelemetryFields` lists them, instead of 20 or 26 named string fields. The fields are assigned by a loop instead of straight-line code, with the same order and the same point of failure.
- GeckoService.PerchingCommand: the 19 message names are computed as `perching_` plus the command, with the one irregular record name written out, rather than listed as literals. The same goes for the Summaries.
- RoamCommand.RoamCall: the 48 test cases are one exact-label lookup over the set of listed numbers, rather than 48 literal cases. `EachTestSendsItsNumber` and `UnlistedTestsStop` state that the two agree.
- The status node field of each service is assumed to be set. In the commandasap, ROAM and gripper services, a command that arrives before `onGuestScienceStart` meets a null node; only StartGeckoService, where the node is never set, is modelled with a null node. Also assumed: a ROS parameter tree that exists, since onStart always assigns it.
- StarcommandasapService.java declares package commandasap, so its `StatusNode` is commandasap's /asap/ node. Its dispatcher is modelled by the same `Dispatch` with the chaser/target roles, acting on that `StatusNode`. Its telemetry runnable reads `td_*` fields that this node does not declare, so the file does not compile as given; the runnable is not modelled.
- An exception that `status_node.sendCommand` might raise inside the Test branch is not modelled. The Java inner catch would turn it into "Invalid test number".
- Publishing is taken to copy the message at the call. rosjava publishes asynchronously, and the gripper service reuses one message object and name list, so aliasing between publishes is not modelled.
- `ApiCommandImplementation`, the `MainActivity`, the periodic runnables that poll `updateParams` and send the telemetry, and `onGuestScienceStart` / `onGuestScienceStop` are not modelled: they are lifecycle and robot-API plumbing. So are the static `instance` fields and `getInstance`, and the log calls.
- `errorPosition` and `feedbackPerchingEnable` are class statics in GeckoGripperStatusNode.java:47-48. The model makes them fields of the node that its constructor initialises. There is one node per service, and the flag only ever becomes false, so the difference cannot be observed.
- The GeckoPerchingGripper app's own GeckoGripperStatusNode, the node type StartGeckoService refers to, is not modelled. Its service is modelled over the decoding node of the geckoperchinggripper app, and only its publisher is used.
- GeckoGripperState as given declares neither `validity` nor `newStatusReceived`, although the node and the service call `setValidity`, `updateNewStatusReceived` and `setNewStatusReceived`. The model adds both as plain fields. `updateNewStatusReceived` is taken to latch, which on the fresh object the node calls it on is the same as setting.
- The node calls `getOvertemperatureFlag`, while the class declares `getOverTemperatureFlag`. The model reads the field.
- The position slots of a gecko_states message are taken to be whole numbers, so the `(int)` cast is saturation only. Truncation of fractional doubles and NaN are not modelled.
- Threads are not modelled. The gecko_states and ControlActionFeedback listeners run on rosjava threads while a custom command is handled, and each callback is modelled as atomic. print_status reads the node's state reference twice: once for `toJSON` and once to clear its flag. A state decoded between those two reads would have its change flag cleared without ever being reported. GeckoCommandService.PrintStatusReportsThenClears and GeckoCommandService.GeckoperchinggripperService.OnGuestScienceCustomCmd do not capture that interleaving.
- GeckoGripperStatus.Fires: `errorPosition` and `errorTol` are Java doubles, but the model uses reals and compares against the exact 0.18. A sample equal to the double nearest 0.18, which lies just below 0.18, fires in Java but not in the model. Double rounding is not modelled.
- `errorTol` is a public static that nothing in the node writes. The model keeps it at its initial value of 0.18.
- The ROAM service's error Summary is built in its default case but never sent: the line sending it is commented out. The model keeps it only as a local value.

## Findings

| source | as written | input that shows it | evidently intended | confidence | as-written member | corrected member |
|---|---|---|---|---|---|---|
| guest_science_projects/GeckoPerchingGripper/app/src/main/java/edu/stanford/asl/geckoperchinggripper/StartGeckoService.java:48 | the `gecko_gripper_node` field is never assigned, so fetching its publisher at line 68 raises Java's null-dereference exception (NPE) for every command | the command `gecko_gripper_open` is answered "Unrecognized ERROR" and publishes nothing | the service holds the status node, as the geckoperchinggripper service does, and publishes `perching_gecko_gripper_open` | high (not executed) | GeckoService.NodeNeverAssignedFailsEveryCommand | GeckoService.RecognisedCommandPublishesOnce |
