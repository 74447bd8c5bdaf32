/** Values exchanged with the Guest Science manager and the ground (the JSON
    replies sent with sendData, the acknowledgement of a custom command),
    the shape of a ground command, and Java's exceptions as error values. */
module GuestScience {

  datatype Option<+T> = None | Some(value: T)

  /** The Java exceptions that the modelled code can raise or catch. */
  datatype JavaException =
    | JSONException          // a key missing from the command object
    | NumberFormatException  // Float.parseFloat or Integer.valueOf refused its text
    | NullDereference        // the NPE of a field that was never assigned
    | IndexOutOfBounds       // List.get or an array read past the end
    | ClassCastException     // a list element or parameter of the wrong type
    | ParameterNotFound      // a ROS parameter that is not set

  /** A value or the exception that replaced it (Dafny has no exceptions). */
  datatype Result<+T> = Ok(value: T) | Raise(exception: JavaException) {
    predicate IsFailure() { Raise? }
    function PropagateFailure<U>(): Result<U>
      requires Raise?
    {
      Raise(exception)
    }
    function Extract(): T
      requires Ok?
    {
      value
    }
  }

  /** A JSON value as Android's org.json builds it: an object keeps its
      members in the order they were first put. */
  datatype Json =
    | JString(s: string)
    | JInt(i: int)
    | JBool(b: bool)
    | JObject(members: seq<(string, Json)>)

  /** JSONObject.opt: the value of the first member with this key. */
  function Lookup(members: seq<(string, Json)>, key: string): Option<Json>
  {
    if members == [] then None
    else if members[0].0 == key then Some(members[0].1)
    else Lookup(members[1..], key)
  }

  /** JSONObject.put: a key already present keeps its place and takes the
      new value; a new key goes last. Afterwards the key reads back the new
      value and every other key reads what it read before. */
  function Put(members: seq<(string, Json)>, key: string, value: Json): (r: seq<(string, Json)>)
    ensures Lookup(r, key) == Some(value)
    ensures forall k :: k != key ==> Lookup(r, k) == Lookup(members, k)
    ensures |r| == if Lookup(members, key).Some? then |members| else |members| + 1
  {
    if members == [] then [(key, value)]
    else if members[0].0 == key then [(key, value)] + members[1..]
    else [members[0]] + Put(members[1..], key, value)
  }

  /** `new JSONObject().put("Status", "ERROR").put("Message", message)` */
  function ErrorSummary(message: string): Json
  {
    JObject([("Status", JString("ERROR")), ("Message", JString(message))])
  }

  /** One value of a ground command's JSON object, other than its name:
      a text that Float.parseFloat reads as a number, or one it refuses. */
  datatype Param = Numeric(number: real) | NotNumeric(text: string)

  /** A ground command: its "name" and its other keys. */
  datatype Command = Command(name: string, params: map<string, Param>)

  /** What a service sends to the Guest Science manager. */
  datatype Output =
    | ReceivedCustomCommand               // sendReceivedCustomCommand("info")
    | Data(topic: string, payload: Json)  // sendData(MessageType.JSON, topic, payload)

  /** The replies a service returns to the ground for a custom command whose
      handler ended with the exception `e` (the two catch blocks). */
  function ExceptionReply(e: JavaException): (r: Output)
    ensures r.Data? && r.topic == "data"
    ensures r.payload == JString(if e == JSONException then "ERROR parsing JSON" else "Unrecognized ERROR")
  {
    match e
    case JSONException => Data("data", JString("ERROR parsing JSON"))
    case _ => Data("data", JString("Unrecognized ERROR"))
  }

  /** The link to the Guest Science manager: every message a service has sent
      on it, oldest first. */
  class GuestScienceLink {
    var sent: seq<Output>

    constructor ()
      ensures sent == []
    {
      sent := [];
    }

    method SendReceivedCustomCommand()
      modifies this
      ensures sent == old(sent) + [ReceivedCustomCommand]
    {
      sent := sent + [ReceivedCustomCommand];
    }

    method SendData(topic: string, payload: Json)
      modifies this
      ensures sent == old(sent) + [Data(topic, payload)]
    {
      sent := sent + [Data(topic, payload)];
    }
  }
}
