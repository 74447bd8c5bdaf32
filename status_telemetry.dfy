/** What the ASAP and ROAM status nodes share: the calls their command
    services make on them, and the positional string list they unpack from
    the parameter server into their telemetry fields. */
module StatusTelemetry {
  import opened GuestScience
  import opened Ros

  /** One status-node operation, as a command service calls it. */
  datatype NodeCall =
    | SendCommand(testNumber: int)
    | SetRole(role: string)
    | SetGround
    | SetISS
    | SetRoamBagger(enabled: string)

  /** The parameter keys a status node writes for its calls. */
  datatype NodeKeys = NodeKeys(testNumber: string, role: string, ground: string, roamBagger: string)

  /** The parameter a node call writes, and the value it writes there. */
  function Write(keys: NodeKeys, call: NodeCall): (string, Value)
  {
    match call
    case SendCommand(n) => (keys.testNumber, VInt(n))
    case SetRole(role) => (keys.role, VString(role))
    case SetGround => (keys.ground, VString("true"))
    case SetISS => (keys.ground, VString("false"))
    case SetRoamBagger(enabled) => (keys.roamBagger, VString(enabled))
  }

  /** The parameter server after a node call: one key written, every other
      key as it was. */
  function Applied(params: map<string, Value>, keys: NodeKeys, call: NodeCall): (r: map<string, Value>)
    ensures r.Keys == params.Keys + {Write(keys, call).0}
    ensures r[Write(keys, call).0] == Write(keys, call).1
    ensures forall k :: k in params && k != Write(keys, call).0 ==> r[k] == params[k]
  {
    params[Write(keys, call).0 := Write(keys, call).1]
  }

  /** ParameterTree.getList: the list stored under `key`; a missing key or a
      value that is not a list raises. */
  function GetList(params: map<string, Value>, key: string): (r: Result<seq<Value>>)
    ensures r.Ok? <==> key in params && params[key].VList?
    ensures r.Ok? ==> r.value == params[key].items
  {
    if key !in params then Raise(ParameterNotFound)
    else if !params[key].VList? then Raise(ClassCastException)
    else Ok(params[key].items)
  }

  /** `String s = list.get(i)`: past the end get raises, and an element that
      is not a string fails the cast. */
  function Element(items: seq<Value>, i: nat): (r: Result<string>)
    ensures r.Ok? <==> i < |items| && items[i].VString?
    ensures r.Ok? ==> r.value == items[i].s
    ensures r.Raise? ==> r.exception == if i < |items| then ClassCastException else IndexOutOfBounds
  {
    if i >= |items| then Raise(IndexOutOfBounds)
    else if !items[i].VString? then Raise(ClassCastException)
    else Ok(items[i].s)
  }

  /** The first `n` elements of the list all exist and are strings, so the
      first `n` assignments of updateParams go through. */
  predicate Delivers(items: seq<Value>, n: nat)
  {
    n <= |items| && forall j :: 0 <= j < n ==> items[j].VString?
  }

  /** How many strings the list starts with. */
  function LeadingStrings(items: seq<Value>): (r: nat)
    ensures r <= |items|
  {
    if items == [] || !items[0].VString? then 0 else 1 + LeadingStrings(items[1..])
  }

  /** The list delivers its first `n` strings exactly when it starts with at
      least `n` of them. */
  lemma {:induction false} DeliversUpToLeading(items: seq<Value>, n: nat)
    ensures Delivers(items, n) <==> n <= LeadingStrings(items)
    decreases n
  {
    if n > 0 && items != [] && items[0].VString? {
      DeliversUpToLeading(items[1..], n - 1);
      if Delivers(items, n) {
        assert Delivers(items[1..], n - 1) by {
          forall j | 0 <= j < n - 1 ensures items[1..][j].VString? {
            assert items[1..][j] == items[j + 1];
          }
        }
      }
      if Delivers(items[1..], n - 1) {
        forall j | 0 <= j < n ensures items[j].VString? {
          if j > 0 {
            assert items[j] == items[1..][j - 1];
          }
        }
      }
    } else if n > 0 && items != [] {
      assert !Delivers(items, n) by { assert !items[0].VString?; }
    }
  }

  /** The telemetry fields after updateParams has assigned them in order
      from the list: the field at index i takes element i when the first
      i + 1 elements are strings, and keeps its value otherwise. Exactly a
      prefix of the fields is replaced, as long as the leading run of
      strings. */
  function Unpacked(items: seq<Value>, current: seq<string>): (r: seq<string>)
    ensures |r| == |current|
    ensures forall i :: 0 <= i < |current| ==> r[i] == if Delivers(items, i + 1) then items[i].s else current[i]
    ensures forall i :: 0 <= i < |current| ==> (r[i] == current[i] || i < LeadingStrings(items))
  {
    var k := LeadingStrings(items);
    DeliversUpToLeading(items, k);
    var r := seq(|current|, i requires 0 <= i < |current| => if i < k then items[i].s else current[i]);
    assert forall i :: 0 <= i < |current| ==> r[i] == if Delivers(items, i + 1) then items[i].s else current[i] by {
      forall i | 0 <= i < |current| ensures r[i] == if Delivers(items, i + 1) then items[i].s else current[i] {
        DeliversUpToLeading(items, i + 1);
      }
    }
    r
  }

  /** A list of at least as many strings as there are fields replaces every
      field: the fields read the list's first elements. */
  lemma FullListReplacesAll(items: seq<Value>, current: seq<string>)
    requires Delivers(items, |current|)
    ensures forall i :: 0 <= i < |current| ==> Unpacked(items, current)[i] == items[i].s
  {
    forall i | 0 <= i < |current| ensures Unpacked(items, current)[i] == items[i].s {
      assert Delivers(items, i + 1);
    }
  }
}
