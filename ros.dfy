/** The parts of the ROS middleware the services touch: JointState messages on
    a publisher, and values kept on the parameter server. */
module Ros {

  /** A sensor_msgs/JointState as the gripper services use it: a list of
      command names and a list of positions (empty unless set). */
  datatype JointStateMsg = JointStateMsg(name: seq<string>, position: seq<real>)

  /** A publisher: every message it has published, oldest first. Publishing
      is taken to copy the message at the call. */
  class Publisher {
    var published: seq<JointStateMsg>

    constructor ()
      ensures published == []
    {
      published := [];
    }

    method Publish(msg: JointStateMsg)
      modifies this
      ensures published == old(published) + [msg]
    {
      published := published + [msg];
    }
  }

  /** A value on the ROS parameter server. */
  datatype Value = VString(s: string) | VInt(i: int) | VList(items: seq<Value>)
}
