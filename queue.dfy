/**
 * The delay queue between placing a guess and resolving it. Only sending is
 * modelled: the messages a handler has handed to the queue, in order.
 */
module Queue {
  import opened Wrappers
  import opened Domain

  /** A SendMessage request: the task body and its delivery delay. */
  datatype Message = Message(body: Task, delaySeconds: int)

  class Outbox {
    var sent: seq<Message>

    constructor ()
      ensures sent == []
    {
      sent := [];
    }

    /** SendMessage: on success the message joins the queue; on failure nothing is sent. */
    method Send(body: Task, delaySeconds: int, env: Env) returns (r: Outcome<Error>)
      modifies this
      ensures QueueSendCall in env.failing ==> r == Fail(Failed(QueueSendCall)) && sent == old(sent)
      ensures QueueSendCall !in env.failing ==> r == Pass && sent == old(sent) + [Message(body, delaySeconds)]
    {
      if QueueSendCall in env.failing {
        return Fail(Failed(QueueSendCall));
      }
      sent := sent + [Message(body, delaySeconds)];
      r := Pass;
    }
  }
}
