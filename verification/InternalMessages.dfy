/** The queue from the client threads to the dispatcher thread. */
module MessageQueue {

  class InternalMessages<M> {
    var messages: seq<M>

    constructor ()
      ensures messages == []
    {
      messages := [];
    }

    method Push(m: M)
      modifies this
      ensures messages == old(messages) + [m]
    {
      messages := messages + [m];
    }

    /** The front of an empty queue is not a message: callers look at `Size` first. */
    method Pop() returns (m: M)
      requires messages != []
      modifies this
      ensures [m] + messages == old(messages)
    {
      m := messages[0];
      messages := messages[1..];
    }

    method Size() returns (n: nat)
      ensures n == |messages|
    {
      n := |messages|;
    }
  }
}
