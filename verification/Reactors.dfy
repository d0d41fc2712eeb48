/** The wake-up tokens and the network events the dispatcher thread waits for. */
module Reactors {
  import opened Ids

  type ThreadId = nat

  /** The sockets of the program are never descriptor 0, which stands for the wake-up. */
  type Socket = s: int | s > 0 witness 1

  const WAKE_UP := 0

  /** Tokens written and not yet read, and the threads the reactor has been told are its own. */
  datatype Reactor =
    | LinuxPipe(threads: set<ThreadId>, tokens: nat)
    | CompletionPort(threads: set<ThreadId>, tokens: nat)
  {
    /** The pipe ignores a wake-up from one of its own threads; the port never does. */
    function Stopped(self: ThreadId): Reactor
    {
      if LinuxPipe? && self in threads then this else this.(tokens := tokens + 1)
    }

    function TokenTaken(): Reactor
      requires tokens > 0
    {
      this.(tokens := tokens - 1)
    }

    predicate Ignores(self: ThreadId)
    {
      LinuxPipe? && self in threads
    }
  }

  // ---------- the pipe and epoll ----------

  /** One entry of an epoll result. */
  datatype Ready = PipeReady | SocketReady(sock: Socket, conn: ConnId, readable: bool, writable: bool, broken: bool)

  /** What the dispatcher is told about a descriptor; the wake-up has no flags. */
  datatype Info = WakeUp | Events(conn: ConnId, read: bool, write: bool, close: bool)

  function InfoOf(e: Ready): Info
  {
    match e
    case PipeReady => WakeUp
    case SocketReady(_, conn, readable, writable, broken) => Events(conn, readable, writable, broken)
  }

  function KeyOf(e: Ready): int
  {
    if e.PipeReady? then WAKE_UP else e.sock
  }

  /** epoll reports every descriptor at most once. */
  ghost predicate OncePerDescriptor(ready: seq<Ready>)
  {
    forall i, j :: 0 <= i < j < |ready| ==> KeyOf(ready[i]) != KeyOf(ready[j])
  }

  /** How many entries one call of the kernel returns at most. */
  const BATCH := 128

  function Reported(ready: seq<Ready>): seq<Ready>
  {
    if |ready| <= BATCH then ready else ready[..BATCH]
  }

  class LinuxReactor {
    var threads: set<ThreadId>
    var tokens: nat

    ghost function Abs(): Reactor
      reads this
    {
      LinuxPipe(threads, tokens)
    }

    constructor ()
      ensures Abs() == LinuxPipe({}, 0)
    {
      threads, tokens := {}, 0;
    }

    method AddThread(t: ThreadId)
      modifies this
      ensures Abs() == LinuxPipe(old(threads) + {t}, old(tokens))
    {
      threads := threads + {t};
    }

    method Stop(self: ThreadId)
      modifies this
      ensures Abs() == old(Abs()).Stopped(self)
    {
      if self in threads {
        return;
      }
      tokens := tokens + 1;
    }

    /**
     Turns an epoll result into events: one entry per descriptor reported with its own flags, and
     one token read from the pipe when the pipe is reported, however many are in it. Of the ready
     descriptors at most `BATCH` are reported; the kernel keeps the others for the next call.
     */
    method GetInterrupt(ready: seq<Ready>) returns (result: map<int, Info>, any: bool)
      requires OncePerDescriptor(ready)
      requires PipeReady in ready ==> tokens > 0
      modifies this
      ensures Abs() == if PipeReady in Reported(ready) then old(Abs()).TokenTaken() else old(Abs())
      ensures forall k :: k in result <==> exists i :: 0 <= i < |Reported(ready)| && KeyOf(Reported(ready)[i]) == k
      ensures forall i :: 0 <= i < |Reported(ready)| ==> KeyOf(Reported(ready)[i]) in result && result[KeyOf(Reported(ready)[i])] == InfoOf(Reported(ready)[i])
      ensures WAKE_UP in result <==> PipeReady in Reported(ready)
      ensures any <==> ready != []
    {
      var events := Reported(ready);
      any := events != [];
      result := map[];
      var i := 0;
      while i < |events|
        invariant 0 <= i <= |events|
        invariant threads == old(threads)
        invariant tokens == old(tokens) - if PipeReady in events[..i] then 1 else 0
        invariant forall k :: k in result <==> exists j :: 0 <= j < i && KeyOf(events[j]) == k
        invariant forall j :: 0 <= j < i ==> KeyOf(events[j]) in result && result[KeyOf(events[j])] == InfoOf(events[j])
      {
        var e := events[i];
        assert events[..i + 1] == events[..i] + [e];
        if e.PipeReady? {
          assert PipeReady !in events[..i] by {
            forall j | 0 <= j < i
              ensures events[j] != PipeReady
            {
              assert KeyOf(events[j]) != KeyOf(events[i]);
            }
          }
          tokens := tokens - 1;
        }
        if KeyOf(e) !in result {
          result := result[KeyOf(e) := InfoOf(e)];
        }
        i := i + 1;
      }
      assert events[..i] == events;
      if WAKE_UP in result {
        var j :| 0 <= j < |events| && KeyOf(events[j]) == WAKE_UP;
        assert events[j] == PipeReady;
      }
      if PipeReady in events {
        var j :| 0 <= j < |events| && events[j] == PipeReady;
        assert KeyOf(events[j]) == WAKE_UP;
      }
    }
  }

  // ---------- the completion port ----------

  /** A packet of the port: a posted wake-up, or an operation that ended. */
  datatype Packet = Token | Completion(sock: Socket, code: int, size: nat, ok: bool)

  datatype Transfer = TimedOut | Woken | Closed(sock: Socket) | Done(sock: Socket, code: int, size: nat)

  class CpReactor {
    var threads: set<ThreadId>
    var packets: seq<Packet>

    ghost function Abs(): Reactor
      reads this
    {
      CompletionPort(threads, multiset(packets)[Token])
    }

    constructor ()
      ensures Abs() == CompletionPort({}, 0) && packets == []
    {
      threads, packets := {}, [];
    }

    method AddThread(t: ThreadId)
      modifies this
      ensures Abs() == CompletionPort(old(threads) + {t}, old(Abs()).tokens) && packets == old(packets)
    {
      threads := threads + {t};
    }

    method Stop(self: ThreadId)
      modifies this
      ensures Abs() == old(Abs()).Stopped(self)
      ensures packets == old(packets) + [Token]
    {
      packets := packets + [Token];
    }

    /** An operation of the kernel ends. */
    method Complete(p: Packet)
      requires p.Completion?
      modifies this
      ensures Abs() == old(Abs()) && packets == old(packets) + [p]
    {
      packets := packets + [p];
    }

    /** Takes one packet: a wake-up exactly when it takes a token, a closing for an operation that failed. */
    method GetTransfer() returns (t: Transfer)
      modifies this
      ensures t.TimedOut? <==> old(packets) == []
      ensures t.Woken? <==> old(packets) != [] && old(packets)[0] == Token
      ensures Abs() == if t.Woken? then old(Abs()).TokenTaken() else old(Abs())
      ensures t.TimedOut? ==> packets == old(packets)
      ensures !t.TimedOut? ==> packets == old(packets)[1..]
      ensures t.Closed? ==> old(packets)[0].Completion? && !old(packets)[0].ok && t.sock == old(packets)[0].sock
      ensures t.Done? ==> old(packets)[0] == Completion(t.sock, t.code, t.size, true)
    {
      if packets == [] {
        return TimedOut;
      }
      var p := packets[0];
      assert packets == [p] + packets[1..];
      packets := packets[1..];
      match p
      case Token =>
        t := Woken;
      case Completion(sock, code, size, ok) =>
        t := if ok then Done(sock, code, size) else Closed(sock);
    }
  }
}
