/**
 * The server half of a gateway session: a dispatch counter, and a ring of the
 * frames most recently dispatched, kept for a client that comes back.
 */
module GatewaySession {
  import opened Wrappers

  const REPLAY_BUFFER_SIZE := 256
  const SLOW_CONSUMER_BYTES := 1024 * 1024

  /** An event as the bus delivers it. */
  datatype Event = Event(name: string, data: string)

  /** A dispatched frame: its number and what it carries. */
  datatype Entry = Entry(s: nat, event: Event)

  // ── The ring as a window on the history ───────────────────────────────────

  /** The last events of a history, at most as many as the ring holds, with their numbers. */
  function Window(history: seq<Event>): (w: seq<Entry>)
    ensures |w| == if |history| < 256 then |history| else 256
    ensures forall i :: 0 <= i < |w| ==> w[i].s == |history| - |w| + i + 1 && w[i].event == history[w[i].s - 1]
  {
    var n := if |history| < REPLAY_BUFFER_SIZE then |history| else REPLAY_BUFFER_SIZE;
    seq(n, i requires 0 <= i < n => Entry(|history| - n + i + 1, history[|history| - n + i]))
  }

  /** The frames numbered after `a`. */
  function Numbered(history: seq<Event>, a: nat): (f: seq<Entry>)
    requires a <= |history|
    ensures |f| == |history| - a
    ensures forall i :: 0 <= i < |f| ==> f[i] == Entry(a + i + 1, history[a + i])
  {
    seq(|history| - a, i requires 0 <= i < |history| - a => Entry(a + i + 1, history[a + i]))
  }

  /** A client that has everything up to `a` can be brought up to date from the ring. */
  predicate Replayable(history: seq<Event>, a: nat) {
    |history| - REPLAY_BUFFER_SIZE <= a <= |history|
  }

  /** Pushing and, past the bound, shifting moves the window on by one. */
  lemma WindowMoves(history: seq<Event>, event: Event)
    ensures var pushed := Window(history) + [Entry(|history| + 1, event)];
            Window(history + [event]) == if |pushed| > REPLAY_BUFFER_SIZE then pushed[1..] else pushed
  {
    var pushed := Window(history) + [Entry(|history| + 1, event)];
    var kept := if |pushed| > REPLAY_BUFFER_SIZE then pushed[1..] else pushed;
    var w := Window(history + [event]);
    assert |w| == |kept|;
    forall i | 0 <= i < |w|
      ensures w[i] == kept[i]
    {
      assert w[i].s == kept[i].s;
    }
  }

  // ── The session ───────────────────────────────────────────────────────────

  class Socket {
    var open: bool
    var bufferedAmount: nat
    var sent: seq<Entry>

    constructor ()
      ensures open && bufferedAmount == 0 && sent == []
    {
      open, bufferedAmount, sent := true, 0, [];
    }
  }

  class BufferedSession {
    var seqNo: nat
    var replay: seq<Entry>
    var socket: Socket?
    var disconnectedAt: Option<nat>
    ghost var history: seq<Event>

    /** The ring holds exactly the last events dispatched, numbered without a gap. */
    ghost predicate Valid()
      reads this
    {
      seqNo == |history| && replay == Window(history)
    }

    constructor (socket: Socket)
      ensures Valid() && history == [] && this.socket == socket && disconnectedAt == None
    {
      seqNo, replay, history := 0, [], [];
      this.socket, disconnectedAt := socket, None;
    }

    predicate IsConnected()
      reads this, socket
    {
      socket != null && socket.open
    }

    predicate IsExpired(now: nat, window: nat)
      reads this
    {
      disconnectedAt.Some? && now > disconnectedAt.value + window
    }

    /** The event gets the next number and a place in the ring, and goes out on an
        open socket, unless too much is waiting there: then the socket is closed. */
    method Dispatch(event: Event)
      requires Valid()
      modifies this, socket
      ensures Valid() && history == old(history) + [event] && disconnectedAt == old(disconnectedAt)
      ensures var s := old(socket);
              var slow := s != null && old(s.open) && old(s.bufferedAmount) > 1_048_576;
              && socket == (if slow then null else s)
              && (s != null ==>
                    && s.open == (old(s.open) && !slow)
                    && s.bufferedAmount == old(s.bufferedAmount)
                    && s.sent == old(s.sent) + if old(s.open) && !slow then [Entry(|history|, event)] else [])
    {
      hide Window;
      WindowMoves(history, event);
      seqNo := seqNo + 1;
      replay := replay + [Entry(seqNo, event)];
      if |replay| > REPLAY_BUFFER_SIZE {
        replay := replay[1..];
      }
      history := history + [event];
      if IsConnected() {
        if socket.bufferedAmount > SLOW_CONSUMER_BYTES {
          Close();
          return;
        }
        socket.sent := socket.sent + [Entry(seqNo, event)];
      }
    }

    /** Everything after `afterSeq`, in order, exactly when the ring still holds it. */
    method ReplayFrom(afterSeq: nat) returns (ok: bool)
      requires Valid()
      modifies socket
      ensures Valid() && history == old(history)
      ensures ok <==> Replayable(history, afterSeq)
      ensures ok <==> |history| - 256 <= afterSeq <= |history|
      ensures ok <==> |history| - |replay| <= afterSeq <= |history|
      ensures socket != null ==>
                && socket.open == old(socket.open) && socket.bufferedAmount == old(socket.bufferedAmount)
                && socket.sent == old(socket.sent) + if ok && socket.open then Numbered(history, afterSeq) else []
    {
      if afterSeq > seqNo {
        return false;
      }
      var oldest := if |replay| > 0 then replay[0].s else seqNo + 1;
      if afterSeq < oldest - 1 {
        return false;
      }
      var from := |history| - |replay|;
      for i := 0 to |replay|
        invariant Valid() && socket == old(socket)
        invariant socket != null ==> socket.open == old(socket.open) && socket.bufferedAmount == old(socket.bufferedAmount)
        invariant socket != null && socket.open ==>
                    socket.sent == old(socket.sent) + Numbered(history, afterSeq)[..if from + i > afterSeq then from + i - afterSeq else 0]
        invariant socket != null && !socket.open ==> socket.sent == old(socket.sent)
      {
        if replay[i].s > afterSeq && IsConnected() {
          socket.sent := socket.sent + [replay[i]];
        }
      }
      assert Numbered(history, afterSeq)[..|history| - afterSeq] == Numbered(history, afterSeq);
      ok := true;
    }

    /** The socket is gone. What was dispatched stays, ring and all, and the
        session may be forgotten exactly once the window has passed. */
    method Park(now: nat)
      requires Valid()
      modifies this`disconnectedAt, this`socket
      ensures Valid() && disconnectedAt == Some(now) && socket == null && !IsConnected()
      ensures forall later: nat, window: nat :: IsExpired(later, window) <==> later > now + window
    {
      disconnectedAt, socket := Some(now), null;
    }

    /** A new socket. What was dispatched meanwhile is in the ring, and the
        session is not forgotten however long ago it was parked. */
    method Resume(s: Socket)
      requires Valid()
      modifies this`disconnectedAt, this`socket
      ensures Valid() && disconnectedAt == None && socket == s && IsConnected() == s.open
      ensures forall later: nat, window: nat :: !IsExpired(later, window)
    {
      socket, disconnectedAt := s, None;
    }

    method Close()
      modifies this`socket, socket
      ensures socket == null
      ensures old(socket) != null ==>
                !old(socket).open && old(socket).sent == old(socket.sent)
                && old(socket).bufferedAmount == old(socket.bufferedAmount)
    {
      if socket != null {
        socket.open := false;
      }
      socket := null;
    }
  }
}
