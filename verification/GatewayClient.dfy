/**
 * The client half of the gateway protocol: a session id and the number of the
 * last event handled, offered back on reconnect, and a queue of commands that
 * may not be written before the handshake is acknowledged.
 */
module GatewayClient {
  import opened GatewaySession
  import opened Wrappers

  type SessionId = nat

  const OUTBOX_LIMIT := 64
  const FLUSH_CHUNK := 20

  datatype Frame =
    | Hello
    | Ready(sessionId: SessionId)
    | Resumed
    | Dispatch(entry: Entry)
    | InvalidSession
    | Other

  datatype Request =
    | Identify
    | Resume(sessionId: SessionId, seqNo: nat)

  datatype Written = Handshake(request: Request) | Command(payload: string) | Subscribe(conversation: string)

  /** What survives a dropped socket. */
  datatype Cursor = Cursor(sessionId: Option<SessionId>, lastSeq: nat)

  function CursorAfter(c: Cursor, f: Frame): Cursor {
    match f
    case Ready(id) => Cursor(Some(id), 0)
    case Dispatch(entry) => c.(lastSeq := entry.s)
    case InvalidSession => Cursor(None, 0)
    case _ => c
  }

  /** What the client answers a HELLO with. */
  function Greeting(c: Cursor): Request {
    if c.sessionId.Some? then Resume(c.sessionId.value, c.lastSeq) else Identify
  }

  /** Fatal close codes, less the three that describe a client slip. */
  predicate Fatal(code: int) {
    code >= 4010 && code !in RECOVERABLE
  }

  const RECOVERABLE := {4011, 4012, 4013}

  datatype State = Disconnected | Connecting | Connected | FatalState

  // ── The client's state, and what each thing that happens does to it ───────

  /** A socket is named by the attempt that opened it. */
  datatype View = View(cursor: Cursor, state: State, socket: Option<nat>, handshook: bool, intentionalClose: bool,
                       generation: nat, connecting: Option<nat>, outbox: seq<Written>, subscriptions: seq<string>,
                       flushing: seq<Written>, written: seq<Written>, handled: seq<Event>)

  const START := View(Cursor(None, 0), Disconnected, None, false, false, 0, None, [], [], [], [], [])

  function Subscribes(conversations: seq<string>): (w: seq<Written>)
    ensures |w| == |conversations| && forall i :: 0 <= i < |w| ==> w[i] == Subscribe(conversations[i])
  {
    seq(|conversations|, i requires 0 <= i < |conversations| => Subscribe(conversations[i]))
  }

  function Newest(queue: seq<Written>): seq<Written> {
    if |queue| > OUTBOX_LIMIT then queue[|queue| - OUTBOX_LIMIT..] else queue
  }

  function Began(v: View): View {
    if v.state == Connecting || v.socket.Some? then v
    else
      v.(intentionalClose := false, state := Connecting, generation := v.generation + 1,
         connecting := Some(v.generation + 1))
  }

  function Ticketed(v: View, epoch: nat, issued: bool): View {
    if !issued then
      if epoch != v.generation then v else v.(state := Disconnected, connecting := None)
    else if v.intentionalClose || v.connecting != Some(epoch) || epoch != v.generation then v
    else v.(socket := Some(epoch), connecting := None)
  }

  function Acknowledged(v: View, resumed: bool): View {
    v.(state := Connected, handshook := true, outbox := [],
       flushing := (if resumed then [] else Subscribes(v.subscriptions)) + v.outbox)
  }

  function Heard(v: View, f: Frame): View {
    var w := v.(cursor := CursorAfter(v.cursor, f));
    match f
    case Hello => w.(written := v.written + [Handshake(Greeting(v.cursor))])
    case Ready(_) => Acknowledged(w, false)
    case Resumed => Acknowledged(w, true)
    case Dispatch(entry) => w.(handled := v.handled + [entry.event])
    case _ => w
  }

  function Flushed(v: View): View {
    var n := if |v.flushing| < FLUSH_CHUNK then |v.flushing| else FLUSH_CHUNK;
    v.(written := v.written + v.flushing[..n], flushing := v.flushing[n..])
  }

  function Commanded(v: View, payload: string): View {
    if v.handshook then v.(written := v.written + [Command(payload)])
    else v.(outbox := Newest(v.outbox + [Command(payload)]))
  }

  function Wanted(v: View, conversation: string): View {
    if conversation in v.subscriptions then v
    else
      v.(subscriptions := v.subscriptions + [conversation],
         written := v.written + if v.handshook then [Subscribe(conversation)] else [])
  }

  /** A socket closed. One that is not the current one is ignored. */
  function Closed(v: View, socket: nat, code: int): View {
    if v.socket != Some(socket) then v
    else
      v.(socket := None, handshook := false, flushing := [], written := [],
         state := if !v.intentionalClose && Fatal(code) then FatalState else Disconnected,
         cursor := if !v.intentionalClose && code in RECOVERABLE then Cursor(None, 0) else v.cursor)
  }

  /** The socket and whatever was being tried or written on it are let go. */
  function TornDown(v: View): View {
    v.(connecting := None, socket := None, handshook := false, flushing := [], written := [], state := Disconnected)
  }

  function Restarted(v: View): View {
    Began(TornDown(v).(intentionalClose := false))
  }

  function Stalled(v: View): View {
    if v.state == Connecting then TornDown(v) else v
  }

  function Left(v: View, forgetting: bool): View {
    TornDown(v).(
       intentionalClose := true, outbox := [],
       cursor := if forgetting then Cursor(None, 0) else v.cursor,
       subscriptions := if forgetting then [] else v.subscriptions)
  }

  ghost predicate NoHandshake(queue: seq<Written>) {
    forall i :: 0 <= i < |queue| ==> !queue[i].Handshake?
  }

  ghost predicate OnlyHandshakes(queue: seq<Written>) {
    forall i :: 0 <= i < |queue| ==> queue[i].Handshake?
  }

  ghost predicate OnlyCommands(queue: seq<Written>) {
    forall i :: 0 <= i < |queue| ==> queue[i].Command?
  }

  ghost predicate Once<T(!new)>(xs: seq<T>) {
    forall i, j :: 0 <= i < j < |xs| ==> xs[i] != xs[j]
  }

  /** Nothing but a handshake reaches the current socket before it is
      acknowledged, and the one attempt that may open a socket is the latest. */
  ghost predicate Ok(v: View) {
    && |v.outbox| <= OUTBOX_LIMIT && OnlyCommands(v.outbox) && NoHandshake(v.flushing) && Once(v.subscriptions)
    && (if v.handshook then v.outbox == [] else v.flushing == [] && OnlyHandshakes(v.written))
    && (v.socket.None? ==> v.written == [] && !v.handshook)
    && (v.connecting.Some? ==> v.connecting.value == v.generation && v.socket.None? && !v.intentionalClose)
    && (v.socket.Some? ==> v.socket.value == v.generation)
  }

  class Client {
    var sessionId: Option<SessionId>
    var lastSeq: nat
    var state: State
    var socket: Option<nat>
    var handshook: bool
    var intentionalClose: bool
    var generation: nat
    var connecting: Option<nat>
    var outbox: seq<Written>
    var subscriptions: seq<string>
    var flushing: seq<Written>
    var written: seq<Written>
    var handled: seq<Event>

    function AsCursor(): Cursor
      reads this
    {
      Cursor(sessionId, lastSeq)
    }

    function AsView(): View
      reads this
    {
      View(AsCursor(), state, socket, handshook, intentionalClose, generation, connecting, outbox, subscriptions,
           flushing, written, handled)
    }

    ghost predicate Valid()
      reads this
    {
      Ok(AsView())
    }

    constructor ()
      ensures Valid() && AsView() == START
    {
      generation, connecting := 0, None;
      sessionId, lastSeq, state := None, 0, Disconnected;
      socket, handshook, intentionalClose := None, false, false;
      outbox, subscriptions, flushing, written, handled := [], [], [], [], [];
    }

    /** An attempt begins, under a stamp of its own, unless one is under way or a socket is open. */
    method Connect()
      requires Valid()
      modifies this`state, this`intentionalClose, this`generation, this`connecting
      ensures Valid() && AsView() == Began(old(AsView()))
      ensures old(state) == Connecting || socket.Some? ==> AsView() == old(AsView())
      ensures old(state) != Connecting && socket.None? ==>
                generation == old(generation) + 1 && connecting == Some(generation) && state == Connecting && !intentionalClose
    {
      if state == Connecting || socket.Some? {
        return;
      }
      intentionalClose := false;
      state := Connecting;
      generation := generation + 1;
      connecting := Some(generation);
    }

    /** An attempt's ticket comes, or does not. Only the latest attempt, not
        called off since, opens a socket, and none opens a second. */
    method TicketArrives(epoch: nat, issued: bool)
      requires Valid()
      modifies this`state, this`socket, this`connecting
      ensures Valid() && AsView() == Ticketed(old(AsView()), epoch, issued)
      ensures socket == if issued && old(connecting) == Some(epoch) then Some(epoch) else old(socket)
      ensures issued && old(connecting) == Some(epoch) ==> old(socket).None? && connecting == None
      ensures epoch != generation || (issued && old(connecting) != Some(epoch)) ==> AsView() == old(AsView())
      ensures !issued && epoch == generation ==> state == Disconnected && connecting == None
    {
      if !issued {
        if epoch != generation {
          return;
        }
        state, connecting := Disconnected, None;
        return;
      }
      if intentionalClose || connecting != Some(epoch) || epoch != generation {
        return;
      }
      socket, connecting := Some(epoch), None;
    }

    /** Everything asked for while the socket was down is queued behind what a fresh session must be told again. */
    method HandshakeComplete(resumed: bool)
      requires Valid() && socket.Some?
      modifies this`handshook, this`flushing, this`outbox
      ensures Valid() && handshook && outbox == []
      ensures flushing == (if resumed then [] else Subscribes(subscriptions)) + old(outbox)
    {
      handshook := true;
      flushing := (if resumed then [] else Subscribes(subscriptions)) + outbox;
      outbox := [];
    }

    /** A second's worth of the queue. */
    method FlushSome()
      requires Valid() && handshook
      modifies this`flushing, this`written
      ensures Valid() && AsView() == Flushed(old(AsView()))
      ensures written + flushing == old(written) + old(flushing)
      ensures |flushing| == if |old(flushing)| <= FLUSH_CHUNK then 0 else |old(flushing)| - FLUSH_CHUNK
    {
      var n := if |flushing| < FLUSH_CHUNK then |flushing| else FLUSH_CHUNK;
      written := written + flushing[..n];
      flushing := flushing[n..];
    }

    method Handle(frame: Frame)
      requires Valid() && socket.Some?
      modifies this`sessionId, this`lastSeq, this`state, this`handshook, this`outbox, this`flushing, this`written, this`handled
      ensures Valid() && AsView() == Heard(old(AsView()), frame)
      ensures AsCursor() == CursorAfter(old(AsCursor()), frame)
      ensures handled == old(handled) + if frame.Dispatch? then [frame.entry.event] else []
      ensures written == old(written) + if frame.Hello? then [Handshake(Greeting(old(AsCursor())))] else []
      ensures handshook == (old(handshook) || frame.Ready? || frame.Resumed?)
      ensures frame.Ready? ==> flushing == Subscribes(subscriptions) + old(outbox)
      ensures frame.Resumed? ==> flushing == old(outbox)
      ensures frame.Ready? || frame.Resumed? ==> outbox == [] && state == Connected
      ensures !frame.Ready? && !frame.Resumed? ==> outbox == old(outbox) && flushing == old(flushing) && state == old(state)
    {
      hide Once, OnlyCommands, NoHandshake;
      match frame {
        case Hello =>
          if sessionId.Some? {
            written := written + [Handshake(Resume(sessionId.value, lastSeq))];
          } else {
            written := written + [Handshake(Identify)];
          }
        case Ready(id) =>
          sessionId := Some(id);
          lastSeq := 0;
          state := Connected;
          HandshakeComplete(false);
        case Resumed =>
          state := Connected;
          HandshakeComplete(true);
        case Dispatch(entry) =>
          lastSeq := entry.s;
          handled := handled + [entry.event];
        case InvalidSession =>
          sessionId := None;
          lastSeq := 0;
        case Other =>
      }
    }

    /** A command goes out at once after the handshake; before it, the newest `OUTBOX_LIMIT` wait. */
    method Send(payload: string)
      requires Valid()
      modifies this`outbox, this`written
      ensures Valid() && AsView() == Commanded(old(AsView()), payload)
      ensures handshook ==> written == old(written) + [Command(payload)] && outbox == old(outbox)
      ensures !handshook ==>
                written == old(written) && outbox == Newest(old(outbox) + [Command(payload)])
    {
      if !handshook {
        outbox := outbox + [Command(payload)];
        if |outbox| > OUTBOX_LIMIT {
          outbox := outbox[|outbox| - OUTBOX_LIMIT..];
        }
        return;
      }
      written := written + [Command(payload)];
    }

    /** Recorded for every fresh session to come, and asked for at once where that can be. */
    method SubscribeTo(conversation: string)
      requires Valid()
      modifies this`subscriptions, this`written
      ensures Valid() && AsView() == Wanted(old(AsView()), conversation)
      ensures subscriptions ==
                if conversation in old(subscriptions) then old(subscriptions) else old(subscriptions) + [conversation]
      ensures written ==
                if handshook && conversation !in old(subscriptions) then old(written) + [Subscribe(conversation)]
                else old(written)
    {
      var isNew := conversation !in subscriptions;
      if isNew {
        subscriptions := subscriptions + [conversation];
      }
      if handshook && isNew {
        written := written + [Subscribe(conversation)];
      }
    }

    /** A socket closed: the session is kept to resume, unless the code says the
        two ends disagree. An orphan's close changes nothing. */
    method HandleClose(closed: nat, code: int)
      requires Valid()
      modifies this`socket, this`handshook, this`flushing, this`written, this`state, this`sessionId, this`lastSeq
      ensures Valid() && AsView() == Closed(old(AsView()), closed, code)
      ensures old(socket) != Some(closed) ==> AsView() == old(AsView())
      ensures old(socket) == Some(closed) ==>
                && socket.None? && !handshook && flushing == [] && written == []
                && AsCursor() == (if !intentionalClose && code in RECOVERABLE then Cursor(None, 0) else old(AsCursor()))
                && state == (if !intentionalClose && Fatal(code) then FatalState else Disconnected)
    {
      hide Once, OnlyCommands;
      if socket != Some(closed) {
        return;
      }
      handshook, flushing := false, [];
      socket, written := None, [];
      if intentionalClose {
        state := Disconnected;
        return;
      }
      if code >= 4010 && code !in RECOVERABLE {
        state := FatalState;
        return;
      }
      if code in RECOVERABLE {
        sessionId := None;
        lastSeq := 0;
      }
      state := Disconnected;
    }

    /** Back in the foreground or on another network: whatever socket is held is
        likely dead, so it is let go and a new attempt begins; the session is kept. */
    method ReconnectNow()
      requires Valid()
      modifies this`connecting, this`handshook, this`flushing, this`socket, this`written, this`intentionalClose, this`state,
               this`generation
      ensures Valid() && AsView() == Restarted(old(AsView()))
      ensures socket.None? && state == Connecting && generation == old(generation) + 1 && connecting == Some(generation)
    {
      TearDown();
      intentionalClose := false;
      state := Disconnected;
      Connect();
    }

    /** Fifteen seconds on, an attempt that has come to nothing is given up. */
    method StallExpires()
      requires Valid()
      modifies this`connecting, this`handshook, this`flushing, this`socket, this`written, this`state
      ensures Valid() && AsView() == Stalled(old(AsView()))
      ensures old(state) == Connecting ==> state == Disconnected && socket.None? && connecting == None
    {
      if state == Connecting {
        TearDown();
        state := Disconnected;
      }
    }

    method TearDown()
      modifies this`connecting, this`handshook, this`flushing, this`socket, this`written
      ensures connecting == None && !handshook && flushing == [] && socket == None && written == []
    {
      handshook, flushing := false, [];
      connecting, socket, written := None, None, [];
    }

    /** A pause keeps the session id and the number last handled; only signing out forgets them. */
    method Disconnect(forgetting: bool)
      requires Valid()
      modifies this`socket, this`handshook, this`flushing, this`written, this`state, this`sessionId, this`lastSeq,
               this`connecting, this`intentionalClose, this`outbox, this`subscriptions
      ensures Valid() && AsView() == Left(old(AsView()), forgetting)
      ensures socket.None? && !handshook && connecting == None && outbox == [] && flushing == [] && written == []
      ensures state == Disconnected
      ensures AsCursor() == if forgetting then Cursor(None, 0) else old(AsCursor())
      ensures subscriptions == if forgetting then [] else old(subscriptions)
    {
      intentionalClose := true;
      TearDown();
      outbox := [];
      if forgetting {
        sessionId, lastSeq, subscriptions := None, 0, [];
      }
      state := Disconnected;
    }
  }
}
