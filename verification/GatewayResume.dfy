/**
 * The gateway and one client together: sockets that drop what is in flight,
 * sessions that are parked and resumed, and a server that keeps dispatching.
 */
module GatewayResume {
  import opened GatewayClient
  import opened GatewaySession
  import opened Wrappers

  type SocketId = nat

  /** A session the server still holds: the socket it rides, and whether its READY has gone out. */
  datatype Hosted = Hosted(socket: Option<SocketId>, announced: bool)

  /** Both ends. `requests` are the handshakes the server has yet to process;
      `down` is what is in flight to the client's current socket, `whose` the
      session that feeds it and `at` the number up to which it has been read;
      `handled` is every event handled, and `early` how many were when READY came. */
  datatype Net = Net(
    histories: map<SessionId, seq<Event>>,
    hosted: map<SessionId, Hosted>,
    requests: map<SocketId, Request>,
    sockets: nat,
    cursor: Cursor,
    conn: Option<SocketId>,
    down: seq<Frame>,
    whose: Option<SessionId>,
    at: nat,
    handled: map<SessionId, seq<Entry>>,
    early: map<SessionId, nat>)

  const START := Net(map[], map[], map[], 0, Cursor(None, 0), None, [], None, 0, map[], map[])

  datatype Action =
    | Connect
    | Drop
    | Forget
    | Receive
    | Serve(socket: SocketId, valid: bool)
    | Refuse(socket: SocketId)
    | Emit(session: SessionId, event: Event, slow: bool)
    | Announce(session: SessionId)
    | Park(session: SessionId)
    | Destroy(session: SessionId)

  // ── Steps ─────────────────────────────────────────────────────────────────

  /** The number a new session gets: one no session has had. */
  ghost predicate NewSession(n: Net, id: SessionId) {
    id !in n.histories
  }

  predicate Enabled(n: Net, a: Action) {
    match a
    case Receive => n.conn.Some? && n.down != []
    case Serve(c, _) => c in n.requests
    case Refuse(c) => c in n.requests
    case Emit(s, _, _) => s in n.hosted && s in n.histories
    case Announce(s) => s in n.hosted && !n.hosted[s].announced
    case Park(s) => s in n.hosted
    case Destroy(s) => s in n.hosted
    case _ => true
  }

  function Disconnected(n: Net): Net {
    n.(conn := None, down := [], whose := None, at := 0)
  }

  function Received(n: Net): Net
    requires n.conn.Some? && n.down != []
  {
    var f := n.down[0];
    var m := n.(cursor := CursorAfter(n.cursor, f), down := n.down[1..]);
    match f
    case Hello => m.(requests := m.requests[n.conn.value := Greeting(n.cursor)])
    case Dispatch(entry) =>
      if n.whose.Some? && n.whose.value in n.handled then
        m.(at := entry.s, handled := m.handled[n.whose.value := m.handled[n.whose.value] + [entry]])
      else m
    case Ready(id) => if id in n.handled then m.(early := m.early[id := |m.handled[id]|]) else m
    case _ => m
  }

  function Frames(entries: seq<Entry>): seq<Frame> {
    if entries == [] then [] else [Dispatch(entries[0])] + Frames(entries[1..])
  }

  /** IDENTIFY: a session of its own, riding the socket that asked. */
  function Identified(n: Net, c: SocketId, id: SessionId): Net {
    var m := n.(requests := n.requests - {c},
                histories := n.histories[id := []],
                handled := n.handled[id := []],
                hosted := n.hosted[id := Hosted(Some(c), false)]);
    if n.conn == Some(c) then m.(whose := Some(id), at := 0) else m
  }

  /** A RESUME the server can honour: the session is held, and its ring still reaches back far enough. */
  predicate Continues(n: Net, s: SessionId, a: nat, valid: bool) {
    valid && s in n.hosted && s in n.histories && Replayable(n.histories[s], a)
  }

  function ResumeServed(n: Net, c: SocketId, s: SessionId, a: nat, valid: bool): Net {
    var m := n.(requests := n.requests - {c});
    if Continues(n, s, a, valid) then
      var k := m.(hosted := m.hosted[s := m.hosted[s].(socket := Some(c))]);
      if n.conn == Some(c) then
        k.(down := k.down + Frames(Numbered(n.histories[s], a)) + [Resumed], whose := Some(s), at := a)
      else k
    else
      var k := if valid && s in m.hosted then m.(hosted := m.hosted - {s}) else m;
      if n.conn == Some(c) then k.(down := k.down + [InvalidSession]) else k
  }

  function Emitted(n: Net, s: SessionId, event: Event, slow: bool): Net
    requires s in n.hosted && s in n.histories
  {
    var m := n.(histories := n.histories[s := n.histories[s] + [event]]);
    var ride := n.hosted[s].socket;
    if ride.None? then m
    else if slow then m.(hosted := m.hosted[s := m.hosted[s].(socket := None)])
    else if n.conn == ride then m.(down := m.down + [Dispatch(Entry(|m.histories[s]|, event))])
    else m
  }

  function Announced(n: Net, s: SessionId): Net
    requires s in n.hosted
  {
    var m := n.(hosted := n.hosted[s := n.hosted[s].(announced := true)]);
    if n.conn.Some? && n.conn == n.hosted[s].socket then m.(down := m.down + [Ready(s)]) else m
  }

  ghost predicate Step(n: Net, a: Action, m: Net) {
    && Enabled(n, a)
    && match a
       case Connect => m == Disconnected(n).(conn := Some(n.sockets), sockets := n.sockets + 1, down := [Hello])
       case Drop => m == Disconnected(n)
       case Forget => m == Disconnected(n).(cursor := Cursor(None, 0))
       case Receive => m == Received(n)
       case Serve(c, valid) =>
         if n.requests[c].Identify? then exists id: SessionId :: NewSession(n, id) && m == Identified(n, c, id)
         else m == ResumeServed(n, c, n.requests[c].sessionId, n.requests[c].seqNo, valid)
       case Refuse(c) => m == n.(requests := n.requests - {c})
       case Emit(s, event, slow) => m == Emitted(n, s, event, slow)
       case Announce(s) => m == Announced(n, s)
       case Park(s) => m == n.(hosted := n.hosted[s := n.hosted[s].(socket := None)])
       case Destroy(s) => m == n.(hosted := n.hosted - {s})
  }

  // ── The stream to the client ──────────────────────────────────────────────

  /** What is in flight continues session `s` from number `at` without a gap. */
  predicate Stream(down: seq<Frame>, s: SessionId, at: nat, history: seq<Event>) {
    if down == [] then at <= |history|
    else
      match down[0]
      case Dispatch(entry) =>
        at < |history| && entry == Entry(at + 1, history[at]) && Stream(down[1..], s, at + 1, history)
      case Ready(id) => id == s && Stream(down[1..], s, at, history)
      case Resumed => Stream(down[1..], s, at, history)
      case _ => false
  }

  /** Where a stream read from `at` ends. */
  function StreamEnd(down: seq<Frame>, at: nat): nat {
    if down == [] then at else StreamEnd(down[1..], if down[0].Dispatch? then at + 1 else at)
  }

  lemma {:induction false} StreamAppends(down: seq<Frame>, f: Frame, s: SessionId, at: nat, history: seq<Event>)
    requires Stream(down, s, at, history)
    requires Stream([f], s, StreamEnd(down, at), history)
    ensures Stream(down + [f], s, at, history)
    ensures StreamEnd(down + [f], at) == StreamEnd(down, at) + if f.Dispatch? then 1 else 0
    decreases |down|
  {
    if down == [] {
      assert down + [f] == [f];
      assert [f][1..] == [];
    } else {
      assert (down + [f])[1..] == down[1..] + [f];
      StreamAppends(down[1..], f, s, if down[0].Dispatch? then at + 1 else at, history);
    }
  }

  lemma {:induction false} StreamLengthens(down: seq<Frame>, s: SessionId, at: nat, history: seq<Event>, event: Event)
    requires Stream(down, s, at, history)
    ensures Stream(down, s, at, history + [event]) && StreamEnd(down, at) <= |history|
    decreases |down|
  {
    if down != [] {
      StreamLengthens(down[1..], s, if down[0].Dispatch? then at + 1 else at, history, event);
    }
  }

  /** A replay is a stream from the number the client offered to the end of the history. */
  lemma {:induction false} ReplayStreams(s: SessionId, a: nat, history: seq<Event>)
    requires a <= |history|
    ensures Stream(Frames(Numbered(history, a)) + [Resumed], s, a, history)
    ensures StreamEnd(Frames(Numbered(history, a)) + [Resumed], a) == |history|
    decreases |history| - a
  {
    var frames := Frames(Numbered(history, a));
    if a == |history| {
      assert frames + [Resumed] == [Resumed];
      assert [Resumed][1..] == [];
    } else {
      assert Numbered(history, a)[1..] == Numbered(history, a + 1);
      assert frames == [Dispatch(Entry(a + 1, history[a]))] + Frames(Numbered(history, a + 1));
      assert (frames + [Resumed])[1..] == Frames(Numbered(history, a + 1)) + [Resumed];
      ReplayStreams(s, a + 1, history);
    }
  }

  // ── The invariant ─────────────────────────────────────────────────────────

  ghost predicate Has(h: seq<Entry>, k: nat) {
    exists i :: 0 <= i < |h| && h[i].s == k
  }

  /** Every number up to `n` has been handled. */
  ghost predicate Covers(h: seq<Entry>, n: nat) {
    forall k: nat :: 1 <= k <= n ==> Has(h, k)
  }

  /** What was handled is what was dispatched, under its own number. */
  predicate Faithful(h: seq<Entry>, history: seq<Event>) {
    forall i :: 0 <= i < |h| ==> 1 <= h[i].s <= |history| && h[i].event == history[h[i].s - 1]
  }

  ghost predicate NamesOk(n: Net) {
    && n.handled.Keys == n.histories.Keys && n.hosted.Keys <= n.histories.Keys
    && (n.cursor.sessionId.Some? ==> n.cursor.sessionId.value in n.histories)
    && (forall c :: c in n.requests ==> c < n.sockets)
    && (forall c :: c in n.requests && n.requests[c].Resume? ==> n.requests[c].sessionId in n.histories)
    && (forall s :: s in n.hosted && n.hosted[s].socket.Some? ==>
          n.hosted[s].socket.value < n.sockets && n.hosted[s].socket.value !in n.requests)
  }

  /** No session rides the socket but `s`. */
  ghost predicate OnlyRider(n: Net, c: SocketId, s: Option<SessionId>) {
    forall x :: x in n.hosted && n.hosted[x].socket == Some(c) ==> s == Some(x)
  }

  /** The client's current socket is waiting to be greeted, waiting for its
      handshake to be processed, turned away, or being fed by one session. */
  ghost predicate ConnOk(n: Net) {
    match n.conn
    case None => n.down == [] && n.whose == None
    case Some(c) =>
      && c < n.sockets && OnlyRider(n, c, n.whose)
      && if n.whose.Some? then
           var s := n.whose.value;
           && c !in n.requests && s in n.histories
           && (n.cursor.sessionId == None || n.cursor.sessionId == Some(s))
         else
           || (n.down == [Hello] && c !in n.requests)
           || (n.down == [] && c in n.requests && n.requests[c] == Greeting(n.cursor))
           || (n.down == [] && c !in n.requests)
           || (n.down == [InvalidSession] && c !in n.requests)
  }

  ghost predicate FeedOk(n: Net) {
    n.conn.Some? && n.whose.Some? && n.whose.value in n.histories ==>
      var s := n.whose.value;
      && Stream(n.down, s, n.at, n.histories[s])
      && (s in n.hosted && n.hosted[s].socket == n.conn ==> StreamEnd(n.down, n.at) == |n.histories[s]|)
  }

  ghost predicate HandledOk(n: Net) {
    && n.handled.Keys == n.histories.Keys
    && (forall s :: s in n.handled ==> Faithful(n.handled[s], n.histories[s]))
    && (n.cursor.sessionId.Some? && n.cursor.sessionId.value in n.handled ==>
          Covers(n.handled[n.cursor.sessionId.value], n.cursor.lastSeq))
    && (n.whose.Some? && n.whose.value in n.handled ==> Covers(n.handled[n.whose.value], n.at))
  }

  ghost predicate NetOk(n: Net) {
    NamesOk(n) && ConnOk(n) && FeedOk(n) && HandledOk(n)
  }

  // ── Each step keeps it ────────────────────────────────────────────────────

  lemma HandlingExtends(h: seq<Entry>, n: nat, entry: Entry)
    requires Covers(h, n)
    ensures Covers(h + [entry], n) && (entry.s == n + 1 ==> Covers(h + [entry], n + 1))
  {
    var g := h + [entry];
    forall k: nat | 1 <= k <= n
      ensures Has(g, k)
    {
      assert Has(h, k);
      var i :| 0 <= i < |h| && h[i].s == k;
      assert g[i].s == k;
    }
    assert g[|h|] == entry && Has(g, entry.s);
  }

  /** A socket nobody feeds yet brings a greeting or a refusal. */
  lemma UnfedBrings(n: Net)
    requires NetOk(n) && n.conn.Some? && n.down != [] && n.whose.None?
    ensures n.down[0] == Hello || n.down[0] == InvalidSession
  {
    hide Covers, Faithful, Stream;
  }

  lemma ReceiveUnfed(n: Net)
    requires NetOk(n) && n.conn.Some? && n.down != [] && n.whose.None?
    ensures NetOk(Received(n))
  {
    hide Covers, Faithful, Stream;
    UnfedBrings(n);
  }

  /** What is fed continues one session's stream. */
  lemma FedBy(n: Net)
    requires NetOk(n) && n.conn.Some? && n.down != [] && n.whose.Some?
    ensures var s, f := n.whose.value, n.down[0];
            && s in n.handled && s in n.histories && Stream(n.down, s, n.at, n.histories[s]) && HandledOk(n)
            && (n.cursor.sessionId == None || n.cursor.sessionId == Some(s))
            && (f.Dispatch? || f == Ready(s) || f.Resumed?)
            && (f.Dispatch? ==> n.at < |n.histories[s]| && f.entry == Entry(n.at + 1, n.histories[s][n.at]))
            && Stream(n.down[1..], s, if f.Dispatch? then n.at + 1 else n.at, n.histories[s])
  {
    hide Covers, Faithful;
  }

  lemma FaithfulExtends(h: seq<Entry>, history: seq<Event>, entry: Entry)
    requires Faithful(h, history) && 1 <= entry.s <= |history| && entry.event == history[entry.s - 1]
    ensures Faithful(h + [entry], history)
  {
  }

  lemma ReceiveFedHandled(n: Net)
    requires NetOk(n) && n.conn.Some? && n.down != [] && n.whose.Some?
    ensures HandledOk(Received(n))
  {
    hide Covers, Stream, NetOk, Faithful;
    FedBy(n);
    var s, f := n.whose.value, n.down[0];
    if f.Dispatch? {
      FaithfulExtends(n.handled[s], n.histories[s], f.entry);
      HandlingExtends(n.handled[s], n.at, f.entry);
    }
    NothingCovered(n.handled[s]);
  }

  lemma ReceiveFed(n: Net)
    requires NetOk(n) && n.conn.Some? && n.down != [] && n.whose.Some?
    ensures NetOk(Received(n))
  {
    FedBy(n);
    ReceiveFedHandled(n);
    hide HandledOk, Covers, Faithful, Stream;
    var m := Received(n);
    assert NamesOk(m) && ConnOk(m) by {
      hide FeedOk;
    }
    assert FeedOk(m);
  }

  lemma ReceiveKeeps(n: Net)
    requires NetOk(n) && n.conn.Some? && n.down != []
    ensures NetOk(Received(n))
  {
    hide NetOk, Received;
    if n.whose.Some? {
      ReceiveFed(n);
    } else {
      ReceiveUnfed(n);
    }
  }

  lemma NothingCovered(h: seq<Entry>)
    ensures Covers(h, 0)
  {
  }

  lemma IdentifyKeepsNames(n: Net, c: SocketId, id: SessionId)
    requires NetOk(n) && c in n.requests && n.requests[c].Identify? && NewSession(n, id)
    ensures NamesOk(Identified(n, c, id))
  {
    hide Covers, FeedOk, Faithful;
  }

  lemma IdentifyKeepsConn(n: Net, c: SocketId, id: SessionId)
    requires NetOk(n) && c in n.requests && n.requests[c].Identify? && NewSession(n, id)
    ensures ConnOk(Identified(n, c, id)) && FeedOk(Identified(n, c, id))
  {
    hide HandledOk;
  }

  lemma IdentifyKeepsHandled(n: Net, c: SocketId, id: SessionId)
    requires NetOk(n) && c in n.requests && n.requests[c].Identify? && NewSession(n, id)
    ensures HandledOk(Identified(n, c, id))
  {
    hide Covers, FeedOk;
    NothingCovered([]);
  }

  lemma IdentifyKeeps(n: Net, c: SocketId, id: SessionId)
    requires NetOk(n) && c in n.requests && n.requests[c].Identify? && NewSession(n, id)
    ensures NetOk(Identified(n, c, id))
  {
    hide NamesOk, ConnOk, FeedOk, HandledOk;
    IdentifyKeepsNames(n, c, id);
    IdentifyKeepsConn(n, c, id);
    IdentifyKeepsHandled(n, c, id);
  }

  lemma ResumeKeepsNames(n: Net, c: SocketId, valid: bool)
    requires NetOk(n) && c in n.requests && n.requests[c].Resume?
    ensures NamesOk(ResumeServed(n, c, n.requests[c].sessionId, n.requests[c].seqNo, valid))
    ensures HandledOk(ResumeServed(n, c, n.requests[c].sessionId, n.requests[c].seqNo, valid))
  {
    hide Covers, Faithful, FeedOk, Frames;
    if n.conn == Some(c) {
      assert n.requests[c] == Greeting(n.cursor);
    }
  }

  lemma ResumeKeepsFeed(n: Net, c: SocketId, valid: bool)
    requires NetOk(n) && c in n.requests && n.requests[c].Resume?
    ensures ConnOk(ResumeServed(n, c, n.requests[c].sessionId, n.requests[c].seqNo, valid))
    ensures FeedOk(ResumeServed(n, c, n.requests[c].sessionId, n.requests[c].seqNo, valid))
  {
    hide HandledOk, Stream, StreamEnd, Frames;
    var s, a := n.requests[c].sessionId, n.requests[c].seqNo;
    var m := ResumeServed(n, c, s, a, valid);
    if n.conn == Some(c) {
      assert n.down == [];
      if Continues(n, s, a, valid) {
        ReplayStreams(s, a, n.histories[s]);
        assert m.down == Frames(Numbered(n.histories[s], a)) + [Resumed];
      }
    }
  }

  lemma ResumeKeeps(n: Net, c: SocketId, valid: bool)
    requires NetOk(n) && c in n.requests && n.requests[c].Resume?
    ensures NetOk(ResumeServed(n, c, n.requests[c].sessionId, n.requests[c].seqNo, valid))
  {
    hide NamesOk, ConnOk, FeedOk, HandledOk, ResumeServed;
    ResumeKeepsNames(n, c, valid);
    ResumeKeepsFeed(n, c, valid);
  }

  lemma EmitKeepsFeed(n: Net, s: SessionId, event: Event, slow: bool)
    requires NetOk(n) && s in n.hosted && s in n.histories
    ensures FeedOk(Emitted(n, s, event, slow))
  {
    hide HandledOk;
    var m := Emitted(n, s, event, slow);
    if n.conn.Some? && n.whose == Some(s) {
      StreamLengthens(n.down, s, n.at, n.histories[s], event);
      if n.hosted[s].socket == n.conn && !slow {
        var f := Dispatch(Entry(|m.histories[s]|, event));
        assert [f][1..] == [];
        StreamAppends(n.down, f, s, n.at, m.histories[s]);
      }
    }
  }

  lemma EmitKeepsHandled(n: Net, s: SessionId, event: Event, slow: bool)
    requires NetOk(n) && s in n.hosted && s in n.histories
    ensures HandledOk(Emitted(n, s, event, slow)) && NamesOk(Emitted(n, s, event, slow))
  {
    hide Covers, ConnOk, FeedOk;
  }

  lemma EmitKeeps(n: Net, s: SessionId, event: Event, slow: bool)
    requires NetOk(n) && s in n.hosted && s in n.histories
    ensures NetOk(Emitted(n, s, event, slow))
  {
    EmitKeepsFeed(n, s, event, slow);
    EmitKeepsHandled(n, s, event, slow);
    hide NamesOk, FeedOk, HandledOk;
  }

  lemma AnnounceKeeps(n: Net, s: SessionId)
    requires NetOk(n) && s in n.hosted
    ensures NetOk(Announced(n, s))
  {
    hide Covers;
    var m := Announced(n, s);
    assert NamesOk(m);
    if m.down != n.down {
      assert n.whose == Some(s);
      assert [Ready(s)][1..] == [];
      StreamAppends(n.down, Ready(s), s, n.at, n.histories[s]);
    }
    assert ConnOk(m);
  }

  lemma StepKeeps(n: Net, a: Action, m: Net)
    requires NetOk(n) && Step(n, a, m)
    ensures NetOk(m)
  {
    match a {
      case Receive => ReceiveKeeps(n);
      case Serve(c, valid) =>
        if n.requests[c].Identify? {
          var id: SessionId :| NewSession(n, id) && m == Identified(n, c, id);
          IdentifyKeeps(n, c, id);
        } else {
          ResumeKeeps(n, c, valid);
        }
      case Emit(s, event, slow) => EmitKeeps(n, s, event, slow);
      case Announce(s) => AnnounceKeeps(n, s);
      case _ => StillKeeps(n, a, m);
    }
  }

  lemma DisconnectedKeeps(n: Net, a: Action, m: Net)
    requires NetOk(n) && Step(n, a, m) && (a.Connect? || a.Drop? || a.Forget?)
    ensures NetOk(m)
  {
    hide Covers, Faithful, Stream;
  }

  lemma LoosenedKeeps(n: Net, a: Action, m: Net)
    requires NetOk(n) && Step(n, a, m) && (a.Refuse? || a.Park? || a.Destroy?)
    ensures NetOk(m)
  {
    hide Covers, Faithful, Stream;
  }

  lemma StillKeeps(n: Net, a: Action, m: Net)
    requires NetOk(n) && Step(n, a, m)
    requires a.Connect? || a.Drop? || a.Forget? || a.Refuse? || a.Park? || a.Destroy?
    ensures NetOk(m)
  {
    hide NetOk, Step;
    if a.Connect? || a.Drop? || a.Forget? {
      DisconnectedKeeps(n, a, m);
    } else {
      LoosenedKeeps(n, a, m);
    }
  }

  // ── Runs ──────────────────────────────────────────────────────────────────

  ghost predicate Run(n: Net, actions: seq<Action>, m: Net)
    decreases |actions|
  {
    if actions == [] then m == n
    else exists k :: Step(n, actions[0], k) && Run(k, actions[1..], m)
  }

  lemma {:induction false} RunsKeep(n: Net, actions: seq<Action>, m: Net)
    requires NetOk(n) && Run(n, actions, m)
    ensures NetOk(m)
    decreases |actions|
  {
    hide NetOk, Step;
    if actions != [] {
      var k :| Step(n, actions[0], k) && Run(k, actions[1..], m);
      StepKeeps(n, actions[0], k);
      RunsKeep(k, actions[1..], m);
    }
  }

  /** Whatever was dropped, parked, resumed or dispatched: of the session it
      holds, the client has handled every event up to the number it would offer,
      each exactly as it was dispatched. */
  lemma NothingMissing(actions: seq<Action>, n: Net)
    requires Run(START, actions, n) && n.cursor.sessionId.Some?
    ensures var s := n.cursor.sessionId.value;
            s in n.handled && s in n.histories
            && Covers(n.handled[s], n.cursor.lastSeq) && Faithful(n.handled[s], n.histories[s])
  {
    RunsKeep(START, actions, n);
  }

  // ── Resuming ──────────────────────────────────────────────────────────────

  /** What the client's current socket gets for its RESUME: everything after the
      number it offered and then RESUMED, or InvalidSession, after which it holds no session. */
  lemma ResumeAnswered(n: Net, c: SocketId, valid: bool)
    requires NetOk(n) && n.conn == Some(c) && c in n.requests && n.requests[c].Resume?
    ensures n.requests[c] == Resume(n.requests[c].sessionId, n.cursor.lastSeq) && n.cursor.sessionId == Some(n.requests[c].sessionId)
    ensures var s := n.requests[c].sessionId;
            var m := ResumeServed(n, c, s, n.requests[c].seqNo, valid);
            if Continues(n, s, n.cursor.lastSeq, valid) then
              m.down == Frames(Numbered(n.histories[s], n.cursor.lastSeq)) + [Resumed] && m.whose == Some(s)
            else
              && m.down == [InvalidSession] && Received(m).cursor == Cursor(None, 0)
              && (valid ==> s !in m.hosted)
  {
  }

  // ── What a RESUME repeats ─────────────────────────────────────────────────

  function Max(m: nat, n: nat): nat {
    if m > n then m else n
  }

  /** The highest number handled. */
  function Top(h: seq<Entry>): nat {
    if h == [] then 0 else Max(Top(h[..|h| - 1]), h[|h| - 1].s)
  }

  lemma {:induction false} TopIsHighest(h: seq<Entry>)
    ensures forall i :: 0 <= i < |h| ==> h[i].s <= Top(h)
    ensures Top(h) > 0 ==> exists i :: 0 <= i < |h| && h[i].s == Top(h)
  {
    if h != [] {
      var rest := h[..|h| - 1];
      TopIsHighest(rest);
      assert forall i :: 0 <= i < |rest| ==> h[i] == rest[i];
    }
  }

  lemma TopGrows(h: seq<Entry>, entry: Entry)
    ensures Top(h + [entry]) == Max(Top(h), entry.s)
  {
    assert (h + [entry])[..|h|] == h;
  }

  predicate NoReady(down: seq<Frame>) {
    forall i :: 0 <= i < |down| ==> !down[i].Ready?
  }

  /** READY comes once at most. */
  predicate OneReady(down: seq<Frame>) {
    forall i, j :: 0 <= i < j < |down| ==> !(down[i].Ready? && down[j].Ready?)
  }

  /** Of the session the client holds, the highest number handled is what came
      before READY or what has come last; of one it does not hold yet, all that came. */
  ghost predicate TopOk(n: Net) {
    && (n.cursor.sessionId.Some? && n.cursor.sessionId.value in n.handled ==>
          var s := n.cursor.sessionId.value;
          && s in n.early && Top(n.handled[s]) == Max(n.early[s], n.cursor.lastSeq)
          && (s in n.hosted ==> n.hosted[s].announced))
    && (n.whose.Some? && n.whose.value in n.handled ==>
          var s := n.whose.value;
          if n.cursor.sessionId == Some(s) then n.cursor.lastSeq <= n.at && NoReady(n.down)
          else && Top(n.handled[s]) == |n.handled[s]| == n.at && OneReady(n.down)
               && (!NoReady(n.down) && s in n.hosted ==> n.hosted[s].announced))
  }

  lemma ReceiveKeepsTop(n: Net)
    requires NetOk(n) && TopOk(n) && n.conn.Some? && n.down != []
    ensures TopOk(Received(n))
  {
    hide Faithful, Covers, Top;
    var f := n.down[0];
    assert forall j :: 0 <= j < |n.down| - 1 ==> n.down[1..][j] == n.down[j + 1];
    if n.whose.Some? {
      var s := n.whose.value;
      assert Stream(n.down, s, n.at, n.histories[s]);
      if f.Dispatch? {
        TopGrows(n.handled[s], f.entry);
      }
    }
  }

  lemma IdentifyKeepsTop(n: Net, c: SocketId, id: SessionId)
    requires NetOk(n) && TopOk(n) && c in n.requests && n.requests[c].Identify? && NewSession(n, id)
    ensures TopOk(Identified(n, c, id))
  {
    hide Faithful, Covers, FeedOk;
  }

  lemma ResumeKeepsTop(n: Net, c: SocketId, valid: bool)
    requires NetOk(n) && TopOk(n) && c in n.requests && n.requests[c].Resume?
    ensures TopOk(ResumeServed(n, c, n.requests[c].sessionId, n.requests[c].seqNo, valid))
  {
    hide Faithful, Covers, FeedOk, Frames, Top;
    var s, a := n.requests[c].sessionId, n.requests[c].seqNo;
    if n.conn == Some(c) && Continues(n, s, a, valid) {
      ReplayHasNoReady(n.histories[s], a);
      assert n.down == [];
      assert n.down + Frames(Numbered(n.histories[s], a)) + [Resumed] == Frames(Numbered(n.histories[s], a)) + [Resumed];
    }
  }

  lemma EmitKeepsTop(n: Net, s: SessionId, event: Event, slow: bool)
    requires NetOk(n) && TopOk(n) && s in n.hosted && s in n.histories
    ensures TopOk(Emitted(n, s, event, slow))
  {
    hide Faithful, Covers, Stream, StreamEnd, Top;
    var m := Emitted(n, s, event, slow);
    if m.down != n.down {
      ReadyUnmoved(n.down, m.down[|n.down|]);
    }
  }

  lemma ReadyUnmoved(down: seq<Frame>, f: Frame)
    requires !f.Ready?
    ensures NoReady(down + [f]) <==> NoReady(down)
    ensures OneReady(down + [f]) <==> OneReady(down)
  {
    assert forall i :: 0 <= i < |down| ==> (down + [f])[i] == down[i];
  }

  lemma AnnounceKeepsTop(n: Net, s: SessionId)
    requires NetOk(n) && TopOk(n) && s in n.hosted && !n.hosted[s].announced
    ensures TopOk(Announced(n, s))
  {
    hide Faithful, Covers, Stream, StreamEnd, Top;
  }

  lemma StepKeepsTop(n: Net, a: Action, m: Net)
    requires NetOk(n) && TopOk(n) && Step(n, a, m)
    ensures TopOk(m)
  {
    hide Covers, Top;
    match a {
      case Receive => ReceiveKeepsTop(n);
      case Serve(c, valid) =>
        if n.requests[c].Identify? {
          var id: SessionId :| NewSession(n, id) && m == Identified(n, c, id);
          IdentifyKeepsTop(n, c, id);
        } else {
          ResumeKeepsTop(n, c, valid);
        }
      case Emit(s, event, slow) => EmitKeepsTop(n, s, event, slow);
      case Announce(s) => AnnounceKeepsTop(n, s);
      case _ =>
    }
  }

  lemma {:induction false} RunsKeepTop(n: Net, actions: seq<Action>, m: Net)
    requires NetOk(n) && TopOk(n) && Run(n, actions, m)
    ensures NetOk(m) && TopOk(m)
    decreases |actions|
  {
    hide NetOk, TopOk, Step;
    if actions != [] {
      var k :| Step(n, actions[0], k) && Run(k, actions[1..], m);
      StepKeeps(n, actions[0], k);
      StepKeepsTop(n, actions[0], k);
      RunsKeepTop(k, actions[1..], m);
    }
  }

  /** In every run: the number a client would offer is the highest it has handled
      of its session if and only if no more came before READY than has come up to it. */
  lemma OffersHighestExactly(actions: seq<Action>, n: Net)
    requires Run(START, actions, n) && n.cursor.sessionId.Some?
    ensures var s := n.cursor.sessionId.value;
            && s in n.handled && s in n.early
            && (n.cursor.lastSeq == Top(n.handled[s]) <==> n.early[s] <= n.cursor.lastSeq)
            && (n.early[s] > n.cursor.lastSeq ==> Top(n.handled[s]) == n.early[s])
  {
    hide Top;
    RunsKeepTop(START, actions, n);
  }

  /** And a RESUME the server can honour sends again something the client has
      handled if and only if more came before READY than has come up to the number offered. */
  lemma RepeatsExactly(actions: seq<Action>, n: Net, c: SocketId, valid: bool)
    requires Run(START, actions, n) && n.conn == Some(c) && c in n.requests && n.requests[c].Resume?
    requires Continues(n, n.requests[c].sessionId, n.requests[c].seqNo, valid)
    ensures var Resume(s, a) := n.requests[c];
            && s in n.handled && s in n.early
            && ((exists f :: f in Numbered(n.histories[s], a) && f in n.handled[s]) <==> n.early[s] > a)
  {
    RunsKeepTop(START, actions, n);
    var Resume(s, a) := n.requests[c];
    RepeatsAbove(n.handled[s], n.histories[s], a);
  }

  /** What a replay from `a` repeats is what was handled above `a`. */
  lemma RepeatsAbove(h: seq<Entry>, history: seq<Event>, a: nat)
    requires Faithful(h, history) && a <= |history|
    ensures (exists f :: f in Numbered(history, a) && f in h) <==> Top(h) > a
  {
    hide Top;
    TopIsHighest(h);
    if Top(h) > a {
      var i :| 0 <= i < |h| && h[i].s == Top(h);
      assert Numbered(history, a)[h[i].s - a - 1] == h[i];
      assert h[i] in Numbered(history, a) && h[i] in h;
    }
  }

  // ── No event before READY ─────────────────────────────────────────────────

  /** The events of a session, each once and in order. */
  predicate Orderly(h: seq<Entry>) {
    forall i :: 0 <= i < |h| ==> h[i].s == i + 1
  }

  /** READY comes before every event of the stream it starts. */
  predicate ReadyFirst(down: seq<Frame>, at: nat) {
    forall j :: 0 <= j < |down| && down[j].Ready? ==> at == 0 && forall i :: 0 <= i < j ==> !down[i].Dispatch?
  }

  ghost predicate OrderlyOk(n: Net) {
    && (forall s :: s in n.handled ==> Orderly(n.handled[s]))
    && (forall s :: s in n.hosted && !n.hosted[s].announced && s in n.histories ==> n.histories[s] == [])
    && (n.cursor.sessionId.Some? ==>
          var s := n.cursor.sessionId.value;
          && (s in n.handled ==> n.cursor.lastSeq == |n.handled[s]|)
          && (s in n.hosted ==> n.hosted[s].announced))
    && (n.whose.Some? ==>
          var s := n.whose.value;
          && (s in n.handled ==> n.at == |n.handled[s]|)
          && ReadyFirst(n.down, n.at)
          && (Ready(s) in n.down && s in n.hosted ==> n.hosted[s].announced))
  }

  /** The server dispatches to a session only once its READY has gone out. */
  predicate Prompt(n: Net, a: Action) {
    a.Emit? && a.session in n.hosted ==> n.hosted[a.session].announced
  }

  lemma {:induction false} EmptyHistoryStreamsNothing(down: seq<Frame>, s: SessionId, at: nat)
    requires Stream(down, s, at, [])
    ensures at == 0 && forall i :: 0 <= i < |down| ==> !down[i].Dispatch?
    decreases |down|
  {
    if down != [] {
      EmptyHistoryStreamsNothing(down[1..], s, at);
      forall i | 0 <= i < |down|
        ensures !down[i].Dispatch?
      {
        if i > 0 {
          assert down[i] == down[1..][i - 1];
        }
      }
    }
  }

  lemma {:induction false} FramesAreDispatches(entries: seq<Entry>)
    ensures forall i :: 0 <= i < |Frames(entries)| ==> Frames(entries)[i].Dispatch?
  {
    if entries != [] {
      FramesAreDispatches(entries[1..]);
    }
  }

  lemma ReceiveOrderly(n: Net)
    requires NetOk(n) && OrderlyOk(n) && n.conn.Some? && n.down != []
    ensures OrderlyOk(Received(n))
  {
    hide NetOk, Stream;
    var f := n.down[0];
    assert forall j :: 0 <= j < |n.down| - 1 ==> n.down[1..][j] == n.down[j + 1];
    if n.whose.Some? {
      FedBy(n);
      hide HandledOk;
      assert f.Ready? ==> n.at == 0 && n.down[0] == Ready(n.whose.value);
      assert f.Dispatch? ==> forall j :: 0 <= j < |n.down| ==> !n.down[j].Ready?;
    } else {
      UnfedBrings(n);
    }
  }

  lemma IdentifyOrderly(n: Net, c: SocketId, id: SessionId)
    requires NetOk(n) && OrderlyOk(n) && c in n.requests && n.requests[c].Identify? && NewSession(n, id)
    ensures OrderlyOk(Identified(n, c, id))
  {
    hide Faithful, Covers, FeedOk;
  }

  lemma ReplayHasNoReady(history: seq<Event>, a: nat)
    requires a <= |history|
    ensures forall j :: 0 <= j < |Frames(Numbered(history, a)) + [Resumed]| ==> !(Frames(Numbered(history, a)) + [Resumed])[j].Ready?
  {
    FramesAreDispatches(Numbered(history, a));
  }

  lemma ResumeOrderly(n: Net, c: SocketId, valid: bool)
    requires NetOk(n) && OrderlyOk(n) && c in n.requests && n.requests[c].Resume?
    ensures OrderlyOk(ResumeServed(n, c, n.requests[c].sessionId, n.requests[c].seqNo, valid))
  {
    hide Faithful, Covers, FeedOk, Frames;
    var s, a := n.requests[c].sessionId, n.requests[c].seqNo;
    if n.conn == Some(c) && Continues(n, s, a, valid) {
      ReplayHasNoReady(n.histories[s], a);
      assert n.down == [];
      assert n.down + Frames(Numbered(n.histories[s], a)) + [Resumed] == Frames(Numbered(n.histories[s], a)) + [Resumed];
    }
  }

  lemma EmitOrderly(n: Net, s: SessionId, event: Event, slow: bool)
    requires NetOk(n) && OrderlyOk(n) && s in n.hosted && s in n.histories && n.hosted[s].announced
    ensures OrderlyOk(Emitted(n, s, event, slow))
  {
    hide Faithful, Covers, Stream, StreamEnd;
    var m := Emitted(n, s, event, slow);
    assert ReadyFirst(n.down, n.at) && n.whose.Some? ==> ReadyFirst(m.down, m.at);
  }

  lemma AnnounceOrderly(n: Net, s: SessionId)
    requires NetOk(n) && OrderlyOk(n) && s in n.hosted && !n.hosted[s].announced
    ensures OrderlyOk(Announced(n, s))
  {
    hide Faithful, Covers, StreamEnd;
    if n.conn.Some? && n.whose == Some(s) {
      EmptyHistoryStreamsNothing(n.down, s, n.at);
    }
  }

  lemma StepOrderly(n: Net, a: Action, m: Net)
    requires NetOk(n) && OrderlyOk(n) && Step(n, a, m) && Prompt(n, a)
    ensures OrderlyOk(m)
  {
    hide Covers;
    match a {
      case Receive => ReceiveOrderly(n);
      case Serve(c, valid) =>
        if n.requests[c].Identify? {
          var id: SessionId :| NewSession(n, id) && m == Identified(n, c, id);
          IdentifyOrderly(n, c, id);
        } else {
          ResumeOrderly(n, c, valid);
        }
      case Emit(s, event, slow) => EmitOrderly(n, s, event, slow);
      case Announce(s) => AnnounceOrderly(n, s);
      case _ =>
    }
  }

  ghost predicate PromptRun(n: Net, actions: seq<Action>, m: Net)
    decreases |actions|
  {
    if actions == [] then m == n
    else exists k :: Step(n, actions[0], k) && Prompt(n, actions[0]) && PromptRun(k, actions[1..], m)
  }

  lemma {:induction false} PromptRunsKeep(n: Net, actions: seq<Action>, m: Net)
    requires NetOk(n) && OrderlyOk(n) && PromptRun(n, actions, m)
    ensures NetOk(m) && OrderlyOk(m)
    decreases |actions|
  {
    hide NetOk, OrderlyOk, Step, Prompt;
    if actions != [] {
      var k :| Step(n, actions[0], k) && Prompt(n, actions[0]) && PromptRun(k, actions[1..], m);
      StepKeeps(n, actions[0], k);
      StepOrderly(n, actions[0], k);
      PromptRunsKeep(k, actions[1..], m);
    }
  }

  /** When no event precedes its READY, no session's event is handled twice, and
      the client has handled exactly the events up to the number it would offer. */
  lemma NothingRepeated(actions: seq<Action>, n: Net)
    requires PromptRun(START, actions, n)
    ensures forall s :: s in n.handled ==> Orderly(n.handled[s])
    ensures n.cursor.sessionId.Some? ==>
              n.cursor.sessionId.value in n.handled && n.cursor.lastSeq == |n.handled[n.cursor.sessionId.value]|
  {
    PromptRunsKeep(START, actions, n);
  }

  // ── An event before READY can be handled twice ────────────────────────────

  lemma RunsCompose(n: Net, a: Action, k: Net, rest: seq<Action>, m: Net)
    requires Step(n, a, k) && Run(k, rest, m)
    ensures Run(n, [a] + rest, m)
  {
    assert ([a] + rest)[1..] == rest;
  }

  function Riding(e: Event): Net {
    Net(map[0 := []], map[0 := Hosted(Some(0), false)], map[], 1, Cursor(None, 0), Some(0), [], Some(0), 0, map[0 := []], map[])
  }

  function ReadyAfterEvent(e: Event): Net {
    Net(map[0 := [e]], map[0 := Hosted(Some(0), true)], map[], 1, Cursor(Some(0), 0), Some(0), [], Some(0), 1,
        map[0 := [Entry(1, e)]], map[0 := 1])
  }

  lemma SessionOpens(e: Event, rest: seq<Action>, m: Net)
    requires Run(Riding(e), rest, m)
    ensures Run(START, [Connect] + ([Receive] + ([Serve(0, true)] + rest)), m)
  {
    var n1 := START.(conn := Some(0), sockets := 1, down := [Hello]);
    var n2 := Received(n1);
    assert n2.requests == map[0 := Identify] && n2.down == [];
    assert NewSession(n2, 0) && Riding(e) == Identified(n2, 0, 0);
    RunsCompose(n2, Serve(0, true), Riding(e), rest, m);
    RunsCompose(n1, Receive, n2, [Serve(0, true)] + rest, m);
    RunsCompose(START, Connect, n1, [Receive] + ([Serve(0, true)] + rest), m);
  }

  lemma EventOvertakesReady(e: Event, rest: seq<Action>, m: Net)
    requires Run(ReadyAfterEvent(e), rest, m)
    ensures Run(Riding(e), [Emit(0, e, false)] + ([Announce(0)] + ([Receive] + ([Receive] + rest))), m)
  {
    var n4 := Riding(e).(histories := map[0 := [e]], down := [Dispatch(Entry(1, e))]);
    assert Riding(e).histories[0] + [e] == [e];
    assert n4 == Emitted(Riding(e), 0, e, false);
    var n5 := n4.(hosted := map[0 := Hosted(Some(0), true)], down := [Dispatch(Entry(1, e)), Ready(0)]);
    assert n5 == Announced(n4, 0);
    var n6 := ReadyAfterEvent(e).(cursor := Cursor(None, 1), down := [Ready(0)], early := map[]);
    assert n5.down[1..] == [Ready(0)] && n5.handled[0] + [Entry(1, e)] == [Entry(1, e)];
    assert n6 == Received(n5);
    assert Received(n6) == ReadyAfterEvent(e);
    RunsCompose(n6, Receive, ReadyAfterEvent(e), rest, m);
    RunsCompose(n5, Receive, n6, [Receive] + rest, m);
    RunsCompose(n4, Announce(0), n5, [Receive] + ([Receive] + rest), m);
    RunsCompose(Riding(e), Emit(0, e, false), n4, [Announce(0)] + ([Receive] + ([Receive] + rest)), m);
  }

  /** The client back on a new socket, its RESUME sent. */
  function Asking(e: Event): Net {
    ReadyAfterEvent(e).(conn := Some(1), sockets := 2, down := [], whose := None, at := 0, requests := map[1 := Resume(0, 0)])
  }

  function Replayed(e: Event): Net {
    ReadyAfterEvent(e).(conn := Some(1), sockets := 2, hosted := map[0 := Hosted(Some(1), true)],
                        down := [Dispatch(Entry(1, e)), Resumed], whose := Some(0), at := 0)
  }

  lemma AskingIsServed(e: Event)
    ensures ResumeServed(Asking(e), 1, 0, 0, true) == Replayed(e)
  {
    assert Numbered(Asking(e).histories[0], 0) == [Entry(1, e)];
    assert Frames([Entry(1, e)]) == [Dispatch(Entry(1, e))];
  }

  lemma ResumeRepeats(e: Event) returns (m: Net)
    ensures Run(ReadyAfterEvent(e), [Connect] + ([Receive] + ([Serve(1, true)] + ([Receive] + []))), m)
    ensures 0 in m.handled && m.handled[0] == [Entry(1, e), Entry(1, e)]
  {
    hide Run, ResumeServed;
    AskingIsServed(e);
    var n8 := Disconnected(ReadyAfterEvent(e)).(conn := Some(1), sockets := 2, down := [Hello]);
    assert Received(n8) == Asking(e);
    m := Received(Replayed(e));
    NothingRuns(m);
    RunsCompose(Replayed(e), Receive, m, [], m);
    RunsCompose(Asking(e), Serve(1, true), Replayed(e), [Receive] + [], m);
    RunsCompose(n8, Receive, Asking(e), [Serve(1, true)] + ([Receive] + []), m);
    RunsCompose(ReadyAfterEvent(e), Connect, n8, [Receive] + ([Serve(1, true)] + ([Receive] + [])), m);
  }

  lemma NothingRuns(n: Net)
    ensures Run(n, [], n)
  {
  }

  /** READY sets the number the client offers back to zero, so a socket lost
      right after it has the events that came before READY handled again. */
  lemma EarlyEventIsHandledTwice(e: Event) returns (actions: seq<Action>, m: Net)
    ensures Run(START, actions, m) && 0 in m.handled && m.handled[0] == [Entry(1, e), Entry(1, e)]
  {
    hide Run;
    m := ResumeRepeats(e);
    actions := [Connect] + ([Receive] + ([Serve(1, true)] + ([Receive] + [])));
    EventOvertakesReady(e, actions, m);
    actions := [Emit(0, e, false)] + ([Announce(0)] + ([Receive] + ([Receive] + actions)));
    SessionOpens(e, actions, m);
    actions := [Connect] + ([Receive] + ([Serve(0, true)] + actions));
  }
}
