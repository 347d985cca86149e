/**
 * Every run of the gateway client: connecting, closing, pausing and signing out,
 * with whatever frames arrive and whatever the app sends, in any order.
 */
module ClientRuns {
  import opened GatewayClient
  import opened GatewaySession
  import opened Wrappers

  // ── Every run of them ─────────────────────────────────────────────────────

  datatype Action =
    | Connect
    | Ticket(epoch: nat, issued: bool)
    | Receive(frame: Frame)
    | Flush
    | Send(payload: string)
    | SubscribeTo(conversation: string)
    | Close(socket: nat, code: int)
    | Disconnect(forgetting: bool)
    | Reconnect
    | Stall

  /** Frames come from an open socket, and nothing is flushed before the handshake. */
  function After(v: View, a: Action): View {
    match a
    case Connect => Began(v)
    case Ticket(epoch, issued) => Ticketed(v, epoch, issued)
    case Receive(frame) => if v.socket.Some? then Heard(v, frame) else v
    case Flush => if v.handshook then Flushed(v) else v
    case Send(payload) => Commanded(v, payload)
    case SubscribeTo(conversation) => Wanted(v, conversation)
    case Close(socket, code) => Closed(v, socket, code)
    case Disconnect(forgetting) => Left(v, forgetting)
    case Reconnect => Restarted(v)
    case Stall => Stalled(v)
  }

  function Run(v: View, actions: seq<Action>): View {
    if actions == [] then v else After(Run(v, actions[..|actions| - 1]), actions[|actions| - 1])
  }

  lemma HearingKeepsOk(v: View, f: Frame)
    requires Ok(v) && v.socket.Some?
    ensures Ok(Heard(v, f))
  {
    hide Once, OnlyCommands;
    if f.Ready? {
      CommandsAreNoHandshakes(Subscribes(v.subscriptions), v.outbox);
    } else if f.Resumed? {
      CommandsAreNoHandshakes([], v.outbox);
    }
  }

  lemma CommandsAreNoHandshakes(asks: seq<Written>, queue: seq<Written>)
    requires OnlyCommands(queue) && forall i :: 0 <= i < |asks| ==> asks[i].Subscribe?
    ensures NoHandshake(asks + queue) && OnlyCommands([])
  {
  }

  lemma FlushingKeepsOk(v: View)
    requires Ok(v) && v.handshook
    ensures Ok(Flushed(v))
  {
    hide Once, OnlyCommands, OnlyHandshakes;
  }

  lemma AskingKeepsOk(v: View, payload: string, conversation: string)
    requires Ok(v)
    ensures Ok(Commanded(v, payload)) && Ok(Wanted(v, conversation))
  {
    hide NoHandshake;
  }

  lemma EndingKeepsOk(v: View, socket: nat, code: int, forgetting: bool)
    requires Ok(v)
    ensures Ok(Closed(v, socket, code)) && Ok(Left(v, forgetting)) && Ok(Stalled(v)) && Ok(TornDown(v))
  {
  }

  lemma StepKeeps(v: View, a: Action)
    requires Ok(v)
    ensures Ok(After(v, a))
  {
    hide OnlyCommands, NoHandshake, OnlyHandshakes, Once, Heard, Flushed, Commanded, Wanted, Closed, Left, Stalled, TornDown;
    match a
    case Receive(frame) =>
      if v.socket.Some? {
        HearingKeepsOk(v, frame);
      }
    case Flush =>
      if v.handshook {
        FlushingKeepsOk(v);
      }
    case Send(payload) => AskingKeepsOk(v, payload, "");
    case SubscribeTo(conversation) => AskingKeepsOk(v, "", conversation);
    case Close(socket, code) => EndingKeepsOk(v, socket, code, false);
    case Disconnect(forgetting) => EndingKeepsOk(v, 0, 0, forgetting);
    case _ => EndingKeepsOk(v, 0, 0, false);
  }

  lemma {:induction false} RunsKeep(v: View, actions: seq<Action>)
    requires Ok(v)
    ensures Ok(Run(v, actions))
  {
    if actions != [] {
      RunsKeep(v, actions[..|actions| - 1]);
      StepKeeps(Run(v, actions[..|actions| - 1]), actions[|actions| - 1]);
    }
  }

  // ── Sockets and the handshake ─────────────────────────────────────────────

  ghost predicate OpenedBy(actions: seq<Action>, epoch: nat) {
    exists j :: 0 <= j <= |actions| && Run(START, actions[..j]).socket == Some(epoch)
  }

  /** READY or RESUMED comes on `v`'s socket. */
  predicate Acknowledges(v: View, a: Action) {
    a.Receive? && (a.frame.Ready? || a.frame.Resumed?) && v.socket.Some?
  }

  ghost predicate AcknowledgedOn(actions: seq<Action>, epoch: nat) {
    exists j :: 0 <= j < |actions| && Acknowledges(Run(START, actions[..j]), actions[j])
                && Run(START, actions[..j]).socket == Some(epoch)
  }

  lemma OpenedGrows(actions: seq<Action>, epoch: nat)
    requires actions != []
    ensures OpenedBy(actions, epoch) <==>
              OpenedBy(actions[..|actions| - 1], epoch) || Run(START, actions).socket == Some(epoch)
  {
    hide Run;
    var before := actions[..|actions| - 1];
    assert actions[..|actions|] == actions;
    forall j | 0 <= j <= |before| ensures before[..j] == actions[..j] {}
  }

  lemma AcknowledgedGrows(actions: seq<Action>, epoch: nat)
    requires actions != []
    ensures var before := actions[..|actions| - 1];
            AcknowledgedOn(actions, epoch) <==>
              AcknowledgedOn(before, epoch)
              || (Acknowledges(Run(START, before), actions[|actions| - 1]) && Run(START, before).socket == Some(epoch))
  {
    hide Run, Acknowledges;
    var before := actions[..|actions| - 1];
    forall j | 0 <= j <= |before| ensures before[..j] == actions[..j] {}
  }

  /** Every socket has a stamp of its own: one attempt opens at most one, and an
      attempt that may still open one has opened none. */
  lemma {:induction false} StampsAreFresh(actions: seq<Action>)
    ensures var v := Run(START, actions);
            && (forall e: nat :: OpenedBy(actions, e) ==> e <= v.generation)
            && (v.connecting.Some? ==> !OpenedBy(actions, v.generation))
  {
    if actions == [] {
      assert actions[..0] == [];
    } else {
      var before := actions[..|actions| - 1];
      var last := actions[|actions| - 1];
      StampsAreFresh(before);
      RunsKeep(START, before);
      forall e: nat ensures OpenedBy(actions, e) <==> OpenedBy(before, e) || Run(START, actions).socket == Some(e) {
        OpenedGrows(actions, e);
      }
      SocketsMove(Run(START, before), last);
      assert before[..|before|] == before;
    }
  }

  lemma SocketsMove(v: View, a: Action)
    requires Ok(v)
    ensures var w := After(v, a);
            && w.generation >= v.generation
            && (w.socket.None? || w.socket == v.socket || (w.socket == v.connecting == Some(w.generation) && !w.handshook))
            && (w.connecting.Some? ==> w.socket.None? && (w.connecting == v.connecting || w.generation == v.generation + 1))
            && (w.handshook <==> w.socket.Some? && w.socket == v.socket && (v.handshook || Acknowledges(v, a)))
  {
    hide OnlyCommands, NoHandshake, OnlyHandshakes, Once;
  }

  /** In every run nothing but a handshake is written on a socket before READY or
      RESUMED has come on that very socket. */
  lemma {:induction false} CommandsFollowHandshake(actions: seq<Action>)
    ensures var v := Run(START, actions);
            && (v.handshook <==> v.socket.Some? && AcknowledgedOn(actions, v.socket.value))
            && ((exists w :: w in v.written && !w.Handshake?) ==> v.handshook)
  {
    hide After, Acknowledges;
    RunsKeep(START, actions);
    if actions != [] {
      var before := actions[..|actions| - 1];
      var last := actions[|actions| - 1];
      var v := Run(START, actions);
      CommandsFollowHandshake(before);
      RunsKeep(START, before);
      StampsAreFresh(before);
      SocketsMove(Run(START, before), last);
      if v.socket.Some? {
        AcknowledgedGrows(actions, v.socket.value);
      }
    }
  }

  lemma {:induction false} OpenIsWanted(actions: seq<Action>)
    ensures Run(START, actions).socket.Some? ==> !Run(START, actions).intentionalClose
    ensures Run(START, actions).connecting.Some? ==> !Run(START, actions).intentionalClose
  {
    if actions != [] {
      OpenIsWanted(actions[..|actions| - 1]);
      KeepsWanted(Run(START, actions[..|actions| - 1]), actions[|actions| - 1]);
    }
  }

  lemma KeepsWanted(v: View, a: Action)
    requires v.socket.Some? || v.connecting.Some? ==> !v.intentionalClose
    ensures After(v, a).socket.Some? || After(v, a).connecting.Some? ==> !After(v, a).intentionalClose
  {
  }

  // ── The session ───────────────────────────────────────────────────────────

  /** The server names a session, or takes it back, or a code says the two ends disagree, or the app signs out. */
  predicate Replaces(v: View, a: Action) {
    || (a.Receive? && v.socket.Some? && (a.frame.Ready? || a.frame.InvalidSession?))
    || (a.Close? && v.socket == Some(a.socket) && 4011 <= a.code <= 4013)
    || a == Disconnect(true)
  }

  ghost predicate Named(actions: seq<Action>, id: SessionId) {
    exists j :: 0 <= j < |actions| && actions[j] == Receive(Ready(id)) && Run(START, actions[..j]).socket.Some?
                && forall k :: j < k < |actions| ==> !Replaces(Run(START, actions[..k]), actions[k])
  }

  lemma NamedGrows(actions: seq<Action>, id: SessionId)
    requires actions != []
    ensures var before := actions[..|actions| - 1];
            var v := Run(START, before);
            var last := actions[|actions| - 1];
            Named(actions, id) <==>
              (last == Receive(Ready(id)) && v.socket.Some?) || (!Replaces(v, last) && Named(before, id))
  {
    hide Run, Replaces;
    var before := actions[..|actions| - 1];
    forall j | 0 <= j <= |before| ensures before[..j] == actions[..j] {}
  }

  /** In every run the client holds exactly the session the server last named,
      through any pauses and closes, until something replaces it. */
  lemma {:induction false} HoldsLastNamed(actions: seq<Action>, id: SessionId)
    ensures Run(START, actions).cursor.sessionId == Some(id) <==> Named(actions, id)
  {
    if actions != [] {
      hide Named, Replaces, After;
      HoldsLastNamed(actions[..|actions| - 1], id);
      NamedGrows(actions, id);
      OpenIsWanted(actions[..|actions| - 1]);
      SessionMoves(Run(START, actions[..|actions| - 1]), actions[|actions| - 1], id);
    }
  }

  lemma SessionMoves(v: View, a: Action, id: SessionId)
    requires v.socket.Some? ==> !v.intentionalClose
    ensures After(v, a).cursor.sessionId == Some(id) <==>
              (a == Receive(Ready(id)) && v.socket.Some?) || (!Replaces(v, a) && v.cursor.sessionId == Some(id))
  {
  }

  /** What a close decides: whether the client gives up, and what its next socket says first. */
  lemma CloseDecides(v: View, code: int)
    requires v.socket.Some? && !v.intentionalClose
    ensures var w := Closed(v, v.socket.value, code);
            var next := Heard(Ticketed(Began(w), v.generation + 1, true), Hello);
            && w.state == (if code == 4010 || code >= 4014 then FatalState else Disconnected)
            && next.socket == Some(v.generation + 1) && !next.handshook
            && next.written == [Handshake(if 4011 <= code <= 4013 || v.cursor.sessionId.None? then Identify
                                          else Resume(v.cursor.sessionId.value, v.cursor.lastSeq))]
  {
  }

  // ── What the app asked for ────────────────────────────────────────────────

  /** Asked for, and not forgotten since. */
  ghost predicate Asked(actions: seq<Action>, conversation: string) {
    exists j :: 0 <= j < |actions| && actions[j] == SubscribeTo(conversation)
                && forall k :: j < k < |actions| ==> actions[k] != Disconnect(true)
  }

  lemma AskedGrows(actions: seq<Action>, conversation: string)
    requires actions != []
    ensures var last := actions[|actions| - 1];
            Asked(actions, conversation) <==>
              last == SubscribeTo(conversation) || (last != Disconnect(true) && Asked(actions[..|actions| - 1], conversation))
  {
  }

  /** In every run the client wants exactly what it was asked for since it last
      forgot everything: no close, pause or frame takes a conversation away. */
  lemma {:induction false} WantsExactly(actions: seq<Action>, conversation: string)
    ensures conversation in Run(START, actions).subscriptions <==> Asked(actions, conversation)
  {
    if actions != [] {
      WantsExactly(actions[..|actions| - 1], conversation);
      AskedGrows(actions, conversation);
    }
  }

  /** After every run, READY sends each conversation asked for, once, and then what was waiting. */
  lemma ReadyAsksAgain(actions: seq<Action>, id: SessionId, conversation: string)
    requires Run(START, actions).socket.Some?
    ensures var v := Run(START, actions);
            var w := Run(START, actions + [Receive(Ready(id))]);
            && w.handshook && w.outbox == []
            && (Subscribe(conversation) in w.flushing <==> Asked(actions, conversation))
            && (forall i, j :: 0 <= i < j < |w.flushing| && w.flushing[i] == Subscribe(conversation) ==>
                  w.flushing[j] != Subscribe(conversation))
            && |v.outbox| <= |w.flushing| && w.flushing[|w.flushing| - |v.outbox|..] == v.outbox
  {
    var v := Run(START, actions);
    var longer := actions + [Receive(Ready(id))];
    assert longer[..|longer| - 1] == actions;
    RunsKeep(START, actions);
    WantsExactly(actions, conversation);
    AsksEach(v.subscriptions, v.outbox, conversation);
  }

  lemma AsksEach(wanted: seq<string>, waiting: seq<Written>, conversation: string)
    requires OnlyCommands(waiting)
    ensures Subscribe(conversation) in Subscribes(wanted) + waiting <==> conversation in wanted
    ensures forall c :: Subscribe(c) in Subscribes(wanted) + waiting <==> c in wanted
    ensures Once(wanted) ==> SubscribesOnce(Subscribes(wanted) + waiting)
  {
    var all := Subscribes(wanted) + waiting;
    forall c ensures Subscribe(c) in all <==> c in wanted {
      if c in wanted {
        var i :| 0 <= i < |wanted| && wanted[i] == c;
        assert all[i] == Subscribe(c);
      }
      if Subscribe(c) in all {
        var i :| 0 <= i < |all| && all[i] == Subscribe(c);
        assert i < |wanted|;
      }
    }
  }

  ghost predicate SubscribesOnce(queue: seq<Written>) {
    forall i, j :: 0 <= i < j < |queue| && queue[i].Subscribe? ==> queue[i] != queue[j]
  }

  // ── What waits, and what is written ───────────────────────────────────────

  function Payloads(actions: seq<Action>): seq<Written> {
    if actions == [] then []
    else
      Payloads(actions[..|actions| - 1])
      + if actions[|actions| - 1].Send? then [Command(actions[|actions| - 1].payload)] else []
  }

  /** The last 64 of them, or all when they are fewer. */
  ghost predicate Latest(queue: seq<Written>, all: seq<Written>) {
    |queue| == (if |all| > 64 then 64 else |all|) && queue == all[|all| - |queue|..]
  }

  lemma LatestSlides(queue: seq<Written>, all: seq<Written>, w: Written)
    requires Latest(queue, all)
    ensures Latest(Newest(queue + [w]), all + [w])
  {
    assert queue + [w] == (all + [w])[|all| - |queue|..];
  }

  lemma FewAreLatest(v: View)
    requires Ok(v)
    ensures Latest(v.outbox, v.outbox)
  {
  }

  /** Until the handshake the newest 64 commands wait, in the order they were sent. */
  lemma {:induction false} NewestWait(v: View, actions: seq<Action>)
    requires Ok(v) && !v.handshook
    requires forall a :: a in actions ==> !a.Disconnect? && !(a.Receive? && (a.frame.Ready? || a.frame.Resumed?))
    ensures !Run(v, actions).handshook && Latest(Run(v, actions).outbox, v.outbox + Payloads(actions))
  {
    hide Ok, Latest, Newest;
    if actions == [] {
      FewAreLatest(v);
      assert v.outbox + [] == v.outbox;
    } else {
      var before := actions[..|actions| - 1];
      var last := actions[|actions| - 1];
      var all := v.outbox + Payloads(before);
      NewestWait(v, before);
      if last.Send? {
        LatestSlides(Run(v, before).outbox, all, Command(last.payload));
        assert v.outbox + Payloads(actions) == all + [Command(last.payload)];
      } else {
        assert Payloads(actions) == Payloads(before);
      }
    }
  }

  function Flushes(n: nat): (actions: seq<Action>)
    ensures |actions| == n && forall a :: a in actions ==> a == Flush
  {
    if n == 0 then [] else Flushes(n - 1) + [Flush]
  }

  lemma FlushedTakesTwenty(v: View)
    ensures var w := Flushed(v);
            && w.written + w.flushing == v.written + v.flushing && w == v.(written := w.written, flushing := w.flushing)
            && |w.flushing| == (if |v.flushing| <= 20 then 0 else |v.flushing| - 20)
  {
  }

  lemma FlushingOnce(v: View, n: nat)
    requires n > 0 && Run(v, Flushes(n - 1)).handshook
    ensures Run(v, Flushes(n)) == Flushed(Run(v, Flushes(n - 1)))
  {
    assert Flushes(n)[..n - 1] == Flushes(n - 1);
  }

  /** At twenty frames a second everything queued at the handshake is written, in order. */
  lemma {:induction false} AllIsWritten(v: View, n: nat)
    requires v.handshook
    ensures var w := Run(v, Flushes(n));
            && w.written + w.flushing == v.written + v.flushing && w == v.(written := w.written, flushing := w.flushing)
            && |w.flushing| == (if |v.flushing| <= 20 * n then 0 else |v.flushing| - 20 * n)
  {
    hide Run, Flushes;
    if n == 0 {
      NothingRuns(v);
    } else {
      AllIsWritten(v, n - 1);
      FlushingOnce(v, n);
    }
  }

  lemma NothingRuns(v: View)
    ensures Run(v, Flushes(0)) == v
  {
  }

  // ── What the server's session was told ────────────────────────────────────

  /** A new server session, or a client that has forgotten everything. */
  predicate Renews(v: View, a: Action) {
    (a.Receive? && a.frame.Ready? && v.socket.Some?) || a == Disconnect(true)
  }

  function AskedFor(v: View, w: View): set<string> {
    set i | |v.written| <= i < |w.written| && w.written[i].Subscribe? :: w.written[i].conversation
  }

  /** The conversations asked for, on any socket, since the server's session began. */
  ghost function Told(actions: seq<Action>): set<string> {
    if actions == [] then {}
    else
      var v := Run(START, actions[..|actions| - 1]);
      var last := actions[|actions| - 1];
      if Renews(v, last) then {} else Told(actions[..|actions| - 1]) + AskedFor(v, After(v, last))
  }

  /** What still has to be said is wanted, and has neither been said nor is to be said twice. */
  ghost predicate InHand(v: View, told: set<string>) {
    && SubscribesOnce(v.flushing)
    && (forall c :: Subscribe(c) in v.flushing ==> c in v.subscriptions && c !in told)
    && (forall c :: c in told ==> c in v.subscriptions)
  }

  /** The client wants it, and neither has told the session nor is about to. */
  ghost predicate Missing(v: View, told: set<string>, conversation: string) {
    conversation in v.subscriptions && conversation !in told && Subscribe(conversation) !in v.flushing
  }

  /** Asked for while no handshake stands, or cut off before it was written. */
  predicate Drops(v: View, a: Action, conversation: string) {
    || (a == SubscribeTo(conversation) && !v.handshook && conversation !in v.subscriptions)
    || (Subscribe(conversation) in v.flushing
        && ((a.Close? && v.socket == Some(a.socket)) || a.Disconnect? || a.Reconnect? || (a.Stall? && v.state == Connecting)
            || (a.Receive? && a.frame.Resumed? && v.socket.Some?)))
  }

  ghost predicate Dropped(actions: seq<Action>, conversation: string) {
    exists j :: 0 <= j < |actions| && Drops(Run(START, actions[..j]), actions[j], conversation)
                && forall k :: j <= k < |actions| ==> !Renews(Run(START, actions[..k]), actions[k])
  }

  lemma DroppedGrows(actions: seq<Action>, conversation: string)
    requires actions != []
    ensures var before := actions[..|actions| - 1];
            var v := Run(START, before);
            var last := actions[|actions| - 1];
            Dropped(actions, conversation) <==> !Renews(v, last) && (Dropped(before, conversation) || Drops(v, last, conversation))
  {
    hide Run, Renews, Drops;
    var before := actions[..|actions| - 1];
    forall j | 0 <= j <= |before| ensures before[..j] == actions[..j] {}
  }

  lemma AskedForIs(v: View, w: View, more: seq<Written>)
    requires w.written == v.written + more || (w.written == [] && more == [])
    ensures forall c :: c in AskedFor(v, w) <==> Subscribe(c) in more
  {
    forall c ensures c in AskedFor(v, w) <==> Subscribe(c) in more {
      if Subscribe(c) in more {
        var i :| 0 <= i < |more| && more[i] == Subscribe(c);
        assert w.written[|v.written| + i] == Subscribe(c);
      }
      if c in AskedFor(v, w) {
        var i :| |v.written| <= i < |w.written| && w.written[i].Subscribe? && w.written[i].conversation == c;
        assert more[i - |v.written|] == Subscribe(c);
      }
    }
  }

  lemma FlushingKeeps(v: View, told: set<string>, conversation: string)
    requires Ok(v) && InHand(v, told) && v.handshook
    ensures var w := Flushed(v);
            InHand(w, told + AskedFor(v, w))
            && (Missing(w, told + AskedFor(v, w), conversation) <==> Missing(v, told, conversation))
  {
    hide Ok, AskedFor;
    var n := if |v.flushing| < FLUSH_CHUNK then |v.flushing| else FLUSH_CHUNK;
    AskedForIs(v, Flushed(v), v.flushing[..n]);
    assert v.flushing == v.flushing[..n] + v.flushing[n..];
    assert forall c :: Subscribe(c) in v.flushing <==> Subscribe(c) in v.flushing[..n] || Subscribe(c) in v.flushing[n..];
  }

  lemma WantingKeeps(v: View, told: set<string>, asked: string, conversation: string)
    requires Ok(v) && InHand(v, told)
    ensures var w := Wanted(v, asked);
            InHand(w, told + AskedFor(v, w))
            && (Missing(w, told + AskedFor(v, w), conversation) <==>
                  Missing(v, told, conversation) || Drops(v, SubscribeTo(asked), conversation))
  {
    hide AskedFor;
    AskedForIs(v, Wanted(v, asked), if v.handshook && asked !in v.subscriptions then [Subscribe(asked)] else []);
  }

  lemma HearingKeeps(v: View, told: set<string>, f: Frame, conversation: string)
    requires Ok(v) && InHand(v, told) && v.socket.Some?
    ensures var w := Heard(v, f);
            var after := if f.Ready? then {} else told + AskedFor(v, w);
            && InHand(w, after)
            && (Missing(w, after, conversation) <==>
                  !f.Ready? && (Missing(v, told, conversation) || (f.Resumed? && Subscribe(conversation) in v.flushing)))
  {
    hide AskedFor, OnlyHandshakes, NoHandshake;
    if f.Ready? {
      AsksEach(v.subscriptions, v.outbox, conversation);
    } else {
      AskedForIs(v, Heard(v, f), if f.Hello? then [Handshake(Greeting(v.cursor))] else []);
    }
  }

  lemma EndingKeeps(v: View, told: set<string>, w: View, conversation: string)
    requires InHand(v, told) && w.flushing == [] && w.written == [] && w.subscriptions == v.subscriptions
    ensures InHand(w, told + AskedFor(v, w))
    ensures Missing(w, told + AskedFor(v, w), conversation) <==>
              Missing(v, told, conversation) || Subscribe(conversation) in v.flushing
  {
    hide AskedFor;
    AskedForIs(v, w, []);
  }

  lemma RestKeeps(v: View, told: set<string>, w: View, more: seq<Written>, conversation: string)
    requires InHand(v, told) && w.flushing == v.flushing && w.subscriptions == v.subscriptions
    requires w.written == v.written + more && forall i :: 0 <= i < |more| ==> !more[i].Subscribe?
    ensures InHand(w, told + AskedFor(v, w))
    ensures Missing(w, told + AskedFor(v, w), conversation) <==> Missing(v, told, conversation)
  {
    hide AskedFor;
    AskedForIs(v, w, more);
  }

  /** Nothing is asked for, and what was to be asked for is cut off. */
  lemma CuttingKeeps(v: View, told: set<string>, a: Action, conversation: string)
    requires InHand(v, told)
    requires || (a.Close? && v.socket == Some(a.socket)) || a == Disconnect(false) || a.Reconnect?
             || (a.Stall? && v.state == Connecting)
    ensures var w := After(v, a);
            && InHand(w, told + AskedFor(v, w))
            && (Missing(w, told + AskedFor(v, w), conversation) <==> Missing(v, told, conversation) || Drops(v, a, conversation))
  {
    hide InHand, Missing, AskedFor;
    EndingKeeps(v, told, After(v, a), conversation);
  }

  /** Nothing is asked for, and nothing cut off. */
  lemma PassingKeeps(v: View, told: set<string>, a: Action, conversation: string)
    requires InHand(v, told)
    requires || a.Connect? || a.Ticket? || a.Send? || (a.Close? && v.socket != Some(a.socket))
             || (a.Stall? && v.state != Connecting) || (a.Receive? && v.socket.None?) || (a.Flush? && !v.handshook)
    ensures var w := After(v, a);
            && InHand(w, told + AskedFor(v, w)) && !Drops(v, a, conversation)
            && (Missing(w, told + AskedFor(v, w), conversation) <==> Missing(v, told, conversation))
  {
    hide InHand, Missing, AskedFor;
    RestKeeps(v, told, After(v, a), if a.Send? && v.handshook then [Command(a.payload)] else [], conversation);
  }

  lemma ForgettingKeeps(v: View, conversation: string)
    ensures InHand(Left(v, true), {}) && !Missing(Left(v, true), {}, conversation)
  {
  }

  lemma TellingKeeps(v: View, told: set<string>, a: Action, conversation: string)
    requires Ok(v) && InHand(v, told)
    ensures var w := After(v, a);
            var after := if Renews(v, a) then {} else told + AskedFor(v, w);
            && InHand(w, after)
            && (Missing(w, after, conversation) <==>
                  !Renews(v, a) && (Missing(v, told, conversation) || Drops(v, a, conversation)))
  {
    hide AskedFor, Ok, InHand, Missing, Heard, Closed, Left, Began, Ticketed, Flushed, Commanded, Wanted, Restarted, Stalled;
    if a.Flush? && v.handshook {
      FlushingKeeps(v, told, conversation);
    } else if a.SubscribeTo? {
      WantingKeeps(v, told, a.conversation, conversation);
    } else if a.Receive? && v.socket.Some? {
      HearingKeeps(v, told, a.frame, conversation);
    } else if a == Disconnect(true) {
      ForgettingKeeps(v, conversation);
    } else if (a.Close? && v.socket == Some(a.socket)) || a.Disconnect? || a.Reconnect? || (a.Stall? && v.state == Connecting) {
      CuttingKeeps(v, told, a, conversation);
    } else {
      PassingKeeps(v, told, a, conversation);
    }
  }

  lemma {:induction false} ToldIsInHand(actions: seq<Action>)
    ensures InHand(Run(START, actions), Told(actions))
  {
    if actions != [] {
      var before := actions[..|actions| - 1];
      hide After, Renews, AskedFor, InHand;
      ToldIsInHand(before);
      RunsKeep(START, before);
      TellingKeeps(Run(START, before), Told(before), actions[|actions| - 1], "");
    }
  }

  lemma UnsaidMoves(actions: seq<Action>, a: Action, conversation: string)
    ensures var v := Run(START, actions);
            && Run(START, actions + [a]) == After(v, a)
            && (Missing(After(v, a), Told(actions + [a]), conversation) <==>
                  !Renews(v, a) && (Missing(v, Told(actions), conversation) || Drops(v, a, conversation)))
  {
    hide After, Renews, AskedFor, InHand, Missing, Drops;
    assert (actions + [a])[..|actions|] == actions;
    ToldIsInHand(actions);
    RunsKeep(START, actions);
    TellingKeeps(Run(START, actions), Told(actions), a, conversation);
  }

  /** In every run a conversation the client wants goes unsaid to the server's
      session if and only if, since that session's READY, it was first asked for
      while no handshake stood, or its turn was cut off before it was written. */
  lemma {:induction false} UnsaidExactly(actions: seq<Action>, conversation: string)
    ensures Missing(Run(START, actions), Told(actions), conversation) <==> Dropped(actions, conversation)
  {
    if actions != [] {
      var before := actions[..|actions| - 1];
      hide After, Renews, AskedFor, Missing, Drops, Dropped;
      UnsaidExactly(before, conversation);
      assert before + [actions[|actions| - 1]] == actions;
      UnsaidMoves(before, actions[|actions| - 1], conversation);
      DroppedGrows(actions, conversation);
    }
  }

  lemma BackAgain(v: View, code: int, conversation: string)
    requires v.socket.Some? && conversation !in v.subscriptions && code < 4010
    ensures var down := Closed(v, v.socket.value, code);
            var asked := Wanted(down, conversation);
            var trying := Began(asked);
            var open := Ticketed(trying, v.generation + 1, true);
            && !down.handshook && conversation !in down.subscriptions && down.cursor == v.cursor
            && open == asked.(state := Connecting, intentionalClose := false, generation := v.generation + 1,
                              connecting := None, socket := Some(v.generation + 1))
            && conversation in open.subscriptions && open.cursor == v.cursor && open.outbox == v.outbox && open.written == []
  {
  }

  lemma AskedWhileDown(actions: seq<Action>, code: int, conversation: string)
    requires var v := Run(START, actions); v.socket.Some? && conversation !in v.subscriptions && code < 4010
    ensures var v := Run(START, actions);
            var asked := actions + [Close(v.socket.value, code)] + [SubscribeTo(conversation)];
            && Run(START, asked) == Wanted(Closed(v, v.socket.value, code), conversation)
            && Missing(Run(START, asked), Told(asked), conversation)
  {
    hide Run, InHand, Missing, Closed, Wanted;
    var v := Run(START, actions);
    BackAgain(v, code, conversation);
    UnsaidMoves(actions, Close(v.socket.value, code), conversation);
    UnsaidMoves(actions + [Close(v.socket.value, code)], SubscribeTo(conversation), conversation);
  }

  lemma StaysMissing(actions: seq<Action>, a: Action, conversation: string)
    requires Missing(Run(START, actions), Told(actions), conversation)
    requires a != Disconnect(true) && !(a.Receive? && a.frame.Ready?)
    ensures Run(START, actions + [a]) == After(Run(START, actions), a)
    ensures Missing(Run(START, actions + [a]), Told(actions + [a]), conversation)
  {
    hide Run, Missing, After, Drops;
    UnsaidMoves(actions, a, conversation);
  }

  lemma ComesBack(v: View, code: int, conversation: string)
    requires v.handshook && v.socket.Some? && v.outbox == [] && v.cursor.sessionId.Some?
    requires conversation !in v.subscriptions && code < 4010
    ensures var open := After(After(Wanted(Closed(v, v.socket.value, code), conversation), Connect), Ticket(v.generation + 1, true));
            var w := After(After(open, Receive(Hello)), Receive(Resumed));
            && w.state == Connected && w.handshook && w.flushing == [] && w.outbox == [] && w.cursor == v.cursor
            && w.written == [Handshake(Resume(v.cursor.sessionId.value, v.cursor.lastSeq))]
  {
    hide Wanted, Closed, Began, Ticketed;
    BackAgain(v, code, conversation);
  }

  lemma IsMissing(v: View, told: set<string>, conversation: string)
    requires Missing(v, told, conversation)
    ensures conversation in v.subscriptions && conversation !in told
  {
  }

  /** A socket drops, a conversation is asked for before it is back, and the
      session is resumed: the client wants the conversation, has not asked the
      session for it, and by `UnsaidExactly` will not before the next READY. */
  lemma ResumedUnasked(actions: seq<Action>, code: int, conversation: string) returns (next: seq<Action>)
    requires var v := Run(START, actions);
             v.handshook && v.cursor.sessionId.Some? && conversation !in v.subscriptions
    requires code < 4010
    ensures var v := Run(START, actions);
            var w := Run(START, actions + next);
            && w.state == Connected && w.handshook && w.flushing == [] && w.outbox == [] && w.cursor == v.cursor
            && w.written == [Handshake(Resume(v.cursor.sessionId.value, v.cursor.lastSeq))]
            && conversation in w.subscriptions && conversation !in Told(actions + next)
  {
    hide Run, After, Missing, Closed, Wanted, OnlyCommands, NoHandshake, OnlyHandshakes, Once;
    var v := Run(START, actions);
    RunsKeep(START, actions);
    ComesBack(v, code, conversation);
    var close, subscribe := Close(v.socket.value, code), SubscribeTo(conversation);
    var ticket, hello, resumed := Ticket(v.generation + 1, true), Receive(Hello), Receive(Resumed);
    ghost var asked := actions + [close] + [subscribe];
    ghost var open := asked + [Connect] + [ticket];
    AskedWhileDown(actions, code, conversation);
    StaysMissing(asked, Connect, conversation);
    StaysMissing(asked + [Connect], ticket, conversation);
    StaysMissing(open, hello, conversation);
    StaysMissing(open + [hello], resumed, conversation);
    IsMissing(Run(START, open + [hello] + [resumed]), Told(open + [hello] + [resumed]), conversation);
    next := [close, subscribe, Connect, ticket, hello, resumed];
    SixMore(actions, close, subscribe, Connect, ticket, hello, resumed);
  }

  lemma SixMore<T>(s: seq<T>, a: T, b: T, c: T, d: T, e: T, f: T)
    ensures s + [a] + [b] + [c] + [d] + [e] + [f] == s + [a, b, c, d, e, f]
  {
  }
}
