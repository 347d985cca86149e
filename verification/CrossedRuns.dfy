/**
 * When two devices that both started still read each other: their next messages
 * are read as long as at most one has given its start up for the other's.
 */
module CrossedRuns {
  import opened Cipher
  import opened Conversation
  import opened CrossedStarts
  import opened Devices
  import opened Messaging
  import opened Ratchet
  import opened Wrappers

  // ── In step ───────────────────────────────────────────────────────────────

  predicate PostPlaced(w: Pair, i: nat)
    requires i < |w.posts|
  {
    var post := w.posts[i];
    var t := TalkOf(w, post.start);
    && post.place < |t.packets|
    && var p := t.packets[post.place];
       && ToInitiator(p) == (post.start != post.from)
       && post.envelope == EnvelopeOf(p, DeviceAt(w, post.from).keys, IdAt(w, !post.from))
       && p.aad == Fields(BoundOf(p, DeviceAt(w, post.from).keys, IdAt(w, !post.from)))
  }

  /** A device that turned is the responder of the other's start; one that has
      not is the initiator of its own, and could still answer the other's. */
  predicate SideInStep(w: Pair, x: bool) {
    var s, theirs := Stored(DiskAt(w, x), IdAt(w, !x)), TalkOf(w, !x);
    if x in w.turned then s == Some(theirs.responder) && RungOf(theirs.log, false) >= 2
    else && s == Some(TalkOf(w, x).initiator) && RungOf(theirs.log, false) == 0 && theirs.log.spent == {}
         && Accept(theirs.log.pre, Holder(DeviceAt(w, x)), IdAt(w, !x)) == Some(theirs.responder)
  }

  ghost predicate InStep(w: Pair) {
    && Lined(w) && Inv(w.ofLeft) && Inv(w.ofRight)
    && SideInStep(w, true) && SideInStep(w, false)
    && forall i: nat {:trigger PostPlaced(w, i)} :: i < |w.posts| ==> PostPlaced(w, i)
  }

  /** A device that already turned turns again: the session it stores refuses the
      message, and the message's preamble builds another. */
  ghost predicate TurnsAgain(w: Pair, i: nat, mint: nat)
    requires i < |w.posts|
  {
    var y, e := !w.posts[i].from, w.posts[i].envelope;
    && y in w.turned && e.Envelope? && IdAt(w, !y) in DiskAt(w, y).sessions && ReadAt(w, i, mint).Some?
    && Decrypt(DiskAt(w, y).sessions[IdAt(w, !y)], Wire(e.bound), e.c, Fields(e.bound), mint) == None
  }

  lemma InvAt(w: Pair, x: bool)
    requires InStep(w)
    ensures Inv(TalkOf(w, x)) && SideInStep(w, x) && SideLined(w, x)
  {
    hide Inv, SideInStep, SideLined, PostPlaced, PostLined;
  }

  // ── Saying ────────────────────────────────────────────────────────────────

  /** The end a device's session is. */
  lemma StoredIsEnd(w: Pair, x: bool)
    requires InStep(w)
    ensures var z := Holds(w, x);
            && Stored(DiskAt(w, x), IdAt(w, !x)) == Some(End(TalkOf(w, z), z == x))
            && RungOf(TalkOf(w, z).log, z == x) >= 1 && Inv(TalkOf(w, z))
            && End(TalkOf(w, z), z == x).deviceId == IdAt(w, !x)
  {
    hide SkippedOk, SpentOk, NetworkOk, SendingOk, ReceivingOk, PostPlaced, PostLined, Of, Accept;
    InvAt(w, x);
  }

  /** Saying something is a send of the conversation the device holds, and posts the packet's envelope. */
  lemma SaidIsSentAt(w: Pair, x: bool, text: string)
    requires InStep(w)
    ensures var z := Holds(w, x);
            var aad := Fields(NextBound(End(TalkOf(w, z), z == x), DeviceAt(w, x).keys, 2));
            var t := Sent(TalkOf(w, z), z == x, text, aad);
            && |t.packets| == |TalkOf(w, z).packets| + 1
            && var p := t.packets[|TalkOf(w, z).packets|];
               var e := EnvelopeOf(p, DeviceAt(w, x).keys, IdAt(w, !x));
               && p.aad == Fields(BoundOf(p, DeviceAt(w, x).keys, IdAt(w, !x))) && p.text == text
               && ToInitiator(p) == (z != x)
               && SaidAt(w, x, text) ==
                    WithTalkOf(WithDiskAt(w, x, Saved(DiskAt(w, x), End(t, z == x))), z, t).(
                      posts := w.posts + [Post(x, z, |TalkOf(w, z).packets|, e)])
  {
    hide Fields, Sent, Inv, InStep;
    StoredIsEnd(w, x);
    var z := Holds(w, x);
    SentAdds(TalkOf(w, z), z == x, text, Fields(NextBound(End(TalkOf(w, z), z == x), DeviceAt(w, x).keys, 2)));
  }

  lemma SaidKeepsSides(w: Pair, x: bool, text: string)
    requires InStep(w)
    ensures SideInStep(SaidAt(w, x, text), true) && SideInStep(SaidAt(w, x, text), false)
    ensures Inv(SaidAt(w, x, text).ofLeft) && Inv(SaidAt(w, x, text).ofRight)
  {
    hide Fields, Sent, Inv, InStep, Accept, SaidAt;
    var z := Holds(w, x);
    var aad := Fields(NextBound(End(TalkOf(w, z), z == x), DeviceAt(w, x).keys, 2));
    StoredIsEnd(w, x);
    SaidIsSentAt(w, x, text);
    SentAdds(TalkOf(w, z), z == x, text, aad);
    SendKeepsInv(TalkOf(w, z), z == x, text, aad);
    InvAt(w, true);
    InvAt(w, false);
    hide RungOf, Lined;
    SameRungs(TalkOf(w, z).log, Sent(TalkOf(w, z), z == x, text, aad).log);
  }

  lemma SameRungs(log: Log, later: Log)
    requires later.secrets == log.secrets
    ensures RungOf(later, true) == RungOf(log, true) && RungOf(later, false) == RungOf(log, false)
  {
  }

  lemma SaidKeepsPlaced(w: Pair, x: bool, text: string, i: nat)
    requires InStep(w) && i < |SaidAt(w, x, text).posts|
    ensures PostPlaced(SaidAt(w, x, text), i)
  {
    hide Fields, Sent, Inv, Accept, SaidAt, Lined, SideInStep, BoundOf, EnvelopeOf;
    var z := Holds(w, x);
    var aad := Fields(NextBound(End(TalkOf(w, z), z == x), DeviceAt(w, x).keys, 2));
    StoredIsEnd(w, x);
    SaidIsSentAt(w, x, text);
    SentAdds(TalkOf(w, z), z == x, text, aad);
    if i < |w.posts| {
      assert PostPlaced(w, i);
      var t, place := TalkOf(w, z), w.posts[i].place;
      if w.posts[i].start == z {
        assert Sent(t, z == x, text, aad).packets[..|t.packets|][place] == t.packets[place];
      }
    }
  }

  lemma SaidKeepsInStep(w: Pair, x: bool, text: string)
    requires InStep(w)
    ensures InStep(SaidAt(w, x, text))
  {
    SaidKeepsSides(w, x, text);
    SaidKeepsLined(w, x, text);
    forall i: nat | i < |SaidAt(w, x, text).posts|
      ensures PostPlaced(SaidAt(w, x, text), i)
    {
      SaidKeepsPlaced(w, x, text, i);
    }
    hide *;
    InStepIs(SaidAt(w, x, text));
  }

  lemma InStepIs(w: Pair)
    requires Lined(w) && Inv(w.ofLeft) && Inv(w.ofRight) && SideInStep(w, true) && SideInStep(w, false)
    requires forall i: nat {:trigger PostPlaced(w, i)} :: i < |w.posts| ==> PostPlaced(w, i)
    ensures InStep(w)
  {
  }

  // ── Arriving ──────────────────────────────────────────────────────────────

  /** The conversation end a post is for. */
  function PacketOf(w: Pair, i: nat): Packet
    requires i < |w.posts| && w.posts[i].place < |TalkOf(w, w.posts[i].start).packets|
  {
    TalkOf(w, w.posts[i].start).packets[w.posts[i].place]
  }

  /** What the cipher is asked for a post, in the conversation's terms. */
  lemma AskedFor(w: Pair, i: nat, mint: nat)
    requires InStep(w) && i < |w.posts|
    ensures PostPlaced(w, i) && PostLined(w, i)
    ensures var y, p := !w.posts[i].from, PacketOf(w, i);
            var e, s := w.posts[i].envelope, Stored(DiskAt(w, y), IdAt(w, !y));
            && s.Some? && Wire(e.bound) == p.header && e.c == p.body && Fields(e.bound) == p.aad && e.bound.s == IdAt(w, !y)
            && ReadAt(w, i, mint) ==
                 match Decrypt(s.value, p.header, p.body, p.aad, mint)
                 case Some(o) => Some(Read(o.text, o.session, None))
                 case None => OpenAnew(e, Holder(DeviceAt(w, y)), mint)
  {
    hide Fields, Decrypt, OpenAnew, Inv, Of, Accept;
    assert PostPlaced(w, i) && PostLined(w, i);
    var y := !w.posts[i].from;
    InvAt(w, y);
    assert Believed(w.posts[i].envelope, Holder(DeviceAt(w, y)), Some(DeviceAt(w, !y).keys.identity), DeviceAt(w, !y).keys.userId);
  }

  /** A post off the reader's line is refused by the session it stores. */
  lemma OffLineRefused(w: Pair, i: nat, mint: nat)
    requires InStep(w) && i < |w.posts| && w.posts[i].start != Holds(w, !w.posts[i].from)
    ensures PostPlaced(w, i)
    ensures var s, p := Stored(DiskAt(w, !w.posts[i].from), IdAt(w, w.posts[i].from)), PacketOf(w, i);
            s.Some? && Decrypt(s.value, p.header, p.body, p.aad, mint) == None
  {
    hide Fields, Decrypt, OpenAnew, Inv, Of, Accept;
    AskedFor(w, i, mint);
    var y, p := !w.posts[i].from, PacketOf(w, i);
    InvAt(w, y);
    var s := Stored(DiskAt(w, y), IdAt(w, !y)).value;
    DecryptKeepsBase(s, StartKey(w, Holds(w, y)), p.header, p.body, p.aad, mint);
  }

  /** A post that starts a session, for a reader that has not turned: only the preamble can open it, and it
      opens as the responder of that conversation would. */
  lemma StartIsAnswered(w: Pair, i: nat, mint: nat)
    requires InStep(w) && i < |w.posts| && !w.posts[i].from !in w.turned && w.posts[i].start == w.posts[i].from
    ensures PostPlaced(w, i)
    ensures var p := PacketOf(w, i);
            var t := TalkOf(w, w.posts[i].start);
            ReadAt(w, i, mint) ==
              match (if p.rung == 1 then Decrypt(t.responder, p.header, p.body, p.aad, mint) else None)
              case Some(o) => Some(Read(o.text, o.session, t.log.pre.otkId))
              case None => None
  {
    hide Fields, Decrypt, Of, Accept, EndOk, SpentOk, KeyAt;
    AskedFor(w, i, mint);
    OffLineRefused(w, i, mint);
    var y := !w.posts[i].from;
    InvAt(w, y);
    InvAt(w, !y);
    PacketIsOk(TalkOf(w, w.posts[i].start).log, TalkOf(w, w.posts[i].start).packets, w.posts[i].place);
  }

  /** Whatever is read, but for a second turn, is a delivery of its conversation that opens. */
  lemma ReadIsDelivery(w: Pair, i: nat, mint: nat)
    requires InStep(w) && i < |w.posts| && ReadAt(w, i, mint).Some? && !TurnsAgain(w, i, mint)
    ensures PostPlaced(w, i) && PostLined(w, i)
    ensures var post, p, y := w.posts[i], PacketOf(w, i), !w.posts[i].from;
            var t, read := TalkOf(w, post.start), ReadAt(w, i, mint).value;
            var r := Decrypt(Reader(t, p), p.header, p.body, p.aad, mint);
            && r.Some? && read.session == r.value.session && read.text == r.value.text
            && (post.envelope.bound.k.Some? <==> p.rung == 1)
            && (y in w.turned ==> post.start == !y)
            && (y !in w.turned ==> (post.start == !y <==> p.rung == 1))
            && (read.consumedPreKeyId.Some? ==> y !in w.turned && p.rung == 1)
  {
    hide Fields, Decrypt, Of, Accept, EndOk, SpentOk, KeyAt, ReadAt, OpenAnew;
    AskedFor(w, i, mint);
    var y, p := !w.posts[i].from, PacketOf(w, i);
    InvAt(w, y);
    InvAt(w, !y);
    PacketIsOk(TalkOf(w, w.posts[i].start).log, TalkOf(w, w.posts[i].start).packets, w.posts[i].place);
    if w.posts[i].start != Holds(w, y) {
      OffLineRefused(w, i, mint);
      if y !in w.turned {
        StartIsAnswered(w, i, mint);
      } else {
        NoPreambleNoRestart(w.posts[i].envelope, Holder(DeviceAt(w, y)), mint);
      }
    } else if y !in w.turned {
      NoPreambleNoRestart(w.posts[i].envelope, Holder(DeviceAt(w, y)), mint);
    }
  }

  lemma NoPreambleNoRestart(e: Envelope, me: Privates, mint: nat)
    requires e.Envelope?
    ensures e.bound.k.None? ==> OpenAnew(e, me, mint) == None
  {
  }

  /** What a delivery of its conversation leaves, read by the device a post is for. */
  lemma ArrivedIsDelivered(w: Pair, i: nat, mint: nat, writes: nat)
    requires InStep(w) && i < |w.posts| && ReadAt(w, i, mint).Some? && !TurnsAgain(w, i, mint)
    requires writes > 0 && i !in DiskAt(w, !w.posts[i].from).texts && mint !in TalkOf(w, w.posts[i].start).log.secrets
    ensures PostPlaced(w, i) && PostLined(w, i)
    ensures var post, p, y := w.posts[i], PacketOf(w, i), !w.posts[i].from;
            var t, read := TalkOf(w, post.start), ReadAt(w, i, mint).value;
            var v, u := ArrivedAt(w, i, mint, writes), Delivered(t, post.place, mint);
            && v == WithTalkOf(WithDiskAt(w, y, Written(DiskAt(w, y), i, read, writes)), post.start, u).(
                      turned := if p.rung == 1 then w.turned + {y} else w.turned)
            && Inv(u) && u.packets == t.packets && End(u, ToInitiator(p)) == read.session
            && End(u, !ToInitiator(p)) == End(t, !ToInitiator(p))
            && RungOf(u.log, !ToInitiator(p)) == RungOf(t.log, !ToInitiator(p))
            && (!ToInitiator(p) ==> RungOf(u.log, false) >= 2) && (ToInitiator(p) ==> RungOf(t.log, false) >= 2)
            && read.session.deviceId == IdAt(w, !y)
  {
    hide Fields, Decrypt, Of, Accept, EndOk, SpentOk, KeyAt, ReadAt, OpenAnew, Delivered, RungOf, NetworkOk, Written;
    ReadIsDelivery(w, i, mint);
    ReadKeepsLine(w, i, mint);
    var t, j := TalkOf(w, w.posts[i].start), w.posts[i].place;
    InvAt(w, w.posts[i].start);
    DeliverKeepsInv(t, j, mint);
    DeliveredOpens(t, j, mint);
    RungsArePaired(t.log);
  }

  lemma RungsArePaired(log: Log)
    requires LogOk(log)
    ensures RungOf(log, false) == 0 || RungOf(log, false) >= 2
  {
  }

  lemma ArrivedKeepsSides(w: Pair, i: nat, mint: nat, writes: nat)
    requires InStep(w) && i < |w.posts| && ReadAt(w, i, mint).Some? && !TurnsAgain(w, i, mint)
    requires writes > 0 && i !in DiskAt(w, !w.posts[i].from).texts && mint !in TalkOf(w, w.posts[i].start).log.secrets
    ensures SideInStep(ArrivedAt(w, i, mint, writes), true) && SideInStep(ArrivedAt(w, i, mint, writes), false)
    ensures Inv(ArrivedAt(w, i, mint, writes).ofLeft) && Inv(ArrivedAt(w, i, mint, writes).ofRight)
  {
    hide Fields, Decrypt, Of, ReadAt, Delivered, RungOf, ArrivedAt, Inv, InStep, Accept, PostLined, Written;
    ReadIsDelivery(w, i, mint);
    ArrivedIsDelivered(w, i, mint, writes);
    var y := !w.posts[i].from;
    InvAt(w, y);
    InvAt(w, !y);
    WrittenHolds(DiskAt(w, y), i, ReadAt(w, i, mint).value, writes);
    KeepsPreKeys(DiskAt(w, y), i, ReadAt(w, i, mint).value, writes);
    hide PostPlaced, Lined;
    var v := ArrivedAt(w, i, mint, writes);
    assert SideInStep(v, y);
    assert SideInStep(v, !y);
  }

  lemma KeepsPreKeys(d: Disk, id: MessageId, read: Read, writes: nat)
    ensures read.consumedPreKeyId == None ==> Written(d, id, read, writes).preKeys == d.preKeys
  {
  }

  lemma ArrivedKeepsPlaced(w: Pair, i: nat, mint: nat, writes: nat, j: nat)
    requires InStep(w) && i < |w.posts| && ReadAt(w, i, mint).Some? && !TurnsAgain(w, i, mint) && j < |w.posts|
    requires writes > 0 && i !in DiskAt(w, !w.posts[i].from).texts && mint !in TalkOf(w, w.posts[i].start).log.secrets
    ensures ArrivedAt(w, i, mint, writes).posts == w.posts && PostPlaced(ArrivedAt(w, i, mint, writes), j)
  {
    hide Fields, Decrypt, Of, ReadAt, Delivered, RungOf, ArrivedAt, Inv, Accept, PostLined, Written, BoundOf, EnvelopeOf;
    ArrivedIsDelivered(w, i, mint, writes);
    assert PostPlaced(w, j);
    hide Lined, SideInStep;
  }

  lemma ArrivedKeepsInStep(w: Pair, i: nat, mint: nat, writes: nat)
    requires InStep(w) && May(w, Arrives(i, mint, writes)) && !TurnsAgain(w, i, mint)
    ensures InStep(ArrivedAt(w, i, mint, writes))
  {
    hide Fields, Decrypt, ReadAt, ArrivedAt, PostPlaced, SideInStep, Inv, TurnsAgain;
    if i in DiskAt(w, !w.posts[i].from).texts || writes == 0 || ReadAt(w, i, mint).None? {
      ArrivedChangesNothing(w, i, mint, writes);
    } else {
      ArrivedKeepsLined(w, i, mint, writes);
      hide Lined;
      ArrivedKeepsSides(w, i, mint, writes);
      forall j: nat | j < |w.posts|
        ensures PostPlaced(ArrivedAt(w, i, mint, writes), j)
      {
        ArrivedKeepsPlaced(w, i, mint, writes, j);
      }
      InStepIs(ArrivedAt(w, i, mint, writes));
    }
  }

  lemma ArrivedChangesNothing(w: Pair, i: nat, mint: nat, writes: nat)
    requires i < |w.posts|
    requires i in DiskAt(w, !w.posts[i].from).texts || writes == 0 || ReadAt(w, i, mint).None?
    ensures ArrivedAt(w, i, mint, writes) == w
  {
    hide ReadAt;
  }

  lemma TopUpKeepsInStep(w: Pair, x: bool, added: map<int, nat>)
    requires InStep(w) && May(w, TopsUp(x, added))
    ensures InStep(Moved(w, TopsUp(x, added)))
  {
    hide Inv, Of, RungOf;
    MoveKeepsLined(w, TopsUp(x, added));
    var v := Moved(w, TopsUp(x, added));
    hide Lined;
    forall j: nat | j < |v.posts|
      ensures PostPlaced(v, j)
    {
      assert PostPlaced(w, j);
    }
  }

  lemma CrossingIsInStep(left: Device, right: Device, ofLeft: KeyBundle, ofRight: KeyBundle,
                         el: nat, rl: nat, er: nat, rr: nat)
    requires Starting(left, right, ofLeft, ofRight, el, rl, er, rr)
    ensures Crossing(left, right, ofLeft, ofRight, el, rl, er, rr).Some?
    ensures InStep(Crossing(left, right, ofLeft, ofRight, el, rl, er, rr).value)
    ensures Crossing(left, right, ofLeft, ofRight, el, rl, er, rr).value.turned == {}
  {
    CrossingIsLined(left, right, ofLeft, ofRight, el, rl, er, rr);
    BeginningHoldsInv(ofRight, Holder(right), left.keys.deviceId, el, rl);
    BeginningHoldsInv(ofLeft, Holder(left), right.keys.deviceId, er, rr);
    hide Inv, Of, Lined;
  }

  // ── Runs ──────────────────────────────────────────────────────────────────

  /** No device turns a second time. */
  ghost predicate Steady(w: Pair, moves: seq<Move>)
    decreases |moves|
  {
    moves == [] ||
    (&& May(w, moves[0]) && (moves[0].Arrives? ==> !TurnsAgain(w, moves[0].post, moves[0].mint))
     && Steady(Moved(w, moves[0]), moves[1..]))
  }

  lemma {:induction false} SteadyRunsStayInStep(w: Pair, moves: seq<Move>, v: Pair)
    requires InStep(w) && Moves(w, moves, v) && Steady(w, moves)
    ensures InStep(v)
    decreases |moves|
  {
    hide InStep, SaidAt, ArrivedAt, TurnsAgain;
    if moves != [] {
      match moves[0] {
        case Says(x, text) => SaidKeepsInStep(w, x, text);
        case Arrives(i, mint, writes) => ArrivedKeepsInStep(w, i, mint, writes);
        case TopsUp(x, added) => TopUpKeepsInStep(w, x, added);
      }
      SteadyRunsStayInStep(Moved(w, moves[0]), moves[1..], v);
    }
  }

  /** One device turned: the two sessions are the two ends of one conversation. */
  lemma OneTurnedIsOneTalk(w: Pair, x: bool)
    requires InStep(w) && x in w.turned && !x !in w.turned
    ensures var t := TalkOf(w, !x);
            && Inv(t) && Stored(DiskAt(w, x), IdAt(w, !x)) == Some(t.responder)
            && Stored(DiskAt(w, !x), IdAt(w, x)) == Some(t.initiator)
            && (|| (Follows(t.initiator, t.responder) && OneTurnBehind(t.responder, t.initiator))
                || (Follows(t.responder, t.initiator) && OneTurnBehind(t.initiator, t.responder)))
  {
    hide Inv, Lined, Follows, OneTurnBehind, RungOf, Accept;
    InvAt(w, x);
    InvAt(w, !x);
    EndsAgree(TalkOf(w, !x));
  }

  // ── Whether the next message is read ──────────────────────────────────────

  /** What a device says next is not too far ahead for its reader: no skip of more than 1000. */
  ghost predicate NextIsNear(w: Pair, y: bool, text: string) {
    var v, n := SaidAt(w, y, text), |w.posts|;
    && n < |v.posts| && v.posts[n].place < |TalkOf(v, v.posts[n].start).packets|
    && var t, p := TalkOf(v, v.posts[n].start), PacketOf(v, n);
       ReaderRung(t, p) >= 0 && !TooFar(t.log, ReaderRung(t, p), Reader(t, p), p)
  }

  lemma NewestIsAhead(t: Talk, initiator: bool, text: string, aad: string)
    requires Inv(t) && RungOf(t.log, initiator) >= 1
    ensures var u := Sent(t, initiator, text, aad);
            && Inv(u) && |u.packets| == |t.packets| + 1
            && var p := u.packets[|t.packets|];
               && p.text == text && ReaderRung(u, p) >= 0 && !Past(u.log, ReaderRung(u, p), Reader(u, p), p)
               && (RungOf(t.log, false) == 0 ==> p.rung == 1)
  {
    hide SkippedOk, SpentOk, NetworkOk, SendingOk, Encrypt;
    SentAdds(t, initiator, text, aad);
    SendKeepsInv(t, initiator, text, aad);
    NewestStands(t, initiator, text, aad);
  }

  lemma NewestStands(t: Talk, initiator: bool, text: string, aad: string)
    requires Inv(t) && RungOf(t.log, initiator) >= 1
    ensures var u := Sent(t, initiator, text, aad);
            && |u.packets| == |t.packets| + 1
            && var p := u.packets[|t.packets|];
               p.rung == RungOf(t.log, initiator) && p.header.n == |t.log.texts[p.rung]| && u.log == Conversation.Said(t.log, p.rung, text)
  {
    hide SkippedOk, SpentOk, NetworkOk, RootAt, ChainAt, Walk;
  }

  lemma NearOpens(t: Talk, i: nat, mint: nat)
    requires Inv(t) && i < |t.packets| && mint !in t.log.secrets && t.packets[i].text != ""
    requires var p := t.packets[i];
             ReaderRung(t, p) >= 0 && !Past(t.log, ReaderRung(t, p), Reader(t, p), p)
             && !TooFar(t.log, ReaderRung(t, p), Reader(t, p), p)
    ensures var p := t.packets[i];
            var r := Decrypt(Reader(t, p), p.header, p.body, p.aad, mint);
            r.Some? && r.value.text == p.text
  {
    hide Inv, Decrypt, Past;
    DeliveriesExact(t, i, mint);
  }

  /** The next thing a device says, near enough and not empty, is read as exactly
      what was said unless both devices have turned, and then it is refused. */
  lemma NextIsRead(w: Pair, y: bool, text: string, mint: nat)
    requires InStep(w) && text != "" && mint !in w.ofLeft.log.secrets && mint !in w.ofRight.log.secrets
    ensures var v, n := SaidAt(w, y, text), |w.posts|;
            && |v.posts| == n + 1 && v.posts[n].from == y && n !in DiskAt(v, !y).texts
            && (w.turned == {true, false} ==> ReadAt(v, n, mint) == None)
            && (w.turned != {true, false} && NextIsNear(w, y, text) ==>
                  ReadAt(v, n, mint).Some? && ReadAt(v, n, mint).value.text == text)
  {
    hide Inv, Fields, Sent, SaidAt, ReadAt, Accept, RungOf, Decrypt, TooFar, Past, PostLined;
    SaidIsSentAt(w, y, text);
    SaidKeepsLined(w, y, text);
    SaidKeepsInStep(w, y, text);
    StoredIsEnd(w, y);
    var v, n, z := SaidAt(w, y, text), |w.posts|, Holds(w, y);
    var aad := Fields(NextBound(End(TalkOf(w, z), z == y), DeviceAt(w, y).keys, 2));
    NewestIsAhead(TalkOf(w, z), z == y, text, aad);
    assert v.posts[n].start == z && TalkOf(v, z) == Sent(TalkOf(w, z), z == y, text, aad);
    SentAdds(TalkOf(w, z), z == y, text, aad);
    InvAt(w, !y);
    hide InStep, SideInStep, SideLined, PostPlaced, Lined;
    TurnedSets(w.turned, y);
    if y in w.turned && !y in w.turned {
      OffLineNewest(v, n, mint);
    } else if NextIsNear(w, y, text) {
      NearOpens(TalkOf(v, z), v.posts[n].place, mint);
      NewestIsAnswered(w, v, n, mint);
    }
  }

  lemma TurnedSets(turned: set<bool>, y: bool)
    ensures turned == {true, false} <==> y in turned && !y in turned
  {
    if y in turned && !y in turned {
      forall b
        ensures b in turned && b in {true, false}
      {
        assert b == y || b == !y;
      }
      assert turned == {true, false};
    }
  }

  lemma OffLineNewest(v: Pair, n: nat, mint: nat)
    requires InStep(v) && n < |v.posts| && v.posts[n].start == !v.posts[n].from && !v.posts[n].from in v.turned
    ensures ReadAt(v, n, mint) == None
  {
    hide Inv, Decrypt, Fields, ReadAt, Accept, Of, EndOk, SpentOk, OpenAnew;
    AskedFor(v, n, mint);
    OffLineRefused(v, n, mint);
    InvAt(v, v.posts[n].start);
    NoPreambleNoRestart(v.posts[n].envelope, Holder(DeviceAt(v, !v.posts[n].from)), mint);
  }

  /** A post its conversation would open is read, by a reader that holds that conversation or can still answer it. */
  lemma NewestIsAnswered(w: Pair, v: Pair, n: nat, mint: nat)
    requires InStep(v) && n < |v.posts| && v.turned == w.turned && v.posts[n].place < |TalkOf(v, v.posts[n].start).packets|
    requires v.posts[n].start == Holds(w, v.posts[n].from) && (v.posts[n].from !in w.turned || !v.posts[n].from !in w.turned)
    requires v.posts[n].from !in w.turned && !v.posts[n].from !in w.turned ==> PacketOf(v, n).rung == 1
    requires var t, p := TalkOf(v, v.posts[n].start), PacketOf(v, n);
             Decrypt(Reader(t, p), p.header, p.body, p.aad, mint).Some?
    ensures var t, p := TalkOf(v, v.posts[n].start), PacketOf(v, n);
            ReadAt(v, n, mint).Some?
            && ReadAt(v, n, mint).value.text == Decrypt(Reader(t, p), p.header, p.body, p.aad, mint).value.text
  {
    hide Inv, Decrypt, Fields, ReadAt, Accept, Of, RungOf, OpenAnew;
    assert PostPlaced(v, n);
    var x := v.posts[n].from;
    InvAt(v, !x);
    if x !in w.turned && !x !in w.turned {
      StartIsAnswered(v, n, mint);
    } else {
      AskedFor(v, n, mint);
    }
  }

  // ── From the start ────────────────────────────────────────────────────────

  /** From two crossing starts on, in every run in which no device turns twice: a
      message said next, near enough and not empty, is read as exactly what was
      said if and only if not both devices have given their own start up. */
  lemma CrossedExactly(left: Device, right: Device, ofLeft: KeyBundle, ofRight: KeyBundle,
                       el: nat, rl: nat, er: nat, rr: nat, moves: seq<Move>, v: Pair, y: bool, text: string, mint: nat)
    requires Starting(left, right, ofLeft, ofRight, el, rl, er, rr)
    requires Crossing(left, right, ofLeft, ofRight, el, rl, er, rr).Some?
    requires Moves(Crossing(left, right, ofLeft, ofRight, el, rl, er, rr).value, moves, v)
    requires Steady(Crossing(left, right, ofLeft, ofRight, el, rl, er, rr).value, moves)
    requires text != "" && mint !in v.ofLeft.log.secrets && mint !in v.ofRight.log.secrets && NextIsNear(v, y, text)
    ensures |SaidAt(v, y, text).posts| == |v.posts| + 1 && SaidAt(v, y, text).posts[|v.posts|].from == y
    ensures var r := ReadAt(SaidAt(v, y, text), |v.posts|, mint);
            (r.Some? <==> v.turned != {true, false}) && (r.Some? ==> r.value.text == text)
  {
    hide InStep, Starting, Crossing, Moves, Steady, SaidAt, ReadAt, NextIsNear;
    CrossingIsInStep(left, right, ofLeft, ofRight, el, rl, er, rr);
    SteadyRunsStayInStep(Crossing(left, right, ofLeft, ofRight, el, rl, er, rr).value, moves, v);
    NextIsRead(v, y, text, mint);
  }

  lemma {:induction false} RunsKeepLined(w: Pair, moves: seq<Move>, v: Pair)
    requires Lined(w) && Moves(w, moves, v)
    ensures Lined(v)
    decreases |moves|
  {
    hide Lined, Moved;
    if moves != [] {
      MoveKeepsLined(w, moves[0]);
      RunsKeepLined(Moved(w, moves[0]), moves[1..], v);
    }
  }

  /** And in every run at all, whatever crashed or turned twice: once both have
      turned, nothing either says from then on is ever read. */
  lemma CrossedForGood(left: Device, right: Device, ofLeft: KeyBundle, ofRight: KeyBundle,
                       el: nat, rl: nat, er: nat, rr: nat, moves: seq<Move>, u: Pair, later: seq<Move>, v: Pair,
                       i: nat, mint: nat)
    requires Starting(left, right, ofLeft, ofRight, el, rl, er, rr)
    requires Crossing(left, right, ofLeft, ofRight, el, rl, er, rr).Some?
    requires Moves(Crossing(left, right, ofLeft, ofRight, el, rl, er, rr).value, moves, u) && u.turned == {true, false}
    requires Moves(u, later, v) && |u.posts| <= i < |v.posts|
    ensures i !in DiskAt(v, !v.posts[i].from).texts && ReadAt(v, i, mint) == None
  {
    hide Lined, Starting, Crossing, Moves, ReadAt;
    CrossingIsLined(left, right, ofLeft, ofRight, el, rl, er, rr);
    RunsKeepLined(Crossing(left, right, ofLeft, ofRight, el, rl, er, rr).value, moves, u);
    assert Deaf(u, |u.posts|);
    BothTurnedAreDeaf(u, |u.posts|, later, v, i, mint);
  }

  // ── No second turn ────────────────────────────────────────────────────────

  predicate KeyedSide(w: Pair, y: bool) {
    var otk := TalkOf(w, !y).log.pre.otkId;
    otk.Some? && (y in w.turned ==> otk.value !in DiskAt(w, y).preKeys)
  }

  /** Both starts named a one-time prekey, and a device that turned has spent it. */
  predicate Keyed(w: Pair) {
    KeyedSide(w, true) && KeyedSide(w, false)
  }

  /** Then, where no process dies among the writes, no device turns twice. */
  lemma KeyedTurnsOnce(w: Pair, i: nat, mint: nat)
    requires InStep(w) && Keyed(w) && i < |w.posts|
    ensures !TurnsAgain(w, i, mint)
  {
    hide Inv, Decrypt, Fields, ReadAt, Of, EndOk, SpentOk, KeyAt;
    AskedFor(w, i, mint);
    var y := !w.posts[i].from;
    InvAt(w, w.posts[i].start);
    if y in w.turned {
      PreambleIsStarts(w, i);
      assert KeyedSide(w, y);
    }
  }

  lemma PreambleIsStarts(w: Pair, i: nat)
    requires InStep(w) && i < |w.posts|
    ensures PostLined(w, i)
    ensures var k := w.posts[i].envelope.bound.k;
            k.Some? ==> k == Some(TalkOf(w, w.posts[i].from).log.pre)
  {
    hide Fields, Of, EndOk, SpentOk, KeyAt, Accept;
    assert PostPlaced(w, i) && PostLined(w, i);
    InvAt(w, w.posts[i].start);
    PacketIsOk(TalkOf(w, w.posts[i].start).log, TalkOf(w, w.posts[i].start).packets, w.posts[i].place);
  }

  lemma SaidKeepsKeyed(w: Pair, x: bool, text: string)
    requires InStep(w) && Keyed(w)
    ensures Keyed(SaidAt(w, x, text))
  {
    hide Inv, Fields, Sent, SaidAt, InStep;
    SaidIsSentAt(w, x, text);
    var z := Holds(w, x);
    SendKeepsStart(TalkOf(w, z), z == x, text, Fields(NextBound(End(TalkOf(w, z), z == x), DeviceAt(w, x).keys, 2)));
    assert KeyedSide(w, x) && KeyedSide(w, !x);
    assert KeyedSide(SaidAt(w, x, text), x) && KeyedSide(SaidAt(w, x, text), !x);
  }

  lemma ArrivedKeepsKeyed(w: Pair, i: nat, mint: nat)
    requires i < |w.posts| && mint !in w.ofLeft.log.secrets + w.ofRight.log.secrets
    requires InStep(w) && Keyed(w)
    ensures Keyed(ArrivedAt(w, i, mint, 3))
  {
    hide Inv, Fields, InStep, ReadAt, Decrypt, Delivered, RungOf;
    var y := !w.posts[i].from;
    if i in DiskAt(w, y).texts || ReadAt(w, i, mint).None? {
      hide ArrivedAt;
      ArrivedChangesNothing(w, i, mint, 3);
    } else {
      KeyedTurnsOnce(w, i, mint);
      ArrivedIsDelivered(w, i, mint, 3);
      ReadIsDelivery(w, i, mint);
      DeliveryKeepsStart(TalkOf(w, w.posts[i].start), w.posts[i].place, mint);
      if PacketOf(w, i).rung == 1 && y !in w.turned {
        ConsumesStart(w, i, mint);
      }
      var v := ArrivedAt(w, i, mint, 3);
      hide ArrivedAt, PostPlaced, PostLined;
      assert KeyedSide(w, y) && KeyedSide(w, !y);
      assert KeyedSide(v, y) && KeyedSide(v, !y);
    }
  }

  lemma ConsumesStart(w: Pair, i: nat, mint: nat)
    requires InStep(w) && i < |w.posts| && ReadAt(w, i, mint).Some? && !w.posts[i].from !in w.turned
    requires w.posts[i].start == w.posts[i].from
    ensures ReadAt(w, i, mint).value.consumedPreKeyId == TalkOf(w, w.posts[i].from).log.pre.otkId
  {
    hide Inv, Fields, Decrypt, ReadAt, InStep;
    StartIsAnswered(w, i, mint);
  }

  predicate Unbroken(moves: seq<Move>) {
    forall m :: m in moves && m.Arrives? ==> m.writes == 3
  }

  /** With one-time prekeys in both bundles and no crash every run is steady. */
  lemma {:induction false} UnbrokenRunsAreSteady(w: Pair, moves: seq<Move>, v: Pair)
    requires InStep(w) && Keyed(w) && Moves(w, moves, v) && Unbroken(moves)
    ensures Steady(w, moves)
    decreases |moves|
  {
    hide InStep, Keyed, SaidAt, ArrivedAt, TurnsAgain;
    if moves != [] {
      assert moves[0] in moves;
      match moves[0] {
        case Says(x, text) =>
          SaidKeepsInStep(w, x, text);
          SaidKeepsKeyed(w, x, text);
        case Arrives(i, mint, writes) =>
          KeyedTurnsOnce(w, i, mint);
          ArrivedKeepsInStep(w, i, mint, writes);
          ArrivedKeepsKeyed(w, i, mint);
        case TopsUp(x, added) =>
          TopUpKeepsInStep(w, x, added);
          TopUpKeepsKeyed(w, x, added);
      }
      UnbrokenRunsAreSteady(Moved(w, moves[0]), moves[1..], v);
    }
  }

  lemma TopUpKeepsKeyed(w: Pair, x: bool, added: map<int, nat>)
    requires Keyed(w) && May(w, TopsUp(x, added))
    ensures Keyed(Moved(w, TopsUp(x, added)))
  {
  }

  // ── Both turn ─────────────────────────────────────────────────────────────

  /** A near first message that says something is read by a device that has not turned, and turns it. */
  lemma StartTurns(w: Pair, i: nat, mint: nat)
    requires i < |w.posts| && mint !in w.ofLeft.log.secrets + w.ofRight.log.secrets
    requires i !in DiskAt(w, !w.posts[i].from).texts && !w.posts[i].from !in w.turned && w.posts[i].start == w.posts[i].from
    requires w.posts[i].place < |TalkOf(w, w.posts[i].start).packets|
    requires InStep(w)
    requires PacketOf(w, i).rung == 1 && PacketOf(w, i).text != "" && PacketOf(w, i).header.n <= MAX_SKIP
    ensures ReadAt(w, i, mint).Some? && ReadAt(w, i, mint).value.text == PacketOf(w, i).text
    ensures ArrivedAt(w, i, mint, 3).turned == w.turned + {!w.posts[i].from} && InStep(ArrivedAt(w, i, mint, 3))
    ensures ArrivedAt(w, i, mint, 3).posts == w.posts
  {
    hide Inv, Fields, Decrypt, ReadAt, InStep, Delivered, ArrivedAt;
    var t, y := TalkOf(w, w.posts[i].start), !w.posts[i].from;
    InvAt(w, y);
    InvAt(w, !y);
    StartIsAnswered(w, i, mint);
    DeliveriesExact(t, w.posts[i].place, mint);
    assert CanOpen(t.log, 0, t.responder, PacketOf(w, i));
    hide CanOpen;
    assert !TurnsAgain(w, i, mint);
    ArrivedIsDelivered(w, i, mint, 3);
    ArrivedKeepsInStep(w, i, mint, 3);
  }

  lemma StartIsSaid(w: Pair, x: bool, text: string)
    requires InStep(w) && w.turned == {} && |TalkOf(w, x).packets| == 0 && |TalkOf(w, x).log.texts[1]| == 0
    ensures var v := SaidAt(w, x, text);
            && InStep(v) && v.turned == {} && TalkOf(v, !x) == TalkOf(w, !x)
            && v.left.disk.texts == w.left.disk.texts && v.right.disk.texts == w.right.disk.texts
            && v.ofLeft.log.secrets == w.ofLeft.log.secrets && v.ofRight.log.secrets == w.ofRight.log.secrets
            && |v.posts| == |w.posts| + 1 && v.posts[..|w.posts|] == w.posts
            && v.posts[|w.posts|].from == v.posts[|w.posts|].start == x && v.posts[|w.posts|].place == 0
            && |TalkOf(v, x).packets| == 1
            && var p := TalkOf(v, x).packets[0]; p.rung == 1 && p.header.n == 0 && p.text == text
  {
    hide Inv, Fields, Sent, SaidAt, Of, Accept, SideLined, PostLined, PostPlaced;
    SaidKeepsInStep(w, x, text);
    SaidIsSentAt(w, x, text);
    StoredIsEnd(w, x);
    InvAt(w, x);
    InvAt(w, !x);
    var aad := Fields(NextBound(End(TalkOf(w, x), true), DeviceAt(w, x).keys, 2));
    SentAdds(TalkOf(w, x), true, text, aad);
    NewestStands(TalkOf(w, x), true, text, aad);
    FirstRung(TalkOf(w, x));
  }

  lemma FirstRung(t: Talk)
    requires Inv(t) && RungOf(t.log, false) == 0
    ensures RungOf(t.log, true) == 1
  {
    hide EndOk, SpentOk, NetworkOk;
  }

  /** Both devices start, both first messages arrive, each is read, and both have turned. */
  lemma CrossedStartsDeafen(left: Device, right: Device, ofLeft: KeyBundle, ofRight: KeyBundle,
                            el: nat, rl: nat, er: nat, rr: nat, x: string, y: string, mint: nat, other: nat)
    requires Starting(left, right, ofLeft, ofRight, el, rl, er, rr) && x != "" && y != ""
    requires mint !in [left.keys.signedPreKey, right.keys.signedPreKey, rl, rr]
    requires other !in [left.keys.signedPreKey, right.keys.signedPreKey, rl, rr, mint]
    ensures Crossing(left, right, ofLeft, ofRight, el, rl, er, rr).Some?
    ensures var w := Crossing(left, right, ofLeft, ofRight, el, rl, er, rr).value;
            exists v :: && Moves(w, [Says(true, x), Says(false, y), Arrives(0, mint, 3), Arrives(1, other, 3)], v)
                        && Steady(w, [Says(true, x), Says(false, y), Arrives(0, mint, 3), Arrives(1, other, 3)])
                        && v.turned == {true, false} && Shows(v, false, 0, x) && Shows(v, true, 1, y)
  {
    hide Inv, Fields, Sent, SaidAt, ArrivedAt, ReadAt, Of, Accept, InStep, TurnsAgain;
    CrossingIsInStep(left, right, ofLeft, ofRight, el, rl, er, rr);
    var w := Crossing(left, right, ofLeft, ofRight, el, rl, er, rr).value;
    CrossingBegins(left, right, ofLeft, ofRight, el, rl, er, rr);
    hide Crossing, Starting;
    StartIsSaid(w, true, x);
    var w1 := SaidAt(w, true, x);
    StartIsSaid(w1, false, y);
    var w2 := SaidAt(w1, false, y);
    StartTurns(w2, 0, mint);
    StartWrites(w2, 0, mint);
    var w3 := ArrivedAt(w2, 0, mint, 3);
    StartTurns(w3, 1, other);
    StartWrites(w3, 1, other);
    var v := ArrivedAt(w3, 1, other, 3);
    FourMoves(w, x, y, mint, other);
  }

  predicate Shows(w: Pair, x: bool, id: MessageId, text: string) {
    id in DiskAt(w, x).texts && DiskAt(w, x).texts[id] == text
  }

  lemma CrossingBegins(left: Device, right: Device, ofLeft: KeyBundle, ofRight: KeyBundle,
                       el: nat, rl: nat, er: nat, rr: nat)
    requires Starting(left, right, ofLeft, ofRight, el, rl, er, rr)
    requires Crossing(left, right, ofLeft, ofRight, el, rl, er, rr).Some?
    ensures var w := Crossing(left, right, ofLeft, ofRight, el, rl, er, rr).value;
            && w.turned == {} && w.posts == [] && w.left.disk.texts == map[] && w.right.disk.texts == map[]
            && w.ofLeft.log.secrets == [right.keys.signedPreKey, rl] && w.ofRight.log.secrets == [left.keys.signedPreKey, rr]
            && w.ofLeft.packets == [] && w.ofRight.packets == []
            && w.ofLeft.log.texts == [[], []] && w.ofRight.log.texts == [[], []]
  {
  }

  lemma StartWrites(w: Pair, i: nat, mint: nat)
    requires i < |w.posts| && mint !in w.ofLeft.log.secrets + w.ofRight.log.secrets
    requires i !in DiskAt(w, !w.posts[i].from).texts && !w.posts[i].from !in w.turned && w.posts[i].start == w.posts[i].from
    requires ReadAt(w, i, mint).Some?
    requires InStep(w)
    ensures !TurnsAgain(w, i, mint)
    ensures var y, v := !w.posts[i].from, ArrivedAt(w, i, mint, 3);
            && DiskAt(v, y).texts == DiskAt(w, y).texts[i := ReadAt(w, i, mint).value.text] && DiskAt(v, !y) == DiskAt(w, !y)
            && TalkOf(v, y) == TalkOf(w, y) && v.posts == w.posts
            && (TalkOf(v, !y).log.secrets == TalkOf(w, !y).log.secrets
                || TalkOf(v, !y).log.secrets == TalkOf(w, !y).log.secrets + [mint])
  {
    hide Inv, Fields, Decrypt, ReadAt, Of, Accept, RungOf, Delivered, SideInStep, SideLined;
    ArrivedIsDelivered(w, i, mint, 3);
    DeliveredSecrets(TalkOf(w, w.posts[i].start), w.posts[i].place, mint);
  }

  lemma DeliveredSecrets(t: Talk, i: nat, mint: nat)
    requires i < |t.packets|
    ensures var u := Delivered(t, i, mint); u.log.secrets == t.log.secrets || u.log.secrets == t.log.secrets + [mint]
  {
    hide Decrypt;
  }

  lemma FourMoves(w: Pair, x: string, y: string, mint: nat, other: nat)
    requires var w2 := SaidAt(SaidAt(w, true, x), false, y);
             && May(w2, Arrives(0, mint, 3)) && !TurnsAgain(w2, 0, mint)
             && var w3 := ArrivedAt(w2, 0, mint, 3);
                May(w3, Arrives(1, other, 3)) && !TurnsAgain(w3, 1, other)
    ensures var w3 := ArrivedAt(SaidAt(SaidAt(w, true, x), false, y), 0, mint, 3);
            var moves := [Says(true, x), Says(false, y), Arrives(0, mint, 3), Arrives(1, other, 3)];
            Moves(w, moves, ArrivedAt(w3, 1, other, 3)) && Steady(w, moves)
  {
    hide SaidAt, ArrivedAt, TurnsAgain;
    var moves := [Says(true, x), Says(false, y), Arrives(0, mint, 3), Arrives(1, other, 3)];
    var w1 := SaidAt(w, true, x);
    var w2 := SaidAt(w1, false, y);
    var w3 := ArrivedAt(w2, 0, mint, 3);
    var v := ArrivedAt(w3, 1, other, 3);
    var last: seq<Move> := [];
    assert moves[1..][1..][1..][1..] == last && moves[1..][1..][1..][0] == Arrives(1, other, 3);
    assert Moves(w3, moves[1..][1..][1..], v) && Steady(w3, moves[1..][1..][1..]);
    assert moves[1..][1..][0] == Arrives(0, mint, 3);
    assert Moves(w2, moves[1..][1..], v) && Steady(w2, moves[1..][1..]);
    assert moves[1..][0] == Says(false, y);
    assert Moves(w1, moves[1..], v) && Steady(w1, moves[1..]);
  }
}
