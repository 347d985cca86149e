/**
 * What a restart from the preamble costs. It reads a message past its lost key,
 * and puts in place of the live session one that has read the first chain alone.
 */
module Restarting {
  import opened Cipher
  import opened Conversation
  import opened Devices
  import opened Evictions
  import opened Messaging
  import opened Ratchet
  import opened Wrappers

  // ── Who still reads whom ──────────────────────────────────────────────────

  lemma OtherChainRefuses(s: Session, h: Header, body: Body, aad: string, mine: Key, at: nat, theirs: Key, n: nat)
    requires body.Sealed? && body.key == Message(Walk(theirs, n)) && mine.Chain? && theirs.Chain? && mine != theirs
    requires s.theirRatchet.Some? && s.recvChain == Some(Walk(mine, at))
    ensures OpenNext(s, h, body, aad) == None
  {
    hide Kept, Store;
    var count := Ahead(s.recvCount, h.n);
    WalkAdds(mine, at, count);
    if Walk(mine, at + count) == Walk(theirs, n) {
      WalkInjective(mine, at + count, theirs, n);
    }
  }

  /** A session that turns onto a chain other than the sender's refuses. */
  lemma TurningRefuses(s: Session, h: Header, body: Body, aad: string, mint: nat, theirs: Key, n: nat)
    requires body.Sealed? && body.key == Message(Walk(theirs, n)) && theirs.Chain?
    requires s.theirRatchet != Some(h.dh) && SkippedKey(h.dh, h.n) !in s.skipped
    requires Chain(s.rootKey, Agree(s.secret, h.dh)) != theirs
    ensures Decrypt(s, h, body, aad, mint) == None
  {
    hide Kept, Store, OpenNext;
    if body.text != "" && Follow(s, h, mint).Some? {
      OtherChainRefuses(Follow(s, h, mint).value, h, body, aad, Chain(s.rootKey, Agree(s.secret, h.dh)), 0, theirs, n);
    }
  }

  /** A session that restarted with `mint` and has since read nothing but the first chain. */
  ghost predicate Apart(log: Log, t: Session, mint: nat) {
    && LogOk(log) && mint !in log.secrets
    && var theirs := PublicKey(log.secrets[1]);
       && t.secret == mint && t.theirRatchet == Some(theirs) && t.pending == None && t.previousSendCount == 0
       && t.rootKey == Root(RootAt(log.start, log.secrets, 1), Agree(mint, theirs))
       && t.sendChain == Some(Walk(Chain(RootAt(log.start, log.secrets, 1), Agree(mint, theirs)), t.sendCount))
       && t.recvChain == Some(Walk(ChainAt(log.start, log.secrets, 1), t.recvCount))
       && forall key :: key in t.skipped ==> key.dh == theirs
  }

  lemma RejoinedIsApart(log: Log, t: Session, n: int, mint: nat)
    requires LogOk(log) && Rejoins(log, t, n, mint) && mint !in log.secrets
    ensures Apart(log, t, mint)
  {
  }

  lemma SayingKeepsApart(log: Log, t: Session, mint: nat, text: string, aad: string)
    requires Apart(log, t, mint)
    ensures Encrypt(t, text, aad).Some? && Apart(log, Encrypt(t, text, aad).value.session, mint)
  {
    hide RootAt, ChainAt;
  }

  /** None of the conversation's chains above the second is one it can reach, nor its own chain one of theirs. */
  lemma ApartStrays(log: Log, t: Session, mint: nat, k: nat)
    requires Apart(log, t, mint) && 3 <= k < |log.secrets|
    ensures Chain(t.rootKey, Agree(mint, PublicKey(log.secrets[k]))) != ChainAt(log.start, log.secrets, k)
    ensures Chain(RootAt(log.start, log.secrets, k), Agree(log.secrets[k], PublicKey(mint))) !=
            Chain(RootAt(log.start, log.secrets, 1), Agree(mint, PublicKey(log.secrets[1])))
  {
    RootDepth(log.start, log.secrets, 1);
    RootDepth(log.start, log.secrets, k - 1);
    RootDepth(log.start, log.secrets, k);
  }

  lemma ApartReadsOn(s: Session, h: Header, body: Body, aad: string, mint: nat)
    requires s.theirRatchet == Some(h.dh) && s.recvChain.Some? && s.pending == None
    ensures var r := Decrypt(s, h, body, aad, mint);
            r.Some? ==>
              && r.value.session == s.(skipped := r.value.session.skipped, recvChain := r.value.session.recvChain,
                                       recvCount := r.value.session.recvCount)
              && r.value.session.recvCount >= s.recvCount
              && r.value.session.recvChain == Some(Walk(s.recvChain.value, r.value.session.recvCount - s.recvCount))
              && (forall key :: key in r.value.session.skipped ==> key in s.skipped || key.dh == h.dh)
  {
    hide Kept, Store;
    if SkippedKey(h.dh, h.n) !in s.skipped && Decrypt(s, h, body, aad, mint).Some? {
      var count := Ahead(s.recvCount, h.n);
      var m := Store(s.skipped, h.dh, s.recvChain.value, s.recvCount, count);
      StoreHolds(s.skipped, h.dh, s.recvChain.value, s.recvCount, count);
      KeptKeepsLastNames(m);
      assert Walk(s.recvChain.value, count + 1) == Ratchet.Next(Walk(s.recvChain.value, count));
    }
  }

  /** Of everything the initiator sends it opens the first chain alone, and stays apart. */
  lemma ApartHears(log: Log, t: Session, mint: nat, p: Packet, other: nat)
    requires Apart(log, t, mint) && PacketOk(log, p) && !ToInitiator(p)
    ensures var r := Decrypt(t, p.header, p.body, p.aad, other);
            r.Some? ==> p.rung == 1 && Apart(log, r.value.session, mint)
  {
    hide Decrypt, KeyAt;
    if p.rung == 1 {
      ApartReadsOn(t, p.header, p.body, p.aad, other);
      var r := Decrypt(t, p.header, p.body, p.aad, other);
      if r.Some? {
        WalkAdds(ChainAt(log.start, log.secrets, 1), t.recvCount, r.value.session.recvCount - t.recvCount);
      }
    } else {
      KeyAtUnfolds(log.start, log.secrets, p.rung, p.header.n);
      ApartStrays(log, t, mint, p.rung);
      TurningRefuses(t, p.header, p.body, p.aad, other, ChainAt(log.start, log.secrets, p.rung), p.header.n);
    }
  }

  lemma StoresNoStranger(log: Log, e: nat, s: Session, mint: nat)
    requires EndOk(log, e, s) && mint !in log.secrets
    ensures forall key :: key in s.skipped ==> key.dh != PublicKey(mint)
  {
    hide SendingOk, ReceivingOk, KeyAt;
    forall key | key in s.skipped
      ensures key.dh != PublicKey(mint)
    {
      var k: nat :| Keeps(log, e, s.recvCount, key, s.skipped[key], k);
    }
  }

  /** And the initiator, once it has turned, opens nothing of what it says. */
  lemma ApartIsUnheard(log: Log, t: Session, mint: nat, e: nat, s: Session, n: nat, header: Header, body: Body, aad: string,
                       other: nat)
    requires Apart(log, t, mint) && EndOk(log, e, s) && e >= 3 && header.dh == PublicKey(mint)
    requires body.Sealed? && t.sendChain.Some?
    requires body.key == Message(Walk(Chain(RootAt(log.start, log.secrets, 1), Agree(mint, PublicKey(log.secrets[1]))), n))
    ensures Decrypt(s, header, body, aad, other) == None
  {
    hide Decrypt, SkippedOk;
    StoresNoStranger(log, e, s, mint);
    ApartStrays(log, t, mint, e);
    TurningRefuses(s, header, body, aad, other,
                   Chain(RootAt(log.start, log.secrets, 1), Agree(mint, PublicKey(log.secrets[1]))), n);
  }

  // ── Every run from there ──────────────────────────────────────────────────

  /** The initiator's half of the conversation, the session that took the
      responder's place, and what that session has said. */
  datatype Parted = Parted(talk: Talk, ours: Session, said: seq<Outgoing>)

  datatype Move =
    | TheySay(text: string, aad: string)
    | WeSay(text: string, aad: string)
    | WeHear(packet: nat, mint: nat)
    | TheyHear(said: nat, aad: string, mint: nat)
    | TheyHearOld(packet: nat, mint: nat)

  predicate May(w: Parted, move: Move, mint: nat) {
    match move
    case TheySay(_, _) => true
    case WeSay(_, _) => true
    case WeHear(i, _) => i < |w.talk.packets| && !ToInitiator(w.talk.packets[i])
    case TheyHear(j, _, _) => j < |w.said|
    case TheyHearOld(i, m) => i < |w.talk.packets| && ToInitiator(w.talk.packets[i]) && m !in w.talk.log.secrets + [mint]
  }

  ghost function Moved(w: Parted, move: Move, mint: nat): Parted
    requires May(w, move, mint)
  {
    match move
    case TheySay(text, aad) => w.(talk := Sent(w.talk, true, text, aad))
    case WeSay(text, aad) =>
      (match Encrypt(w.ours, text, aad)
       case None => w
       case Some(o) => w.(ours := o.session, said := w.said + [o]))
    case WeHear(i, m) =>
      (var p := w.talk.packets[i];
       match Decrypt(w.ours, p.header, p.body, p.aad, m)
       case None => w
       case Some(o) => w.(ours := o.session))
    case TheyHear(j, aad, m) =>
      (match Decrypt(w.talk.initiator, w.said[j].header, w.said[j].body, aad, m)
       case None => w
       case Some(o) => w.(talk := w.talk.(initiator := o.session)))
    case TheyHearOld(i, m) => w.(talk := Delivered(w.talk, i, m))
  }

  ghost predicate Moves(w: Parted, moves: seq<Move>, mint: nat, v: Parted)
    decreases |moves|
  {
    if moves == [] then v == w
    else May(w, moves[0], mint) && Moves(Moved(w, moves[0], mint), moves[1..], mint, v)
  }

  ghost predicate PartedOk(w: Parted, mint: nat) {
    && Inv(w.talk) && RungOf(w.talk.log, true) >= 3 && Apart(w.talk.log, w.ours, mint)
    && forall j: nat :: j < |w.said| ==> SaidApart(w.talk.log, w.said[j], mint)
  }

  predicate SaidApart(log: Log, o: Outgoing, mint: nat)
    requires |log.secrets| >= 2
  {
    && o.header.dh == PublicKey(mint) && o.header.n >= 0 && o.body.Sealed?
    && o.body.key == Message(Walk(Chain(RootAt(log.start, log.secrets, 1), Agree(mint, PublicKey(log.secrets[1]))), o.header.n))
  }

  lemma ApartGrows(log: Log, longer: Log, t: Session, mint: nat)
    requires Apart(log, t, mint) && LogOk(longer) && longer.start == log.start && mint !in longer.secrets
    requires longer.secrets == log.secrets || longer.secrets == log.secrets + [longer.secrets[|longer.secrets| - 1]]
    ensures Apart(longer, t, mint)
    ensures RootAt(longer.start, longer.secrets, 1) == RootAt(log.start, log.secrets, 1)
    ensures longer.secrets[1] == log.secrets[1]
  {
    if longer.secrets != log.secrets {
      RootStays(log.start, log.secrets, longer.secrets[|longer.secrets| - 1], 1);
    }
  }

  /** How a step of the conversation moves its log. */
  lemma SentGrows(w: Talk, text: string, aad: string)
    requires Inv(w)
    ensures var v := Sent(w, true, text, aad);
            && v.log.start == w.log.start && v.log.secrets == w.log.secrets && RungOf(v.log, true) == RungOf(w.log, true)
  {
    hide EndOk, NetworkOk, SpentOk;
  }

  lemma DeliveredGrows(w: Talk, i: nat, mint: nat)
    requires Inv(w) && i < |w.packets|
    ensures var v := Delivered(w, i, mint);
            && v.log.start == w.log.start && RungOf(v.log, true) >= RungOf(w.log, true)
            && (v.log.secrets == w.log.secrets || v.log.secrets == w.log.secrets + [mint])
  {
    hide EndOk, NetworkOk, SpentOk, Decrypt;
  }

  lemma SaidStaysApart(log: Log, longer: Log, t: Session, mint: nat, said: seq<Outgoing>)
    requires Apart(log, t, mint) && LogOk(longer) && longer.start == log.start && mint !in longer.secrets
    requires longer.secrets == log.secrets || longer.secrets == log.secrets + [longer.secrets[|longer.secrets| - 1]]
    requires forall j: nat :: j < |said| ==> SaidApart(log, said[j], mint)
    ensures Apart(longer, t, mint) && forall j: nat :: j < |said| ==> SaidApart(longer, said[j], mint)
  {
    hide RootAt;
    ApartGrows(log, longer, t, mint);
    forall j: nat | j < |said|
      ensures SaidApart(longer, said[j], mint)
    {
      assert SaidApart(log, said[j], mint);
    }
  }

  lemma SayingIsApart(log: Log, t: Session, mint: nat, text: string, aad: string)
    requires Apart(log, t, mint)
    ensures Encrypt(t, text, aad).Some? && SaidApart(log, Encrypt(t, text, aad).value, mint)
  {
    hide RootAt, ChainAt;
  }

  /** What either end hears of the other, parted: the first chain alone one way, nothing the other. */
  lemma PartedHear(w: Parted, mint: nat, move: Move)
    requires PartedOk(w, mint) && May(w, move, mint)
    ensures move.WeHear? ==>
              var p := w.talk.packets[move.packet];
              var r := Decrypt(w.ours, p.header, p.body, p.aad, move.mint);
              r.Some? ==> p.rung == 1 && Apart(w.talk.log, r.value.session, mint)
    ensures move.TheyHear? ==>
              Decrypt(w.talk.initiator, w.said[move.said].header, w.said[move.said].body, move.aad, move.mint) == None
  {
    hide Apart, Decrypt, EndOk, SpentOk, PacketOk;
    if move.WeHear? {
      PacketIsOk(w.talk.log, w.talk.packets, move.packet);
      ApartHears(w.talk.log, w.ours, mint, w.talk.packets[move.packet], move.mint);
    } else if move.TheyHear? {
      var o := w.said[move.said];
      assert SaidApart(w.talk.log, o, mint);
      ApartSends(w.talk.log, w.ours, mint);
      ApartIsUnheard(w.talk.log, w.ours, mint, RungOf(w.talk.log, true), w.talk.initiator, o.header.n, o.header, o.body,
                     move.aad, move.mint);
    }
  }

  lemma ApartSends(log: Log, t: Session, mint: nat)
    requires Apart(log, t, mint)
    ensures t.sendChain.Some?
  {
  }

  lemma MoveKeepsParted(w: Parted, move: Move, mint: nat)
    requires PartedOk(w, mint) && May(w, move, mint)
    ensures PartedOk(Moved(w, move, mint), mint)
  {
    hide Inv, Apart, Decrypt, Encrypt, Sent, Delivered, SaidApart, RungOf;
    PartedHear(w, mint, move);
    TalkHoldsLog(w.talk);
    match move {
      case TheySay(text, aad) =>
        SendKeepsInv(w.talk, true, text, aad);
        SentGrows(w.talk, text, aad);
        TalkHoldsLog(Sent(w.talk, true, text, aad));
        ApartIsFresh(w.talk.log, w.ours, mint);
        SaidStaysApart(w.talk.log, Sent(w.talk, true, text, aad).log, w.ours, mint, w.said);
      case WeSay(text, aad) =>
        SayingKeepsApart(w.talk.log, w.ours, mint, text, aad);
        SayingIsApart(w.talk.log, w.ours, mint, text, aad);
      case WeHear(i, m) =>
      case TheyHear(j, aad, m) =>
      case TheyHearOld(i, m) =>
        DeliverKeepsInv(w.talk, i, m);
        DeliveredGrows(w.talk, i, m);
        TalkHoldsLog(Delivered(w.talk, i, m));
        ApartIsFresh(w.talk.log, w.ours, mint);
        SaidStaysApart(w.talk.log, Delivered(w.talk, i, m).log, w.ours, mint, w.said);
    }
  }

  lemma TalkHoldsLog(w: Talk)
    requires Inv(w)
    ensures LogOk(w.log) && |w.log.secrets| >= 2
  {
  }

  lemma ApartIsFresh(log: Log, t: Session, mint: nat)
    requires Apart(log, t, mint)
    ensures mint !in log.secrets
  {
  }

  /** Once a restart has parted the two nothing brings them together: in every
      run from there neither opens anything the other says on a later chain. */
  lemma {:induction false} PartedForGood(w: Parted, moves: seq<Move>, mint: nat, v: Parted, last: Move)
    requires PartedOk(w, mint) && Moves(w, moves, mint, v) && May(v, last, mint)
    ensures PartedOk(v, mint)
    ensures last.WeHear? ==>
              var p := v.talk.packets[last.packet];
              Decrypt(v.ours, p.header, p.body, p.aad, last.mint).Some? ==> p.rung == 1
    ensures last.TheyHear? ==>
              Decrypt(v.talk.initiator, v.said[last.said].header, v.said[last.said].body, last.aad, last.mint) == None
    decreases |moves|
  {
    hide PartedOk, Moved, Decrypt, Apart;
    if moves == [] {
      PartedHear(v, mint, last);
    } else {
      MoveKeepsParted(w, moves[0], mint);
      PartedForGood(Moved(w, moves[0], mint), moves[1..], mint, v, last);
    }
  }

  /** A restart parts the two devices if the initiator has turned, and otherwise leaves them in step. */
  lemma RestartParts(w: World, i: nat, mint: nat)
    requires WorldOk(w) && i < |w.posted| && mint !in w.talk.log.secrets && Restarts(w, i)
    ensures w.initiator.keys.deviceId in Arrived(w, i, mint).responder.disk.sessions
    ensures var t := Arrived(w, i, mint).responder.disk.sessions[w.initiator.keys.deviceId];
            if RungOf(w.talk.log, true) == 1 then Follows(t, w.talk.initiator) && OneTurnBehind(w.talk.initiator, t)
            else PartedOk(Parted(w.talk, t, []), mint)
  {
    hide Arrived, Decrypt, EndOk, SpentOk, NetworkOk, PostedOk, TextsOk, Rejoins, Past, Follows, OneTurnBehind, Apart;
    RestartReplaces(w, i, mint);
    var t := Arrived(w, i, mint).responder.disk.sessions[w.initiator.keys.deviceId];
    var n := w.talk.packets[i].header.n;
    RestartPlace(w, i);
    RejoinedIsApart(w.talk.log, t, n, mint);
    if RungOf(w.talk.log, true) == 1 {
      InStep(w.talk, t, n, mint);
    }
  }

  lemma RestartPlace(w: World, i: nat)
    requires WorldOk(w) && i < |w.posted| && Restarts(w, i)
    ensures 0 <= w.talk.packets[i].header.n < |w.talk.log.texts[1]|
  {
    hide EndOk, SpentOk, PostedOk, TextsOk;
    PacketIsOk(w.talk.log, w.talk.packets, i);
  }

  /** Before the initiator turned, the restarted session is in step with it. */
  lemma InStep(w: Talk, t: Session, n: int, mint: nat)
    requires Inv(w) && Rejoins(w.log, t, n, mint) && RungOf(w.log, true) == 1 && n < |w.log.texts[1]|
    ensures Follows(t, w.initiator) && OneTurnBehind(w.initiator, t)
  {
    hide SkippedOk, SpentOk, NetworkOk;
    WalkAdds(ChainAt(w.log.start, w.log.secrets, 1), n + 1, |w.log.texts[1]| - (n + 1));
  }

  // ── Two more ways to the preamble ─────────────────────────────────────────

  /** What the reader's disk is when the process dies after saving the session
      and before writing the text down. */
  ghost function DiedSaving(w: World, i: nat, mint: nat): Disk
    requires i < |w.posted| == |w.talk.packets|
  {
    var reader, author := DeviceOf(w, ForInitiator(w, i)), DeviceOf(w, !ForInitiator(w, i)).keys;
    OpenedDisk(reader.disk, reader.keys, i, w.posted[i], author.userId, Some(author.identity), mint, 1)
  }

  /** A message opened by a process that dies there is read on the next try if
      and only if its preamble can still build a session; any other is never shown. */
  lemma DiedSavingLoses(w: World, i: nat, mint: nat, again: nat)
    requires WorldOk(w) && i < |w.posted| && mint !in w.talk.log.secrets && again !in w.talk.log.secrets + [mint]
    requires !IsSpent(w.talk, w.talk.packets[i])
    requires var p := w.talk.packets[i]; Decrypt(Reader(w.talk, p), p.header, p.body, p.aad, mint).Some?
    ensures var p := w.talk.packets[i];
            var reader, author := DeviceOf(w, ForInitiator(w, i)), DeviceOf(w, !ForInitiator(w, i)).keys;
            Answer(DiedSaving(w, i, mint), reader.keys, i, w.posted[i], author.userId, Some(author.identity), again) ==
              if p.rung == 1 && p.header.n <= MAX_SKIP
                 && (w.talk.log.pre.otkId.None? || w.initiator.keys.deviceId !in w.responder.disk.sessions)
              then Some(p.text) else None
  {
    hide Inv, Decrypt, Fields, OpenAnew, Delivered, Rejoins, Accept, CanOpen;
    var p := w.talk.packets[i];
    assert TextsOk(w, i) && PostedOk(w, i);
    ReadingIsDecrypting(w, i, mint);
    PreambleBuilds(w, i, again);
    DeliveriesExact(w.talk, i, mint);
    OpensSomething(w.talk.log, ReaderRung(w.talk, p), Reader(w.talk, p), p);
    DeliverKeepsInv(w.talk, i, mint);
    DeliveredOpens(w.talk, i, mint);
    DeliveredGrows(w.talk, i, mint);
    OpeningSpends(w.talk, i, mint);
    RedeliveryRefused(Delivered(w.talk, i, mint), i, again);
    OpeningKeepsDevice(Reader(w.talk, p), p.header, p.body, p.aad, mint);
    SavedIsEnd(w, i, mint);
  }

  lemma SavedIsEnd(w: World, i: nat, mint: nat)
    requires WorldOk(w) && i < |w.posted| && mint !in w.talk.log.secrets && !IsSpent(w.talk, w.talk.packets[i])
    requires var p := w.talk.packets[i]; Decrypt(Reader(w.talk, p), p.header, p.body, p.aad, mint).Some?
    ensures var reader, author := DeviceOf(w, ForInitiator(w, i)), DeviceOf(w, !ForInitiator(w, i)).keys;
            && Stored(DiedSaving(w, i, mint), author.deviceId) ==
                 Some(End(Delivered(w.talk, i, mint), ForInitiator(w, i)))
            && DiedSaving(w, i, mint).preKeys == reader.disk.preKeys && DiedSaving(w, i, mint).texts == reader.disk.texts
  {
    hide Inv, Decrypt, Fields, OpenAnew, Delivered, Rejoins, Accept, CanOpen, Reading;
    var p := w.talk.packets[i];
    assert TextsOk(w, i);
    ReadingIsDecrypting(w, i, mint);
    DeliveredOpens(w.talk, i, mint);
    OpeningKeepsDevice(Reader(w.talk, p), p.header, p.body, p.aad, mint);
  }

  lemma SpentWasHeard(w: World, i: nat)
    requires WorldOk(w) && i < |w.posted| && IsSpent(w.talk, w.talk.packets[i])
    ensures Stored(DeviceOf(w, ForInitiator(w, i)).disk, DeviceOf(w, !ForInitiator(w, i)).keys.deviceId) ==
              Some(Reader(w.talk, w.talk.packets[i]))
  {
    hide Inv, PostedOk, TextsOk, Accept;
  }

  lemma OpensSomething(log: Log, e: nat, s: Session, p: Packet)
    requires CanOpen(log, e, s, p)
    ensures p.text != ""
  {
  }

  /** An envelope whose message was opened, posted once more under another id:
      it is shown again, and replaces the session, if and only if it starts the
      conversation from a bundle without a one-time prekey, near enough. */
  lemma RepostedIsRead(w: World, i: nat, id: MessageId, mint: nat)
    requires WorldOk(w) && i < |w.posted| && mint !in w.talk.log.secrets && IsSpent(w.talk, w.talk.packets[i])
    requires id !in DeviceOf(w, ForInitiator(w, i)).disk.texts
    ensures var p := w.talk.packets[i];
            var reader, author := DeviceOf(w, ForInitiator(w, i)), DeviceOf(w, !ForInitiator(w, i)).keys;
            var disk := OpenedDisk(reader.disk, reader.keys, id, w.posted[i], author.userId, Some(author.identity), mint, 3);
            if w.talk.log.pre.otkId.None? && p.rung == 1 && p.header.n <= MAX_SKIP && p.text != "" then
              && Answer(reader.disk, reader.keys, id, w.posted[i], author.userId, Some(author.identity), mint) == Some(p.text)
              && author.deviceId in disk.sessions && |w.talk.log.secrets| >= 2
              && Rejoins(w.talk.log, disk.sessions[author.deviceId], p.header.n, mint)
            else
              && Answer(reader.disk, reader.keys, id, w.posted[i], author.userId, Some(author.identity), mint) == None
              && disk == reader.disk
  {
    hide Inv, Decrypt, Fields, OpenAnew, Delivered, Rejoins, Accept, CanOpen;
    var p := w.talk.packets[i];
    assert TextsOk(w, i) && PostedOk(w, i);
    PreambleBuilds(w, i, mint);
    RedeliveryRefused(w.talk, i, mint);
    SpentWasHeard(w, i);
  }

  // ── A history that comes to it ────────────────────────────────────────────

  lemma {:induction false} HistoryExtends(w: World, events: seq<Event>, u: World, event: Event)
    requires History(w, events, u) && Happens(u, event)
    ensures History(w, events + [event], Messaging.Next(u, event))
    decreases |events|
  {
    hide Messaging.Next, Happens;
    if events == [] {
      assert events + [event] == [event] && [event][1..] == [];
      assert History(Messaging.Next(u, event), [], Messaging.Next(u, event));
    } else {
      HistoryExtends(Messaging.Next(w, events[0]), events[1..], u, event);
      assert (events + [event])[1..] == events[1..] + [event];
    }
  }

  lemma SaidOnce(w: World, n: nat)
    requires WorldOk(w) && Unheard(w.talk, n)
    ensures var v := Messaging.Said(w, true, "x");
            && WorldOk(v) && Unheard(v.talk, n + 1) && v.talk.log.pre == w.talk.log.pre
            && v.talk.log.secrets == w.talk.log.secrets
  {
    hide Inv, Unheard, Fields, Sent, PostedOk, TextsOk;
    SaidKeepsWorld(w, true, "x");
    SaidIsSent(w, true, "x");
    SayingAdds(w.talk, n, "x", Fields(NextBound(End(w.talk, true), DeviceOf(w, true).keys, 2)));
  }

  lemma {:induction false} SaidMany(w: World, n: nat) returns (events: seq<Event>, u: World)
    requires WorldOk(w) && Unheard(w.talk, 0)
    ensures History(w, events, u) && WorldOk(u) && Unheard(u.talk, n) && u.talk.log.pre == w.talk.log.pre
    ensures u.talk.log.secrets == w.talk.log.secrets
  {
    hide WorldOk, Unheard, Messaging.Said;
    events, u := [], w;
    if n > 0 {
      events, u := SaidMany(w, n - 1);
      SaidOnce(u, n - 1);
      HistoryExtends(w, events, u, Say(true, "x"));
      events, u := events + [Say(true, "x")], Messaging.Said(u, true, "x");
    }
  }

  lemma ArrivalExtends(w: World, events: seq<Event>, u: World, i: nat, mint: nat)
    requires WorldOk(u) && History(w, events, u) && i < |u.talk.packets| && mint !in u.talk.log.secrets && !Restarts(u, i)
    ensures |u.posted| == |u.talk.packets| && WorldOk(Arrived(u, i, mint))
    ensures Arrived(u, i, mint).talk == Delivered(u.talk, i, mint)
    ensures History(w, events + [Arrive(i, mint)], Arrived(u, i, mint))
    ensures Arrived(u, i, mint).talk.log.pre == u.talk.log.pre
  {
    hide Inv, Arrived, Delivered, History, Restarts, PostedOk, TextsOk;
    ArrivedKeepsWorld(u, i, mint);
    ArrivedKeepsPreamble(u, i, mint);
    HistoryExtends(w, events, u, Arrive(i, mint));
  }

  lemma LateNeverRestarts(w: World, n: nat, i: nat)
    requires SaidInOrder(w.talk, n) && i < n && (i > MAX_SKIP || |w.talk.log.secrets| == 2)
    ensures !Restarts(w, i)
  {
    hide Inv;
  }

  /** The run that loses a newer key, as a history of two devices. */
  lemma LosingHistory(w: World, events: seq<Event>, u: World, mint: nat, other: nat) returns (longer: seq<Event>, v: World)
    requires WorldOk(u) && History(w, events, u) && Unheard(u.talk, 2006)
    requires mint !in u.talk.log.secrets && other !in u.talk.log.secrets + [mint]
    ensures WorldOk(v) && History(w, longer, v) && LostNewer(v.talk) && v.talk.log.pre == u.talk.log.pre
    ensures v.talk.log.secrets == u.talk.log.secrets + [mint]
  {
    hide WorldOk, Inv, Arrived, Delivered, History, Restarts, LostNewer, HeardTwice;
    TwoArrivals(u.talk, mint, other);
    LateNeverRestarts(u, 2006, 1000);
    ArrivalExtends(w, events, u, 1000, mint);
    hide Unheard;
    var u1 := Arrived(u, 1000, mint);
    assert SaidInOrder(u1.talk, 2006) by {
      FirstArrival(u.talk, 2006, 1000, mint);
    }
    LateNeverRestarts(u1, 2006, 2001);
    ArrivalExtends(w, events + [Arrive(1000, mint)], u1, 2001, other);
    var u2 := Arrived(u1, 2001, other);
    OverflowingArrival(u2.talk, other);
    TwiceIsInOrder(u2.talk);
    LateNeverRestarts(u2, 2006, 2005);
    ArrivalExtends(w, events + [Arrive(1000, mint)] + [Arrive(2001, other)], u2, 2005, other);
    longer, v := events + [Arrive(1000, mint)] + [Arrive(2001, other)] + [Arrive(2005, other)], Arrived(u2, 2005, other);
    LastArrival(u2.talk, other);
  }

  lemma TwiceIsInOrder(w: Talk)
    requires HeardTwice(w)
    ensures SaidInOrder(w, 2006)
  {
  }

  lemma LastArrival(w: Talk, other: nat)
    requires HeardTwice(w) && other !in w.log.secrets
    ensures |w.packets| == 2006 && Delivered(w, 2005, other).log.secrets == w.log.secrets
  {
    hide Inv, Delivered, Gaps;
    LaterArrival(w, 2006, 2002, Gaps(PublicKey(w.log.secrets[1])), 2005, other);
  }

  /** The responder answers, the initiator hears it and turns, and the lost message can still restart the session. */
  lemma Answered(v: World, mint: nat)
    requires WorldOk(v) && LostNewer(v.talk) && v.talk.log.pre.otkId.None? && mint !in v.talk.log.secrets
    ensures var y := Messaging.Said(v, false, "y");
            && WorldOk(y) && |y.posted| == |y.talk.packets| == 2007 && mint !in y.talk.log.secrets && !Restarts(y, 2006)
            && var z := Arrived(y, 2006, mint);
               && WorldOk(z) && |z.posted| == |z.talk.packets| == 2007 && Restarts(z, 10) && RungOf(z.talk.log, true) >= 3
  {
    hide Inv, Fields, Sent, Delivered, PostedOk, TextsOk, Arrived, Accept;
    AnswerStored(v);
    var aad := Fields(NextBound(End(v.talk, false), DeviceOf(v, false).keys, 2));
    SaidKeepsWorld(v, false, "y");
    SaidIsSent(v, false, "y");
    AnswerSent(v.talk, "y", aad);
    var y := Messaging.Said(v, false, "y");
    ArrivedKeepsWorld(y, 2006, mint);
    AnswerHeard(y.talk, mint);
    ArrivedKeepsPreamble(y, 2006, mint);
  }

  lemma AnswerStored(v: World)
    requires WorldOk(v) && LostNewer(v.talk)
    ensures Stored(v.responder.disk, v.initiator.keys.deviceId).Some?
  {
    hide Inv, PostedOk, TextsOk, Accept;
  }

  /** The lost message, still lost. */
  ghost predicate StillLost(w: Talk) {
    && Inv(w) && |w.packets| > 10 && RungOf(w.log, false) == 2
    && w.packets[10].rung == 1 && w.packets[10].header.n == 10 && w.packets[10].text != "" && !IsSpent(w, w.packets[10])
    && |w.log.texts| >= 2 && |w.log.texts[1]| == 2006 && w.responder.recvCount == 2006
    && KeptUnder(w.packets[10]) !in w.responder.skipped
  }

  lemma AnswerSent(w: Talk, text: string, aad: string)
    requires LostNewer(w) && text != ""
    ensures var v := Sent(w, false, text, aad);
            && StillLost(v) && |v.packets| == 2007 && |v.log.secrets| == 3 && v.log.secrets == w.log.secrets
            && v.packets[2006].rung == 2 && v.packets[2006].header.n == 0 && v.packets[2006].text == text
            && v.log.pre == w.log.pre
  {
    SendKeepsInv(w, false, text, aad);
    hide Inv, SkippedOk, SpentOk, NetworkOk, RootAt, ChainAt, Walk;
    AnswerRuns(w);
  }

  lemma AnswerRuns(w: Talk)
    requires LostNewer(w)
    ensures RungOf(w.log, false) == 2 && |w.log.texts| == 3 && w.responder.sendChain.Some?
    ensures w.responder.secret == w.log.secrets[2] && w.responder.sendCount == 0
  {
    hide SkippedOk, SpentOk, NetworkOk, RootAt, ChainAt, Walk;
  }

  lemma AnswerHeard(w: Talk, mint: nat)
    requires StillLost(w) && |w.packets| == 2007 && |w.log.secrets| == 3 && mint !in w.log.secrets
    requires w.packets[2006].rung == 2 && w.packets[2006].header.n == 0 && w.packets[2006].text != ""
    ensures StillLost(Delivered(w, 2006, mint)) && RungOf(Delivered(w, 2006, mint).log, true) == 3
    ensures |Delivered(w, 2006, mint).packets| == 2007
  {
    hide SkippedOk, SendingOk, ReceivingOk, SpentOk, NetworkOk, Decrypt, KeyAt;
    var p := w.packets[2006];
    PacketIsOk(w.log, w.packets, 2006);
    DeliverKeepsInv(w, 2006, mint);
    assert CanOpen(w.log, 1, w.initiator, p);
    DecryptExact(w.log, 1, w.initiator, p, mint);
  }

  /** From any claimed bundle without a one-time prekey a history comes to a state
      in which a message is shown although its key is gone, and showing it throws
      the live session away: the two devices are parted. */
  lemma LostMessageParts(bundle: KeyBundle, initiator: Device, responder: Device, ephemeral: nat, ratchet: nat)
    requires Published(bundle, Holder(responder)) && ratchet != responder.keys.signedPreKey && bundle.oneTimePreKey.None?
    requires bundle.deviceId == responder.keys.deviceId && initiator.keys.deviceId !in responder.disk.sessions
    requires initiator.disk.texts == map[] && responder.disk.texts == map[]
    ensures Begun(bundle, Holder(responder), initiator.keys.deviceId, ephemeral, ratchet).Some?
    ensures exists events, v ::
              && History(Met(bundle, initiator, responder, ephemeral, ratchet), events, v)
              && PartsAt(v, 10)
  {
    hide WorldOk, Inv, Arrived, Delivered, History, Restarts, LostNewer, Unheard, Accept;
    MetHoldsWorld(bundle, initiator, responder, ephemeral, ratchet);
    var w := Met(bundle, initiator, responder, ephemeral, ratchet);
    MetIsUnheard(bundle, initiator, responder, ephemeral, ratchet);
    var events, u := SaidMany(w, 2006);
    var mint := responder.keys.signedPreKey + ratchet + 1;
    var longer, v := LosingHistory(w, events, u, mint, mint + 1);
    Answered(v, mint + 1);
    HistoryExtends(w, longer, v, Say(false, "y"));
    var y := Messaging.Said(v, false, "y");
    HistoryExtends(w, longer + [Say(false, "y")], y, Arrive(2006, mint + 1));
    var z := Arrived(y, 2006, mint + 1);
    ShowsAndParts(z, 10);
  }

  lemma MetIsUnheard(bundle: KeyBundle, initiator: Device, responder: Device, ephemeral: nat, ratchet: nat)
    requires Begun(bundle, Holder(responder), initiator.keys.deviceId, ephemeral, ratchet).Some?
    requires WorldOk(Met(bundle, initiator, responder, ephemeral, ratchet))
    ensures var w := Met(bundle, initiator, responder, ephemeral, ratchet).talk;
            && Unheard(w, 0) && w.log.secrets == [responder.keys.signedPreKey, ratchet]
            && (w.log.pre.otkId.None? <==> bundle.oneTimePreKey.None?)
  {
    hide Inv;
  }

  /** Handing message `i` over shows it and parts the two devices. */
  ghost predicate PartsWith(v: World, i: nat, mint: nat)
    requires i < |v.posted| == |v.talk.packets|
  {
    && Shown(v, i, mint) == Some(v.talk.packets[i].text)
    && v.initiator.keys.deviceId in Arrived(v, i, mint).responder.disk.sessions
    && PartedOk(Parted(v.talk, Arrived(v, i, mint).responder.disk.sessions[v.initiator.keys.deviceId], []), mint)
  }

  ghost predicate PartsAt(v: World, i: nat) {
    i < |v.posted| == |v.talk.packets| && forall mint: nat :: mint !in v.talk.log.secrets ==> PartsWith(v, i, mint)
  }

  lemma ShowsAndParts(v: World, i: nat)
    requires WorldOk(v) && i < |v.posted| == |v.talk.packets| && Restarts(v, i) && RungOf(v.talk.log, true) >= 3
    ensures PartsAt(v, i)
  {
    hide WorldOk, Arrived, Shown, PartedOk, Restarts, CanOpen, RungOf;
    forall mint: nat | mint !in v.talk.log.secrets
      ensures PartsWith(v, i, mint)
    {
      ShownExactly(v, i, mint);
      RestartParts(v, i, mint);
    }
  }
}
