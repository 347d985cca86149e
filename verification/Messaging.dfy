/**
 * Two devices end to end: what one seals, the network carries in any order and
 * any number of times, and the other opens through its store.
 */
module Messaging {
  import opened Cipher
  import opened Conversation
  import opened Devices
  import opened Ratchet
  import opened Wrappers

  /** A device: the keys that never change, and its disk. */
  datatype Device = Device(keys: Privates, disk: Disk)

  function Holder(d: Device): Privates {
    d.keys.(preKeys := d.disk.preKeys)
  }

  /** The initiator's and the responder's devices, the messages posted, and the
      conversation they amount to. A message's id is its place in the posting order. */
  datatype World = World(talk: Talk, initiator: Device, responder: Device, posted: seq<Envelope>)

  function DeviceOf(w: World, initiator: bool): Device {
    if initiator then w.initiator else w.responder
  }

  function WithDisk(w: World, initiator: bool, disk: Disk): World {
    if initiator then w.(initiator := w.initiator.(disk := disk)) else w.(responder := w.responder.(disk := disk))
  }

  // ── Steps ─────────────────────────────────────────────────────────────────

  /** `sealFor` one device with the session the store holds for it; without one there is nobody to seal to. */
  function Said(w: World, initiator: bool, text: string): World {
    var from, to := DeviceOf(w, initiator), DeviceOf(w, !initiator).keys.deviceId;
    match Stored(from.disk, to)
    case None => w
    case Some(s) =>
      match SealWith(s, text, from.keys, 2)
      case None => w
      case Some(c) =>
        WithDisk(w, initiator, Saved(from.disk, c.session)).(
          talk := Sent(w.talk, initiator, text, Fields(NextBound(s, from.keys, 2))),
          posted := w.posted + [c.envelope])
  }

  /** Which device the message is for. */
  function ForInitiator(w: World, i: nat): bool
    requires i < |w.talk.packets|
  {
    ToInitiator(w.talk.packets[i])
  }

  /** What the reader shows for message `i`. */
  ghost function Shown(w: World, i: nat, mint: nat): Option<string>
    requires i < |w.posted| == |w.talk.packets|
  {
    var reader, author := DeviceOf(w, ForInitiator(w, i)), DeviceOf(w, !ForInitiator(w, i)).keys;
    Answer(reader.disk, reader.keys, i, w.posted[i], author.userId, Some(author.identity), mint)
  }

  ghost function Arrived(w: World, i: nat, mint: nat): World
    requires i < |w.posted| == |w.talk.packets|
  {
    var reader, author := DeviceOf(w, ForInitiator(w, i)), DeviceOf(w, !ForInitiator(w, i)).keys;
    WithDisk(w, ForInitiator(w, i),
             OpenedDisk(reader.disk, reader.keys, i, w.posted[i], author.userId, Some(author.identity), mint, 3)).(
      talk := if i in reader.disk.texts then w.talk else Delivered(w.talk, i, mint))
  }

  // ── The invariant ─────────────────────────────────────────────────────────

  function BoundOf(p: Packet, from: Privates, to: string): Bound {
    Bound(2, from.deviceId, from.userId, to, p.header.dh, p.header.pn, p.header.n, p.header.pre)
  }

  function EnvelopeOf(p: Packet, from: Privates, to: string): Envelope {
    Envelope(BoundOf(p, from, to), p.body, Signature(from.identity, p.aad, p.body))
  }

  predicate PostedOk(w: World, i: nat)
    requires i < |w.posted| == |w.talk.packets|
  {
    var p := w.talk.packets[i];
    var from, to := DeviceOf(w, !ToInitiator(p)).keys, DeviceOf(w, ToInitiator(p)).keys.deviceId;
    w.posted[i] == EnvelopeOf(p, from, to) && p.aad == Fields(BoundOf(p, from, to))
  }

  /** A device has written down exactly the messages it has opened. */
  predicate TextsOk(w: World, i: nat)
    requires i < |w.posted| == |w.talk.packets|
  {
    var p := w.talk.packets[i];
    var texts := DeviceOf(w, ToInitiator(p)).disk.texts;
    && (i in texts <==> IsSpent(w.talk, p))
    && (i in texts ==> texts[i] == p.text)
  }

  predicate OthersUnwritten(w: World, initiator: bool) {
    forall id :: id in DeviceOf(w, initiator).disk.texts ==> id < |w.posted|
  }

  /** The responder holds a session exactly when it has opened something; until
      then the preamble still builds the one it stands for, and after that a
      one-time prekey named by it is gone. */
  predicate ResponderOk(w: World) {
    var disk, peer := w.responder.disk, w.initiator.keys.deviceId;
    if peer in disk.sessions then
      && disk.sessions[peer] == w.talk.responder && RungOf(w.talk.log, false) >= 2
      && (w.talk.log.pre.otkId.Some? ==> w.talk.log.pre.otkId.value !in disk.preKeys)
    else
      && Accept(w.talk.log.pre, Holder(w.responder), peer) == Some(w.talk.responder)
      && RungOf(w.talk.log, false) == 0 && w.talk.log.spent == {}
  }

  /** A preamble that names no one-time prekey goes on building the session the conversation began with. */
  predicate PreambleStands(w: World) {
    && |w.talk.log.secrets| > 0
    && (w.talk.log.pre.otkId.None? ==>
          && w.talk.log.pre.spkId == w.responder.keys.signedPreKeyId
          && w.talk.log.secrets[0] == w.responder.keys.signedPreKey
          && w.talk.log.start == Agreed(Agree(w.responder.keys.signedPreKey, w.talk.log.pre.ek), None))
  }

  predicate InitiatorOk(w: World) {
    Stored(w.initiator.disk, w.responder.keys.deviceId) == Some(w.talk.initiator)
  }

  ghost predicate WorldOk(w: World) {
    && Inv(w.talk) && |w.posted| == |w.talk.packets|
    && w.talk.initiator.deviceId == w.responder.keys.deviceId && w.talk.responder.deviceId == w.initiator.keys.deviceId
    && InitiatorOk(w) && ResponderOk(w) && PreambleStands(w)
    && OthersUnwritten(w, true) && OthersUnwritten(w, false)
    && (forall i: nat {:trigger PostedOk(w, i)} :: i < |w.posted| ==> PostedOk(w, i))
    && (forall i: nat {:trigger TextsOk(w, i)} :: i < |w.posted| ==> TextsOk(w, i))
  }

  // ── Sending ───────────────────────────────────────────────────────────────

  /** What one send adds to a conversation: a packet in a place of its own. */
  lemma SentAdds(w: Talk, initiator: bool, text: string, aad: string)
    requires Inv(w) && RungOf(w.log, initiator) >= 1
    ensures var v := Sent(w, initiator, text, aad);
            && |v.packets| == |w.packets| + 1 && v.packets[..|w.packets|] == w.packets
            && v.log.spent == w.log.spent && v.log.pre == w.log.pre && v.log.secrets == w.log.secrets
            && v.log.start == w.log.start
            && End(v, !initiator) == End(w, !initiator)
            && var p := v.packets[|w.packets|];
               && !IsSpent(v, p) && ToInitiator(p) == !initiator && p.aad == aad && p.text == text
               && Encrypt(End(w, initiator), text, aad) == Some(Outgoing(End(v, initiator), p.header, p.body))
  {
    hide NetworkOk, SkippedOk, ChainAt, RootAt, Walk;
  }

  /** A send that has a session is a send of the conversation, and posts the packet's envelope. */
  lemma SaidIsSent(w: World, initiator: bool, text: string)
    requires WorldOk(w) && Stored(DeviceOf(w, initiator).disk, DeviceOf(w, !initiator).keys.deviceId).Some?
    ensures RungOf(w.talk.log, initiator) >= 1
    ensures var s := End(w.talk, initiator);
            var from := DeviceOf(w, initiator);
            var talk := Sent(w.talk, initiator, text, Fields(NextBound(s, from.keys, 2)));
            && |talk.packets| == |w.talk.packets| + 1
            && var e := EnvelopeOf(talk.packets[|w.talk.packets|], from.keys, DeviceOf(w, !initiator).keys.deviceId);
               && e.g.fields == Fields(e.bound)
               && Said(w, initiator, text) ==
                    WithDisk(w, initiator, Saved(from.disk, End(talk, initiator))).(talk := talk, posted := w.posted + [e])
  {
    hide Fields, Sent, Inv, PostedOk, TextsOk, OthersUnwritten;
    StoredSays(w, initiator);
    SentAdds(w.talk, initiator, text, Fields(NextBound(End(w.talk, initiator), DeviceOf(w, initiator).keys, 2)));
  }

  /** The session a device has stored is its end of the conversation. */
  lemma StoredSays(w: World, initiator: bool)
    requires WorldOk(w) && Stored(DeviceOf(w, initiator).disk, DeviceOf(w, !initiator).keys.deviceId).Some?
    ensures Stored(DeviceOf(w, initiator).disk, DeviceOf(w, !initiator).keys.deviceId) == Some(End(w.talk, initiator))
    ensures RungOf(w.talk.log, initiator) >= 1
  {
    hide SkippedOk, SpentOk, NetworkOk, SendingOk, ReceivingOk, PostedOk, TextsOk, OthersUnwritten;
  }

  lemma SaidKeepsWorld(w: World, initiator: bool, text: string)
    requires WorldOk(w)
    ensures WorldOk(Said(w, initiator, text))
  {
    hide Fields, Sent, Inv;
    var peer := DeviceOf(w, !initiator).keys.deviceId;
    if Stored(DeviceOf(w, initiator).disk, peer).Some? {
      var v := Said(w, initiator, text);
      var aad := Fields(NextBound(End(w.talk, initiator), DeviceOf(w, initiator).keys, 2));
      SaidIsSent(w, initiator, text);
      SentAdds(w.talk, initiator, text, aad);
      SendKeepsInv(w.talk, initiator, text, aad);
      forall i: nat | i < |v.posted|
        ensures PostedOk(v, i) && TextsOk(v, i)
      {
        if i < |w.posted| {
          assert PostedOk(w, i) && TextsOk(w, i);
          assert v.talk.packets[i] == w.talk.packets[i];
        }
      }
    }
  }

  // ── Arriving ──────────────────────────────────────────────────────────────

  lemma OpeningKeepsDevice(s: Session, h: Header, body: Body, aad: string, mint: nat)
    ensures var r := Decrypt(s, h, body, aad, mint); r.Some? ==> r.value.session.deviceId == s.deviceId
  {
    hide Kept, Store;
  }

  /** The session a first message builds out of its preamble: it has read the
      first chain past number `n`, and the chain it sends on is `mint`'s. */
  ghost predicate Rejoins(log: Log, t: Session, n: int, mint: nat)
    requires |log.secrets| >= 2
  {
    var theirs := PublicKey(log.secrets[1]);
    && n >= 0 && t.secret == mint && t.theirRatchet == Some(theirs) && t.pending == None
    && t.rootKey == Root(RootAt(log.start, log.secrets, 1), Agree(mint, theirs))
    && t.sendChain == Some(Chain(RootAt(log.start, log.secrets, 1), Agree(mint, theirs)))
    && t.sendCount == 0 && t.previousSendCount == 0
    && t.recvChain == Some(Walk(ChainAt(log.start, log.secrets, 1), n + 1)) && t.recvCount == n + 1
    && forall key :: key in t.skipped <==> key.dh == theirs && 0 <= key.n < n
  }

  /** A session fresh out of a preamble. */
  predicate Built(log: Log, b: Session)
    requires |log.secrets| >= 2
  {
    && b.rootKey == log.start && b.secret == log.secrets[0] && b.sendCount == 0 && b.pending == None
    && b.theirRatchet == None && b.recvChain == None && b.skipped == map[]
  }

  lemma BuiltTurns(log: Log, b: Session, h: Header, mint: nat)
    requires |log.secrets| >= 2 && Built(log, b) && h.dh == PublicKey(log.secrets[1])
    ensures Follow(b, h, mint) == Some(Turn(b, h.dh, mint))
    ensures var t := Turn(b, h.dh, mint);
            && t.recvChain == Some(ChainAt(log.start, log.secrets, 1)) && t.theirRatchet == Some(h.dh) && t.recvCount == 0
            && t.secret == mint && t.sendCount == 0 && t.previousSendCount == 0 && t.skipped == map[] && t.pending == None
            && t.rootKey == Root(RootAt(log.start, log.secrets, 1), Agree(mint, h.dh))
            && t.sendChain == Some(Chain(RootAt(log.start, log.secrets, 1), Agree(mint, h.dh)))
            && t.deviceId == b.deviceId
  {
    assert RootAt(log.start, log.secrets, 0) == log.start;
  }

  /** A session the preamble built opens a message of the first chain exactly when it is near and says something. */
  lemma BuiltOpens(log: Log, b: Session, p: Packet, mint: nat)
    requires PacketOk(log, p) && p.rung == 1 && Built(log, b)
    ensures var r := Decrypt(b, p.header, p.body, p.aad, mint);
            && (r.Some? <==> p.text != "" && p.header.n <= MAX_SKIP)
            && (r.Some? ==> r.value.text == p.text && Rejoins(log, r.value.session, p.header.n, mint)
                            && r.value.session.deviceId == b.deviceId)
  {
    hide Kept, Store, KeyAt, Follow, Turn, RootAt, ChainAt;
    BuiltTurns(log, b, p.header, mint);
    var first := ChainAt(log.start, log.secrets, 1);
    KeyAtUnfolds(log.start, log.secrets, 1, p.header.n);
    StoreHolds(map[], p.header.dh, first, 0, p.header.n);
    if p.header.n <= MAX_SKIP {
      StoreSize(map[], p.header.dh, first, 0, p.header.n);
      KeptWhole(Store(map[], p.header.dh, first, 0, p.header.n));
    }
  }

  /** The message's key was lost to the bound, and its preamble can still build a session that opens it. */
  predicate Restarts(w: World, i: nat)
    requires i < |w.talk.packets|
  {
    var p := w.talk.packets[i];
    && w.talk.log.pre.otkId.None? && p.rung == 1 && p.header.n <= MAX_SKIP && p.text != "" && !IsSpent(w.talk, p)
    && RungOf(w.talk.log, false) >= 0
    && Past(w.talk.log, RungOf(w.talk.log, false), w.talk.responder, p) && KeptUnder(p) !in w.talk.responder.skipped
  }

  /** What refusing an unopened message of the first chain amounts to. */
  lemma RefusedIsLost(w: World, i: nat, mint: nat)
    requires WorldOk(w) && i < |w.posted| && mint !in w.talk.log.secrets && !IsSpent(w.talk, w.talk.packets[i])
    requires w.talk.packets[i].rung == 1 && w.talk.log.pre.otkId.None?
    requires w.initiator.keys.deviceId in w.responder.disk.sessions
    requires var p := w.talk.packets[i]; Decrypt(w.talk.responder, p.header, p.body, p.aad, mint) == None
    ensures var p := w.talk.packets[i]; Restarts(w, i) <==> p.text != "" && p.header.n <= MAX_SKIP
  {
    hide Fields, Decrypt, EndOk, SpentOk, KeyAt, ChainAt, PostedOk, TextsOk;
    PacketIsOk(w.talk.log, w.talk.packets, i);
    DeliveriesExact(w.talk, i, mint);
  }

  lemma UnheardIsBuilt(w: World)
    requires WorldOk(w) && w.initiator.keys.deviceId !in w.responder.disk.sessions
    ensures |w.talk.log.secrets| >= 2 && Built(w.talk.log, w.talk.responder)
  {
    hide SpentOk, PostedOk, TextsOk, NetworkOk, Accept, KeyAt;
    assert w.talk.responder.skipped.Keys == {};
  }

  /** What the preamble alone can do with a message: it opens those of the first
      chain that are near and say something, while its one-time prekey is held or it names none. */
  lemma PreambleBuilds(w: World, i: nat, mint: nat)
    requires WorldOk(w) && i < |w.posted|
    ensures PostedOk(w, i)
    ensures var p := w.talk.packets[i];
            var r := OpenAnew(w.posted[i], Holder(DeviceOf(w, ForInitiator(w, i))), mint);
            && (r.Some? <==> p.rung == 1 && p.text != "" && p.header.n <= MAX_SKIP
                             && (w.talk.log.pre.otkId.None? || w.initiator.keys.deviceId !in w.responder.disk.sessions))
            && (r.Some? ==> r.value.text == p.text && r.value.consumedPreKeyId == w.talk.log.pre.otkId
                            && |w.talk.log.secrets| >= 2 && Rejoins(w.talk.log, r.value.session, p.header.n, mint)
                            && r.value.session.deviceId == w.initiator.keys.deviceId)
  {
    hide Fields, Decrypt, EndOk, SpentOk, KeyAt, ChainAt, Rejoins;
    assert PostedOk(w, i);
    var p := w.talk.packets[i];
    PacketIsOk(w.talk.log, w.talk.packets, i);
    if p.rung == 1 {
      if w.initiator.keys.deviceId !in w.responder.disk.sessions {
        UnheardIsBuilt(w);
        BuiltOpens(w.talk.log, w.talk.responder, p, mint);
      } else if w.talk.log.pre.otkId.None? {
        var b := Accept(w.talk.log.pre, Holder(w.responder), w.initiator.keys.deviceId).value;
        BuiltOpens(w.talk.log, b, p, mint);
      }
    }
  }

  /** A restart from the preamble opens what the stored session refused if and
      only if the message's key was lost, it is one of the first 1001 of the
      first chain, and the preamble names no one-time prekey. */
  lemma RestartExact(w: World, i: nat, mint: nat)
    requires WorldOk(w) && i < |w.posted| && mint !in w.talk.log.secrets && !IsSpent(w.talk, w.talk.packets[i])
    requires Stored(DeviceOf(w, ForInitiator(w, i)).disk, DeviceOf(w, !ForInitiator(w, i)).keys.deviceId).Some?
    requires var p := w.talk.packets[i]; Decrypt(Reader(w.talk, p), p.header, p.body, p.aad, mint) == None
    ensures PostedOk(w, i)
    ensures OpenAnew(w.posted[i], Holder(DeviceOf(w, ForInitiator(w, i))), mint).Some? <==> Restarts(w, i)
  {
    hide Fields, Decrypt, EndOk, SpentOk, KeyAt, ChainAt, Rejoins, Past, OpenAnew;
    PreambleBuilds(w, i, mint);
    var p := w.talk.packets[i];
    if p.rung == 1 && w.talk.log.pre.otkId.None? {
      PacketIsOk(w.talk.log, w.talk.packets, i);
      RefusedIsLost(w, i, mint);
    }
  }

  /** What the cipher answers for a message not yet written down is what the
      conversation's end answers, and where that refuses, what a restart does. */
  lemma ReadingIsDecrypting(w: World, i: nat, mint: nat)
    requires WorldOk(w) && i < |w.posted| && mint !in w.talk.log.secrets && !IsSpent(w.talk, w.talk.packets[i])
    ensures var p := w.talk.packets[i];
            var reader, author := DeviceOf(w, ForInitiator(w, i)), DeviceOf(w, !ForInitiator(w, i)).keys;
            var r := Reading(reader.disk, reader.keys, w.posted[i], author.userId, Some(author.identity), mint);
            match Decrypt(Reader(w.talk, p), p.header, p.body, p.aad, mint)
            case Some(o) =>
              r == Some(Read(o.text, o.session, if author.deviceId in reader.disk.sessions then None else w.talk.log.pre.otkId))
            case None =>
              && (r.Some? <==> Restarts(w, i))
              && (r.Some? ==> r.value.text == p.text && r.value.consumedPreKeyId == None && |w.talk.log.secrets| >= 2
                              && Rejoins(w.talk.log, r.value.session, p.header.n, mint)
                              && r.value.session.deviceId == w.initiator.keys.deviceId)
  {
    hide Fields, Decrypt, EndOk, SpentOk, KeyAt, ChainAt, Rejoins, Past;
    assert PostedOk(w, i);
    var p := w.talk.packets[i];
    PacketIsOk(w.talk.log, w.talk.packets, i);
    var reader, author := DeviceOf(w, ForInitiator(w, i)), DeviceOf(w, !ForInitiator(w, i)).keys;
    assert Believed(w.posted[i], Holder(reader), Some(author.identity), author.userId);
    if author.deviceId in reader.disk.sessions {
      if Decrypt(Reader(w.talk, p), p.header, p.body, p.aad, mint) == None {
        RestartExact(w, i, mint);
        PreambleBuilds(w, i, mint);
      }
    } else {
      UnheardLosesNothing(w, i);
    }
  }

  /** Before the responder has read anything there is no key to lose. */
  lemma UnheardLosesNothing(w: World, i: nat)
    requires WorldOk(w) && i < |w.talk.packets| && w.initiator.keys.deviceId !in w.responder.disk.sessions
    ensures !Restarts(w, i)
  {
    hide Fields, EndOk, SpentOk, KeyAt, PostedOk, TextsOk, NetworkOk, Accept;
  }

  lemma RestartIsNotOpening(w: World, i: nat, mint: nat)
    requires WorldOk(w) && i < |w.posted| && mint !in w.talk.log.secrets && Restarts(w, i)
    ensures var p := w.talk.packets[i];
            Decrypt(Reader(w.talk, p), p.header, p.body, p.aad, mint) == None && !ToInitiator(p)
  {
    hide Fields, Decrypt, EndOk, SpentOk, KeyAt, PostedOk, TextsOk, NetworkOk;
    DeliveriesExact(w.talk, i, mint);
  }

  /** In every world of honest devices, whatever has been delivered before: a
      message is shown, as exactly what was said, if and only if it has been
      opened, can be opened now, or restarts the session. */
  lemma ShownExactly(w: World, i: nat, mint: nat)
    requires WorldOk(w) && i < |w.posted| && mint !in w.talk.log.secrets
    ensures var p := w.talk.packets[i];
            && ReaderRung(w.talk, p) >= 0
            && Shown(w, i, mint) ==
                 if IsSpent(w.talk, p) || CanOpen(w.talk.log, ReaderRung(w.talk, p), Reader(w.talk, p), p) || Restarts(w, i)
                 then Some(p.text) else None
  {
    hide Inv, Decrypt, CanOpen, Reading, Rejoins, Past, RootAt;
    DeliveriesExact(w.talk, i, mint);
    assert TextsOk(w, i);
    if !IsSpent(w.talk, w.talk.packets[i]) {
      ReadingIsDecrypting(w, i, mint);
      if Restarts(w, i) {
        RestartIsNotOpening(w, i, mint);
      }
    }
  }

  /** What a restart leaves: the message written down, and in place of the live
      session one that has read the first chain and nothing since. */
  lemma RestartReplaces(w: World, i: nat, mint: nat)
    requires WorldOk(w) && i < |w.posted| && mint !in w.talk.log.secrets && Restarts(w, i)
    ensures |w.talk.log.secrets| >= 2
    ensures var p := w.talk.packets[i];
            var disk := Arrived(w, i, mint).responder.disk;
            && Stored(disk, w.initiator.keys.deviceId).Some?
            && Rejoins(w.talk.log, disk.sessions[w.initiator.keys.deviceId], p.header.n, mint)
            && disk.texts == w.responder.disk.texts[i := p.text] && disk.preKeys == w.responder.disk.preKeys
            && Arrived(w, i, mint).initiator == w.initiator
  {
    hide Inv, Decrypt, CanOpen, Reading, Rejoins, Past, RootAt, Delivered, Accept;
    assert TextsOk(w, i);
    ReadingIsDecrypting(w, i, mint);
    RestartIsNotOpening(w, i, mint);
  }

  /** What a delivery that opens does to a conversation. */
  lemma DeliveredOpens(w: Talk, i: nat, mint: nat)
    requires Inv(w) && i < |w.packets| && mint !in w.log.secrets
    requires var p := w.packets[i]; Decrypt(Reader(w, p), p.header, p.body, p.aad, mint).Some?
    ensures var p := w.packets[i];
            var v := Delivered(w, i, mint);
            && v.packets == w.packets && v.log.pre == w.log.pre && v.log.start == w.log.start
            && |v.log.secrets| >= |w.log.secrets| >= 2 && v.log.secrets[0] == w.log.secrets[0]
            && v.log.spent == w.log.spent + {(p.rung, p.header.n)}
            && End(v, ToInitiator(p)) == Decrypt(Reader(w, p), p.header, p.body, p.aad, mint).value.session
            && End(v, !ToInitiator(p)) == End(w, !ToInitiator(p))
            && RungOf(v.log, !ToInitiator(p)) == RungOf(w.log, !ToInitiator(p))
            && RungOf(v.log, ToInitiator(p)) >= RungOf(w.log, ToInitiator(p))
            && (RungOf(w.log, ToInitiator(p)) == 0 ==> RungOf(v.log, ToInitiator(p)) == 2)
            && (ToInitiator(p) ==> RungOf(w.log, false) >= 2)
  {
    hide SkippedOk, SendingOk, ReceivingOk, SpentOk, NetworkOk, CanOpen, Decrypt, KeyAt;
    var p := w.packets[i];
    PacketIsOk(w.log, w.packets, i);
    DecryptExact(w.log, ReaderRung(w, p), Reader(w, p), p, mint);
  }

  lemma PlacesDiffer(w: Talk, i: nat, j: nat)
    requires Inv(w) && i < |w.packets| && j < |w.packets| && i != j
    ensures (w.packets[i].rung, w.packets[i].header.n) != (w.packets[j].rung, w.packets[j].header.n)
  {
    hide EndOk, SpentOk, PacketOk;
  }

  lemma ArrivedKeepsWorld(w: World, i: nat, mint: nat)
    requires WorldOk(w) && i < |w.posted| && mint !in w.talk.log.secrets
    requires !Restarts(w, i)
    ensures WorldOk(Arrived(w, i, mint))
    ensures Arrived(w, i, mint).talk == Delivered(w.talk, i, mint)
  {
    hide Inv, Decrypt, CanOpen, Reading, Delivered, Rejoins, Restarts, Accept;
    var p := w.talk.packets[i];
    var side := ToInitiator(p);
    assert TextsOk(w, i);
    if IsSpent(w.talk, p) {
      RedeliveryRefused(w.talk, i, mint);
    } else {
      ReadingIsDecrypting(w, i, mint);
      DeliveriesExact(w.talk, i, mint);
      DeliverKeepsInv(w.talk, i, mint);
      OpeningKeepsDevice(Reader(w.talk, p), p.header, p.body, p.aad, mint);
      if Decrypt(Reader(w.talk, p), p.header, p.body, p.aad, mint).Some? {
        DeliveredOpens(w.talk, i, mint);
        ArrivedKeepsMessages(w, i, mint);
      }
    }
  }

  lemma ArrivedKeepsMessages(w: World, i: nat, mint: nat)
    requires WorldOk(w) && i < |w.posted| && mint !in w.talk.log.secrets && !IsSpent(w.talk, w.talk.packets[i])
    requires var p := w.talk.packets[i]; Decrypt(Reader(w.talk, p), p.header, p.body, p.aad, mint).Some?
    ensures var v := Arrived(w, i, mint);
            && |v.posted| == |v.talk.packets| == |w.posted|
            && forall j: nat :: j < |v.posted| ==> PostedOk(v, j) && TextsOk(v, j)
  {
    hide Inv, Decrypt, CanOpen, Reading, Delivered, Rejoins, Restarts, Fields, Accept;
    ReadingIsDecrypting(w, i, mint);
    DeliveriesExact(w.talk, i, mint);
    DeliveredOpens(w.talk, i, mint);
    assert TextsOk(w, i);
    var v := Arrived(w, i, mint);
    forall j: nat | j < |v.posted|
      ensures PostedOk(v, j) && TextsOk(v, j)
    {
      assert PostedOk(w, j) && TextsOk(w, j);
      if j != i {
        PlacesDiffer(w.talk, i, j);
      }
    }
  }

  // ── Runs ──────────────────────────────────────────────────────────────────

  /** The initiator has claimed the responder's bundle; nothing has been sent. */
  function Met(bundle: KeyBundle, initiator: Device, responder: Device, ephemeral: nat, ratchet: nat): World
    requires Begun(bundle, Holder(responder), initiator.keys.deviceId, ephemeral, ratchet).Some?
  {
    var talk := Begun(bundle, Holder(responder), initiator.keys.deviceId, ephemeral, ratchet).value;
    World(talk, initiator.(disk := Saved(initiator.disk, talk.initiator)), responder, [])
  }

  lemma MetHoldsWorld(bundle: KeyBundle, initiator: Device, responder: Device, ephemeral: nat, ratchet: nat)
    requires Published(bundle, Holder(responder)) && ratchet != responder.keys.signedPreKey
    requires bundle.deviceId == responder.keys.deviceId && initiator.keys.deviceId !in responder.disk.sessions
    requires initiator.disk.texts == map[] && responder.disk.texts == map[]
    ensures Begun(bundle, Holder(responder), initiator.keys.deviceId, ephemeral, ratchet).Some?
    ensures WorldOk(Met(bundle, initiator, responder, ephemeral, ratchet))
    ensures EndAccounted(Met(bundle, initiator, responder, ephemeral, ratchet).talk, true, {})
    ensures EndAccounted(Met(bundle, initiator, responder, ephemeral, ratchet).talk, false, {})
  {
    BeginningHoldsInv(bundle, Holder(responder), initiator.keys.deviceId, ephemeral, ratchet);
    BeginningLostNothing(Met(bundle, initiator, responder, ephemeral, ratchet).talk);
    hide Inv, EndAccounted;
  }

  datatype Event = Say(initiator: bool, text: string) | Arrive(message: nat, mint: nat)

  predicate Happens(w: World, event: Event) {
    event.Arrive? ==> event.message < |w.posted| == |w.talk.packets| && event.mint !in w.talk.log.secrets
  }

  ghost function Next(w: World, event: Event): World
    requires Happens(w, event)
  {
    match event
    case Say(initiator, text) => Said(w, initiator, text)
    case Arrive(i, mint) => Arrived(w, i, mint)
  }

  ghost predicate History(w: World, events: seq<Event>, v: World)
    decreases |events|
  {
    if events == [] then v == w
    else Happens(w, events[0]) && History(Next(w, events[0]), events[1..], v)
  }

  /** No arrival of the history restarts the session. */
  ghost predicate Undisturbed(w: World, events: seq<Event>)
    decreases |events|
  {
    events == [] ||
    (&& Happens(w, events[0])
     && (events[0].Arrive? ==> !Restarts(w, events[0].message))
     && Undisturbed(Next(w, events[0]), events[1..]))
  }

  /** The keys one end loses to the bound over a history. */
  ghost function Lost(w: World, events: seq<Event>, initiator: bool): set<SkippedKey>
    decreases |events|
  {
    if events == [] || !Happens(w, events[0]) then {}
    else EventLoses(w, events[0], initiator) + Lost(Next(w, events[0]), events[1..], initiator)
  }

  ghost function EventLoses(w: World, event: Event, initiator: bool): set<SkippedKey>
    requires Happens(w, event)
  {
    if event.Arrive? then StepLoses(w.talk, Deliver(event.message, event.mint), initiator) else {}
  }

  lemma SaidAccountsWorld(w: World, initiator: bool, text: string, x: bool, gone: set<SkippedKey>)
    requires WorldOk(w) && EndAccounted(w.talk, x, gone)
    ensures EndAccounted(Said(w, initiator, text).talk, x, gone)
  {
    hide Inv, EndAccounted, Fields, Sent;
    var peer := DeviceOf(w, !initiator).keys.deviceId;
    if Stored(DeviceOf(w, initiator).disk, peer).Some? {
      SaidIsSent(w, initiator, text);
      SendAccounts(w.talk, initiator, text, Fields(NextBound(End(w.talk, initiator), DeviceOf(w, initiator).keys, 2)),
                   x, gone);
    }
  }

  lemma SaidKeepsPreamble(w: World, initiator: bool, text: string)
    ensures Said(w, initiator, text).talk.log.pre == w.talk.log.pre
  {
  }

  lemma ArrivedKeepsPreamble(w: World, i: nat, mint: nat)
    requires i < |w.posted| == |w.talk.packets|
    ensures Arrived(w, i, mint).talk.log.pre == w.talk.log.pre
  {
    hide Decrypt, OpenedDisk;
  }

  lemma NextKeepsWorld(w: World, event: Event, x: bool, gone: set<SkippedKey>)
    requires WorldOk(w) && EndAccounted(w.talk, x, gone) && Happens(w, event)
    requires event.Arrive? ==> !Restarts(w, event.message)
    ensures var v := Next(w, event);
            WorldOk(v) && EndAccounted(v.talk, x, gone + EventLoses(w, event, x)) && v.talk.log.pre == w.talk.log.pre
  {
    hide WorldOk, EndAccounted, Said, Arrived, Restarts;
    match event {
      case Say(initiator, text) =>
        SaidKeepsWorld(w, initiator, text);
        SaidAccountsWorld(w, initiator, text, x, gone);
        SaidKeepsPreamble(w, initiator, text);
        assert gone + {} == gone;
      case Arrive(i, mint) =>
        hide StepLoses;
        ArrivedKeepsWorld(w, i, mint);
        ArrivedKeepsPreamble(w, i, mint);
        WorldHoldsInv(w);
        DeliverAccounts(w.talk, i, mint, x, gone);
    }
  }

  /** Every history without a restart keeps the world in order, and accounts for what each end loses. */
  lemma {:induction false} HistoriesKeepWorld(w: World, events: seq<Event>, v: World, x: bool, gone: set<SkippedKey>)
    requires WorldOk(w) && EndAccounted(w.talk, x, gone) && History(w, events, v) && Undisturbed(w, events)
    ensures WorldOk(v) && EndAccounted(v.talk, x, gone + Lost(w, events, x)) && v.talk.log.pre == w.talk.log.pre
    decreases |events|
  {
    hide WorldOk, EndAccounted, Next, EventLoses, Restarts;
    if events == [] {
      assert gone + {} == gone;
    } else {
      var lost := EventLoses(w, events[0], x);
      NextKeepsWorld(w, events[0], x, gone);
      HistoriesKeepWorld(Next(w, events[0]), events[1..], v, x, gone + lost);
      assert gone + lost + Lost(Next(w, events[0]), events[1..], x) == gone + Lost(w, events, x);
    }
  }

  /** Where the bundle held a one-time prekey nothing restarts. */
  lemma {:induction false} PreKeyedIsUndisturbed(w: World, events: seq<Event>, v: World)
    requires w.talk.log.pre.otkId.Some? && History(w, events, v)
    ensures Undisturbed(w, events)
    decreases |events|
  {
    hide Said, Arrived;
    if events != [] {
      match events[0] {
        case Say(initiator, text) => SaidKeepsPreamble(w, initiator, text);
        case Arrive(i, mint) => ArrivedKeepsPreamble(w, i, mint);
      }
      PreKeyedIsUndisturbed(Next(w, events[0]), events[1..], v);
    }
  }

  lemma WorldHoldsInv(w: World)
    requires WorldOk(w)
    ensures Inv(w.talk)
  {
  }

  /** A history of two devices from a claimed bundle on, in which nothing restarted. */
  ghost predicate Lives(bundle: KeyBundle, initiator: Device, responder: Device, ephemeral: nat, ratchet: nat,
                        events: seq<Event>, v: World)
  {
    && Published(bundle, Holder(responder)) && ratchet != responder.keys.signedPreKey
    && bundle.deviceId == responder.keys.deviceId && initiator.keys.deviceId !in responder.disk.sessions
    && initiator.disk.texts == map[] && responder.disk.texts == map[]
    && Begun(bundle, Holder(responder), initiator.keys.deviceId, ephemeral, ratchet).Some?
    && History(Met(bundle, initiator, responder, ephemeral, ratchet), events, v)
    && (bundle.oneTimePreKey.Some? || Undisturbed(Met(bundle, initiator, responder, ephemeral, ratchet), events))
  }

  lemma LivingIsOk(bundle: KeyBundle, initiator: Device, responder: Device, ephemeral: nat, ratchet: nat,
                   events: seq<Event>, v: World, x: bool)
    requires Lives(bundle, initiator, responder, ephemeral, ratchet, events, v)
    ensures WorldOk(v) && (v.talk.log.pre.otkId.Some? <==> bundle.oneTimePreKey.Some?)
    ensures EndAccounted(v.talk, x, Lost(Met(bundle, initiator, responder, ephemeral, ratchet), events, x))
  {
    hide WorldOk, EndAccounted, History, Undisturbed, Lost, Accept;
    MetHoldsWorld(bundle, initiator, responder, ephemeral, ratchet);
    var w := Met(bundle, initiator, responder, ephemeral, ratchet);
    if bundle.oneTimePreKey.Some? {
      PreKeyedIsUndisturbed(w, events, v);
    }
    HistoriesKeepWorld(w, events, v, x, {});
    assert {} + Lost(w, events, x) == Lost(w, events, x);
  }

  /** From a claimed bundle on, in every history that restarted nothing: whatever
      is asked for is shown as exactly what was said, however often it arrives, if
      and only if it was opened before, can be opened, or restarts the session. */
  lemma EveryHistoryShowsExactly(bundle: KeyBundle, initiator: Device, responder: Device, ephemeral: nat, ratchet: nat,
                                 events: seq<Event>, v: World, i: nat, mint: nat)
    requires Lives(bundle, initiator, responder, ephemeral, ratchet, events, v)
    requires i < |v.posted| == |v.talk.packets| && mint !in v.talk.log.secrets
    ensures var p := v.talk.packets[i];
            && ReaderRung(v.talk, p) >= 0
            && Shown(v, i, mint) ==
                 if IsSpent(v.talk, p) || CanOpen(v.talk.log, ReaderRung(v.talk, p), Reader(v.talk, p), p) || Restarts(v, i)
                 then Some(p.text) else None
  {
    hide WorldOk, Lives, Shown, CanOpen, Restarts;
    LivingIsOk(bundle, initiator, responder, ephemeral, ratchet, events, v, true);
    ShownExactly(v, i, mint);
  }

  /** The same by what the bound cost: a message never opened is shown if and
      only if it says something, is not too far ahead, and either its key was not
      lost or its preamble, naming no one-time prekey, stands near enough. */
  lemma EveryMessageIsShown(bundle: KeyBundle, initiator: Device, responder: Device, ephemeral: nat, ratchet: nat,
                            events: seq<Event>, v: World, i: nat, mint: nat)
    requires Lives(bundle, initiator, responder, ephemeral, ratchet, events, v)
    requires i < |v.posted| == |v.talk.packets| && mint !in v.talk.log.secrets
    ensures var p := v.talk.packets[i];
            var lost := Lost(Met(bundle, initiator, responder, ephemeral, ratchet), events, ToInitiator(p));
            && ReaderRung(v.talk, p) >= 0
            && Shown(v, i, mint) ==
                 if || IsSpent(v.talk, p)
                    || (&& p.text != "" && !TooFar(v.talk.log, ReaderRung(v.talk, p), Reader(v.talk, p), p)
                        && (KeptUnder(p) in lost ==>
                              bundle.oneTimePreKey.None? && p.rung == 1 && p.header.n <= MAX_SKIP))
                 then Some(p.text) else None
  {
    hide WorldOk, History, Undisturbed, TooFar, Shown, Decrypt, CanOpen, Lost, EndAccounted, Restarts, Accept;
    var p := v.talk.packets[i];
    LivingIsOk(bundle, initiator, responder, ephemeral, ratchet, events, v, ToInitiator(p));
    ShownExactly(v, i, mint);
    if !IsSpent(v.talk, p) {
      ShownByLoss(v, i, mint, Lost(Met(bundle, initiator, responder, ephemeral, ratchet), events, ToInitiator(p)));
    }
  }

  lemma ShownByLoss(v: World, i: nat, mint: nat, lost: set<SkippedKey>)
    requires WorldOk(v) && i < |v.posted| && mint !in v.talk.log.secrets && !IsSpent(v.talk, v.talk.packets[i])
    requires EndAccounted(v.talk, ToInitiator(v.talk.packets[i]), lost)
    ensures var p := v.talk.packets[i];
            && ReaderRung(v.talk, p) >= 0
            && (CanOpen(v.talk.log, ReaderRung(v.talk, p), Reader(v.talk, p), p) || Restarts(v, i) <==>
                  && p.text != "" && !TooFar(v.talk.log, ReaderRung(v.talk, p), Reader(v.talk, p), p)
                  && (KeptUnder(p) in lost ==> v.talk.log.pre.otkId.None? && p.rung == 1 && p.header.n <= MAX_SKIP))
  {
    hide EndOk, SpentOk, KeyAt, Decrypt, CanOpen, PostedOk, TextsOk, StandsForPassed;
    var p := v.talk.packets[i];
    PacketIsOk(v.talk.log, v.talk.packets, i);
    DeliveriesExact(v.talk, i, mint);
    FirstDeliveryOpens(v.talk, i, mint, lost);
    if KeptUnder(p) in lost {
      GoneIsPast(v.talk.log, ReaderRung(v.talk, p), Reader(v.talk, p).recvCount, KeptUnder(p), p);
    }
  }

  // ── One message between sessions that agree ───────────────────────────────

  /** The reader follows the sender's chain or is one turn behind, near enough to skip to the sender's next message. */
  predicate InReach(reader: Session, sender: Session) {
    && SkippedKey(PublicKey(sender.secret), sender.sendCount) !in reader.skipped
    && (if reader.theirRatchet == Some(PublicKey(sender.secret))
        then Follows(reader, sender) && reader.recvChain.Some? && sender.sendCount - reader.recvCount <= MAX_SKIP
        else OneTurnBehind(reader, sender) && sender.sendCount <= MAX_SKIP
             && sender.previousSendCount - reader.recvCount <= MAX_SKIP)
  }

  /** Opening undoes sealing for every pair of sessions that agree, and they agree afterwards. */
  lemma OpenUndoesSeal(sender: Session, reader: Session, text: string, from: Privates, me: Privates, mint: nat)
    requires sender.sendChain.Some? && sender.deviceId == me.deviceId && text != "" && InReach(reader, sender)
    ensures SealWith(sender, text, from, 2).Some?
    ensures var c := SealWith(sender, text, from, 2).value;
            var r := OpenSealed(c.envelope, Some(reader), me, Some(from.identity), from.userId, mint);
            && r.Some? && r.value.text == text && r.value.consumedPreKeyId == None
            && Follows(r.value.session, c.session) && r.value.session.recvCount == c.session.sendCount
  {
    hide Fields, Believed, Kept, Store;
    SealedIsBelieved(sender, text, from, me);
    var c := SealWith(sender, text, from, 2).value;
    var h := Wire(c.envelope.bound);
    assert Follow(reader, h, mint).Some?;
    var next := Follow(reader, h, mint).value;
    assert next.recvChain.Some? && next.theirRatchet == Some(PublicKey(sender.secret));
    assert sender.sendChain == Some(Walk(next.recvChain.value, sender.sendCount - next.recvCount));
    assert OpenNext(next, h, c.envelope.c, Fields(c.envelope.bound)).Some?;
  }
}
