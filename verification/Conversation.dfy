/**
 * Two devices that keep one ratchet, over a network that reorders, loses and
 * duplicates what they send.
 *
 * The ratchet keys of a conversation form one ladder: rung 0 is the responder's
 * signed prekey, rung 1 the initiator's first ratchet key, and every turn adds a
 * rung. Odd rungs are the initiator's. The chain a device sends on belongs to
 * its own latest rung.
 */
module Conversation {
  import opened Ratchet
  import opened Wrappers

  // ── The ladder of keys ────────────────────────────────────────────────────

  function RootAt(start: Key, secrets: seq<nat>, k: nat): Key
    requires k < |secrets|
  {
    if k == 0 then start
    else Root(RootAt(start, secrets, k - 1), Agree(secrets[k - 1], PublicKey(secrets[k])))
  }

  function ChainAt(start: Key, secrets: seq<nat>, k: nat): Key
    requires 1 <= k < |secrets|
  {
    Chain(RootAt(start, secrets, k - 1), Agree(secrets[k - 1], PublicKey(secrets[k])))
  }

  function KeyAt(start: Key, secrets: seq<nat>, k: nat, n: nat): Key
    requires 1 <= k < |secrets|
  {
    Message(Walk(ChainAt(start, secrets, k), n))
  }

  lemma KeyAtUnfolds(start: Key, secrets: seq<nat>, k: nat, n: nat)
    requires 1 <= k < |secrets|
    ensures KeyAt(start, secrets, k, n) == Message(Walk(ChainAt(start, secrets, k), n))
  {
  }

  function Depth(k: Key): nat {
    if k.Root? then Depth(k.root) + 1 else 0
  }

  lemma {:induction false} RootDepth(start: Key, secrets: seq<nat>, k: nat)
    requires k < |secrets|
    ensures Depth(RootAt(start, secrets, k)) == Depth(start) + k
  {
    if k > 0 {
      RootDepth(start, secrets, k - 1);
    }
  }

  lemma {:induction false} RootStays(start: Key, secrets: seq<nat>, mint: nat, k: nat)
    requires k < |secrets|
    ensures RootAt(start, secrets + [mint], k) == RootAt(start, secrets, k)
    ensures k >= 1 ==> ChainAt(start, secrets + [mint], k) == ChainAt(start, secrets, k)
  {
    if k > 0 {
      RootStays(start, secrets, mint, k - 1);
    }
  }

  lemma {:induction false} WalkInjective(c: Key, m: nat, d: Key, n: nat)
    requires c.Chain? && d.Chain? && Walk(c, m) == Walk(d, n)
    ensures c == d && m == n
  {
    if m > 0 && n > 0 {
      WalkInjective(c, m - 1, d, n - 1);
    }
  }

  /** No two places of the ladder share a message key. */
  lemma KeysDistinct(start: Key, secrets: seq<nat>, j: nat, m: nat, k: nat, n: nat)
    requires 1 <= j < |secrets| && 1 <= k < |secrets|
    requires KeyAt(start, secrets, j, m) == KeyAt(start, secrets, k, n)
    ensures j == k && m == n
  {
    WalkInjective(ChainAt(start, secrets, j), m, ChainAt(start, secrets, k), n);
    RootDepth(start, secrets, j - 1);
    RootDepth(start, secrets, k - 1);
  }

  // ── The state of a conversation ───────────────────────────────────────────

  /** One sealed message on the network: the rung whose chain it was sent on, what travels, and what it said. */
  datatype Packet = Packet(rung: nat, header: Header, body: Body, aad: string, text: string)

  /** The record of a conversation: the ladder's secrets, the texts sent on each
      rung's chain, and the places whose message has been opened. */
  datatype Log = Log(
    start: Key,
    pre: PreKeyHeader,
    secrets: seq<nat>,
    texts: seq<seq<string>>,
    spent: set<(nat, int)>)

  /** Both sessions and everything sent so far. The responder's end is the session
      the preamble builds; its store holds it from the first message it opens. */
  datatype Talk = Talk(log: Log, initiator: Session, responder: Session, packets: seq<Packet>)

  /** The rung an end stands on: the last or the last but one. */
  function RungOf(log: Log, initiator: bool): int {
    var top := |log.secrets| - 1;
    if (top % 2 == 1) == initiator then top else top - 1
  }

  function End(w: Talk, initiator: bool): Session {
    if initiator then w.initiator else w.responder
  }

  function WithEnd(w: Talk, initiator: bool, s: Session): Talk {
    if initiator then w.(initiator := s) else w.(responder := s)
  }

  /** Odd rungs send to the responder. */
  predicate ToInitiator(p: Packet) {
    p.rung % 2 == 0
  }

  function Said(log: Log, e: nat, text: string): Log
    requires e < |log.texts|
  {
    log.(texts := log.texts[e := log.texts[e] + [text]])
  }

  function Spent(log: Log, p: Packet): Log {
    log.(spent := log.spent + {(p.rung, p.header.n)})
  }

  function Climbed(log: Log, mint: nat): Log {
    log.(secrets := log.secrets + [mint], texts := log.texts + [[]])
  }

  function Sent(w: Talk, initiator: bool, text: string, aad: string): Talk {
    var e := RungOf(w.log, initiator);
    match Encrypt(End(w, initiator), text, aad)
    case None => w
    case Some(out) =>
      if 0 <= e < |w.log.texts| then
        WithEnd(w, initiator, out.session).(log := Said(w.log, e, text),
                                            packets := w.packets + [Packet(e, out.header, out.body, aad, text)])
      else w
  }

  ghost function Delivered(w: Talk, i: nat, mint: nat): Talk
    requires i < |w.packets|
  {
    var p := w.packets[i];
    var s := End(w, ToInitiator(p));
    match Decrypt(s, p.header, p.body, p.aad, mint)
    case None => w
    case Some(o) =>
      WithEnd(w, ToInitiator(p), o.session).(
        log := Spent(if o.session.theirRatchet != s.theirRatchet then Climbed(w.log, mint) else w.log, p))
  }

  // ── The invariant ─────────────────────────────────────────────────────────

  ghost predicate LogOk(log: Log) {
    && |log.secrets| == |log.texts| >= 2 && log.texts[0] == []
    && forall i, j :: 0 <= i < j < |log.secrets| ==> log.secrets[i] != log.secrets[j]
  }

  function Prior(texts: seq<seq<string>>, k: nat): nat
    requires k < |texts|
  {
    if k >= 2 then |texts[k - 2]| else 0
  }

  /** An end on rung `e` whose receiving chain stands at `recvCount` has passed message `n` of chain `k`. */
  predicate Passed(texts: seq<seq<string>>, e: nat, recvCount: nat, k: nat, n: int) {
    1 <= k < e && k < |texts| && (e - k) % 2 == 1 && 0 <= n < if k == e - 1 then recvCount else |texts[k]|
  }

  /** A kept key stands on rung `k` and opens a passed message that has not been opened. */
  predicate Keeps(log: Log, e: nat, recvCount: nat, key: SkippedKey, value: Key, k: nat) {
    && 1 <= k < |log.secrets|
    && key.dh == PublicKey(log.secrets[k])
    && Passed(log.texts, e, recvCount, k, key.n)
    && (k, key.n) !in log.spent
    && value == KeyAt(log.start, log.secrets, k, key.n)
  }

  ghost predicate SkippedOk(log: Log, e: nat, recvCount: nat, skipped: SkippedKeys) {
    forall key :: key in skipped ==> exists k: nat :: Keeps(log, e, recvCount, key, skipped[key], k)
  }

  /** The half of a session that sends, on rung `e`. */
  predicate SendingOk(log: Log, e: nat, s: Session) {
    && e < |log.secrets| == |log.texts|
    && s.rootKey == RootAt(log.start, log.secrets, e)
    && s.secret == log.secrets[e]
    && s.sendCount == |log.texts[e]|
    && s.previousSendCount == Prior(log.texts, e)
    && s.pending == (if e == 1 then Some(log.pre) else None)
    && s.sendChain == (if e == 0 then None else Some(Walk(ChainAt(log.start, log.secrets, e), |log.texts[e]|)))
  }

  /** The half of a session that receives: the chain of the rung below, advanced to a prefix of what it carries. */
  predicate ReceivingOk(log: Log, e: nat, s: Session) {
    && e < |log.secrets| == |log.texts|
    && s.theirRatchet == (if e == 0 then None else Some(PublicKey(log.secrets[e - 1])))
    && (if e <= 1 then s.recvChain == None && s.recvCount == 0
        else s.recvCount <= |log.texts[e - 1]|
             && s.recvChain == Some(Walk(ChainAt(log.start, log.secrets, e - 1), s.recvCount)))
  }

  ghost predicate EndOk(log: Log, e: int, s: Session) {
    && e >= 0
    && SendingOk(log, e, s) && ReceivingOk(log, e, s)
    && |s.skipped| <= MAX_SKIPPED_KEPT && SkippedOk(log, e, s.recvCount, s.skipped)
  }

  predicate PacketOk(log: Log, p: Packet) {
    && 1 <= p.rung < |log.secrets| == |log.texts|
    && 0 <= p.header.n < |log.texts[p.rung]|
    && p.header == Header(PublicKey(log.secrets[p.rung]), Prior(log.texts, p.rung), p.header.n,
                          if p.rung == 1 then Some(log.pre) else None)
    && p.text == log.texts[p.rung][p.header.n]
    && p.body == Sealed(KeyAt(log.start, log.secrets, p.rung, p.header.n), p.aad, p.text)
  }

  /** Every packet is what its place of the log says, and no two stand on one place. */
  ghost predicate NetworkOk(log: Log, packets: seq<Packet>) {
    && (forall i :: 0 <= i < |packets| ==> PacketOk(log, packets[i]))
    && (forall i, j :: 0 <= i < j < |packets| ==>
          packets[i].rung != packets[j].rung || packets[i].header.n != packets[j].header.n)
  }

  /** An end that receives rungs of one parity has opened only messages it passed. */
  ghost predicate SpentOk(log: Log, e: int, recvCount: nat) {
    e >= 0 && forall k: nat, n :: (k, n) in log.spent && (e - k) % 2 == 1 ==> Passed(log.texts, e, recvCount, k, n)
  }

  /** The two ends stand on the ladder's last two rungs, each receiving chain is
      a prefix of the chain it follows, each end keeps only keys of messages it
      passed and has not opened, and the network holds one packet a place. */
  ghost predicate Inv(w: Talk) {
    && LogOk(w.log)
    && EndOk(w.log, RungOf(w.log, true), w.initiator) && SpentOk(w.log, RungOf(w.log, true), w.initiator.recvCount)
    && EndOk(w.log, RungOf(w.log, false), w.responder) && SpentOk(w.log, RungOf(w.log, false), w.responder.recvCount)
    && NetworkOk(w.log, w.packets)
  }

  // ── Sending ───────────────────────────────────────────────────────────────

  lemma SaidKeepsKept(log: Log, e: nat, text: string, x: nat, recvCount: nat, skipped: SkippedKeys)
    requires e < |log.texts| && SkippedOk(log, x, recvCount, skipped)
    ensures SkippedOk(Said(log, e, text), x, recvCount, skipped)
  {
    hide KeyAt;
    forall key | key in skipped
      ensures exists k: nat :: Keeps(Said(log, e, text), x, recvCount, key, skipped[key], k)
    {
      var k: nat :| Keeps(log, x, recvCount, key, skipped[key], k);
      assert Keeps(Said(log, e, text), x, recvCount, key, skipped[key], k);
    }
  }

  /** A packet is sent to a place of its own. */
  lemma SaidKeepsPackets(log: Log, e: nat, s: Session, text: string, aad: string, packets: seq<Packet>)
    requires LogOk(log) && NetworkOk(log, packets) && |log.secrets| - 2 <= e < |log.secrets|
    requires e > 0 && SendingOk(log, e, s)
    ensures var out := Encrypt(s, text, aad).value;
            NetworkOk(Said(log, e, text), packets + [Packet(e, out.header, out.body, aad, text)])
  {
    hide KeyAt;
    var out := Encrypt(s, text, aad).value;
    var p := Packet(e, out.header, out.body, aad, text);
    assert PacketOk(Said(log, e, text), p) by {
      assert out.body.key == KeyAt(log.start, log.secrets, e, |log.texts[e]|) by {
        KeyAtUnfolds(log.start, log.secrets, e, |log.texts[e]|);
      }
    }
    forall i | 0 <= i < |packets|
      ensures PacketOk(Said(log, e, text), packets[i])
    {
      assert PacketOk(log, packets[i]);
    }
  }

  /** The end that sends. */
  lemma SendingKeepsEnd(log: Log, e: nat, s: Session, text: string, aad: string)
    requires LogOk(log) && EndOk(log, e, s)
    ensures e > 0 ==> Encrypt(s, text, aad).Some? && EndOk(Said(log, e, text), e, Encrypt(s, text, aad).value.session)
    ensures e > 0 ==> Encrypt(s, text, aad).value.session.recvCount == s.recvCount
    ensures e == 0 ==> Encrypt(s, text, aad).None?
  {
    SaidKeepsKept(log, e, text, e, s.recvCount, s.skipped);
  }

  /** The end that hears nothing of it yet. */
  lemma SendingKeepsPeer(log: Log, e: nat, x: nat, s: Session, text: string)
    requires LogOk(log) && EndOk(log, x, s) && |log.secrets| - 2 <= e < |log.secrets|
    requires |log.secrets| - 2 <= x < |log.secrets| && x != e
    ensures EndOk(Said(log, e, text), x, s)
  {
    SaidKeepsKept(log, e, text, x, s.recvCount, s.skipped);
    hide SkippedOk, RootAt, ChainAt, Walk;
  }

  lemma SaidKeepsSpent(log: Log, e: nat, text: string, x: int, recvCount: nat)
    requires e < |log.texts| && SpentOk(log, x, recvCount)
    ensures SpentOk(Said(log, e, text), x, recvCount)
  {
  }

  lemma SendKeepsInv(w: Talk, initiator: bool, text: string, aad: string)
    requires Inv(w)
    ensures Inv(Sent(w, initiator, text, aad))
  {
    hide KeyAt, SkippedOk, SpentOk, SendingOk, ReceivingOk, NetworkOk, Encrypt;
    var e, x := RungOf(w.log, initiator), RungOf(w.log, !initiator);
    SendingKeepsEnd(w.log, e, End(w, initiator), text, aad);
    if e > 0 {
      SendingKeepsPeer(w.log, e, x, End(w, !initiator), text);
      SaidKeepsSpent(w.log, e, text, e, End(w, initiator).recvCount);
      SaidKeepsSpent(w.log, e, text, x, End(w, !initiator).recvCount);
      SaidKeepsPackets(w.log, e, End(w, initiator), text, aad, w.packets);
    }
  }

  // ── Skipping ahead ────────────────────────────────────────────────────────

  lemma {:induction false} WalkAdds(c: Key, m: nat, n: nat)
    ensures Walk(Walk(c, m), n) == Walk(c, m + n)
  {
    if n > 0 {
      WalkAdds(c, m, n - 1);
    }
  }

  /** The keys of the messages an end steps over are kept in their place. */
  lemma StoreKeeps(log: Log, e: nat, s: Session, until: nat)
    requires LogOk(log) && EndOk(log, e, s) && SpentOk(log, e, s.recvCount)
    requires e >= 2 && s.recvCount <= until <= |log.texts[e - 1]|
    ensures SkippedOk(log, e, until,
              Store(s.skipped, s.theirRatchet.value, s.recvChain.value, s.recvCount, until - s.recvCount))
  {
    var theirs, chain, count := s.theirRatchet.value, s.recvChain.value, until - s.recvCount;
    var stored := Store(s.skipped, theirs, chain, s.recvCount, count);
    StoreHolds(s.skipped, theirs, chain, s.recvCount, count);
    hide Store, SpentOk, SendingOk;
    forall key | key in stored
      ensures exists k: nat :: Keeps(log, e, until, key, stored[key], k)
    {
      if key.dh == theirs && s.recvCount <= key.n < until {
        WalkAdds(ChainAt(log.start, log.secrets, e - 1), s.recvCount, key.n - s.recvCount);
        assert Keeps(log, e, until, key, stored[key], e - 1);
      } else {
        var k: nat :| Keeps(log, e, s.recvCount, key, s.skipped[key], k);
        assert Keeps(log, e, until, key, stored[key], k);
      }
    }
  }

  lemma KeptIsOk(log: Log, e: nat, recvCount: nat, m: SkippedKeys)
    requires SkippedOk(log, e, recvCount, m)
    ensures SkippedOk(log, e, recvCount, Kept(m)) && |Kept(m)| <= MAX_SKIPPED_KEPT
  {
    hide Keeps, Kept;
    KeptKeepsLastNames(m);
  }

  /** Skipping within the chain ends the receiving half further on, or is refused for its length. */
  lemma SkipKeepsEnd(log: Log, e: nat, s: Session, until: nat)
    requires LogOk(log) && EndOk(log, e, s) && SpentOk(log, e, s.recvCount)
    requires e >= 2 && s.recvCount <= until <= |log.texts[e - 1]|
    ensures until - s.recvCount > MAX_SKIP ==> Skip(s, until) == None
    ensures until - s.recvCount <= MAX_SKIP ==>
              && Skip(s, until).Some? && EndOk(log, e, Skip(s, until).value) && Skip(s, until).value.recvCount == until
  {
    hide Kept, Keeps, Store;
    StoreKeeps(log, e, s, until);
    if until - s.recvCount <= MAX_SKIP {
      KeptIsOk(log, e, until, Store(s.skipped, s.theirRatchet.value, s.recvChain.value, s.recvCount, until - s.recvCount));
      WalkAdds(ChainAt(log.start, log.secrets, e - 1), s.recvCount, until - s.recvCount);
    }
  }

  // ── Opening ───────────────────────────────────────────────────────────────

  /** A packet's place is passed by an end on rung `e`. */
  predicate Past(log: Log, e: nat, s: Session, p: Packet) {
    Passed(log.texts, e, s.recvCount, p.rung, p.header.n)
  }

  function KeptUnder(p: Packet): SkippedKey {
    SkippedKey(p.header.dh, p.header.n)
  }

  /** A key kept under a packet's name opens that packet. */
  lemma KeptOpens(log: Log, e: nat, s: Session, p: Packet)
    requires LogOk(log) && EndOk(log, e, s) && PacketOk(log, p) && KeptUnder(p) in s.skipped
    ensures s.skipped[KeptUnder(p)] == p.body.key && Past(log, e, s, p) && (p.rung, p.header.n) !in log.spent
    ensures (e - p.rung) % 2 == 1
  {
    hide KeyAt;
    var k: nat :| Keeps(log, e, s.recvCount, KeptUnder(p), s.skipped[KeptUnder(p)], k);
    assert log.secrets[k] == log.secrets[p.rung];
  }

  lemma SpendKept(log: Log, e: nat, recvCount: nat, skipped: SkippedKeys, p: Packet)
    requires SkippedOk(log, e, recvCount, skipped) && PacketOk(log, p)
    ensures SkippedOk(Spent(log, p), e, recvCount, skipped - {KeptUnder(p)})
  {
    hide KeyAt;
    var rest := skipped - {KeptUnder(p)};
    forall key | key in rest
      ensures exists k: nat :: Keeps(Spent(log, p), e, recvCount, key, rest[key], k)
    {
      var k: nat :| Keeps(log, e, recvCount, key, skipped[key], k);
      assert Keeps(Spent(log, p), e, recvCount, key, rest[key], k);
    }
  }

  /** Opening a late message spends its key and keeps the rest. */
  lemma OpenKeptKeepsEnd(log: Log, e: nat, s: Session, p: Packet)
    requires LogOk(log) && EndOk(log, e, s) && SpentOk(log, e, s.recvCount) && PacketOk(log, p) && KeptUnder(p) in s.skipped
    ensures EndOk(Spent(log, p), e, s.(skipped := s.skipped - {KeptUnder(p)})) && SpentOk(Spent(log, p), e, s.recvCount)
  {
    hide Keeps, KeyAt, SkippedOk;
    KeptOpens(log, e, s, p);
    SpendKept(log, e, s.recvCount, s.skipped, p);
    RemovingShrinks(s.skipped, KeptUnder(p));
  }

  /** Spending the message at the head of the receiving chain. */
  lemma SpendHead(log: Log, e: nat, recvCount: nat, skipped: SkippedKeys, p: Packet)
    requires SkippedOk(log, e, recvCount, skipped) && p.rung + 1 == e && p.header.n == recvCount
    ensures SkippedOk(Spent(log, p), e, recvCount + 1, skipped)
  {
    hide KeyAt;
    var after := recvCount + 1;
    forall key | key in skipped
      ensures exists k: nat :: Keeps(Spent(log, p), e, after, key, skipped[key], k)
    {
      var k: nat :| Keeps(log, e, recvCount, key, skipped[key], k);
      assert Keeps(Spent(log, p), e, after, key, skipped[key], k);
    }
  }

  /** A packet of the chain an end reads, not yet passed, opens unless it is too far ahead. */
  lemma OpenNextKeepsEnd(log: Log, e: nat, s: Session, p: Packet)
    requires LogOk(log) && EndOk(log, e, s) && SpentOk(log, e, s.recvCount) && PacketOk(log, p)
    requires p.rung + 1 == e && s.recvCount <= p.header.n
    ensures p.header.n - s.recvCount > MAX_SKIP ==> OpenNext(s, p.header, p.body, p.aad) == None
    ensures p.header.n - s.recvCount <= MAX_SKIP ==>
              && OpenNext(s, p.header, p.body, p.aad).Some?
              && var o := OpenNext(s, p.header, p.body, p.aad).value;
                 o.text == p.text && EndOk(Spent(log, p), e, o.session) && SpentOk(Spent(log, p), e, o.session.recvCount)
  {
    hide Skip, Keeps;
    SkipKeepsEnd(log, e, s, p.header.n);
    if p.header.n - s.recvCount <= MAX_SKIP {
      var caughtUp := Skip(s, p.header.n).value;
      assert Message(caughtUp.recvChain.value) == p.body.key;
      SpendHead(log, e, caughtUp.recvCount, caughtUp.skipped, p);
    }
  }

  // ── Turning ───────────────────────────────────────────────────────────────

  lemma ClimbKeepsKept(log: Log, mint: nat, e: nat, recvCount: nat, skipped: SkippedKeys)
    requires |log.secrets| == |log.texts| && e < |log.secrets| && SkippedOk(log, e, recvCount, skipped)
    ensures SkippedOk(Climbed(log, mint), e, recvCount, skipped)
  {
    forall key | key in skipped
      ensures exists k: nat :: Keeps(Climbed(log, mint), e, recvCount, key, skipped[key], k)
    {
      var k: nat :| Keeps(log, e, recvCount, key, skipped[key], k);
      RootStays(log.start, log.secrets, mint, k);
      assert Keeps(Climbed(log, mint), e, recvCount, key, skipped[key], k);
    }
  }

  lemma ClimbKeepsEnd(log: Log, mint: nat, e: nat, s: Session)
    requires LogOk(log) && EndOk(log, e, s)
    ensures EndOk(Climbed(log, mint), e, s)
  {
    hide Keeps;
    ClimbKeepsKept(log, mint, e, s.recvCount, s.skipped);
    RootStays(log.start, log.secrets, mint, e);
    if e > 0 {
      RootStays(log.start, log.secrets, mint, e - 1);
    }
  }

  lemma ClimbKeepsPacket(log: Log, mint: nat, p: Packet)
    requires LogOk(log) && PacketOk(log, p)
    ensures PacketOk(Climbed(log, mint), p)
  {
    RootStays(log.start, log.secrets, mint, p.rung);
  }

  lemma ClimbKeepsLog(log: Log, mint: nat)
    requires LogOk(log) && mint !in log.secrets
    ensures LogOk(Climbed(log, mint))
  {
  }

  /** Keys kept of a chain read to its end stay in place when the end turns. */
  lemma TurnKeepsKept(log: Log, e: nat, up: nat, recvCount: nat, skipped: SkippedKeys, mint: nat)
    requires LogOk(log) && SkippedOk(log, e, recvCount, skipped) && |log.secrets| == up == e + 2
    requires e >= 2 ==> recvCount == |log.texts[e - 1]|
    ensures SkippedOk(Climbed(log, mint), up, 0, skipped)
  {
    hide KeyAt;
    ClimbKeepsKept(log, mint, e, recvCount, skipped);
    forall key | key in skipped
      ensures exists k: nat :: Keeps(Climbed(log, mint), up, 0, key, skipped[key], k)
    {
      var k: nat :| Keeps(Climbed(log, mint), e, recvCount, key, skipped[key], k);
      assert Keeps(Climbed(log, mint), up, 0, key, skipped[key], k);
    }
  }

  /** Once the chain it read is closed, an end turns onto the rung above its own and mints the next one. */
  lemma TurnKeepsEnd(log: Log, e: nat, closed: Session, mint: nat)
    requires LogOk(log) && EndOk(log, e, closed) && |log.secrets| == e + 2
    requires e >= 2 ==> closed.recvCount == |log.texts[e - 1]|
    ensures EndOk(Climbed(log, mint), e + 2, Turn(closed, PublicKey(log.secrets[e + 1]), mint).(pending := None))
  {
    hide Keeps, SkippedOk;
    TurnKeepsKept(log, e, e + 2, closed.recvCount, closed.skipped, mint);
    RootStays(log.start, log.secrets, mint, e);
    RootStays(log.start, log.secrets, mint, e + 1);
  }

  lemma PendingDropped(s: Session, h: Header, body: Body, aad: string)
    ensures OpenNext(s, h, body, aad) == OpenNext(s.(pending := None), h, body, aad)
  {
    hide Kept, Store;
  }

  // ── One delivery ──────────────────────────────────────────────────────────

  /** A packet the end on rung `e` may be handed: from the other end, at most one rung above. */
  predicate Addressed(log: Log, e: nat, p: Packet) {
    (e - p.rung) % 2 == 1 && (p.rung <= e + 1) && (p.rung == e + 1 ==> |log.secrets| == e + 2)
  }

  /** What must hold before a packet is handed over for it to open: its key was
      kept, or its place is still ahead and neither skip is too long. */
  predicate CanOpen(log: Log, e: nat, s: Session, p: Packet) {
    && p.text != ""
    && (|| KeptUnder(p) in s.skipped
        || (&& !Past(log, e, s, p)
            && (if p.rung < e then p.header.n - s.recvCount <= MAX_SKIP
                else (e >= 2 ==> p.header.pn - s.recvCount <= MAX_SKIP) && p.header.n <= MAX_SKIP)))
  }

  /** The log once the packet has been opened. */
  function After(log: Log, e: nat, p: Packet, mint: nat): Log {
    Spent(if p.rung == e + 1 then Climbed(log, mint) else log, p)
  }

  function RungAfter(e: nat, p: Packet): nat {
    if p.rung == e + 1 then e + 2 else e
  }

  /** A packet whose place was passed and whose key is gone never opens. */
  lemma PastIsRefused(log: Log, e: nat, s: Session, p: Packet, mint: nat)
    requires LogOk(log) && EndOk(log, e, s) && PacketOk(log, p) && Addressed(log, e, p)
    requires Past(log, e, s, p) && KeptUnder(p) !in s.skipped
    ensures Decrypt(s, p.header, p.body, p.aad, mint) == None
  {
    hide Kept, Store, Keeps;
    var place := ChainAt(log.start, log.secrets, p.rung);
    RootDepth(log.start, log.secrets, e);
    RootDepth(log.start, log.secrets, p.rung - 1);
    if p.rung == e - 1 {
      if Message(Walk(ChainAt(log.start, log.secrets, e - 1), s.recvCount)) == p.body.key {
        WalkInjective(ChainAt(log.start, log.secrets, e - 1), s.recvCount, place, p.header.n);
      }
    } else {
      var astray := Chain(s.rootKey, Agree(s.secret, p.header.dh));
      if Message(Walk(astray, p.header.n)) == p.body.key {
        WalkInjective(astray, p.header.n, place, p.header.n);
      }
    }
  }

  /** The chain an end reads. */
  lemma CurrentOpens(log: Log, e: nat, s: Session, p: Packet, mint: nat)
    requires LogOk(log) && EndOk(log, e, s) && SpentOk(log, e, s.recvCount) && PacketOk(log, p)
    requires p.rung + 1 == e && s.recvCount <= p.header.n && KeptUnder(p) !in s.skipped && p.text != ""
    ensures Decrypt(s, p.header, p.body, p.aad, mint) == OpenNext(s, p.header, p.body, p.aad)
  {
    hide OpenNext, Skip, KeyAt, SendingOk, SkippedOk;
  }

  /** The chain above it: the end closes the one it reads and turns. */
  lemma NextFollows(log: Log, e: nat, s: Session, p: Packet, mint: nat)
    requires LogOk(log) && EndOk(log, e, s) && SpentOk(log, e, s.recvCount) && PacketOk(log, p)
    requires p.rung == e + 1 && |log.secrets| == e + 2
    ensures e >= 2 && p.header.pn - s.recvCount > MAX_SKIP ==> Follow(s, p.header, mint) == None
    ensures (e >= 2 ==> p.header.pn - s.recvCount <= MAX_SKIP) ==>
              && Follow(s, p.header, mint).Some?
              && var t := Follow(s, p.header, mint).value;
                 && EndOk(Climbed(log, mint), e + 2, t.(pending := None)) && t.recvCount == 0
                 && SpentOk(Climbed(log, mint), e + 2, 0)
  {
    hide Keeps, KeyAt, Kept, Store;
    assert s.theirRatchet != Some(p.header.dh);
    if e >= 2 {
      SkipKeepsEnd(log, e, s, p.header.pn);
    }
    if Skip(s, p.header.pn).Some? {
      TurnKeepsEnd(log, e, Skip(s, p.header.pn).value, mint);
    }
  }

  lemma NextOpens(log: Log, e: nat, s: Session, p: Packet, mint: nat)
    requires LogOk(log) && EndOk(log, e, s) && SpentOk(log, e, s.recvCount) && PacketOk(log, p)
    requires p.rung == e + 1 && |log.secrets| == e + 2 && mint !in log.secrets
    requires KeptUnder(p) !in s.skipped && p.text != ""
    ensures Decrypt(s, p.header, p.body, p.aad, mint).Some? <==> CanOpen(log, e, s, p)
    ensures CanOpen(log, e, s, p) ==>
              var o := Decrypt(s, p.header, p.body, p.aad, mint).value;
              && o.text == p.text
              && EndOk(After(log, e, p, mint), e + 2, o.session)
              && SpentOk(After(log, e, p, mint), e + 2, o.session.recvCount)
  {
    hide Follow, OpenNext, SendingOk, ReceivingOk, SkippedOk, SpentOk, KeyAt;
    NextFollows(log, e, s, p, mint);
    if Follow(s, p.header, mint).Some? {
      var t := Follow(s, p.header, mint).value;
      PendingDropped(t, p.header, p.body, p.aad);
      ClimbKeepsLog(log, mint);
      ClimbKeepsPacket(log, mint, p);
      OpenNextKeepsEnd(Climbed(log, mint), e + 2, t.(pending := None), p);
    }
  }

  /** An end reads on from the rung below its own. */
  lemma ReadsRungBelow(log: Log, e: nat, s: Session, p: Packet)
    requires LogOk(log) && EndOk(log, e, s) && PacketOk(log, p)
    ensures s.theirRatchet == Some(p.header.dh) <==> p.rung + 1 == e
  {
    hide KeyAt;
  }

  /** Whatever opens leaves the end as it was or on the packet's own ratchet key. */
  lemma ReadsOn(s: Session, p: Packet, mint: nat)
    requires Decrypt(s, p.header, p.body, p.aad, mint).Some?
    ensures var t := Decrypt(s, p.header, p.body, p.aad, mint).value.session.theirRatchet;
            t == if KeptUnder(p) in s.skipped then s.theirRatchet else Some(p.header.dh)
  {
    hide Kept, Store;
  }

  /** One packet handed to one end: it opens, to exactly what was said, if and
      only if its key was kept or its place is ahead and no skip is too long. */
  lemma DecryptExact(log: Log, e: nat, s: Session, p: Packet, mint: nat)
    requires LogOk(log) && EndOk(log, e, s) && SpentOk(log, e, s.recvCount) && PacketOk(log, p)
    requires Addressed(log, e, p) && mint !in log.secrets
    ensures Decrypt(s, p.header, p.body, p.aad, mint).Some? <==> CanOpen(log, e, s, p)
    ensures CanOpen(log, e, s, p) ==>
              var o := Decrypt(s, p.header, p.body, p.aad, mint).value;
              && o.text == p.text && (o.session.theirRatchet != s.theirRatchet <==> p.rung == e + 1)
              && EndOk(After(log, e, p, mint), RungAfter(e, p), o.session)
              && SpentOk(After(log, e, p, mint), RungAfter(e, p), o.session.recvCount)
  {
    hide KeyAt, Kept, Store, Turn, OpenNext, Follow, SendingOk, ReceivingOk, SkippedOk, SpentOk;
    if Decrypt(s, p.header, p.body, p.aad, mint).Some? {
      ReadsRungBelow(log, e, s, p);
      ReadsOn(s, p, mint);
    }
    if p.text == "" {
    } else if KeptUnder(p) in s.skipped {
      KeptOpens(log, e, s, p);
      OpenKeptKeepsEnd(log, e, s, p);
    } else if p.rung == e + 1 {
      NextOpens(log, e, s, p, mint);
    } else if Past(log, e, s, p) {
      PastIsRefused(log, e, s, p, mint);
    } else {
      CurrentOpens(log, e, s, p, mint);
      OpenNextKeepsEnd(log, e, s, p);
    }
  }

  // ── The end that is not handed the packet ─────────────────────────────────

  lemma SpendingKeepsPeer(log: Log, x: nat, s: Session, p: Packet)
    requires EndOk(log, x, s) && SpentOk(log, x, s.recvCount) && (x - p.rung) % 2 == 0
    ensures EndOk(Spent(log, p), x, s) && SpentOk(Spent(log, p), x, s.recvCount)
  {
    hide KeyAt;
    forall key | key in s.skipped
      ensures exists k: nat :: Keeps(Spent(log, p), x, s.recvCount, key, s.skipped[key], k)
    {
      var k: nat :| Keeps(log, x, s.recvCount, key, s.skipped[key], k);
      assert Keeps(Spent(log, p), x, s.recvCount, key, s.skipped[key], k);
    }
  }

  lemma PeerUnmoved(log: Log, e: nat, x: nat, s: Session, p: Packet, mint: nat)
    requires LogOk(log) && EndOk(log, x, s) && SpentOk(log, x, s.recvCount) && (x - p.rung) % 2 == 0
    ensures EndOk(After(log, e, p, mint), x, s) && SpentOk(After(log, e, p, mint), x, s.recvCount)
  {
    hide SkippedOk, SendingOk, ReceivingOk, Keeps;
    if p.rung == e + 1 {
      ClimbKeepsEnd(log, mint, x, s);
      SpendingKeepsPeer(Climbed(log, mint), x, s, p);
    } else {
      SpendingKeepsPeer(log, x, s, p);
    }
  }

  lemma NetworkUnmoved(log: Log, e: nat, p: Packet, mint: nat, packets: seq<Packet>)
    requires LogOk(log) && NetworkOk(log, packets) && mint !in log.secrets
    ensures LogOk(After(log, e, p, mint)) && NetworkOk(After(log, e, p, mint), packets)
  {
    hide KeyAt;
    forall i | 0 <= i < |packets|
      ensures PacketOk(After(log, e, p, mint), packets[i])
    {
      assert PacketOk(log, packets[i]);
      ClimbKeepsPacket(log, mint, packets[i]);
    }
  }

  // ── Runs ──────────────────────────────────────────────────────────────────

  /** A conversation opens: the initiator claims the responder's bundle. */
  function Begun(bundle: KeyBundle, me: Privates, theirDeviceId: string, ephemeral: nat, ratchet: nat): Option<Talk> {
    var a := Initiate(bundle, ephemeral, ratchet);
    match Accept(a.pending.value, me, theirDeviceId)
    case None => None
    case Some(b) =>
      Some(Talk(Log(b.rootKey, a.pending.value, [me.signedPreKey, ratchet], [[], []], {}), a, b, []))
  }

  /** The bundle is what the responder's device published. */
  predicate Published(bundle: KeyBundle, me: Privates) {
    && bundle.signedPreKey == PreKey(me.signedPreKeyId, PublicKey(me.signedPreKey))
    && (bundle.oneTimePreKey.Some? ==>
          && bundle.oneTimePreKey.value.id in me.preKeys
          && bundle.oneTimePreKey.value.key == PublicKey(me.preKeys[bundle.oneTimePreKey.value.id]))
  }

  /** Both halves of the agreement reach one root, so the two ends start on rungs 1 and 0 of one ladder. */
  lemma BeginningHoldsInv(bundle: KeyBundle, me: Privates, theirDeviceId: string, ephemeral: nat, ratchet: nat)
    requires Published(bundle, me) && ratchet != me.signedPreKey
    ensures Begun(bundle, me, theirDeviceId, ephemeral, ratchet).Some?
    ensures Inv(Begun(bundle, me, theirDeviceId, ephemeral, ratchet).value)
  {
    var w := Begun(bundle, me, theirDeviceId, ephemeral, ratchet).value;
    assert RootAt(w.log.start, w.log.secrets, 0) == w.log.start;
    assert RootAt(w.log.start, w.log.secrets, 1) == w.initiator.rootKey;
    assert ChainAt(w.log.start, w.log.secrets, 1) == w.initiator.sendChain.value;
  }

  datatype Step =
    | Send(initiator: bool, text: string, aad: string)
    | Deliver(packet: nat, mint: nat)

  /** A step the world may take: deliveries are of packets sent, in any order and any number, and minted secrets are new. */
  predicate Possible(w: Talk, step: Step) {
    step.Deliver? ==> step.packet < |w.packets| && step.mint !in w.log.secrets
  }

  ghost function Taken(w: Talk, step: Step): Talk
    requires Possible(w, step)
  {
    match step
    case Send(initiator, text, aad) => Sent(w, initiator, text, aad)
    case Deliver(i, mint) => Delivered(w, i, mint)
  }

  ghost predicate Run(w: Talk, steps: seq<Step>, v: Talk)
    decreases |steps|
  {
    if steps == [] then v == w
    else Possible(w, steps[0]) && Run(Taken(w, steps[0]), steps[1..], v)
  }

  /** The rung of the end a packet is handed to, and that end. */
  function ReaderRung(w: Talk, p: Packet): int {
    RungOf(w.log, ToInitiator(p))
  }

  function Reader(w: Talk, p: Packet): Session {
    End(w, ToInitiator(p))
  }

  lemma DeliverKeepsInv(w: Talk, i: nat, mint: nat)
    requires Inv(w) && i < |w.packets| && mint !in w.log.secrets
    ensures Inv(Delivered(w, i, mint))
  {
    hide SkippedOk, SendingOk, ReceivingOk, SpentOk, NetworkOk, CanOpen, Decrypt;
    var p := w.packets[i];
    assert PacketOk(w.log, p) by {
      PacketIsOk(w.log, w.packets, i);
    }
    var e, x := ReaderRung(w, p), RungOf(w.log, !ToInitiator(p));
    DecryptExact(w.log, e, Reader(w, p), p, mint);
    PeerUnmoved(w.log, e, x, End(w, !ToInitiator(p)), p, mint);
    NetworkUnmoved(w.log, e, p, mint, w.packets);
  }

  lemma PacketIsOk(log: Log, packets: seq<Packet>, i: nat)
    requires NetworkOk(log, packets) && i < |packets|
    ensures PacketOk(log, packets[i])
  {
  }

  lemma {:induction false} RunsKeepInv(w: Talk, steps: seq<Step>, v: Talk)
    requires Inv(w) && Run(w, steps, v)
    ensures Inv(v)
    decreases |steps|
  {
    hide Inv, Sent, Delivered;
    if steps != [] {
      match steps[0] {
        case Send(initiator, text, aad) => SendKeepsInv(w, initiator, text, aad);
        case Deliver(i, mint) => DeliverKeepsInv(w, i, mint);
      }
      RunsKeepInv(Taken(w, steps[0]), steps[1..], v);
    }
  }

  // ── What holds in every run ───────────────────────────────────────────────

  /** `follower` reads the chain `leader` sends on, from a prefix of it. */
  predicate Follows(follower: Session, leader: Session) {
    && follower.theirRatchet == Some(PublicKey(leader.secret))
    && (if follower.recvChain.None? then leader.sendChain.None? && follower.recvCount == 0
        else follower.recvCount <= leader.sendCount
             && leader.sendChain == Some(Walk(follower.recvChain.value, leader.sendCount - follower.recvCount)))
  }

  /** One turn onto the other end's current key, and `follower` would read its chain from the start. */
  predicate OneTurnBehind(follower: Session, leader: Session) {
    && leader.sendChain == Some(Walk(Turn(follower, PublicKey(leader.secret), 0).recvChain.value, leader.sendCount))
    && leader.previousSendCount >= follower.recvCount
  }

  /** At most one turn apart: one end reads what the other sends, and a single turn lets the other read back. */
  lemma EndsAgree(w: Talk)
    requires Inv(w)
    ensures || (Follows(w.initiator, w.responder) && OneTurnBehind(w.responder, w.initiator))
            || (Follows(w.responder, w.initiator) && OneTurnBehind(w.initiator, w.responder))
  {
    hide SkippedOk, SpentOk, NetworkOk;
    var top := |w.log.secrets| - 1;
    var follower, leader := End(w, top % 2 == 1), End(w, top % 2 == 0);
    if top >= 2 {
      WalkAdds(follower.recvChain.value, 0, leader.sendCount - follower.recvCount);
      WalkAdds(ChainAt(w.log.start, w.log.secrets, top - 1), follower.recvCount, leader.sendCount - follower.recvCount);
    }
  }

  /** Every delivery of every packet, in any order and any number: it opens, to
      exactly what was said, if and only if `CanOpen` held, and otherwise
      nothing changes. */
  lemma DeliveriesExact(w: Talk, i: nat, mint: nat)
    requires Inv(w) && i < |w.packets| && mint !in w.log.secrets
    ensures var p := w.packets[i];
            var r := Decrypt(Reader(w, p), p.header, p.body, p.aad, mint);
            && ReaderRung(w, p) >= 0
            && (r.Some? <==> CanOpen(w.log, ReaderRung(w, p), Reader(w, p), p))
            && (r.Some? ==> r.value.text == p.text)
            && (r.None? ==> Delivered(w, i, mint) == w)
  {
    hide SkippedOk, SendingOk, ReceivingOk, SpentOk, NetworkOk, CanOpen, Decrypt;
    var p := w.packets[i];
    PacketIsOk(w.log, w.packets, i);
    DecryptExact(w.log, ReaderRung(w, p), Reader(w, p), p, mint);
  }

  predicate IsSpent(w: Talk, p: Packet) {
    (p.rung, p.header.n) in w.log.spent
  }

  /** A message that has been opened never opens again, and trying leaves both sessions alone. */
  lemma RedeliveryRefused(w: Talk, i: nat, mint: nat)
    requires Inv(w) && i < |w.packets| && mint !in w.log.secrets && IsSpent(w, w.packets[i])
    ensures var p := w.packets[i]; Decrypt(Reader(w, p), p.header, p.body, p.aad, mint) == None
    ensures Delivered(w, i, mint) == w
  {
    hide KeyAt, SkippedOk, SendingOk, ReceivingOk, Decrypt;
    var p := w.packets[i];
    PacketIsOk(w.log, w.packets, i);
    DeliveriesExact(w, i, mint);
    if KeptUnder(p) in Reader(w, p).skipped {
      KeptOpens(w.log, ReaderRung(w, p), Reader(w, p), p);
    }
  }

  /** A delivery that opens spends its message. */
  lemma OpeningSpends(w: Talk, i: nat, mint: nat)
    requires i < |w.packets|
    requires Decrypt(Reader(w, w.packets[i]), w.packets[i].header, w.packets[i].body, w.packets[i].aad, mint).Some?
    ensures IsSpent(Delivered(w, i, mint), w.packets[i])
  {
    hide Decrypt;
  }

  /** No message key ever seals twice, in either direction. */
  lemma KeysNeverReused(w: Talk, i: nat, j: nat)
    requires Inv(w) && i < j < |w.packets|
    ensures w.packets[i].body.Sealed? && w.packets[j].body.Sealed? && w.packets[i].body.key != w.packets[j].body.key
  {
    hide EndOk, KeyAt, SpentOk;
    var p, q := w.packets[i], w.packets[j];
    PacketIsOk(w.log, w.packets, i);
    PacketIsOk(w.log, w.packets, j);
    if p.body.key == q.body.key {
      KeysDistinct(w.log.start, w.log.secrets, p.rung, p.header.n, q.rung, q.header.n);
    }
  }

  // ── What the bound on stored keys costs ───────────────────────────────────

  /** The key stands for a message the end has passed. */
  ghost predicate StandsForPassed(log: Log, e: nat, recvCount: nat, key: SkippedKey) {
    exists k: nat :: k < |log.secrets| && key.dh == PublicKey(log.secrets[k]) && Passed(log.texts, e, recvCount, k, key.n)
  }

  /** An end that lost the keys `gone` to the bound: each stood for a message it
      passed and is no longer stored, and every other message passed and not
      opened still has its key. */
  ghost predicate Accounted(log: Log, e: int, recvCount: nat, skipped: SkippedKeys, gone: set<SkippedKey>) {
    && e >= 0
    && (forall k: nat, n :: k < |log.secrets| && Passed(log.texts, e, recvCount, k, n) && (k, n) !in log.spent ==>
          SkippedKey(PublicKey(log.secrets[k]), n) in skipped.Keys + gone)
    && (forall key :: key in gone ==> key !in skipped && StandsForPassed(log, e, recvCount, key))
  }

  /** Handing over the packet would skip more than `MAX_SKIP` messages of one chain. */
  predicate TooFar(log: Log, e: nat, s: Session, p: Packet) {
    && !Past(log, e, s, p)
    && (if p.rung < e then p.header.n - s.recvCount > MAX_SKIP
        else (e >= 2 && p.header.pn - s.recvCount > MAX_SKIP) || p.header.n > MAX_SKIP)
  }

  /** A message delivered for the first time opens, to exactly its text, if and
      only if its key was not lost, no skip is too long and it says something. */
  lemma FirstDeliveryOpens(w: Talk, i: nat, mint: nat, gone: set<SkippedKey>)
    requires Inv(w) && i < |w.packets| && mint !in w.log.secrets && !IsSpent(w, w.packets[i])
    requires var p := w.packets[i]; Accounted(w.log, ReaderRung(w, p), Reader(w, p).recvCount, Reader(w, p).skipped, gone)
    ensures var p := w.packets[i];
            var r := Decrypt(Reader(w, p), p.header, p.body, p.aad, mint);
            && ReaderRung(w, p) >= 0
            && (r.Some? <==> p.text != "" && !TooFar(w.log, ReaderRung(w, p), Reader(w, p), p) && KeptUnder(p) !in gone)
            && (r.Some? ==> r.value.text == p.text)
  {
    hide KeyAt, SkippedOk, SendingOk, ReceivingOk, Decrypt, SpentOk;
    var p := w.packets[i];
    PacketIsOk(w.log, w.packets, i);
    DeliveriesExact(w, i, mint);
    if KeptUnder(p) in Reader(w, p).skipped {
      KeptOpens(w.log, ReaderRung(w, p), Reader(w, p), p);
    }
    if KeptUnder(p) in gone {
      GoneIsPast(w.log, ReaderRung(w, p), Reader(w, p).recvCount, KeptUnder(p), p);
    }
  }

  lemma GoneIsPast(log: Log, e: nat, recvCount: nat, key: SkippedKey, p: Packet)
    requires LogOk(log) && PacketOk(log, p) && key == KeptUnder(p) && StandsForPassed(log, e, recvCount, key)
    ensures Passed(log.texts, e, recvCount, p.rung, p.header.n)
  {
    hide KeyAt;
    var k: nat :| k < |log.secrets| && key.dh == PublicKey(log.secrets[k]) && Passed(log.texts, e, recvCount, k, key.n);
    assert log.secrets[k] == log.secrets[p.rung];
  }

  function Ahead(from: int, to: int): nat {
    if to > from then to - from else 0
  }

  /** The stored keys a skip has before the bound is applied. */
  function Gathered(s: Session, until: int): SkippedKeys
    requires s.recvChain.Some? && s.theirRatchet.Some?
  {
    Store(s.skipped, s.theirRatchet.value, s.recvChain.value, s.recvCount, Ahead(s.recvCount, until))
  }

  /** The keys the bound takes when a skip adds to the stored ones. */
  ghost function SkipLoses(s: Session, until: int): set<SkippedKey> {
    if s.recvChain.None? || s.theirRatchet.None? then {}
    else Gathered(s, until).Keys - Kept(Gathered(s, until)).Keys
  }

  /** The keys the bound takes when a packet is opened. */
  ghost function Loses(s: Session, p: Packet, mint: nat): set<SkippedKey> {
    if Decrypt(s, p.header, p.body, p.aad, mint).None? || KeptUnder(p) in s.skipped then {}
    else if s.theirRatchet == Some(p.header.dh) then SkipLoses(s, p.header.n)
    else SkipLoses(s, p.header.pn) + SkipLoses(Follow(s, p.header, mint).value, p.header.n)
  }

  /** How many keys opening a packet adds to those stored. */
  function Adds(s: Session, p: Packet): nat {
    if KeptUnder(p) in s.skipped then 0
    else if s.theirRatchet == Some(p.header.dh) then (if s.recvChain.Some? then Ahead(s.recvCount, p.header.n) else 0)
    else (if s.recvChain.Some? then Ahead(s.recvCount, p.header.pn) else 0) + Ahead(0, p.header.n)
  }

  /** The keys that opening the packet would store stay within the bound. */
  predicate Fits(s: Session, p: Packet) {
    |s.skipped| + Adds(s, p) <= MAX_SKIPPED_KEPT
  }

  lemma AddingGrowsByOne(m: SkippedKeys, key: SkippedKey, value: Key)
    requires key !in m
    ensures |m[key := value]| == |m| + 1
  {
    assert m[key := value].Keys == m.Keys + {key};
  }

  /** Keys of messages not passed yet add one each. */
  lemma {:induction false} StoreSize(m: SkippedKeys, theirs: PublicKey, chain: Key, from: nat, count: nat)
    requires forall key :: key in m && key.dh == theirs ==> key.n < from
    ensures |Store(m, theirs, chain, from, count)| == |m| + count
  {
    if count > 0 {
      StoreSize(m, theirs, chain, from, count - 1);
      StoreHolds(m, theirs, chain, from, count - 1);
      var stored, key := Store(m, theirs, chain, from, count - 1), SkippedKey(theirs, from + count - 1);
      assert key !in stored;
      AddingGrowsByOne(stored, key, Message(Walk(chain, count - 1)));
    }
  }

  lemma StoredArePassed(log: Log, e: nat, s: Session)
    requires LogOk(log) && EndOk(log, e, s) && e >= 2
    ensures forall key :: key in s.skipped && Some(key.dh) == s.theirRatchet ==> key.n < s.recvCount
  {
    hide KeyAt, SendingOk;
    forall key | key in s.skipped && Some(key.dh) == s.theirRatchet
      ensures key.n < s.recvCount
    {
      var k: nat :| Keeps(log, e, s.recvCount, key, s.skipped[key], k);
      assert log.secrets[k] == log.secrets[e - 1];
    }
  }

  lemma GatheredHas(s: Session, until: nat, key: SkippedKey)
    requires s.recvChain.Some? && s.theirRatchet.Some? && s.recvCount <= until
    ensures key in Gathered(s, until) <==> key in s.skipped || (Some(key.dh) == s.theirRatchet && s.recvCount <= key.n < until)
  {
    hide Store;
    StoreHolds(s.skipped, s.theirRatchet.value, s.recvChain.value, s.recvCount, until - s.recvCount);
  }

  lemma PassedStaysIn(log: Log, e: nat, s: Session, until: nat, gone: set<SkippedKey>, k: nat, n: int)
    requires ReceivingOk(log, e, s) && Accounted(log, e, s.recvCount, s.skipped, gone)
    requires e >= 2 && s.recvCount <= until
    requires k < |log.secrets| && Passed(log.texts, e, until, k, n) && (k, n) !in log.spent
    ensures SkippedKey(PublicKey(log.secrets[k]), n) in Gathered(s, until).Keys + gone
  {
    hide Gathered, StandsForPassed;
    GatheredHas(s, until, SkippedKey(PublicKey(log.secrets[k]), n));
    if k != e - 1 || n < s.recvCount {
      assert Passed(log.texts, e, s.recvCount, k, n);
    }
  }

  lemma GoneStaysGone(log: Log, e: nat, s: Session, until: nat, key: SkippedKey)
    requires LogOk(log) && ReceivingOk(log, e, s) && e >= 2 && s.recvCount <= until
    requires key !in s.skipped && StandsForPassed(log, e, s.recvCount, key)
    ensures key !in Gathered(s, until) && StandsForPassed(log, e, until, key)
  {
    hide Gathered;
    GatheredHas(s, until, key);
    var k: nat :| k < |log.secrets| && key.dh == PublicKey(log.secrets[k]) && Passed(log.texts, e, s.recvCount, k, key.n);
    assert Passed(log.texts, e, until, k, key.n);
    assert Some(key.dh) == s.theirRatchet ==> log.secrets[k] == log.secrets[e - 1];
  }

  lemma StoreAccounts(log: Log, e: nat, s: Session, until: nat, gone: set<SkippedKey>)
    requires LogOk(log) && EndOk(log, e, s) && Accounted(log, e, s.recvCount, s.skipped, gone)
    requires e >= 2 && s.recvCount <= until
    ensures Accounted(log, e, until, Gathered(s, until), gone)
  {
    hide SkippedOk, SendingOk, Store, LogOk, Passed, Gathered;
    forall k: nat, n | k < |log.secrets| && Passed(log.texts, e, until, k, n) && (k, n) !in log.spent
      ensures SkippedKey(PublicKey(log.secrets[k]), n) in Gathered(s, until).Keys + gone
    {
      PassedStaysIn(log, e, s, until, gone, k, n);
    }
    forall key | key in gone
      ensures key !in Gathered(s, until) && StandsForPassed(log, e, until, key)
    {
      GoneStaysGone(log, e, s, until, key);
    }
  }

  lemma KeptAccounts(log: Log, e: nat, recvCount: nat, m: SkippedKeys, gone: set<SkippedKey>)
    requires |log.secrets| == |log.texts| && SkippedOk(log, e, recvCount, m) && Accounted(log, e, recvCount, m, gone)
    ensures Accounted(log, e, recvCount, Kept(m), gone + (m.Keys - Kept(m).Keys))
  {
    hide Kept, KeyAt;
    KeptKeepsLastNames(m);
    var lost := m.Keys - Kept(m).Keys;
    forall key | key in lost
      ensures StandsForPassed(log, e, recvCount, key)
    {
      var k: nat :| Keeps(log, e, recvCount, key, m[key], k);
    }
  }

  lemma SkipAccounts(log: Log, e: nat, s: Session, until: nat, gone: set<SkippedKey>)
    requires LogOk(log) && EndOk(log, e, s) && SpentOk(log, e, s.recvCount)
    requires Accounted(log, e, s.recvCount, s.skipped, gone)
    requires e >= 2 && s.recvCount <= until <= |log.texts[e - 1]| && until - s.recvCount <= MAX_SKIP
    ensures Skip(s, until).Some?
    ensures Accounted(log, e, until, Skip(s, until).value.skipped, gone + SkipLoses(s, until))
  {
    hide SkippedOk, SendingOk, Store, Accounted, Kept;
    StoreKeeps(log, e, s, until);
    StoreAccounts(log, e, s, until, gone);
    KeptAccounts(log, e, until, Gathered(s, until), gone);
  }

  lemma GatheredSize(log: Log, e: nat, s: Session, until: nat)
    requires LogOk(log) && EndOk(log, e, s) && e >= 2 && s.recvCount <= until
    ensures |Gathered(s, until)| == |s.skipped| + (until - s.recvCount)
  {
    hide Store, LogOk, SendingOk;
    StoredArePassed(log, e, s);
    hide SkippedOk;
    StoreSize(s.skipped, s.theirRatchet.value, s.recvChain.value, s.recvCount, until - s.recvCount);
  }

  /** A skip loses a key exactly when what it gathers passes the bound. */
  lemma SkipSize(log: Log, e: nat, s: Session, until: nat)
    requires LogOk(log) && EndOk(log, e, s) && e >= 2 && s.recvCount <= until && until - s.recvCount <= MAX_SKIP
    ensures var all := |s.skipped| + (until - s.recvCount);
            && Skip(s, until).Some?
            && |Skip(s, until).value.skipped| == (if all <= MAX_SKIPPED_KEPT then all else MAX_SKIPPED_KEPT)
            && (SkipLoses(s, until) == {} <==> all <= MAX_SKIPPED_KEPT)
  {
    hide SkippedOk, SendingOk, Store, Kept, LogOk;
    GatheredSize(log, e, s, until);
    KeptSize(Gathered(s, until));
  }

  /** Spending the message at the head of the chain leaves the account as it was. */
  lemma HeadAccounts(log: Log, e: nat, recvCount: nat, skipped: SkippedKeys, p: Packet, gone: set<SkippedKey>)
    requires Accounted(log, e, recvCount, skipped, gone) && p.rung + 1 == e && p.header.n == recvCount
    ensures Accounted(Spent(log, p), e, recvCount + 1, skipped, gone)
  {
    var after := recvCount + 1;
    forall k: nat, n | k < |log.secrets| && Passed(log.texts, e, after, k, n) && (k, n) !in Spent(log, p).spent
      ensures SkippedKey(PublicKey(log.secrets[k]), n) in skipped.Keys + gone
    {
      assert Passed(log.texts, e, recvCount, k, n);
    }
    forall key | key in gone
      ensures StandsForPassed(Spent(log, p), e, after, key)
    {
      var k: nat :| k < |log.secrets| && key.dh == PublicKey(log.secrets[k]) && Passed(log.texts, e, recvCount, k, key.n);
      assert Passed(log.texts, e, after, k, key.n);
    }
  }

  lemma OpenNextAccounts(log: Log, e: nat, s: Session, p: Packet, gone: set<SkippedKey>)
    requires LogOk(log) && EndOk(log, e, s) && SpentOk(log, e, s.recvCount) && PacketOk(log, p)
    requires Accounted(log, e, s.recvCount, s.skipped, gone)
    requires p.rung + 1 == e && s.recvCount <= p.header.n && p.header.n - s.recvCount <= MAX_SKIP
    ensures OpenNext(s, p.header, p.body, p.aad).Some?
    ensures var o := OpenNext(s, p.header, p.body, p.aad).value;
            Accounted(Spent(log, p), e, o.session.recvCount, o.session.skipped, gone + SkipLoses(s, p.header.n))
  {
    hide SkippedOk, SendingOk, KeyAt, Skip, SpentOk, Accounted, SkipLoses;
    OpenNextKeepsEnd(log, e, s, p);
    SkipKeepsEnd(log, e, s, p.header.n);
    SkipAccounts(log, e, s, p.header.n, gone);
    HeadAccounts(log, e, p.header.n, Skip(s, p.header.n).value.skipped, p, gone + SkipLoses(s, p.header.n));
  }

  lemma TurnAccounts(log: Log, e: nat, recvCount: nat, skipped: SkippedKeys, mint: nat, gone: set<SkippedKey>)
    requires LogOk(log) && |log.secrets| == e + 2 && Accounted(log, e, recvCount, skipped, gone)
    requires e >= 2 ==> recvCount == |log.texts[e - 1]|
    ensures Accounted(Climbed(log, mint), e + 2, 0, skipped, gone)
  {
    var up := Climbed(log, mint);
    forall k: nat, n | k < |up.secrets| && Passed(up.texts, e + 2, 0, k, n) && (k, n) !in up.spent
      ensures SkippedKey(PublicKey(up.secrets[k]), n) in skipped.Keys + gone
    {
      assert Passed(log.texts, e, recvCount, k, n);
    }
    forall key | key in gone
      ensures StandsForPassed(up, e + 2, 0, key)
    {
      var k: nat :| k < |log.secrets| && key.dh == PublicKey(log.secrets[k]) && Passed(log.texts, e, recvCount, k, key.n);
      assert up.secrets[k] == log.secrets[k] && Passed(up.texts, e + 2, 0, k, key.n);
    }
  }

  /** Closing the chain read and turning onto the one above. */
  lemma NextAccounts(log: Log, e: nat, s: Session, p: Packet, mint: nat, gone: set<SkippedKey>)
    requires LogOk(log) && EndOk(log, e, s) && SpentOk(log, e, s.recvCount) && PacketOk(log, p)
    requires p.rung == e + 1 && |log.secrets| == e + 2 && mint !in log.secrets
    requires KeptUnder(p) !in s.skipped && CanOpen(log, e, s, p)
    requires Accounted(log, e, s.recvCount, s.skipped, gone)
    ensures Follow(s, p.header, mint).Some?
    ensures var t := Follow(s, p.header, mint).value;
            && Accounted(Climbed(log, mint), e + 2, 0, t.skipped, gone + SkipLoses(s, p.header.pn))
            && (SkipLoses(s, p.header.pn) == {} && |t.skipped| + p.header.n <= MAX_SKIPPED_KEPT <==> Fits(s, p))
  {
    hide SkippedOk, SpentOk, KeyAt, Kept, Store, Accounted, SkipLoses, SendingOk;
    NextFollows(log, e, s, p, mint);
    ReadsRungBelow(log, e, s, p);
    if e >= 2 {
      SkipKeepsEnd(log, e, s, p.header.pn);
      SkipAccounts(log, e, s, p.header.pn, gone);
      SkipSize(log, e, s, p.header.pn);
      TurnAccounts(log, e, p.header.pn, Skip(s, p.header.pn).value.skipped, mint, gone + SkipLoses(s, p.header.pn));
    } else {
      LosesNoneUnchained(s, p.header.pn);
      TurnAccounts(log, e, s.recvCount, s.skipped, mint, gone);
      assert gone + SkipLoses(s, p.header.pn) == gone;
    }
  }

  lemma LosesNoneUnchained(s: Session, until: int)
    requires s.recvChain.None?
    ensures SkipLoses(s, until) == {}
  {
  }

  lemma PendingLosesNothing(s: Session, until: int)
    ensures SkipLoses(s.(pending := None), until) == SkipLoses(s, until)
  {
    hide Kept, Store;
  }

  /** A message of the chain the end reads. */
  lemma CurrentAccounts(log: Log, e: nat, s: Session, p: Packet, mint: nat, gone: set<SkippedKey>)
    requires LogOk(log) && EndOk(log, e, s) && SpentOk(log, e, s.recvCount) && PacketOk(log, p)
    requires p.rung + 1 == e && s.recvCount <= p.header.n && p.header.n - s.recvCount <= MAX_SKIP
    requires KeptUnder(p) !in s.skipped && p.text != "" && Accounted(log, e, s.recvCount, s.skipped, gone)
    ensures Decrypt(s, p.header, p.body, p.aad, mint).Some?
    ensures var o := Decrypt(s, p.header, p.body, p.aad, mint).value;
            Accounted(Spent(log, p), e, o.session.recvCount, o.session.skipped, gone + Loses(s, p, mint))
    ensures Loses(s, p, mint) == {} <==> Fits(s, p)
  {
    hide LogOk, SkippedOk, SpentOk, KeyAt, SendingOk, OpenNext, Open, Accounted, SkipLoses, Decrypt, Spent;
    ReadsRungBelow(log, e, s, p);
    CurrentOpens(log, e, s, p, mint);
    OpenNextAccounts(log, e, s, p, gone);
    SkipSize(log, e, s, p.header.n);
  }

  lemma LosesTwice(s: Session, p: Packet, mint: nat)
    requires s.theirRatchet != Some(p.header.dh) && KeptUnder(p) !in s.skipped && p.text != "" && p.body.Sealed?
    requires p.body.text == p.text && Follow(s, p.header, mint).Some?
    ensures var t := Follow(s, p.header, mint).value;
            && Decrypt(s, p.header, p.body, p.aad, mint) == OpenNext(t, p.header, p.body, p.aad)
            && (OpenNext(t, p.header, p.body, p.aad).Some? ==>
                  Loses(s, p, mint) == SkipLoses(s, p.header.pn) + SkipLoses(t, p.header.n))
  {
    hide OpenNext, Follow, SkipLoses;
  }

  /** A message of the chain above. */
  lemma AboveAccounts(log: Log, e: nat, s: Session, p: Packet, mint: nat, gone: set<SkippedKey>)
    requires LogOk(log) && EndOk(log, e, s) && SpentOk(log, e, s.recvCount) && PacketOk(log, p)
    requires p.rung == e + 1 && |log.secrets| == e + 2 && mint !in log.secrets
    requires KeptUnder(p) !in s.skipped && CanOpen(log, e, s, p) && Accounted(log, e, s.recvCount, s.skipped, gone)
    ensures Decrypt(s, p.header, p.body, p.aad, mint).Some?
    ensures var o := Decrypt(s, p.header, p.body, p.aad, mint).value;
            Accounted(After(log, e, p, mint), e + 2, o.session.recvCount, o.session.skipped, gone + Loses(s, p, mint))
    ensures Loses(s, p, mint) == {} <==> Fits(s, p)
  {
    hide EndOk, LogOk, SpentOk, KeyAt, OpenNext, Follow, Open, Accounted, SkipLoses, Fits, Decrypt, Loses;
    NextAccounts(log, e, s, p, mint, gone);
    NextFollows(log, e, s, p, mint);
    ReadsRungBelow(log, e, s, p);
    var t := Follow(s, p.header, mint).value;
    LosesTwice(s, p, mint);
    hide CanOpen;
    PendingDropped(t, p.header, p.body, p.aad);
    PendingLosesNothing(t, p.header.n);
    ClimbKeepsLog(log, mint);
    ClimbKeepsPacket(log, mint, p);
    hide PacketOk;
    var lost := gone + SkipLoses(s, p.header.pn);
    OpenNextAccounts(Climbed(log, mint), e + 2, t.(pending := None), p, lost);
    SkipSize(Climbed(log, mint), e + 2, t.(pending := None), p.header.n);
    assert lost + SkipLoses(t, p.header.n) == gone + Loses(s, p, mint);
  }

  /** What a delivery that opens loses, and that it loses nothing exactly when it fits. */
  lemma DecryptAccounts(log: Log, e: nat, s: Session, p: Packet, mint: nat, gone: set<SkippedKey>)
    requires LogOk(log) && EndOk(log, e, s) && SpentOk(log, e, s.recvCount) && PacketOk(log, p)
    requires Addressed(log, e, p) && mint !in log.secrets
    requires Accounted(log, e, s.recvCount, s.skipped, gone) && CanOpen(log, e, s, p)
    ensures Decrypt(s, p.header, p.body, p.aad, mint).Some?
    ensures var o := Decrypt(s, p.header, p.body, p.aad, mint).value;
            Accounted(After(log, e, p, mint), RungAfter(e, p), o.session.recvCount, o.session.skipped,
                      gone + Loses(s, p, mint))
    ensures Loses(s, p, mint) == {} <==> Fits(s, p)
  {
    hide LogOk, SkippedOk, SpentOk, KeyAt, SendingOk, ReceivingOk, OpenNext, Follow, Accounted, SkipLoses;
    if KeptUnder(p) in s.skipped {
      DecryptExact(log, e, s, p, mint);
      KeptOpens(log, e, s, p);
      SpendAccounts(log, e, s.recvCount, s.skipped, p, gone);
      assert gone + Loses(s, p, mint) == gone;
    } else {
      hide Decrypt, Loses, Fits;
      if p.rung == e + 1 {
        AboveAccounts(log, e, s, p, mint, gone);
      } else {
        CurrentAccounts(log, e, s, p, mint, gone);
      }
    }
  }

  lemma SpendAccounts(log: Log, e: nat, recvCount: nat, skipped: SkippedKeys, p: Packet, gone: set<SkippedKey>)
    requires LogOk(log) && PacketOk(log, p) && Accounted(log, e, recvCount, skipped, gone)
    ensures Accounted(Spent(log, p), e, recvCount, skipped - {KeptUnder(p)}, gone)
  {
    hide KeyAt;
    assert forall key :: key in gone && StandsForPassed(log, e, recvCount, key) ==>
                           StandsForPassed(Spent(log, p), e, recvCount, key);
  }

  lemma ClimbAccounts(log: Log, mint: nat, x: nat, recvCount: nat, skipped: SkippedKeys, gone: set<SkippedKey>)
    requires LogOk(log) && x < |log.secrets| && Accounted(log, x, recvCount, skipped, gone)
    ensures Accounted(Climbed(log, mint), x, recvCount, skipped, gone)
  {
    var up := Climbed(log, mint);
    forall k: nat, n | k < |up.secrets| && Passed(up.texts, x, recvCount, k, n) && (k, n) !in up.spent
      ensures SkippedKey(PublicKey(up.secrets[k]), n) in skipped.Keys + gone
    {
      assert Passed(log.texts, x, recvCount, k, n);
    }
    forall key | key in gone
      ensures StandsForPassed(up, x, recvCount, key)
    {
      var k: nat :| k < |log.secrets| && key.dh == PublicKey(log.secrets[k]) && Passed(log.texts, x, recvCount, k, key.n);
      assert up.secrets[k] == log.secrets[k] && Passed(up.texts, x, recvCount, k, key.n);
    }
  }

  lemma SpendingAccountsPeer(log: Log, x: nat, recvCount: nat, skipped: SkippedKeys, p: Packet, gone: set<SkippedKey>)
    requires Accounted(log, x, recvCount, skipped, gone)
    ensures Accounted(Spent(log, p), x, recvCount, skipped, gone)
  {
    assert forall key :: StandsForPassed(log, x, recvCount, key) ==> StandsForPassed(Spent(log, p), x, recvCount, key);
  }

  lemma PeerAccounts(log: Log, e: nat, x: nat, s: Session, p: Packet, mint: nat, gone: set<SkippedKey>)
    requires LogOk(log) && x < |log.secrets| && Accounted(log, x, s.recvCount, s.skipped, gone)
    ensures Accounted(After(log, e, p, mint), x, s.recvCount, s.skipped, gone)
  {
    hide Accounted;
    ClimbAccounts(log, mint, x, s.recvCount, s.skipped, gone);
    SpendingAccountsPeer(if p.rung == e + 1 then Climbed(log, mint) else log, x, s.recvCount, s.skipped, p, gone);
  }

  lemma SaidAccounts(log: Log, e: nat, text: string, x: nat, recvCount: nat, skipped: SkippedKeys, gone: set<SkippedKey>)
    requires LogOk(log) && Accounted(log, x, recvCount, skipped, gone)
    requires |log.secrets| - 2 <= e < |log.secrets| && |log.secrets| - 2 <= x < |log.secrets|
    ensures Accounted(Said(log, e, text), x, recvCount, skipped, gone)
  {
    var after := Said(log, e, text);
    forall k: nat, n | k < |log.secrets| && Passed(after.texts, x, recvCount, k, n) && (k, n) !in log.spent
      ensures SkippedKey(PublicKey(log.secrets[k]), n) in skipped.Keys + gone
    {
      assert Passed(log.texts, x, recvCount, k, n);
    }
    forall key | key in gone
      ensures StandsForPassed(after, x, recvCount, key)
    {
      var k: nat :| k < |log.secrets| && key.dh == PublicKey(log.secrets[k]) && Passed(log.texts, x, recvCount, k, key.n);
      assert Passed(after.texts, x, recvCount, k, key.n);
    }
  }

  // ── What a run loses ──────────────────────────────────────────────────────

  /** The account of one end of a conversation. */
  ghost predicate EndAccounted(w: Talk, initiator: bool, gone: set<SkippedKey>) {
    Accounted(w.log, RungOf(w.log, initiator), End(w, initiator).recvCount, End(w, initiator).skipped, gone)
  }

  /** The keys one end loses in one step. */
  ghost function StepLoses(w: Talk, step: Step, initiator: bool): set<SkippedKey>
    requires Possible(w, step)
  {
    if step.Deliver? && ToInitiator(w.packets[step.packet]) == initiator
    then Loses(End(w, initiator), w.packets[step.packet], step.mint)
    else {}
  }

  /** The keys one end loses in a run. */
  ghost function Evicted(w: Talk, steps: seq<Step>, initiator: bool): set<SkippedKey>
    decreases |steps|
  {
    if steps == [] || !Possible(w, steps[0]) then {}
    else StepLoses(w, steps[0], initiator) + Evicted(Taken(w, steps[0]), steps[1..], initiator)
  }

  /** Every delivery of the run that opens fits. */
  ghost predicate RunFits(w: Talk, steps: seq<Step>)
    decreases |steps|
  {
    steps == [] ||
    (&& Possible(w, steps[0])
     && (steps[0].Deliver? && Taken(w, steps[0]) != w ==>
           Fits(Reader(w, w.packets[steps[0].packet]), w.packets[steps[0].packet]))
     && RunFits(Taken(w, steps[0]), steps[1..]))
  }

  lemma SendAccounts(w: Talk, initiator: bool, text: string, aad: string, x: bool, gone: set<SkippedKey>)
    requires Inv(w) && EndAccounted(w, x, gone)
    ensures EndAccounted(Sent(w, initiator, text, aad), x, gone)
  {
    hide Accounted, SkippedOk, SpentOk, NetworkOk, SendingOk, ReceivingOk;
    SaidAccounts(w.log, RungOf(w.log, initiator), text, RungOf(w.log, x), End(w, x).recvCount, End(w, x).skipped, gone);
  }

  /** A delivery takes from the reader what `Loses` says and from the other end nothing;
      it takes nothing exactly when it does not open or it fits. */
  lemma DeliverAccounts(w: Talk, i: nat, mint: nat, initiator: bool, gone: set<SkippedKey>)
    requires Inv(w) && i < |w.packets| && mint !in w.log.secrets && EndAccounted(w, initiator, gone)
    ensures EndAccounted(Delivered(w, i, mint), initiator, gone + StepLoses(w, Deliver(i, mint), initiator))
    ensures ToInitiator(w.packets[i]) == initiator ==>
              (StepLoses(w, Deliver(i, mint), initiator) == {} <==>
                 Delivered(w, i, mint) == w || Fits(Reader(w, w.packets[i]), w.packets[i]))
  {
    hide Accounted, SkippedOk, SendingOk, ReceivingOk, SpentOk, NetworkOk, CanOpen, Decrypt, Fits, Loses, KeyAt;
    var p := w.packets[i];
    PacketIsOk(w.log, w.packets, i);
    var e, x := ReaderRung(w, p), RungOf(w.log, !ToInitiator(p));
    DecryptExact(w.log, e, Reader(w, p), p, mint);
    RefusedLosesNothing(Reader(w, p), p, mint);
    assert gone + {} == gone;
    if CanOpen(w.log, e, Reader(w, p), p) {
      OpeningChanges(w, i, mint);
      if ToInitiator(p) == initiator {
        DecryptAccounts(w.log, e, Reader(w, p), p, mint, gone);
      } else {
        PeerAccounts(w.log, e, x, End(w, initiator), p, mint, gone);
      }
    }
  }

  lemma RefusedLosesNothing(s: Session, p: Packet, mint: nat)
    ensures Decrypt(s, p.header, p.body, p.aad, mint).None? ==> Loses(s, p, mint) == {}
  {
  }

  /** A delivery that opens is not lost on the conversation: its message was not spent. */
  lemma OpeningChanges(w: Talk, i: nat, mint: nat)
    requires Inv(w) && i < |w.packets| && mint !in w.log.secrets
    requires var p := w.packets[i]; Decrypt(Reader(w, p), p.header, p.body, p.aad, mint).Some?
    ensures Delivered(w, i, mint) != w
  {
    hide Inv, Decrypt;
    OpeningSpends(w, i, mint);
    if IsSpent(w, w.packets[i]) {
      RedeliveryRefused(w, i, mint);
    }
  }

  /** Over any run, each end accounts for exactly the keys the run's deliveries took. */
  lemma {:induction false} RunsAccount(w: Talk, steps: seq<Step>, v: Talk, initiator: bool, gone: set<SkippedKey>)
    requires Inv(w) && EndAccounted(w, initiator, gone) && Run(w, steps, v)
    ensures EndAccounted(v, initiator, gone + Evicted(w, steps, initiator))
    decreases |steps|
  {
    hide Inv, EndAccounted, Sent, Delivered, Loses;
    assert gone + {} == gone;
    if steps != [] {
      var lost := StepLoses(w, steps[0], initiator);
      match steps[0] {
        case Send(from, text, aad) =>
          SendKeepsInv(w, from, text, aad);
          SendAccounts(w, from, text, aad, initiator, gone);
        case Deliver(i, mint) =>
          DeliverKeepsInv(w, i, mint);
          DeliverAccounts(w, i, mint, initiator, gone);
      }
      RunsAccount(Taken(w, steps[0]), steps[1..], v, initiator, gone + lost);
      assert gone + lost + Evicted(Taken(w, steps[0]), steps[1..], initiator) == gone + Evicted(w, steps, initiator);
    }
  }

  /** A run loses no key at either end if and only if every delivery that opens fits. */
  lemma {:induction false} FittingRunsDropNothing(w: Talk, steps: seq<Step>, v: Talk, ours: set<SkippedKey>, theirs: set<SkippedKey>)
    requires Inv(w) && EndAccounted(w, true, ours) && EndAccounted(w, false, theirs) && Run(w, steps, v)
    ensures RunFits(w, steps) <==> Evicted(w, steps, true) == {} && Evicted(w, steps, false) == {}
    decreases |steps|
  {
    hide Inv, EndAccounted, Sent, Delivered, Fits, Loses;
    assert ours + {} == ours && theirs + {} == theirs;
    if steps != [] {
      match steps[0] {
        case Send(from, text, aad) =>
          SendKeepsInv(w, from, text, aad);
          SendAccounts(w, from, text, aad, true, ours);
          SendAccounts(w, from, text, aad, false, theirs);
        case Deliver(i, mint) =>
          DeliverKeepsInv(w, i, mint);
          DeliverAccounts(w, i, mint, true, ours);
          DeliverAccounts(w, i, mint, false, theirs);
      }
      FittingRunsDropNothing(Taken(w, steps[0]), steps[1..], v,
                             ours + StepLoses(w, steps[0], true), theirs + StepLoses(w, steps[0], false));
    }
  }

  lemma BeginningLostNothing(w: Talk)
    requires Inv(w) && |w.log.secrets| == 2
    ensures EndAccounted(w, true, {}) && EndAccounted(w, false, {})
  {
    hide SkippedOk, SendingOk, SpentOk, NetworkOk;
  }

  // ── Every run from a claimed bundle ───────────────────────────────────────

  /** A run reaches this state from the initiator claiming the responder's bundle. */
  ghost predicate Reaches(bundle: KeyBundle, me: Privates, theirDeviceId: string, ephemeral: nat, ratchet: nat,
                          steps: seq<Step>, v: Talk)
  {
    && Published(bundle, me) && ratchet != me.signedPreKey
    && Begun(bundle, me, theirDeviceId, ephemeral, ratchet).Some?
    && Run(Begun(bundle, me, theirDeviceId, ephemeral, ratchet).value, steps, v)
  }

  lemma ReachedIsOk(bundle: KeyBundle, me: Privates, theirDeviceId: string, ephemeral: nat, ratchet: nat,
                    steps: seq<Step>, v: Talk)
    requires Reaches(bundle, me, theirDeviceId, ephemeral, ratchet, steps, v)
    ensures Inv(v)
  {
    hide Inv, Run;
    BeginningHoldsInv(bundle, me, theirDeviceId, ephemeral, ratchet);
    RunsKeepInv(Begun(bundle, me, theirDeviceId, ephemeral, ratchet).value, steps, v);
  }

  /** Whatever was sent, lost, reordered or repeated, the ends are at most one turn apart. */
  lemma EndsAlwaysAgree(bundle: KeyBundle, me: Privates, theirDeviceId: string, ephemeral: nat, ratchet: nat,
                        steps: seq<Step>, v: Talk)
    requires Reaches(bundle, me, theirDeviceId, ephemeral, ratchet, steps, v)
    ensures || (Follows(v.initiator, v.responder) && OneTurnBehind(v.responder, v.initiator))
            || (Follows(v.responder, v.initiator) && OneTurnBehind(v.initiator, v.responder))
  {
    hide Inv;
    ReachedIsOk(bundle, me, theirDeviceId, ephemeral, ratchet, steps, v);
    EndsAgree(v);
  }

  /** A message opens at most once, and no key ever seals two. */
  lemma OpensAtMostOnce(bundle: KeyBundle, me: Privates, theirDeviceId: string, ephemeral: nat, ratchet: nat,
                        steps: seq<Step>, v: Talk, i: nat, j: nat, mint: nat)
    requires Reaches(bundle, me, theirDeviceId, ephemeral, ratchet, steps, v)
    requires i < |v.packets| && j < |v.packets| && i != j && mint !in v.log.secrets
    ensures var p := v.packets[i];
            && (IsSpent(v, p) ==> Decrypt(Reader(v, p), p.header, p.body, p.aad, mint) == None && Delivered(v, i, mint) == v)
            && (Decrypt(Reader(v, p), p.header, p.body, p.aad, mint).Some? ==> IsSpent(Delivered(v, i, mint), p))
    ensures v.packets[i].body.Sealed? && v.packets[j].body.Sealed? && v.packets[i].body.key != v.packets[j].body.key
  {
    hide Inv, Decrypt, Delivered, IsSpent;
    ReachedIsOk(bundle, me, theirDeviceId, ephemeral, ratchet, steps, v);
    var p := v.packets[i];
    if IsSpent(v, p) {
      RedeliveryRefused(v, i, mint);
    }
    if Decrypt(Reader(v, p), p.header, p.body, p.aad, mint).Some? {
      OpeningSpends(v, i, mint);
    }
    KeysNeverReused(v, if i < j then i else j, if i < j then j else i);
  }

  /** In every run, whatever it drops: a message delivered for the first time
      opens, to exactly what was said, if and only if the bound did not take its
      key, no skip is too long and it said something. */
  lemma HonestMessagesOpen(bundle: KeyBundle, me: Privates, theirDeviceId: string, ephemeral: nat, ratchet: nat,
                           steps: seq<Step>, v: Talk, i: nat, mint: nat)
    requires Reaches(bundle, me, theirDeviceId, ephemeral, ratchet, steps, v)
    requires i < |v.packets| && mint !in v.log.secrets && !IsSpent(v, v.packets[i])
    ensures var w := Begun(bundle, me, theirDeviceId, ephemeral, ratchet).value;
            var p := v.packets[i];
            var r := Decrypt(Reader(v, p), p.header, p.body, p.aad, mint);
            && ReaderRung(v, p) >= 0
            && (r.Some? <==> p.text != "" && !TooFar(v.log, ReaderRung(v, p), Reader(v, p), p)
                             && KeptUnder(p) !in Evicted(w, steps, ToInitiator(p)))
            && (r.Some? ==> r.value.text == p.text)
  {
    hide Inv, Accounted, Decrypt, TooFar, Run, Evicted;
    ReachedIsOk(bundle, me, theirDeviceId, ephemeral, ratchet, steps, v);
    var w := Begun(bundle, me, theirDeviceId, ephemeral, ratchet).value;
    var side := ToInitiator(v.packets[i]);
    ReachedIsAccounted(bundle, me, theirDeviceId, ephemeral, ratchet, steps, v, side);
    FirstDeliveryOpens(v, i, mint, Evicted(w, steps, side));
  }

  lemma ReachedIsAccounted(bundle: KeyBundle, me: Privates, theirDeviceId: string, ephemeral: nat, ratchet: nat,
                           steps: seq<Step>, v: Talk, initiator: bool)
    requires Reaches(bundle, me, theirDeviceId, ephemeral, ratchet, steps, v)
    ensures EndAccounted(v, initiator,
                         Evicted(Begun(bundle, me, theirDeviceId, ephemeral, ratchet).value, steps, initiator))
  {
    hide Inv, Run, EndAccounted, Evicted;
    BeginningHoldsInv(bundle, me, theirDeviceId, ephemeral, ratchet);
    var w := Begun(bundle, me, theirDeviceId, ephemeral, ratchet).value;
    BeginningLostNothing(w);
    RunsAccount(w, steps, v, initiator, {});
    assert {} + Evicted(w, steps, initiator) == Evicted(w, steps, initiator);
  }

  /** The keys stored are those of the messages passed, not opened and not among the keys `gone`. */
  ghost predicate KeysExact(log: Log, e: int, s: Session, gone: set<SkippedKey>) {
    && e >= 0
    && forall k: nat, n {:trigger Passed(log.texts, e, s.recvCount, k, n)} :: k < |log.secrets| ==>
         (SkippedKey(PublicKey(log.secrets[k]), n) in s.skipped <==>
            && Passed(log.texts, e, s.recvCount, k, n) && (k, n) !in log.spent
            && SkippedKey(PublicKey(log.secrets[k]), n) !in gone)
  }

  /** An end's stored keys in every run: never more than the bound, and exactly
      those of the messages it passed, has not opened and did not lose to the
      bound; and it loses none if and only if every delivery that opens fits. */
  lemma StoredKeysAreExact(bundle: KeyBundle, me: Privates, theirDeviceId: string, ephemeral: nat, ratchet: nat,
                           steps: seq<Step>, v: Talk, initiator: bool)
    requires Reaches(bundle, me, theirDeviceId, ephemeral, ratchet, steps, v)
    ensures var w := Begun(bundle, me, theirDeviceId, ephemeral, ratchet).value;
            var e, s := RungOf(v.log, initiator), End(v, initiator);
            && e >= 0 && |s.skipped| <= MAX_SKIPPED_KEPT && SkippedOk(v.log, e, s.recvCount, s.skipped)
            && KeysExact(v.log, e, s, Evicted(w, steps, initiator))
            && (RunFits(w, steps) <==> Evicted(w, steps, true) == {} && Evicted(w, steps, false) == {})
  {
    hide SkippedOk, Accounted, SendingOk, ReceivingOk, SpentOk, NetworkOk, Run, RunFits, Evicted;
    ReachedIsOk(bundle, me, theirDeviceId, ephemeral, ratchet, steps, v);
    ReachedIsAccounted(bundle, me, theirDeviceId, ephemeral, ratchet, steps, v, initiator);
    var w := Begun(bundle, me, theirDeviceId, ephemeral, ratchet).value;
    AccountIsExact(v.log, RungOf(v.log, initiator), End(v, initiator), Evicted(w, steps, initiator));
    BeginningHoldsInv(bundle, me, theirDeviceId, ephemeral, ratchet);
    BeginningLostNothing(w);
    FittingRunsDropNothing(w, steps, v, {}, {});
  }

  lemma AccountIsExact(log: Log, e: nat, s: Session, gone: set<SkippedKey>)
    requires LogOk(log) && EndOk(log, e, s) && Accounted(log, e, s.recvCount, s.skipped, gone)
    ensures KeysExact(log, e, s, gone)
  {
    hide SendingOk, ReceivingOk, KeyAt;
    forall k: nat, n | k < |log.secrets| && SkippedKey(PublicKey(log.secrets[k]), n) in s.skipped
      ensures Passed(log.texts, e, s.recvCount, k, n) && (k, n) !in log.spent
    {
      var key := SkippedKey(PublicKey(log.secrets[k]), n);
      var j: nat :| Keeps(log, e, s.recvCount, key, s.skipped[key], j);
      assert log.secrets[j] == log.secrets[k];
    }
  }
}
