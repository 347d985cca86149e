/**
 * What a device writes down: ratchet sessions, the text of every message it has
 * opened, and its one-time prekeys. Each is replaced atomically, and a crash can
 * fall between any two of the writes that opening a message makes.
 */
module Devices {
  import opened Cipher
  import opened Conversation
  import opened Ratchet
  import opened Wrappers

  type MessageId = nat

  /** The durable state of a device, beside the keys that never change. */
  datatype Disk = Disk(sessions: map<string, Session>, texts: map<MessageId, string>, preKeys: map<int, nat>)

  function Stored(d: Disk, deviceId: string): Option<Session> {
    if deviceId in d.sessions then Some(d.sessions[deviceId]) else None
  }

  function Saved(d: Disk, s: Session): Disk {
    d.(sessions := d.sessions[s.deviceId := s])
  }

  function Remembered(d: Disk, id: MessageId, text: string): Disk {
    d.(texts := d.texts[id := text])
  }

  function Consumed(d: Disk, preKey: Option<int>): Disk {
    if preKey.Some? then d.(preKeys := d.preKeys - {preKey.value}) else d
  }

  /** The disk after the first `writes` of the three writes that follow a message being read. */
  function Written(d: Disk, id: MessageId, read: Read, writes: nat): Disk {
    if writes == 0 then d
    else if writes == 1 then Saved(d, read.session)
    else if writes == 2 then Remembered(Saved(d, read.session), id, read.text)
    else Consumed(Remembered(Saved(d, read.session), id, read.text), read.consumedPreKeyId)
  }

  /** What the cipher is asked when the message has not been written down. */
  ghost function Reading(d: Disk, me: Privates, e: Envelope, authorId: string, senderKey: Option<nat>, mint: nat): Option<Read> {
    if Parse(e).None? || e.bound.u != authorId || senderKey.None? then None
    else OpenSealed(e, Stored(d, e.bound.s), me.(preKeys := d.preKeys), senderKey, authorId, mint)
  }

  /** The disk and the answer of `open`, when the process survives `writes` of its writes. */
  ghost function OpenedDisk(d: Disk, me: Privates, id: MessageId, e: Envelope, authorId: string, senderKey: Option<nat>,
                            mint: nat, writes: nat): Disk
  {
    if id in d.texts then d
    else
      match Reading(d, me, e, authorId, senderKey, mint)
      case None => d
      case Some(read) => Written(d, id, read, writes)
  }

  ghost function Answer(d: Disk, me: Privates, id: MessageId, e: Envelope, authorId: string, senderKey: Option<nat>,
                        mint: nat): Option<string>
  {
    if id in d.texts then Some(d.texts[id])
    else
      match Reading(d, me, e, authorId, senderKey, mint)
      case None => None
      case Some(read) => Some(read.text)
  }

  // ── The stores ────────────────────────────────────────────────────────────

  class E2EStore {
    var sessions: map<string, Session>
    var plaintexts: map<MessageId, string>

    constructor ()
      ensures sessions == map[] && plaintexts == map[]
    {
      sessions, plaintexts := map[], map[];
    }

    method SaveSession(session: Session)
      modifies this`sessions
      ensures sessions == old(sessions)[session.deviceId := session]
    {
      sessions := sessions[session.deviceId := session];
    }

    /** Sealing to one device with the session stored for it, or a new one off a
        claimed bundle whose prekey is signed. Two sends through the store each
        see what the other left, so they take two places of one chain; a send
        that seals nothing leaves the store alone. */
    method Seal(deviceId: string, claimed: Option<KeyBundle>, ephemeral: nat, ratchet: nat, text: string,
                sender: Privates, format: int) returns (envelope: Option<Envelope>)
      modifies this`sessions
      ensures deviceId !in old(sessions) && claimed.None? ==> envelope == None && sessions == old(sessions)
      ensures deviceId in old(sessions) || claimed.Some? ==>
                match SealWith(if deviceId in old(sessions) then old(sessions)[deviceId]
                               else Initiate(claimed.value, ephemeral, ratchet), text, sender, format)
                case None => envelope == None && sessions == old(sessions)
                case Some(c) => envelope == Some(c.envelope) && sessions == old(sessions)[c.session.deviceId := c.session]
    {
      envelope := None;
      var start := if deviceId in sessions then Some(sessions[deviceId]) else None;
      if start.None? && claimed.Some? {
        start := Some(Initiate(claimed.value, ephemeral, ratchet));
      }
      if start.Some? {
        var sealedCopy := SealWith(start.value, text, sender, format);
        if sealedCopy.Some? {
          SaveSession(sealedCopy.value.session);
          envelope := Some(sealedCopy.value.envelope);
        }
      }
    }

    method Remember(id: MessageId, text: string)
      modifies this`plaintexts
      ensures plaintexts == old(plaintexts)[id := text]
    {
      plaintexts := plaintexts[id := text];
    }
  }

  // ── The one-time prekey pool ──────────────────────────────────────────────

  /** The private halves still held, by id, and the last id ever minted. */
  datatype Pool = Pool(preKeys: map<int, nat>, last: nat)

  function Spend(p: Pool, id: int): Pool {
    p.(preKeys := p.preKeys - {id})
  }

  function ToppedUp(p: Pool, minted: seq<nat>): Pool {
    if minted == [] then p
    else
      var rest := ToppedUp(p, minted[..|minted| - 1]);
      Pool(rest.preKeys[p.last + |minted| := minted[|minted| - 1]], p.last + |minted|)
  }

  predicate PoolOk(p: Pool) {
    forall id :: id in p.preKeys ==> 1 <= id <= p.last
  }

  lemma {:induction false} TopUpAddsOnlyNewIds(p: Pool, minted: seq<nat>)
    requires PoolOk(p)
    ensures PoolOk(ToppedUp(p, minted)) && ToppedUp(p, minted).last == p.last + |minted|
    ensures forall id :: id in ToppedUp(p, minted).preKeys <==> id in p.preKeys || p.last < id <= p.last + |minted|
    ensures forall id :: id in p.preKeys ==> ToppedUp(p, minted).preKeys[id] == p.preKeys[id]
    ensures forall i :: 0 <= i < |minted| ==> ToppedUp(p, minted).preKeys[p.last + i + 1] == minted[i]
  {
    if minted != [] {
      TopUpAddsOnlyNewIds(p, minted[..|minted| - 1]);
    }
  }

  datatype PoolStep = Consume(id: int) | TopUp(minted: seq<nat>)

  function PoolAfter(p: Pool, steps: seq<PoolStep>): Pool
    decreases |steps|
  {
    if steps == [] then p
    else PoolAfter(if steps[0].Consume? then Spend(p, steps[0].id) else ToppedUp(p, steps[0].minted), steps[1..])
  }

  /** Once a prekey is consumed, no later run of the pool brings it back, and
      its preamble builds no session again. */
  lemma {:induction false} ConsumedBuildsNothing(p: Pool, steps: seq<PoolStep>, pre: PreKeyHeader, me: Privates, theirDeviceId: string)
    requires PoolOk(p) && pre.otkId.Some? && pre.otkId.value !in p.preKeys && pre.otkId.value <= p.last
    ensures Accept(pre, me.(preKeys := PoolAfter(p, steps).preKeys), theirDeviceId) == None
    decreases |steps|
  {
    if steps != [] {
      if steps[0].TopUp? {
        TopUpAddsOnlyNewIds(p, steps[0].minted);
      }
      ConsumedBuildsNothing(if steps[0].Consume? then Spend(p, steps[0].id) else ToppedUp(p, steps[0].minted),
                            steps[1..], pre, me, theirDeviceId);
    }
  }

  class DeviceKeys {
    var preKeys: map<int, nat>
    var lastPreKeyId: nat

    function AsPool(): Pool
      reads this
    {
      Pool(preKeys, lastPreKeyId)
    }

    constructor ()
      ensures AsPool() == Pool(map[], 0)
    {
      preKeys, lastPreKeyId := map[], 0;
    }

    /** A new identity starts its pool over: `minted` are its private keys, from id 1. */
    method MintAndPublish(minted: seq<nat>)
      modifies this
      ensures AsPool() == ToppedUp(Pool(map[], 0), minted)
    {
      var stored: map<int, nat> := map[];
      for i := 0 to |minted|
        invariant ToppedUp(Pool(map[], 0), minted[..i]) == Pool(stored, i)
      {
        assert minted[..i + 1][..i] == minted[..i];
        stored := stored[i + 1 := minted[i]];
      }
      assert minted[..|minted|] == minted;
      lastPreKeyId, preKeys := |minted|, stored;
    }

    method ConsumePreKey(id: int)
      modifies this
      ensures AsPool() == Spend(old(AsPool()), id)
    {
      if id in preKeys {
        preKeys := preKeys - {id};
      } else {
        assert preKeys - {id} == preKeys;
      }
    }

    method TopUp(minted: seq<nat>)
      modifies this
      ensures AsPool() == ToppedUp(old(AsPool()), minted)
    {
      var from := lastPreKeyId;
      var stored: map<int, nat> := preKeys;
      for i := 0 to |minted|
        invariant ToppedUp(AsPool(), minted[..i]) == Pool(stored, from + i)
      {
        assert minted[..i + 1][..i] == minted[..i];
        stored := stored[from + i + 1 := minted[i]];
      }
      assert minted[..|minted|] == minted;
      lastPreKeyId := from + |minted|;
      preKeys := stored;
    }
  }

  /** The device as it answers for a message. */
  class E2E {
    const store: E2EStore
    const keys: DeviceKeys
    const me: Privates

    constructor (store: E2EStore, keys: DeviceKeys, me: Privates)
      ensures this.store == store && this.keys == keys && this.me == me
    {
      this.store, this.keys, this.me := store, keys, me;
    }

    function OnDisk(): Disk
      reads store, keys
    {
      Disk(store.sessions, store.plaintexts, keys.preKeys)
    }

    /** Opens a message; the process dies after `writes` durable writes when they are fewer than three. */
    method Open(id: MessageId, e: Envelope, authorId: string, senderKey: Option<nat>, mint: nat, writes: nat)
      returns (text: Option<string>)
      modifies store, keys
      ensures OnDisk() == OpenedDisk(old(OnDisk()), me, id, e, authorId, senderKey, mint, writes)
      ensures text == Answer(old(OnDisk()), me, id, e, authorId, senderKey, mint)
    {
      hide OpenSealed, Fields;
      if id in store.plaintexts {
        return Some(store.plaintexts[id]);
      }
      var claim := Parse(e);
      if claim.None? || claim.value.u != authorId || senderKey.None? {
        return None;
      }
      var existing := if claim.value.s in store.sessions then Some(store.sessions[claim.value.s]) else None;
      var read := OpenEnvelope(e, existing, me.(preKeys := keys.preKeys), senderKey, authorId, mint);
      if read.None? {
        return None;
      }
      text := Some(read.value.text);
      if writes > 0 {
        store.SaveSession(read.value.session);
      }
      if writes > 1 {
        store.Remember(id, read.value.text);
      }
      if writes > 2 && read.value.consumedPreKeyId.Some? {
        keys.ConsumePreKey(read.value.consumedPreKeyId.value);
      }
    }
  }

  /** A message not written down yet is answered, or changes anything on disk, only
      when the key the server names for its author signed it, header and body, for
      this device; the answer is the text that was sealed. */
  lemma AnsweredIsSigned(d: Disk, me: Privates, id: MessageId, e: Envelope, authorId: string, senderKey: Option<nat>,
                         mint: nat, writes: nat)
    requires id !in d.texts
    ensures Answer(d, me, id, e, authorId, senderKey, mint).Some?
            || OpenedDisk(d, me, id, e, authorId, senderKey, mint, writes) != d ==>
              && e.Envelope? && senderKey == Some(e.g.identity) && e.g.fields == Fields(e.bound) && e.g.c == e.c
              && e.bound.r == me.deviceId && e.bound.u == authorId && e.bound.v == 2
              && e.c.Sealed? && Answer(d, me, id, e, authorId, senderKey, mint) == Some(e.c.text)
  {
    hide Fields, OpenSealed, Written;
    if e.Envelope? {
      var holder := me.(preKeys := d.preKeys);
      OpenedIsSigned(e, Stored(d, e.bound.s), holder, senderKey, authorId, mint);
      OnlyTheSealedText(e, Stored(d, e.bound.s), holder, senderKey, authorId, mint);
    }
  }

  // ── A crash while the first message is opened ─────────────────────────────

  /** The message travels under a preamble of `bundle`, on the chain its agreement starts. */
  predicate Starts(e: Envelope, bundle: KeyBundle, ephemeral: nat, ratchet: nat, text: string) {
    var a := Initiate(bundle, ephemeral, ratchet);
    && e.Envelope? && e.bound.k == a.pending && e.bound.d == PublicKey(ratchet) && e.bound.n >= 0
    && e.c == Sealed(Message(Walk(a.sendChain.value, e.bound.n)), Fields(e.bound), text)
  }

  /** While the prekeys are held, the preamble alone opens a message that starts a session. */
  lemma PreambleOpens(e: Envelope, bundle: KeyBundle, ephemeral: nat, ratchet: nat, text: string, me: Privates, mint: nat)
    requires Published(bundle, me) && Starts(e, bundle, ephemeral, ratchet, text)
    ensures OpenAnew(e, me, mint).Some? <==> text != "" && e.bound.n <= MAX_SKIP
    ensures OpenAnew(e, me, mint).Some? ==>
              OpenAnew(e, me, mint).value.text == text && OpenAnew(e, me, mint).value.consumedPreKeyId == e.bound.k.value.otkId
              && OpenAnew(e, me, mint).value.session.deviceId == e.bound.s
  {
    hide Fields, Kept, Store;
    var built := Accept(e.bound.k.value, me, e.bound.s).value;
    var t := Turn(built, e.bound.d, mint);
    assert t.recvChain == Initiate(bundle, ephemeral, ratchet).sendChain;
    assert Follow(built, Wire(e.bound), mint) == Some(t);
  }

  /** Whatever session is stored, or none, a message that starts a session can be
      read while the prekeys its preamble names are held. */
  lemma StarterIsReadable(e: Envelope, bundle: KeyBundle, ephemeral: nat, ratchet: nat, text: string,
                          session: Option<Session>, me: Privates, senderKey: nat, authorId: string, mint: nat)
    requires Published(bundle, me) && Starts(e, bundle, ephemeral, ratchet, text)
    requires Believed(e, me, Some(senderKey), authorId) && text != "" && e.bound.n <= MAX_SKIP
    ensures var r := OpenSealed(e, session, me, Some(senderKey), authorId, mint); r.Some? && r.value.text == text
  {
    hide Fields, Decrypt, Believed;
    PreambleOpens(e, bundle, ephemeral, ratchet, text, me, mint);
    OnlyTheSealedText(e, session, me, Some(senderKey), authorId, mint);
  }

  /** One try at opening a message, and how many of its writes were made before the process died. */
  datatype Try = Try(mint: nat, writes: nat)

  ghost function TriedDisk(d: Disk, me: Privates, id: MessageId, e: Envelope, authorId: string, senderKey: Option<nat>,
                           tries: seq<Try>): Disk
    decreases |tries|
  {
    if tries == [] then d
    else
      TriedDisk(OpenedDisk(d, me, id, e, authorId, senderKey, tries[0].mint, tries[0].writes),
                me, id, e, authorId, senderKey, tries[1..])
  }

  /** The stored session, if any, cannot read the message, so reading it rebuilds the session. */
  ghost predicate Refuses(session: Option<Session>, e: Envelope)
    requires e.Envelope?
  {
    session.Some? ==>
      forall mint: nat :: Decrypt(session.value, Wire(e.bound), e.c, Fields(e.bound), mint) == None
  }

  /** The first try to get as far as writing the text down. */
  function TextWriter(tries: seq<Try>): Try
    requires exists t :: t in tries && t.writes >= 2
  {
    if tries[0].writes >= 2 then tries[0] else TextWriter(tries[1..])
  }

  /** Reading the message at `d` rebuilds the session, as a try with this `mint` finds it. */
  ghost predicate Rebuilds(d: Disk, e: Envelope, mint: nat)
    requires e.Envelope?
  {
    e.bound.s in d.sessions ==>
      Decrypt(d.sessions[e.bound.s], Wire(e.bound), e.c, Fields(e.bound), mint) == None
  }

  /** The first of the tries to write the text down has rebuilt the session and
      gets as far as its third write. */
  ghost predicate Spends(d: Disk, me: Privates, id: MessageId, e: Envelope, authorId: string, senderKey: Option<nat>,
                         tries: seq<Try>)
    requires e.Envelope?
    decreases |tries|
  {
    && tries != []
    && (if tries[0].writes >= 2 then Rebuilds(d, e, tries[0].mint) && tries[0].writes >= 3
        else Spends(OpenedDisk(d, me, id, e, authorId, senderKey, tries[0].mint, tries[0].writes),
                    me, id, e, authorId, senderKey, tries[1..]))
  }

  /** One try at a message that starts a session, not yet written down, whatever session is stored. */
  lemma OneTry(d: Disk, me: Privates, id: MessageId, e: Envelope, bundle: KeyBundle, ephemeral: nat, ratchet: nat,
               text: string, senderKey: nat, authorId: string, t: Try)
    requires Published(bundle, me.(preKeys := d.preKeys)) && Starts(e, bundle, ephemeral, ratchet, text)
    requires Believed(e, me, Some(senderKey), authorId) && text != "" && e.bound.n <= MAX_SKIP && id !in d.texts
    ensures Answer(d, me, id, e, authorId, Some(senderKey), t.mint) == Some(text)
    ensures var tried := OpenedDisk(d, me, id, e, authorId, Some(senderKey), t.mint, t.writes);
            var otk := e.bound.k.value.otkId;
            && (if t.writes >= 2 then tried.texts == d.texts[id := text] else tried.texts == d.texts)
            && (t.writes >= 1 ==> e.bound.s in tried.sessions)
            && (t.writes < 3 || otk.None? || !Rebuilds(d, e, t.mint) ==> tried.preKeys == d.preKeys)
            && (t.writes >= 3 && otk.Some? && Rebuilds(d, e, t.mint) ==> tried.preKeys == d.preKeys - {otk.value})
            && (Refuses(Stored(d, e.bound.s), e) && t.writes < 2 ==> Refuses(Stored(tried, e.bound.s), e))
  {
    hide Fields, Decrypt, Initiate, Accept, Starts, Published;
    var holder := me.(preKeys := d.preKeys);
    StarterIsReadable(e, bundle, ephemeral, ratchet, text, Stored(d, e.bound.s), holder, senderKey, authorId, t.mint);
    PreambleOpens(e, bundle, ephemeral, ratchet, text, holder, t.mint);
    PreambleNamesHeldKey(e, bundle, ephemeral, ratchet, text, holder);
    forall second: nat
      ensures Decrypt(OpenAnew(e, holder, t.mint).value.session, Wire(e.bound), e.c, Fields(e.bound), second) == None
    {
      SavedSessionRefuses(e, bundle, ephemeral, ratchet, text, holder, t.mint, second);
    }
  }

  lemma {:induction false} WrittenStays(d: Disk, me: Privates, id: MessageId, e: Envelope, authorId: string,
                                        senderKey: Option<nat>, tries: seq<Try>)
    requires id in d.texts
    ensures TriedDisk(d, me, id, e, authorId, senderKey, tries) == d
    decreases |tries|
  {
    if tries != [] {
      WrittenStays(d, me, id, e, authorId, senderKey, tries[1..]);
    }
  }

  /** Any number of crashes anywhere among the writes of opening such a message
      lose nothing: tried once more, it is read and written down. Its prekey is
      spent by then if and only if the first try to write the text down rebuilt
      the session and came to its third write; where the stored session cannot
      read the message, if and only if that try did not die between the two. */
  lemma {:induction false} CrashThenRetry(d: Disk, me: Privates, id: MessageId, e: Envelope, bundle: KeyBundle,
                                          ephemeral: nat, ratchet: nat, text: string, senderKey: nat, authorId: string,
                                          tries: seq<Try>, last: nat)
    requires Published(bundle, me.(preKeys := d.preKeys)) && Starts(e, bundle, ephemeral, ratchet, text)
    requires Believed(e, me, Some(senderKey), authorId) && text != "" && e.bound.n <= MAX_SKIP && id !in d.texts
    ensures var all := tries + [Try(last, 3)];
            var tried := TriedDisk(d, me, id, e, authorId, Some(senderKey), tries);
            var retried := TriedDisk(d, me, id, e, authorId, Some(senderKey), all);
            var otk := e.bound.k.value.otkId;
            && all[|tries|] == Try(last, 3) && all[|tries|] in all
            && Answer(tried, me, id, e, authorId, Some(senderKey), last) == Some(text)
            && retried.texts == d.texts[id := text] && e.bound.s in retried.sessions
            && (otk.Some? ==> (otk.value !in retried.preKeys <==> Spends(d, me, id, e, authorId, Some(senderKey), all)))
            && (Refuses(Stored(d, e.bound.s), e) ==>
                  (Spends(d, me, id, e, authorId, Some(senderKey), all) <==> TextWriter(all).writes >= 3))
    decreases |tries|
  {
    hide Fields, Decrypt, Initiate, Accept, Starts, Published, OpenedDisk, Answer, Believed;
    var all := tries + [Try(last, 3)];
    assert all[|tries|] in all;
    PreambleNamesHeldKey(e, bundle, ephemeral, ratchet, text, me.(preKeys := d.preKeys));
    OneTry(d, me, id, e, bundle, ephemeral, ratchet, text, senderKey, authorId, all[0]);
    var next := OpenedDisk(d, me, id, e, authorId, Some(senderKey), all[0].mint, all[0].writes);
    if all[0].writes >= 2 {
      WrittenStays(next, me, id, e, authorId, Some(senderKey), all[1..]);
      if tries != [] {
        WrittenStays(next, me, id, e, authorId, Some(senderKey), tries[1..]);
        Recalled(next, me, id, e, authorId, Some(senderKey), last);
      }
    } else {
      assert all[1..] == tries[1..] + [Try(last, 3)];
      CrashThenRetry(next, me, id, e, bundle, ephemeral, ratchet, text, senderKey, authorId, tries[1..], last);
    }
  }

  lemma Recalled(d: Disk, me: Privates, id: MessageId, e: Envelope, authorId: string, senderKey: Option<nat>, mint: nat)
    requires id in d.texts
    ensures Answer(d, me, id, e, authorId, senderKey, mint) == Some(d.texts[id])
  {
  }

  lemma PreambleNamesHeldKey(e: Envelope, bundle: KeyBundle, ephemeral: nat, ratchet: nat, text: string, me: Privates)
    requires Published(bundle, me) && Starts(e, bundle, ephemeral, ratchet, text)
    ensures e.bound.k.Some? && (e.bound.k.value.otkId.Some? ==> e.bound.k.value.otkId.value in me.preKeys)
  {
  }

  /** The session that opened the message does not open it twice. */
  lemma SavedSessionRefuses(e: Envelope, bundle: KeyBundle, ephemeral: nat, ratchet: nat, text: string,
                            me: Privates, first: nat, second: nat)
    requires Published(bundle, me) && Starts(e, bundle, ephemeral, ratchet, text) && text != "" && e.bound.n <= MAX_SKIP
    ensures OpenAnew(e, me, first).Some?
    ensures Decrypt(OpenAnew(e, me, first).value.session, Wire(e.bound), e.c, Fields(e.bound), second) == None
  {
    hide Fields, Kept;
    PreambleOpens(e, bundle, ephemeral, ratchet, text, me, first);
    var chain := Initiate(bundle, ephemeral, ratchet).sendChain.value;
    var s := OpenAnew(e, me, first).value.session;
    assert s.recvChain == Some(Walk(chain, e.bound.n + 1)) && s.recvCount == e.bound.n + 1;
    KeptIsBelow(PublicKey(ratchet), chain, e.bound.n);
    assert SkippedKey(e.bound.d, e.bound.n) !in s.skipped;
    StepsDiffer(chain, e.bound.n);
  }

  lemma StepsDiffer(chain: Key, n: nat)
    requires chain.Chain?
    ensures Walk(chain, n + 1) != Walk(chain, n)
  {
    if Walk(chain, n + 1) == Walk(chain, n) {
      WalkInjective(chain, n + 1, chain, n);
    }
  }

  lemma KeptIsBelow(theirs: PublicKey, chain: Key, n: nat)
    ensures SkippedKey(theirs, n) !in Kept(Store(map[], theirs, chain, 0, n))
  {
    hide Kept;
    StoreHolds(map[], theirs, chain, 0, n);
    KeptKeepsLastNames(Store(map[], theirs, chain, 0, n));
  }
}
