/**
 * What is posted for one recipient device: a sealed body, the header it is bound
 * to, and a signature by the author's device over both.
 */
module Cipher {
  import opened Ratchet
  import opened Text
  import opened Wrappers

  const DOMAIN := "yappy.e2e.v2"

  /** Stands between two fields of a header and inside none. */
  const SEP: char := '\U{001F}'

  /** The formats sealed and opened here. */
  const SUPPORTED := [2]

  /** What the header says: format, sending device and account, recipient
      device, ratchet key, counters, preamble. */
  datatype Bound = Bound(v: int, s: string, u: string, r: string, d: PublicKey, pn: int, n: int, k: Option<PreKeyHeader>)

  /** Who signed, and the header and ciphertext that were signed. */
  datatype Signature = Signature(identity: nat, fields: string, c: Body)

  datatype Envelope = Unreadable | Envelope(bound: Bound, c: Body, g: Signature)

  // ── The bound header ──────────────────────────────────────────────────────

  function FieldList(b: Bound): (list: seq<string>)
    ensures |list| == 11
  {
    [DOMAIN, Signed(b.v), b.s, b.u, b.r, Base64(b.d), Signed(b.pn), Signed(b.n),
     if b.k.Some? then Base64(b.k.value.ek) else "-",
     if b.k.Some? then Signed(b.k.value.spkId) else "-",
     if b.k.Some? && b.k.value.otkId.Some? then Signed(b.k.value.otkId.value) else "-"]
  }

  function Fields(b: Bound): string {
    Join(FieldList(b), SEP)
  }

  /** Identifiers are uuids: they hold no separator. */
  predicate SeparatorFree(b: Bound) {
    SEP !in b.s && SEP !in b.u && SEP !in b.r
  }

  lemma NumeralsHoldNoSeparator(n: int)
    ensures SEP !in Signed(n) && Signed(n) != "-"
  {
    var digits := Decimal(if n < 0 then -n else n);
    DecimalIsDigits(if n < 0 then -n else n);
    assert SEP !in digits;
    assert Signed(n) == digits || Signed(n) == "-" + digits;
  }

  lemma FieldsHoldNoSeparator(b: Bound)
    requires SeparatorFree(b)
    ensures forall f :: f in FieldList(b) ==> SEP !in f
  {
    hide Signed, Decimal;
    NumeralsHoldNoSeparator(b.v);
    NumeralsHoldNoSeparator(b.pn);
    NumeralsHoldNoSeparator(b.n);
    KeysHoldNoSeparator(b.d);
    if b.k.Some? {
      KeysHoldNoSeparator(b.k.value.ek);
      NumeralsHoldNoSeparator(b.k.value.spkId);
      if b.k.value.otkId.Some? {
        NumeralsHoldNoSeparator(b.k.value.otkId.value);
      }
    }
  }

  lemma KeysHoldNoSeparator(k: PublicKey)
    ensures SEP !in Base64(k)
  {
    DecimalIsDigits(k.secret);
  }

  /** The associated data determines the header: even no preamble and a preamble
      without a one-time prekey read back apart, and no header that smuggles a
      separator into an identifier passes for one that does not. */
  lemma FieldsInjective(a: Bound, b: Bound)
    requires SeparatorFree(a) && Fields(a) == Fields(b)
    ensures a == b
  {
    hide Signed, Decimal, Join;
    FieldsHoldNoSeparator(a);
    JoinCounts(FieldList(a), SEP);
    JoinCounts(FieldList(b), SEP);
    JoinInjective(FieldList(a), FieldList(b), SEP);
    var x, y := FieldList(a), FieldList(b);
    assert x[1] == y[1] && x[2] == y[2] && x[3] == y[3] && x[4] == y[4] && x[5] == y[5];
    assert x[6] == y[6] && x[7] == y[7] && x[8] == y[8] && x[9] == y[9] && x[10] == y[10];
    SignedInjective(a.v, b.v);
    DecimalInjective(a.d.secret, b.d.secret);
    SignedInjective(a.pn, b.pn);
    SignedInjective(a.n, b.n);
    PreamblesInjective(a.k, b.k);
  }

  lemma PreamblesInjective(j: Option<PreKeyHeader>, k: Option<PreKeyHeader>)
    requires (if j.Some? then Base64(j.value.ek) else "-") == (if k.Some? then Base64(k.value.ek) else "-")
    requires (if j.Some? then Signed(j.value.spkId) else "-") == (if k.Some? then Signed(k.value.spkId) else "-")
    requires (if j.Some? && j.value.otkId.Some? then Signed(j.value.otkId.value) else "-")
          == (if k.Some? && k.value.otkId.Some? then Signed(k.value.otkId.value) else "-")
    ensures j == k
  {
    hide Signed, Decimal;
    if j.Some? {
      NumeralsHoldNoSeparator(j.value.spkId);
      if j.value.otkId.Some? {
        NumeralsHoldNoSeparator(j.value.otkId.value);
      }
    }
    if k.Some? {
      NumeralsHoldNoSeparator(k.value.spkId);
      if k.value.otkId.Some? {
        NumeralsHoldNoSeparator(k.value.otkId.value);
      }
    }
    if j.Some? && k.Some? {
      DecimalInjective(j.value.ek.secret, k.value.ek.secret);
      SignedInjective(j.value.spkId, k.value.spkId);
      if j.value.otkId.Some? && k.value.otkId.Some? {
        SignedInjective(j.value.otkId.value, k.value.otkId.value);
      }
    }
  }

  // ── Sealing ───────────────────────────────────────────────────────────────

  datatype SealedCopy = SealedCopy(envelope: Envelope, session: Session)

  /** The header of a session's next message. The session stays as it is. */
  function NextBound(s: Session, sender: Privates, format: int): Bound {
    Bound(format, sender.deviceId, sender.userId, s.deviceId, PublicKey(s.secret), s.previousSendCount, s.sendCount, s.pending)
  }

  function SealWith(s: Session, text: string, sender: Privates, format: int): Option<SealedCopy> {
    if format !in SUPPORTED then None
    else
      var aad := Fields(NextBound(s, sender, format));
      match Encrypt(s, text, aad)
      case None => None
      case Some(out) =>
        Some(SealedCopy(
          Envelope(Bound(format, sender.deviceId, sender.userId, s.deviceId,
                         out.header.dh, out.header.pn, out.header.n, out.header.pre),
                   out.body, Signature(sender.identity, aad, out.body)),
          out.session))
  }

  // ── Opening ───────────────────────────────────────────────────────────────

  datatype Read = Read(text: string, session: Session, consumedPreKeyId: Option<int>)

  function Parse(e: Envelope): Option<Bound> {
    if e.Envelope? && e.bound.v in SUPPORTED then Some(e.bound) else None
  }

  function Wire(b: Bound): Header {
    Header(b.d, b.pn, b.n, b.k)
  }

  predicate Verifies(e: Envelope, identity: nat)
    requires e.Envelope?
  {
    e.g == Signature(identity, Fields(e.bound), e.c)
  }

  /** What passes before the ratchet is asked: readable, addressed here, from the account the server names, and signed. */
  predicate Believed(e: Envelope, me: Privates, senderIdentityKey: Option<nat>, expectedAuthorId: string) {
    && Parse(e).Some? && senderIdentityKey.Some?
    && e.bound.r == me.deviceId && e.bound.u == expectedAuthorId
    && Verifies(e, senderIdentityKey.value)
  }

  /** Build the session anew from the preamble and open with it. */
  ghost function OpenAnew(e: Envelope, me: Privates, mint: nat): Option<Read>
    requires e.Envelope?
  {
    if e.bound.k.None? then None
    else
      match Accept(e.bound.k.value, me, e.bound.s)
      case None => None
      case Some(built) =>
        match Decrypt(built, Wire(e.bound), e.c, Fields(e.bound), mint)
        case None => None
        case Some(o) => Some(Read(o.text, o.session, e.bound.k.value.otkId))
  }

  ghost function OpenSealed(e: Envelope, session: Option<Session>, me: Privates, senderIdentityKey: Option<nat>,
                            expectedAuthorId: string, mint: nat): Option<Read>
  {
    if !Believed(e, me, senderIdentityKey, expectedAuthorId) then None
    else
      match session
      case None => OpenAnew(e, me, mint)
      case Some(known) =>
        match Decrypt(known, Wire(e.bound), e.c, Fields(e.bound), mint)
        case Some(o) => Some(Read(o.text, o.session, None))
        case None => OpenAnew(e, me, mint)
  }

  /** `OpenSealed` in the order the client takes it: guard, build or load, open, and only then restart. */
  method OpenEnvelope(e: Envelope, session: Option<Session>, me: Privates, senderIdentityKey: Option<nat>,
                      expectedAuthorId: string, mint: nat) returns (r: Option<Read>)
    ensures r == OpenSealed(e, session, me, senderIdentityKey, expectedAuthorId, mint)
  {
    var h := Parse(e);
    if h.None? || senderIdentityKey.None? {
      return None;
    }
    if h.value.r != me.deviceId || h.value.u != expectedAuthorId {
      return None;
    }
    var aad := Fields(h.value);
    if !Verifies(e, senderIdentityKey.value) {
      return None;
    }
    var built := None;
    if session.None? && h.value.k.Some? {
      built := Accept(h.value.k.value, me, h.value.s);
    }
    var known := if session.Some? then session else built;
    if known.None? {
      return None;
    }
    var first := DecryptMessage(known.value, Wire(h.value), e.c, aad, mint);
    if first.Some? {
      var consumed := if built.Some? then h.value.k.value.otkId else None;
      return Some(Read(first.value.text, first.value.session, consumed));
    }
    if h.value.k.None? || session.None? {
      return None;
    }
    var restarted := Accept(h.value.k.value, me, h.value.s);
    if restarted.None? {
      return None;
    }
    var retry := DecryptMessage(restarted.value, Wire(h.value), e.c, aad, mint);
    if retry.None? {
      return None;
    }
    r := Some(Read(retry.value.text, retry.value.session, h.value.k.value.otkId));
  }

  // ── What opening promises ─────────────────────────────────────────────────

  /** The associated data an opener rebuilds from the header is the one that was sealed. */
  lemma SealedIsBelieved(s: Session, text: string, sender: Privates, me: Privates)
    requires s.sendChain.Some? && s.deviceId == me.deviceId
    ensures SealWith(s, text, sender, 2).Some?
    ensures var c := SealWith(s, text, sender, 2).value;
            && Believed(c.envelope, me, Some(sender.identity), sender.userId)
            && Encrypt(s, text, Fields(c.envelope.bound)) == Some(Outgoing(c.session, Wire(c.envelope.bound), c.envelope.c))
  {
    hide Fields;
  }

  /** A copy says who sealed it and for whom, stands at the session's next place
      on the wire, and is signed by its author over all of that and the body. */
  lemma SealedSays(s: Session, text: string, sender: Privates, format: int)
    ensures SealWith(s, text, sender, format).Some? <==> format == 2 && s.sendChain.Some?
    ensures var r := SealWith(s, text, sender, format);
            r.Some? ==>
              && r.value.envelope.Envelope?
              && r.value.envelope.bound == Bound(2, sender.deviceId, sender.userId, s.deviceId, PublicKey(s.secret),
                                                 s.previousSendCount, s.sendCount, s.pending)
              && r.value.envelope.g == Signature(sender.identity, Fields(r.value.envelope.bound), r.value.envelope.c)
              && r.value.envelope.c == Sealed(Message(s.sendChain.value), Fields(r.value.envelope.bound), text)
  {
    hide Fields;
  }

  /** Nothing opens that was not signed, header and body both, by the key the
      server names for its author, and addressed to this device. */
  lemma OpenedIsSigned(e: Envelope, session: Option<Session>, me: Privates, senderIdentityKey: Option<nat>,
                       expectedAuthorId: string, mint: nat)
    ensures OpenSealed(e, session, me, senderIdentityKey, expectedAuthorId, mint).Some? ==>
              && e.Envelope? && senderIdentityKey == Some(e.g.identity)
              && e.g.fields == Fields(e.bound) && e.g.c == e.c
              && e.bound.r == me.deviceId && e.bound.u == expectedAuthorId && e.bound.v == 2
  {
    hide Fields, Decrypt, OpenAnew;
  }

  /** A signature over one header and body opens under no other, nor under another's key. */
  lemma SignatureOpensOnlyItsOwn(e: Envelope, identity: nat, a: Bound, c: Body, session: Option<Session>, me: Privates,
                                 senderIdentityKey: Option<nat>, expectedAuthorId: string, mint: nat)
    requires e.Envelope? && e.g == Signature(identity, Fields(a), c) && SeparatorFree(a)
    ensures a != e.bound || c != e.c || senderIdentityKey != Some(identity) ==>
              OpenSealed(e, session, me, senderIdentityKey, expectedAuthorId, mint) == None
  {
    hide Fields, OpenSealed;
    OpenedIsSigned(e, session, me, senderIdentityKey, expectedAuthorId, mint);
    if Fields(a) == Fields(e.bound) {
      FieldsInjective(a, e.bound);
    }
  }

  /** Nothing but the text that was sealed ever comes out, whatever session is tried. */
  lemma OnlyTheSealedText(e: Envelope, session: Option<Session>, me: Privates, senderIdentityKey: Option<nat>,
                          expectedAuthorId: string, mint: nat)
    ensures var r := OpenSealed(e, session, me, senderIdentityKey, expectedAuthorId, mint);
            r.Some? ==> e.Envelope? && e.c.Sealed? && r.value.text == e.c.text && e.c.aad == Fields(e.bound)
  {
    hide Fields, Skip, Kept;
  }

  /** A preamble whose prekeys are gone builds nothing: what the stored session
      refuses is refused. */
  lemma SpentPreKeyBuildsNothing(e: Envelope, session: Session, me: Privates, senderIdentityKey: Option<nat>,
                                 expectedAuthorId: string, mint: nat)
    requires e.Envelope? && e.bound.k.Some? && e.bound.k.value.otkId.Some?
    requires e.bound.k.value.otkId.value !in me.preKeys
    requires Decrypt(session, Wire(e.bound), e.c, Fields(e.bound), mint) == None
    ensures OpenSealed(e, None, me, senderIdentityKey, expectedAuthorId, mint) == None
    ensures OpenSealed(e, Some(session), me, senderIdentityKey, expectedAuthorId, mint) == None
  {
  }
}
