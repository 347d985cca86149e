/**
 * One device's half of the Double Ratchet, as a function from the session before
 * a message to the session after it.
 *
 * Keys are terms of a free algebra, so two derivations agree exactly when they
 * hash the same things; the one law is that a Diffie-Hellman agreement is the
 * same from both ends. A random key pair is a number its caller supplies, and
 * its public half names that number.
 */
module Ratchet {
  import opened Text
  import opened Wrappers

  /** The longest skip along one chain. */
  const MAX_SKIP := 1000

  /** The most keys of skipped messages a session stores. */
  const MAX_SKIPPED_KEPT := 2000

  // ── Keys ──────────────────────────────────────────────────────────────────

  datatype PublicKey = PublicKey(secret: nat)

  /** A public key as text. The decimal numeral stands in for base64: both are
      injective and hold neither a bar nor a unit separator. */
  function Base64(k: PublicKey): string {
    Decimal(k.secret)
  }

  datatype Key =
    | Shared(low: nat, high: nat)
    | Agreed(signed: Key, oneTime: Option<Key>)
    | Root(root: Key, dh: Key)
    | Chain(root: Key, dh: Key)
    | Next(chain: Key)
    | Message(chain: Key)

  function Agree(secret: nat, theirs: PublicKey): Key {
    if secret <= theirs.secret then Shared(secret, theirs.secret) else Shared(theirs.secret, secret)
  }

  /** A chain key stepped `n` times. */
  function Walk(chain: Key, n: nat): Key {
    if n == 0 then chain else Next(Walk(chain, n - 1))
  }

  /** What sealing produces: it opens only under the same key and associated data. */
  datatype Body = Garbled | Sealed(key: Key, aad: string, text: string)

  function Open(key: Key, body: Body, aad: string): Option<string> {
    if body.Sealed? && body.key == key && body.aad == aad then Some(body.text) else None
  }

  // ── Shapes ────────────────────────────────────────────────────────────────

  datatype PreKeyHeader = PreKeyHeader(ek: PublicKey, spkId: int, otkId: Option<int>)

  datatype Header = Header(dh: PublicKey, pn: int, n: int, pre: Option<PreKeyHeader>)

  datatype SkippedKey = SkippedKey(dh: PublicKey, n: int)

  type SkippedKeys = map<SkippedKey, Key>

  datatype Session = Session(
    deviceId: string,
    rootKey: Key,
    secret: nat,
    theirRatchet: Option<PublicKey>,
    sendChain: Option<Key>,
    recvChain: Option<Key>,
    sendCount: nat,
    recvCount: nat,
    previousSendCount: nat,
    skipped: SkippedKeys,
    pending: Option<PreKeyHeader>)

  datatype PreKey = PreKey(id: int, key: PublicKey)

  datatype KeyBundle = KeyBundle(deviceId: string, signedPreKey: PreKey, oneTimePreKey: Option<PreKey>)

  datatype Privates = Privates(
    deviceId: string,
    userId: string,
    identity: nat,
    signedPreKeyId: int,
    signedPreKey: nat,
    preKeys: map<int, nat>)

  // ── Starting a session ────────────────────────────────────────────────────

  function Initiate(bundle: KeyBundle, ephemeral: nat, ratchet: nat): Session {
    var spk := bundle.signedPreKey.key;
    var root := Agreed(Agree(ephemeral, spk),
                       match bundle.oneTimePreKey
                       case Some(otk) => Some(Agree(ephemeral, otk.key))
                       case None => None);
    var dh := Agree(ratchet, spk);
    Session(bundle.deviceId, Root(root, dh), ratchet, Some(spk), Some(Chain(root, dh)), None, 0, 0, 0, map[],
            Some(PreKeyHeader(PublicKey(ephemeral), bundle.signedPreKey.id,
                              match bundle.oneTimePreKey
                              case Some(otk) => Some(otk.id)
                              case None => None)))
  }

  function Accept(pre: PreKeyHeader, me: Privates, theirDeviceId: string): Option<Session> {
    if pre.spkId != me.signedPreKeyId then None
    else if pre.otkId.Some? && pre.otkId.value !in me.preKeys then None
    else
      var oneTime := if pre.otkId.Some? then Some(Agree(me.preKeys[pre.otkId.value], pre.ek)) else None;
      Some(Session(theirDeviceId, Agreed(Agree(me.signedPreKey, pre.ek), oneTime), me.signedPreKey,
                   None, None, None, 0, 0, 0, map[], None))
  }

  /** A preamble builds a session if and only if this device holds the prekeys it
      names; the session starts fresh, its first secret the signed prekey's. */
  lemma AcceptsOwnPreKeys(pre: PreKeyHeader, me: Privates, theirDeviceId: string)
    ensures Accept(pre, me, theirDeviceId).Some? <==>
              pre.spkId == me.signedPreKeyId && (pre.otkId.Some? ==> pre.otkId.value in me.preKeys)
    ensures Accept(pre, me, theirDeviceId).Some? ==>
              var s := Accept(pre, me, theirDeviceId).value;
              && s.deviceId == theirDeviceId && s.secret == me.signedPreKey && s.theirRatchet == None
              && s.sendChain == None && s.recvChain == None && s.skipped == map[] && s.pending == None
  {
  }

  // ── Sending ───────────────────────────────────────────────────────────────

  datatype Outgoing = Outgoing(session: Session, header: Header, body: Body)

  function Encrypt(s: Session, text: string, aad: string): Option<Outgoing> {
    if s.sendChain.None? then None
    else
      var header := Header(PublicKey(s.secret), s.previousSendCount, s.sendCount, s.pending);
      Some(Outgoing(s.(sendChain := Some(Next(s.sendChain.value)), sendCount := s.sendCount + 1),
                    header, Sealed(Message(s.sendChain.value), aad, text)))
  }

  // ── The bound on stored keys ──────────────────────────────────────────────

  /** The name a skipped key is stored under. */
  function Name(k: SkippedKey): string {
    Base64(k.dh) + "|" + Signed(k.n)
  }

  lemma NameInjective(j: SkippedKey, k: SkippedKey)
    requires Name(j) == Name(k)
    ensures j == k
  {
    var a, b := Decimal(j.dh.secret), Decimal(k.dh.secret);
    DecimalIsDigits(j.dh.secret);
    DecimalIsDigits(k.dh.secret);
    assert Name(j)[|a|] == '|' && Name(k)[|b|] == '|';
    assert forall i :: 0 <= i < |a| ==> Name(j)[i] == a[i];
    assert forall i :: 0 <= i < |b| ==> Name(k)[i] == b[i];
    assert |a| == |b|;
    assert a == Name(j)[..|a|] == b;
    assert Signed(j.n) == Name(j)[|a| + 1..] == Signed(k.n);
    DecimalInjective(j.dh.secret, k.dh.secret);
    SignedInjective(j.n, k.n);
  }

  ghost predicate IsFirst(k: SkippedKey, keys: set<SkippedKey>) {
    k in keys && forall j :: j in keys && j != k ==> Before(Name(k), Name(j))
  }

  lemma {:induction false} FirstExists(keys: set<SkippedKey>)
    requires keys != {}
    ensures exists k :: IsFirst(k, keys)
    decreases |keys|
  {
    var x :| x in keys;
    var rest := keys - {x};
    if rest == {} {
      assert keys == {x};
      assert IsFirst(x, keys);
    } else {
      FirstExists(rest);
      var y :| IsFirst(y, rest);
      BeforeTotal(Name(x), Name(y));
      if Name(x) == Name(y) {
        NameInjective(x, y);
      }
      var k := if Before(Name(x), Name(y)) then x else y;
      forall j | j in keys && j != k
        ensures Before(Name(k), Name(j))
      {
        if j != x && j != y && k == x {
          BeforeTransitive(Name(x), Name(y), Name(j));
        }
      }
      assert IsFirst(k, keys);
    }
  }

  lemma FirstUnique(j: SkippedKey, k: SkippedKey, keys: set<SkippedKey>)
    requires IsFirst(j, keys) && IsFirst(k, keys)
    ensures j == k
  {
    BeforeTotal(Name(j), Name(k));
  }

  ghost function First(keys: set<SkippedKey>): (k: SkippedKey)
    requires keys != {}
    ensures IsFirst(k, keys)
  {
    FirstExists(keys);
    var k :| IsFirst(k, keys); k
  }

  lemma RemovingShrinks(m: SkippedKeys, k: SkippedKey)
    requires k in m
    ensures |m - {k}| == |m| - 1
  {
    assert (m - {k}).Keys == m.Keys - {k};
  }

  /** `m` without the `count` keys whose names sort first. */
  ghost function Drop(m: SkippedKeys, count: nat): SkippedKeys
    requires count <= |m|
    decreases count
  {
    if count == 0 then m
    else
      assert m.Keys != {};
      RemovingShrinks(m, First(m.Keys));
      Drop(m - {First(m.Keys)}, count - 1)
  }

  /** What the bound leaves of the stored keys. */
  ghost function Kept(m: SkippedKeys): SkippedKeys {
    if |m| <= MAX_SKIPPED_KEPT then m else Drop(m, |m| - MAX_SKIPPED_KEPT)
  }

  /** What stayed is as it was, and what went sorts before everything that stayed. */
  ghost predicate KeepsLastNames(m: SkippedKeys, kept: SkippedKeys) {
    && (forall k :: k in kept ==> k in m && kept[k] == m[k])
    && (forall gone, stayed :: gone in m.Keys - kept.Keys && stayed in kept ==> Before(Name(gone), Name(stayed)))
  }

  lemma {:induction false} DropKeepsLastNames(m: SkippedKeys, count: nat)
    requires count <= |m|
    ensures |Drop(m, count)| == |m| - count && KeepsLastNames(m, Drop(m, count))
    decreases count
  {
    hide Before, Name;
    if count > 0 {
      assert m.Keys != {};
      var first := First(m.Keys);
      RemovingShrinks(m, first);
      var rest := m - {first};
      DropKeepsLastNames(rest, count - 1);
      var kept := Drop(m, count);
      assert kept == Drop(rest, count - 1);
      forall gone, stayed | gone in m.Keys - kept.Keys && stayed in kept
        ensures Before(Name(gone), Name(stayed))
      {
        assert gone == first || gone in rest.Keys - kept.Keys;
      }
    }
  }

  /** Never more than the bound, nothing dropped below it, and it is names, not ages, that decide. */
  lemma KeptKeepsLastNames(m: SkippedKeys)
    ensures |Kept(m)| == if |m| <= MAX_SKIPPED_KEPT then |m| else MAX_SKIPPED_KEPT
    ensures KeepsLastNames(m, Kept(m))
  {
    hide Before, Name;
    if |m| > MAX_SKIPPED_KEPT {
      DropKeepsLastNames(m, |m| - MAX_SKIPPED_KEPT);
    }
  }

  lemma KeptWhole(m: SkippedKeys)
    requires |m| <= MAX_SKIPPED_KEPT
    ensures Kept(m) == m
  {
  }

  /** Something is dropped exactly past the bound. */
  lemma KeptSize(m: SkippedKeys)
    ensures |Kept(m)| == (if |m| <= MAX_SKIPPED_KEPT then |m| else MAX_SKIPPED_KEPT)
    ensures m.Keys - Kept(m).Keys == {} <==> |m| <= MAX_SKIPPED_KEPT
  {
    hide Before, Name;
    KeptKeepsLastNames(m);
    if |m| <= MAX_SKIPPED_KEPT {
      assert Kept(m) == m;
    } else {
      hide Kept;
      assert m.Keys != Kept(m).Keys;
      var k :| k in m.Keys && k !in Kept(m).Keys;
      assert k in m.Keys - Kept(m).Keys;
    }
  }

  /** Of two keys of one chain the names sort as the numerals do. */
  lemma NamesSortAsNumerals(dh: PublicKey, i: nat, j: nat)
    ensures Before(Name(SkippedKey(dh, i)), Name(SkippedKey(dh, j))) <==> Before(Decimal(i), Decimal(j))
  {
    var p := Base64(dh) + "|";
    hide Decimal;
    BeforeTotal(Decimal(i), Decimal(j));
    BeforeTotal(p + Decimal(i), p + Decimal(j));
    if Before(Decimal(i), Decimal(j)) {
      BeforeAfterPrefix(p, Decimal(i), Decimal(j));
    } else if Before(Decimal(j), Decimal(i)) {
      BeforeAfterPrefix(p, Decimal(j), Decimal(i));
    }
  }

  ghost predicate NamesInOrder(dh: PublicKey, from: nat, count: nat) {
    forall i: nat, j: nat :: from <= i < j < from + count ==> Before(Name(SkippedKey(dh, i)), Name(SkippedKey(dh, j)))
  }

  /** Over a stretch of one chain names sort by age if and only if the stretch
      holds no power of ten together with the number before it. */
  lemma NamesSortByAge(dh: PublicKey, from: nat, count: nat)
    ensures NamesInOrder(dh, from, count) <==> !HoldsPower(from, count)
  {
    hide Before, Name, Decimal, HoldsPower;
    NumeralsSort(from, count);
    forall i: nat, j: nat | from <= i < j < from + count
      ensures Before(Name(SkippedKey(dh, i)), Name(SkippedKey(dh, j))) <==> Before(Decimal(i), Decimal(j))
    {
      NamesSortAsNumerals(dh, i, j);
    }
    assert NamesInOrder(dh, from, count) <==> NumeralsInOrder(from, count);
  }

  /** Then what the bound drops is older than everything it leaves. */
  lemma OldestGoFirst(m: SkippedKeys, dh: PublicKey, from: nat, count: nat)
    requires forall key :: key in m ==> key.dh == dh && from <= key.n < from + count
    requires !HoldsPower(from, count)
    ensures forall gone, stayed :: gone in m.Keys - Kept(m).Keys && stayed in Kept(m) ==> gone.n < stayed.n
  {
    hide Before, Name, Kept, HoldsPower;
    KeptKeepsLastNames(m);
    NamesSortByAge(dh, from, count);
    forall gone, stayed | gone in m.Keys - Kept(m).Keys && stayed in Kept(m)
      ensures gone.n < stayed.n
    {
      if stayed.n < gone.n {
        BeforeTotal(Name(SkippedKey(dh, stayed.n)), Name(SkippedKey(dh, gone.n)));
      }
    }
  }

  // ── Receiving ─────────────────────────────────────────────────────────────

  /** `m` with the keys of `count` messages added, off a chain whose key stands at number `from`. */
  function Store(m: SkippedKeys, theirs: PublicKey, chain: Key, from: nat, count: nat): SkippedKeys {
    if count == 0 then m
    else Store(m, theirs, chain, from, count - 1)[SkippedKey(theirs, from + count - 1) := Message(Walk(chain, count - 1))]
  }

  lemma {:induction false} StoreHolds(m: SkippedKeys, theirs: PublicKey, chain: Key, from: nat, count: nat)
    ensures forall k :: k in Store(m, theirs, chain, from, count) <==>
              k in m || (k.dh == theirs && from <= k.n < from + count)
    ensures forall k :: k in Store(m, theirs, chain, from, count) ==>
              Store(m, theirs, chain, from, count)[k] ==
                if k.dh == theirs && from <= k.n < from + count then Message(Walk(chain, k.n - from)) else m[k]
  {
    if count > 0 {
      StoreHolds(m, theirs, chain, from, count - 1);
    }
  }

  /** The session with its receiving chain `count` further on, every key stepped over kept. */
  ghost function Advance(s: Session, theirs: PublicKey, chain: Key, count: nat): Session {
    s.(skipped := Kept(Store(s.skipped, theirs, chain, s.recvCount, count)),
       recvChain := Some(Walk(chain, count)),
       recvCount := s.recvCount + count)
  }

  /** The session once its receiving chain stands at `until`; None when that is too far ahead. */
  ghost function Skip(s: Session, until: int): Option<Session> {
    if s.recvChain.None? || s.theirRatchet.None? then Some(s)
    else if until - s.recvCount > MAX_SKIP then None
    else
      Some(Advance(s, s.theirRatchet.value, s.recvChain.value, if until > s.recvCount then until - s.recvCount else 0))
  }

  /** The session one rung up the other end's key `theirs` and this end's new secret `mint`, with a chain for each way. */
  function Turn(s: Session, theirs: PublicKey, mint: nat): Session {
    var receiving := Agree(s.secret, theirs);
    var afterReceive := Root(s.rootKey, receiving);
    var sending := Agree(mint, theirs);
    s.(previousSendCount := s.sendCount,
       sendCount := 0,
       recvCount := 0,
       theirRatchet := Some(theirs),
       rootKey := Root(afterReceive, sending),
       secret := mint,
       recvChain := Some(Chain(s.rootKey, receiving)),
       sendChain := Some(Chain(afterReceive, sending)))
  }

  datatype Opened = Opened(session: Session, text: string)

  /** The session with its receiving chain on the header's ratchet key. */
  ghost function Follow(s: Session, h: Header, mint: nat): Option<Session> {
    if s.theirRatchet == Some(h.dh) then Some(s)
    else
      match Skip(s, h.pn)
      case None => None
      case Some(closed) => Some(Turn(closed, h.dh, mint))
  }

  /** The header's message off the receiving chain of a session that follows its ratchet key. */
  ghost function OpenNext(s: Session, h: Header, body: Body, aad: string): Option<Opened> {
    match Skip(s, h.n)
    case None => None
    case Some(caughtUp) =>
      if caughtUp.recvChain.None? then None
      else
        match Open(Message(caughtUp.recvChain.value), body, aad)
        case None => None
        case Some(text) =>
          Some(Opened(caughtUp.(recvChain := Some(Next(caughtUp.recvChain.value)),
                                recvCount := caughtUp.recvCount + 1,
                                pending := None), text))
  }

  ghost function OpenKept(s: Session, key: SkippedKey, body: Body, aad: string): Option<Opened>
    requires key in s.skipped
  {
    match Open(s.skipped[key], body, aad)
    case None => None
    case Some(text) => Some(Opened(s.(skipped := s.skipped - {key}), text))
  }

  /** What the body said and the session left by reading it, or None, whatever went wrong.
      A body of nothing but its sixteen-byte tag, an empty text's, is refused unread. */
  ghost function Decrypt(s: Session, h: Header, body: Body, aad: string, mint: nat): Option<Opened> {
    if body.Garbled? || body.text == "" then None
    else if SkippedKey(h.dh, h.n) in s.skipped then OpenKept(s, SkippedKey(h.dh, h.n), body, aad)
    else
      match Follow(s, h, mint)
      case None => None
      case Some(next) => OpenNext(next, h, body, aad)
  }

  // ── The loops ─────────────────────────────────────────────────────────────

  /** The least of a set of keys by name. */
  method FindFirst(keys: set<SkippedKey>) returns (k: SkippedKey)
    requires keys != {}
    ensures k == First(keys)
  {
    k :| k in keys;
    var left := keys - {k};
    while left != {}
      invariant left <= keys && k in keys - left
      invariant forall j :: j in keys - left && j != k ==> Before(Name(k), Name(j))
      decreases |left|
    {
      var j :| j in left;
      BeforeTotal(Name(j), Name(k));
      if Name(j) == Name(k) {
        NameInjective(j, k);
      }
      if Before(Name(j), Name(k)) {
        forall i | i in keys - left && i != k
          ensures Before(Name(j), Name(i))
        {
          BeforeTransitive(Name(j), Name(k), Name(i));
        }
        k := j;
      }
      left := left - {j};
    }
    FirstUnique(k, First(keys), keys);
  }

  method DropOverflow(skipped: SkippedKeys) returns (kept: SkippedKeys)
    ensures kept == Kept(skipped)
  {
    kept := skipped;
    var overflow := |kept| - MAX_SKIPPED_KEPT;
    while overflow > 0
      invariant 0 < overflow ==> |kept| - MAX_SKIPPED_KEPT == overflow && Drop(kept, overflow) == Kept(skipped)
      invariant overflow <= 0 ==> kept == Kept(skipped)
    {
      assert kept.Keys != {};
      var first := FindFirst(kept.Keys);
      RemovingShrinks(kept, first);
      kept := kept - {first};
      overflow := overflow - 1;
    }
  }

  method StorePassed(skipped: SkippedKeys, theirs: PublicKey, start: Key, from: nat, until: int)
    returns (stored: SkippedKeys, chain: Key, n: nat)
    ensures n == if until > from then until else from
    ensures chain == Walk(start, n - from)
    ensures stored == Store(skipped, theirs, start, from, n - from)
  {
    stored, chain, n := skipped, start, from;
    while n < until
      invariant from <= n && (n <= until || n == from)
      invariant chain == Walk(start, n - from)
      invariant stored == Store(skipped, theirs, start, from, n - from)
    {
      stored := stored[SkippedKey(theirs, n) := Message(chain)];
      chain := Next(chain);
      n := n + 1;
    }
  }

  /** The receiving chain moved on to `until`, what it passes stored. */
  method SkipTo(session: Session, until: int) returns (r: Option<Session>)
    ensures r == Skip(session, until)
  {
    if session.recvChain.None? || session.theirRatchet.None? {
      return Some(session);
    }
    if until - session.recvCount > MAX_SKIP {
      return None;
    }
    var next := session;
    var skipped, chain, n :=
      StorePassed(session.skipped, session.theirRatchet.value, session.recvChain.value, session.recvCount, until);
    skipped := DropOverflow(skipped);
    next := next.(skipped := skipped);
    next := next.(recvChain := Some(chain));
    next := next.(recvCount := n);
    r := Some(next);
  }

  method DecryptMessage(session: Session, header: Header, body: Body, aad: string, mint: nat)
    returns (r: Option<Opened>)
    ensures r == Decrypt(session, header, body, aad, mint)
  {
    if body.Garbled? || |body.text| == 0 {
      return None;
    }
    var key := SkippedKey(header.dh, header.n);
    if key in session.skipped {
      var text := Open(session.skipped[key], body, aad);
      if text.None? {
        return None;
      }
      return Some(Opened(session.(skipped := session.skipped - {key}), text.value));
    }
    var next := session;
    if session.theirRatchet != Some(header.dh) {
      var closed := SkipTo(next, header.pn);
      if closed.None? {
        return None;
      }
      next := Turn(closed.value, header.dh, mint);
    }
    var caughtUp := SkipTo(next, header.n);
    if caughtUp.None? || caughtUp.value.recvChain.None? {
      return None;
    }
    var chain := caughtUp.value.recvChain.value;
    var text := Open(Message(chain), body, aad);
    if text.None? {
      return None;
    }
    var after := caughtUp.value;
    after := after.(recvChain := Some(Next(chain)));
    after := after.(recvCount := after.recvCount + 1);
    after := after.(pending := None);
    r := Some(Opened(after, text.value));
  }
}
