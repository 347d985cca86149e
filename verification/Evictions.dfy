/**
 * A conversation in which the bound on stored keys takes a newer key and leaves
 * an older one: the initiator says 2006 things before it hears back, and three
 * of them arrive far apart.
 */
module Evictions {
  import opened Conversation
  import opened Ratchet
  import opened Text
  import opened Wrappers

  /** The keys of one chain from number `from` on, below `until`. */
  function Span(dh: PublicKey, from: int, until: int): (r: set<SkippedKey>)
    ensures forall key :: key in r <==> key.dh == dh && from <= key.n < until
  {
    var r := set n {:trigger SkippedKey(dh, n)} | from <= n < until :: SkippedKey(dh, n);
    assert forall key :: key in r ==> key.dh == dh && from <= key.n < until;
    assert forall key: SkippedKey :: key.dh == dh && from <= key.n < until ==> key == SkippedKey(dh, key.n) && key in r;
    r
  }

  lemma {:induction false} SpanSize(dh: PublicKey, from: int, until: int)
    requires from <= until
    ensures |Span(dh, from, until)| == until - from
    decreases until - from
  {
    if from == until {
      assert Span(dh, from, until) == {};
    } else {
      SpanSize(dh, from, until - 1);
      assert Span(dh, from, until) == Span(dh, from, until - 1) + {SkippedKey(dh, until - 1)};
    }
  }

  // ── States of the run ─────────────────────────────────────────────────────

  /** What travels is the initiator's first chain, in order, and it says
      something each time; nothing was said on any later chain. */
  ghost predicate SaidInOrder(w: Talk, n: nat) {
    && Inv(w) && |w.packets| == n && |w.log.texts[1]| == n
    && (forall k :: 2 <= k < |w.log.texts| ==> w.log.texts[k] == [])
    && forall i :: 0 <= i < n ==> w.packets[i].rung == 1 && w.packets[i].header.n == i && w.packets[i].text != ""
  }

  /** Nothing has arrived yet. */
  ghost predicate Unheard(w: Talk, n: nat) {
    && SaidInOrder(w, n) && |w.log.secrets| == 2 && w.log.spent == {}
    && w.responder.theirRatchet == None && w.responder.recvChain == None && w.responder.skipped == map[]
  }

  /** The responder stands at number `at` and has stored `keys`. */
  ghost predicate Heard(w: Talk, n: nat, at: nat, keys: set<SkippedKey>) {
    && SaidInOrder(w, n) && |w.log.secrets| == 3 && at <= n
    && w.responder.theirRatchet == Some(PublicKey(w.log.secrets[1])) && w.responder.recvChain.Some?
    && w.responder.recvCount == at && w.responder.skipped.Keys == keys
    && (forall key :: key in keys ==> key.dh == PublicKey(w.log.secrets[1]) && 0 <= key.n < at)
    && forall key :: key in keys ==> (1, key.n) !in w.log.spent
  }

  lemma SayingAdds(w: Talk, n: nat, text: string, aad: string)
    requires Unheard(w, n) && text != ""
    ensures Unheard(Sent(w, true, text, aad), n + 1)
    ensures Sent(w, true, text, aad).log.secrets == w.log.secrets && Sent(w, true, text, aad).log.pre == w.log.pre
  {
    SendKeepsInv(w, true, text, aad);
    hide NetworkOk, SkippedOk, SpentOk, RootAt, ChainAt, Walk;
    assert RungOf(w.log, true) == 1;
  }

  // ── What an arrival stores ────────────────────────────────────────────────

  lemma CatchesUp(s: Session, p: Packet, mint: nat)
    requires s.theirRatchet == Some(p.header.dh) && s.recvChain.Some? && KeptUnder(p) !in s.skipped
    requires s.recvCount <= p.header.n && Decrypt(s, p.header, p.body, p.aad, mint).Some?
    ensures var t := Decrypt(s, p.header, p.body, p.aad, mint).value.session;
            && t.skipped == Kept(Store(s.skipped, p.header.dh, s.recvChain.value, s.recvCount, p.header.n - s.recvCount))
            && t.recvCount == p.header.n + 1 && t.theirRatchet == s.theirRatchet && t.recvChain.Some?
  {
    hide Kept, Store;
  }

  lemma CatchesUpAnew(s: Session, p: Packet, mint: nat)
    requires s.theirRatchet == None && s.recvChain == None && s.skipped == map[] && p.header.n >= 0
    requires Decrypt(s, p.header, p.body, p.aad, mint).Some?
    ensures var t := Decrypt(s, p.header, p.body, p.aad, mint).value.session;
            && t.skipped == Kept(Store(map[], p.header.dh, Chain(s.rootKey, Agree(s.secret, p.header.dh)), 0, p.header.n))
            && t.recvCount == p.header.n + 1 && t.theirRatchet == Some(p.header.dh) && t.recvChain.Some?
  {
    hide Kept, Store;
  }

  lemma StoreAdds(m: SkippedKeys, dh: PublicKey, chain: Key, from: nat, count: nat)
    requires forall key :: key in m ==> key.dh == dh && key.n < from
    ensures Store(m, dh, chain, from, count).Keys == m.Keys + Span(dh, from, from + count)
    ensures |Store(m, dh, chain, from, count)| == |m| + count
  {
    StoreHolds(m, dh, chain, from, count);
    StoreSize(m, dh, chain, from, count);
    hide Store;
  }

  /** A first arrival of the chain, near enough. */
  lemma FirstArrival(w: Talk, n: nat, i: nat, mint: nat)
    requires Unheard(w, n) && i < n && i <= MAX_SKIP && mint !in w.log.secrets
    ensures var v := Delivered(w, i, mint);
            var dh := PublicKey(w.log.secrets[1]);
            && SaidInOrder(v, n) && v.log.secrets == w.log.secrets + [mint] && v.log.spent == {(1, i as int)}
            && v.log.pre == w.log.pre
            && v.responder.theirRatchet == Some(dh) && v.responder.recvChain.Some? && v.responder.recvCount == i + 1
            && v.responder.skipped ==
                 Kept(Store(map[], dh, Chain(w.responder.rootKey, Agree(w.responder.secret, dh)), 0, i))
  {
    hide SkippedOk, Kept, Store, KeyAt, SendingOk, Decrypt;
    var p := w.packets[i];
    PacketIsOk(w.log, w.packets, i);
    DeliverKeepsInv(w, i, mint);
    assert CanOpen(w.log, 0, w.responder, p);
    DecryptExact(w.log, 0, w.responder, p, mint);
    CatchesUpAnew(w.responder, p, mint);
    hide NetworkOk, EndOk, SpentOk, CanOpen, LogOk;
  }

  /** A later one of the same chain. */
  lemma LaterArrival(w: Talk, n: nat, at: nat, keys: set<SkippedKey>, i: nat, mint: nat)
    requires Heard(w, n, at, keys) && at <= i < n && i - at <= MAX_SKIP && mint !in w.log.secrets
    ensures var v := Delivered(w, i, mint);
            && SaidInOrder(v, n) && v.log.secrets == w.log.secrets && v.log.spent == w.log.spent + {(1, i as int)}
            && v.log.pre == w.log.pre
            && v.responder.theirRatchet == w.responder.theirRatchet && v.responder.recvChain.Some?
            && v.responder.recvCount == i + 1
            && v.responder.skipped == Kept(Store(w.responder.skipped, PublicKey(w.log.secrets[1]),
                                                 w.responder.recvChain.value, at, i - at))
  {
    hide SkippedOk, Kept, Store, KeyAt, SendingOk;
    var p := w.packets[i];
    PacketIsOk(w.log, w.packets, i);
    DeliverKeepsInv(w, i, mint);
    NextOpensHere(w, n, at, keys, i, mint);
    CatchesUp(w.responder, p, mint);
    hide Decrypt, NetworkOk, EndOk, SpentOk, LogOk;
  }

  lemma NextOpensHere(w: Talk, n: nat, at: nat, keys: set<SkippedKey>, i: nat, mint: nat)
    requires Heard(w, n, at, keys) && at <= i < n && i - at <= MAX_SKIP && mint !in w.log.secrets
    ensures var p := w.packets[i];
            && Decrypt(w.responder, p.header, p.body, p.aad, mint).Some?
            && KeptUnder(p) !in w.responder.skipped && Some(p.header.dh) == w.responder.theirRatchet
  {
    hide SkippedOk, Kept, Store, KeyAt, SendingOk, Decrypt;
    var p := w.packets[i];
    PacketIsOk(w.log, w.packets, i);
    assert CanOpen(w.log, 2, w.responder, p);
    DecryptExact(w.log, 2, w.responder, p, mint);
  }

  lemma AheadIsUnspent(w: Talk, n: nat, at: nat, keys: set<SkippedKey>, until: int)
    requires Heard(w, n, at, keys)
    ensures forall key :: key in Span(PublicKey(w.log.secrets[1]), at, until) ==> (1, key.n) !in w.log.spent
  {
    hide EndOk, NetworkOk, Span;
  }

  /** What is stored fits, so it is stored whole. */
  lemma StandsThere(v: Talk, n: nat, m: SkippedKeys, chain: Key, from: nat, count: nat)
    requires SaidInOrder(v, n) && |v.log.secrets| == 3 && from + count < n
    requires v.responder.theirRatchet == Some(PublicKey(v.log.secrets[1])) && v.responder.recvChain.Some?
    requires v.responder.recvCount == from + count + 1 && |m| + count <= MAX_SKIPPED_KEPT
    requires v.responder.skipped == Kept(Store(m, PublicKey(v.log.secrets[1]), chain, from, count))
    requires forall key :: key in m ==> key.dh == PublicKey(v.log.secrets[1]) && 0 <= key.n < from
    requires forall key :: key in m ==> (1, key.n) !in v.log.spent
    requires forall key :: key in Span(PublicKey(v.log.secrets[1]), from, from + count) ==> (1, key.n) !in v.log.spent
    ensures Heard(v, n, from + count + 1, m.Keys + Span(PublicKey(v.log.secrets[1]), from, from + count))
  {
    hide SaidInOrder, Store, Kept, Span;
    StoreAdds(m, PublicKey(v.log.secrets[1]), chain, from, count);
    KeptWhole(Store(m, PublicKey(v.log.secrets[1]), chain, from, count));
  }

  lemma FirstIsHeard(w: Talk, n: nat, i: nat, mint: nat)
    requires Unheard(w, n) && i < n && i <= MAX_SKIP && mint !in w.log.secrets
    ensures Heard(Delivered(w, i, mint), n, i + 1, Span(PublicKey(w.log.secrets[1]), 0, i))
  {
    hide Inv, Span, Store, Kept, Delivered;
    FirstArrival(w, n, i, mint);
    var dh := PublicKey(w.log.secrets[1]);
    StandsThere(Delivered(w, i, mint), n, map[], Chain(w.responder.rootKey, Agree(w.responder.secret, dh)), 0, i);
    assert {} + Span(dh, 0, i) == Span(dh, 0, i);
  }

  /** A later one that fits. */
  lemma FittingArrival(w: Talk, n: nat, at: nat, keys: set<SkippedKey>, i: nat, mint: nat)
    requires Heard(w, n, at, keys) && at <= i < n && i - at <= MAX_SKIP && mint !in w.log.secrets
    requires |keys| + (i - at) <= MAX_SKIPPED_KEPT
    ensures Heard(Delivered(w, i, mint), n, i + 1, keys + Span(PublicKey(w.log.secrets[1]), at, i))
  {
    hide Inv, Span, Store, Kept, Delivered;
    LaterArrival(w, n, at, keys, i, mint);
    AheadIsUnspent(w, n, at, keys, i);
    StandsThere(Delivered(w, i, mint), n, w.responder.skipped, w.responder.recvChain.value, at, i - at);
  }

  // ── The key that goes ─────────────────────────────────────────────────────

  /** The 2003 keys stored when the third message arrives. */
  function Overflow(dh: PublicKey): set<SkippedKey> {
    Span(dh, 0, 1000) + Span(dh, 1001, 2001) + Span(dh, 2002, 2005)
  }

  lemma NumeralFacts(n: nat)
    ensures Before(Decimal(0), Decimal(2)) && Before(Decimal(1), Decimal(2))
    ensures Before(Decimal(10), Decimal(2)) && Before(Decimal(11), Decimal(2))
    ensures Before(Decimal(n), Decimal(10)) ==> n <= 1
  {
    assert Decimal(0) == "0" && Decimal(1) == "1" && Decimal(2) == "2";
    assert Decimal(10) == "10" && Decimal(11) == "11";
    if n >= 10 {
      StartsNonzero(n);
      DecimalIsDigits(n);
      var s, t := Decimal(n), "10";
      assert t[1..] == "0" && s[1..][0] == s[1];
      assert !Before(s[1..], "0");
      assert !Before(s, t);
    } else {
      assert Decimal(n) == [Digit(n)];
    }
  }

  lemma {:induction false} StartsNonzero(n: nat)
    requires n >= 10
    ensures |Decimal(n)| >= 2 && Decimal(n)[0] > '0'
  {
    DecimalIsDigits(n / 10);
    if n >= 100 {
      StartsNonzero(n / 10);
    }
  }

  /** Of three keys that must go, the tenth message's is one. */
  lemma TenGoes(m: SkippedKeys, dh: PublicKey)
    requires m.Keys == Overflow(dh) && |m| == 2003
    ensures SkippedKey(dh, 10) !in Kept(m)
  {
    hide Kept, Before, Name, Decimal, Span;
    KeptKeepsLastNames(m);
    var gone := m.Keys - Kept(m).Keys;
    GoneSize(m);
    if SkippedKey(dh, 10) in Kept(m) {
      forall key | key in gone
        ensures key in {SkippedKey(dh, 0), SkippedKey(dh, 1)}
      {
        assert Before(Name(SkippedKey(dh, key.n)), Name(SkippedKey(dh, 10)));
        NamesSortAsNumerals(dh, key.n, 10);
        NumeralFacts(key.n);
      }
      NoLarger(gone, {SkippedKey(dh, 0), SkippedKey(dh, 1)});
    }
  }

  /** And the second's is not. */
  lemma TwoStays(m: SkippedKeys, dh: PublicKey)
    requires m.Keys == Overflow(dh) && |m| == 2003
    ensures SkippedKey(dh, 2) in Kept(m)
  {
    hide Kept, Before, Name, Decimal, Span;
    KeptKeepsLastNames(m);
    var gone := m.Keys - Kept(m).Keys;
    GoneSize(m);
    var two := SkippedKey(dh, 2);
    if two in gone {
      NumeralFacts(0);
      forall n: nat | n in {0, 1, 10, 11}
        ensures SkippedKey(dh, n) in gone
      {
        NamesSortAsNumerals(dh, n, 2);
        BeforeTotal(Name(SkippedKey(dh, n)), Name(two));
      }
      NoLarger({SkippedKey(dh, 0), SkippedKey(dh, 1), SkippedKey(dh, 10), SkippedKey(dh, 11)}, gone);
    }
  }

  lemma GoneSize(m: SkippedKeys)
    requires |m| == MAX_SKIPPED_KEPT + 3
    ensures |m.Keys - Kept(m).Keys| == 3
  {
    hide Kept, Before, Name;
    KeptKeepsLastNames(m);
    assert m.Keys == (m.Keys - Kept(m).Keys) + Kept(m).Keys;
  }

  lemma {:induction false} NoLarger(a: set<SkippedKey>, b: set<SkippedKey>)
    requires a <= b
    ensures |a| <= |b|
  {
    assert b == a + (b - a);
  }

  /** The responder passed messages 2 and 10 of the chain and opened neither; the older one's key is stored, the newer one's is not. */
  ghost predicate LostNewer(v: Talk) {
    && SaidInOrder(v, 2006) && |v.log.secrets| == 3
    && v.responder.recvCount == 2006 && v.responder.theirRatchet == Some(PublicKey(v.log.secrets[1]))
    && !IsSpent(v, v.packets[2]) && !IsSpent(v, v.packets[10])
    && KeptUnder(v.packets[2]) in v.responder.skipped && KeptUnder(v.packets[10]) !in v.responder.skipped
  }

  lemma NamedByNumber(w: Talk, n: nat, i: nat)
    requires SaidInOrder(w, n) && i < n
    ensures KeptUnder(w.packets[i]) == SkippedKey(PublicKey(w.log.secrets[1]), i)
  {
    PacketIsOk(w.log, w.packets, i);
  }

  /** The keys stored once message 1000 and then message 2001 have arrived. */
  function Gaps(dh: PublicKey): set<SkippedKey> {
    Span(dh, 0, 1000) + Span(dh, 1001, 2001)
  }

  lemma GapsSize(dh: PublicKey)
    ensures |Span(dh, 0, 1000)| == 1000 && |Gaps(dh)| == 2000
  {
    SpanSize(dh, 0, 1000);
    SpanSize(dh, 1001, 2001);
    assert Span(dh, 0, 1000) * Span(dh, 1001, 2001) == {};
  }

  ghost predicate HeardTwice(w: Talk) {
    |w.log.secrets| == 3 && Heard(w, 2006, 2002, Gaps(PublicKey(w.log.secrets[1])))
  }

  lemma OverflowKeys(m: SkippedKeys, dh: PublicKey, chain: Key)
    requires m.Keys == Gaps(dh)
    ensures var stored := Store(m, dh, chain, 2002, 3);
            && SkippedKey(dh, 2) in Kept(stored) && SkippedKey(dh, 10) !in Kept(stored)
  {
    hide Store, Kept;
    StoreAdds(m, dh, chain, 2002, 3);
    GapsSize(dh);
    assert |m| == 2000;
    TenGoes(Store(m, dh, chain, 2002, 3), dh);
    TwoStays(Store(m, dh, chain, 2002, 3), dh);
  }

  lemma GapsHold(dh: PublicKey)
    ensures SkippedKey(dh, 2) in Gaps(dh) && SkippedKey(dh, 10) in Gaps(dh)
  {
  }

  lemma OverflowingArrival(w: Talk, mint: nat)
    requires HeardTwice(w) && mint !in w.log.secrets
    ensures |w.packets| == 2006 && LostNewer(Delivered(w, 2005, mint))
  {
    hide Inv, Store, Kept, Delivered, Gaps;
    var dh := PublicKey(w.log.secrets[1]);
    LaterArrival(w, 2006, 2002, Gaps(dh), 2005, mint);
    GapsHold(dh);
    OverflowKeys(w.responder.skipped, dh, w.responder.recvChain.value);
    var v := Delivered(w, 2005, mint);
    NamedByNumber(v, 2006, 2);
    NamedByNumber(v, 2006, 10);
  }

  lemma TwoArrivals(u: Talk, mint: nat, other: nat)
    requires Unheard(u, 2006) && mint !in u.log.secrets && other !in u.log.secrets + [mint]
    ensures var u1 := Delivered(u, 1000, mint);
            && |u1.packets| == 2006 && u1.log.secrets == u.log.secrets + [mint]
            && HeardTwice(Delivered(u1, 2001, other)) && Delivered(u1, 2001, other).log.secrets == u1.log.secrets
  {
    hide Inv, Delivered;
    FirstArrival(u, 2006, 1000, mint);
    FirstIsHeard(u, 2006, 1000, mint);
    var u1, dh := Delivered(u, 1000, mint), PublicKey(u.log.secrets[1]);
    SecondArrival(u1, dh, other);
  }

  lemma SecondArrival(u: Talk, dh: PublicKey, other: nat)
    requires |u.log.secrets| == 3 && dh == PublicKey(u.log.secrets[1]) && other !in u.log.secrets
    requires Heard(u, 2006, 1001, Span(dh, 0, 1000))
    ensures HeardTwice(Delivered(u, 2001, other)) && Delivered(u, 2001, other).log.secrets == u.log.secrets
  {
    hide Inv, Delivered, Span;
    GapsSize(dh);
    LaterArrival(u, 2006, 1001, Span(dh, 0, 1000), 2001, other);
    FittingArrival(u, 2006, 1001, Span(dh, 0, 1000), 2001, other);
    hide Heard;
  }

  /** So the older message still opens and the newer one never will. */
  lemma LostIsRefused(v: Talk, mint: nat)
    requires LostNewer(v) && mint !in v.log.secrets
    ensures var p, q := v.packets[2], v.packets[10];
            && Decrypt(v.responder, p.header, p.body, p.aad, mint).Some?
            && Decrypt(v.responder, q.header, q.body, q.aad, mint) == None
  {
    hide KeyAt, SkippedOk, SendingOk, Decrypt, SpentOk;
    DeliveriesExact(v, 2, mint);
    DeliveriesExact(v, 10, mint);
  }

  // ── The run ───────────────────────────────────────────────────────────────

  lemma {:induction false} RunExtends(w: Talk, steps: seq<Step>, u: Talk, step: Step)
    requires Run(w, steps, u) && Possible(u, step)
    ensures Run(w, steps + [step], Taken(u, step))
    decreases |steps|
  {
    hide Taken, Possible;
    if steps == [] {
      assert steps + [step] == [step] && [step][1..] == [];
      assert Run(Taken(u, step), [], Taken(u, step));
    } else {
      RunExtends(Taken(w, steps[0]), steps[1..], u, step);
      assert (steps + [step])[1..] == steps[1..] + [step];
    }
  }

  lemma {:induction false} SayingMany(w: Talk, n: nat) returns (steps: seq<Step>, u: Talk)
    requires Unheard(w, 0)
    ensures Run(w, steps, u) && Unheard(u, n) && u.log.secrets == w.log.secrets
  {
    hide Unheard, Sent;
    steps, u := [], w;
    if n > 0 {
      steps, u := SayingMany(w, n - 1);
      SayingAdds(u, n - 1, "x", "");
      var step := Send(true, "x", "");
      RunExtends(w, steps, u, step);
      steps, u := steps + [step], Taken(u, step);
    }
  }

  lemma DeliveryExtends(w: Talk, steps: seq<Step>, u: Talk, i: nat, mint: nat)
    requires Run(w, steps, u) && i < |u.packets| && mint !in u.log.secrets
    ensures Run(w, steps + [Deliver(i, mint)], Delivered(u, i, mint))
  {
    hide Delivered, Run;
    RunExtends(w, steps, u, Deliver(i, mint));
  }

  /** From any claimed bundle a run reaches a state in which the bound has taken
      a newer key of a chain and left an older one: what goes is not the oldest. */
  lemma NewerKeyGoes(bundle: KeyBundle, me: Privates, theirDeviceId: string, ephemeral: nat, ratchet: nat)
    requires Published(bundle, me) && ratchet != me.signedPreKey
    ensures exists steps, v :: Reaches(bundle, me, theirDeviceId, ephemeral, ratchet, steps, v) && LostNewer(v)
  {
    hide Inv, Delivered, Run, LostNewer, HeardTwice;
    BeginningHoldsInv(bundle, me, theirDeviceId, ephemeral, ratchet);
    var w := Begun(bundle, me, theirDeviceId, ephemeral, ratchet).value;
    var steps, u := SayingMany(w, 2006);
    hide Unheard;
    var mint := me.signedPreKey + ratchet + 1;
    ThreeArrivals(w, steps, u, mint, mint + 1);
    var longer, v :| Run(w, longer, v) && LostNewer(v);
    assert Reaches(bundle, me, theirDeviceId, ephemeral, ratchet, longer, v);
  }

  lemma ThreeArrivals(w: Talk, steps: seq<Step>, u: Talk, mint: nat, other: nat)
    requires Run(w, steps, u) && Unheard(u, 2006) && mint !in u.log.secrets && other !in u.log.secrets + [mint]
    ensures exists longer, v :: Run(w, longer, v) && LostNewer(v)
  {
    hide Inv, Delivered, Run, LostNewer, HeardTwice;
    TwoArrivals(u, mint, other);
    DeliveryExtends(w, steps, u, 1000, mint);
    hide Unheard;
    var u1 := Delivered(u, 1000, mint);
    DeliveryExtends(w, steps + [Deliver(1000, mint)], u1, 2001, other);
    var u2 := Delivered(u1, 2001, other);
    OverflowingArrival(u2, other);
    DeliveryExtends(w, steps + [Deliver(1000, mint)] + [Deliver(2001, other)], u2, 2005, other);
  }
}
