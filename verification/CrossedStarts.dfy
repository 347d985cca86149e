/**
 * What becomes of two devices that both start a session before either has heard
 * from the other. Each may read the other's first message by giving up its own
 * start, and if both do each is left with the session the other gave up.
 */
module CrossedStarts {
  import opened Cipher
  import opened Conversation
  import opened Devices
  import opened Messaging
  import opened Ratchet
  import opened Wrappers

  // ── One first message ─────────────────────────────────────────────────────

  /** The session a first message builds, once that message has been read. */
  function Rebuilt(e: Envelope, me: Privates, mint: nat): Session
    requires e.Envelope? && e.bound.k.Some? && Accept(e.bound.k.value, me, e.bound.s).Some?
  {
    var t := Turn(Accept(e.bound.k.value, me, e.bound.s).value, e.bound.d, mint);
    t.(recvChain := Some(Ratchet.Next(t.recvChain.value)), recvCount := 1, pending := None)
  }

  /** A session that was started here and has not been answered. */
  predicate Unanswered(s: Session) {
    s.rootKey.Root? && s.recvChain == None && s.theirRatchet.Some? && s.skipped == map[]
  }

  /** A first message that meets the reader's own unanswered start is read, and replaces it. */
  lemma StartReplacesStart(own: Session, bundle: KeyBundle, ephemeral: nat, ratchet: nat, text: string,
                           from: Privates, me: Privates, mint: nat)
    requires Published(bundle, me) && bundle.deviceId == me.deviceId && text != "" && Unanswered(own)
    ensures SealWith(Initiate(bundle, ephemeral, ratchet), text, from, 2).Some?
    ensures var e := SealWith(Initiate(bundle, ephemeral, ratchet), text, from, 2).value.envelope;
            && e.Envelope? && e.bound.k.Some? && Accept(e.bound.k.value, me, e.bound.s).Some?
            && OpenSealed(e, Some(own), me, Some(from.identity), from.userId, mint) ==
               Some(Read(text, Rebuilt(e, me, mint), e.bound.k.value.otkId))
  {
    hide Fields, Kept;
    var s := Initiate(bundle, ephemeral, ratchet);
    SealedIsBelieved(s, text, from, me);
    KeptWhole(map[]);
    var e := SealWith(s, text, from, 2).value.envelope;
    assert Decrypt(own, Wire(e.bound), e.c, Fields(e.bound), mint) == None;
  }

  // ── The line a key comes down ─────────────────────────────────────────────

  /** The agreement a key was derived from. */
  function Base(k: Key): Key {
    match k
    case Root(root, _) => Base(root)
    case Chain(root, _) => Base(root)
    case Next(chain) => Base(chain)
    case Message(chain) => Base(chain)
    case _ => k
  }

  lemma {:induction false} WalkKeepsBase(c: Key, n: nat)
    ensures Base(Walk(c, n)) == Base(c)
  {
    if n > 0 {
      WalkKeepsBase(c, n - 1);
    }
  }

  /** Every key a session holds comes down from one agreement. */
  ghost predicate Of(s: Session, base: Key) {
    && Base(s.rootKey) == base
    && (s.sendChain.Some? ==> Base(s.sendChain.value) == base)
    && (s.recvChain.Some? ==> Base(s.recvChain.value) == base)
    && AllOf(s.skipped, base)
  }

  ghost predicate AllOf(m: SkippedKeys, base: Key) {
    forall key :: key in m ==> Base(m[key]) == base
  }

  lemma EncryptKeepsBase(s: Session, base: Key, text: string, aad: string)
    requires Of(s, base) && Encrypt(s, text, aad).Some?
    ensures var o := Encrypt(s, text, aad).value;
            Of(o.session, base) && o.body.Sealed? && Base(o.body.key) == base && o.session.pending == s.pending
  {
  }

  lemma StoreKeepsBase(m: SkippedKeys, base: Key, theirs: PublicKey, chain: Key, from: nat, count: nat)
    requires Base(chain) == base && AllOf(m, base)
    ensures AllOf(Kept(Store(m, theirs, chain, from, count)), base)
  {
    hide Kept, Store, Base;
    var stored := Store(m, theirs, chain, from, count);
    StoreHolds(m, theirs, chain, from, count);
    KeptKeepsLastNames(stored);
    forall key | key in stored
      ensures Base(stored[key]) == base
    {
      if key.dh == theirs && from <= key.n < from + count {
        WalkKeepsBase(chain, key.n - from);
        assert Base(Message(Walk(chain, key.n - from))) == base by {
          MessageKeepsBase(Walk(chain, key.n - from));
        }
      }
    }
  }

  lemma MessageKeepsBase(c: Key)
    ensures Base(Message(c)) == Base(c)
  {
  }

  lemma SkipKeepsBase(s: Session, base: Key, until: int)
    requires Of(s, base) && Skip(s, until).Some?
    ensures Of(Skip(s, until).value, base) && Skip(s, until).value.pending == s.pending
  {
    hide Kept, Store;
    if s.recvChain.Some? && s.theirRatchet.Some? {
      StoreKeepsBase(s.skipped, base, s.theirRatchet.value, s.recvChain.value, s.recvCount, Ahead(s.recvCount, until));
      WalkKeepsBase(s.recvChain.value, Ahead(s.recvCount, until));
    }
  }

  lemma TurnKeepsBase(s: Session, base: Key, theirs: PublicKey, mint: nat)
    requires Of(s, base)
    ensures Of(Turn(s, theirs, mint), base)
  {
    var after := Root(s.rootKey, Agree(s.secret, theirs));
    assert Base(after) == base;
    assert Base(Root(after, Agree(mint, theirs))) == base && Base(Chain(after, Agree(mint, theirs))) == base;
  }

  lemma FollowKeepsBase(s: Session, base: Key, h: Header, mint: nat)
    requires Of(s, base) && Follow(s, h, mint).Some?
    ensures Of(Follow(s, h, mint).value, base) && Follow(s, h, mint).value.pending == s.pending
  {
    hide Skip;
    if s.theirRatchet != Some(h.dh) {
      SkipKeepsBase(s, base, h.pn);
      TurnKeepsBase(Skip(s, h.pn).value, base, h.dh, mint);
    }
  }

  /** Whatever a session opens comes down the session's own line, and so does the session it leaves. */
  lemma DecryptKeepsBase(s: Session, base: Key, h: Header, body: Body, aad: string, mint: nat)
    requires Of(s, base)
    ensures var r := Decrypt(s, h, body, aad, mint);
            r.Some? ==> && body.Sealed? && Base(body.key) == base && Of(r.value.session, base)
                        && (r.value.session.pending == s.pending || r.value.session.pending == None)
                        && r.value.session.deviceId == s.deviceId
  {
    hide Skip, Follow;
    OpeningKeepsDevice(s, h, body, aad, mint);
    if Decrypt(s, h, body, aad, mint).Some? && SkippedKey(h.dh, h.n) !in s.skipped {
      FollowKeepsBase(s, base, h, mint);
      SkipKeepsBase(Follow(s, h, mint).value, base, h.n);
    }
  }

  // ── Two devices that both started ─────────────────────────────────────────

  /** A posted copy: who posted it, whose start's conversation it belongs to and at what place of that, and the envelope. */
  datatype Post = Post(from: bool, start: bool, place: nat, envelope: Envelope)

  /** Two devices, the left one `true`; the conversation either's start began,
      that device its initiator; what was posted; and the devices that have given
      their own start up for the other's. */
  datatype Pair = Pair(left: Device, right: Device, ofLeft: Talk, ofRight: Talk, posts: seq<Post>, turned: set<bool>)

  function DeviceAt(w: Pair, x: bool): Device {
    if x then w.left else w.right
  }

  function DiskAt(w: Pair, x: bool): Disk {
    DeviceAt(w, x).disk
  }

  function IdAt(w: Pair, x: bool): string {
    DeviceAt(w, x).keys.deviceId
  }

  function TalkOf(w: Pair, x: bool): Talk {
    if x then w.ofLeft else w.ofRight
  }

  function StartKey(w: Pair, x: bool): Key {
    TalkOf(w, x).log.start
  }

  function WithDiskAt(w: Pair, x: bool, disk: Disk): Pair {
    if x then w.(left := w.left.(disk := disk)) else w.(right := w.right.(disk := disk))
  }

  function WithTalkOf(w: Pair, x: bool, t: Talk): Pair {
    if x then w.(ofLeft := t) else w.(ofRight := t)
  }

  /** Whose start a device's session comes from. */
  function Holds(w: Pair, x: bool): bool {
    if x in w.turned then !x else x
  }

  /** The devices claim each other's bundle and start, neither having heard from the other. */
  function Crossing(left: Device, right: Device, ofLeft: KeyBundle, ofRight: KeyBundle,
                    el: nat, rl: nat, er: nat, rr: nat): Option<Pair>
  {
    var a := Begun(ofRight, Holder(right), left.keys.deviceId, el, rl);
    var b := Begun(ofLeft, Holder(left), right.keys.deviceId, er, rr);
    if a.None? || b.None? then None
    else
      Some(Pair(left.(disk := Saved(left.disk, a.value.initiator)), right.(disk := Saved(right.disk, b.value.initiator)),
                a.value, b.value, [], {}))
  }

  datatype Move =
    | Says(side: bool, text: string)
    | Arrives(post: nat, mint: nat, writes: nat)
    | TopsUp(side: bool, added: map<int, nat>)

  /** Minted secrets are new, and the numbering of prekeys never comes back to the one the other's start named. */
  predicate May(w: Pair, move: Move) {
    match move
    case Says(_, _) => true
    case Arrives(i, mint, _) => i < |w.posts| && mint !in w.ofLeft.log.secrets && mint !in w.ofRight.log.secrets
    case TopsUp(x, added) =>
      var otk := TalkOf(w, !x).log.pre.otkId; otk.Some? ==> otk.value !in added
  }

  function SaidAt(w: Pair, x: bool, text: string): Pair {
    match Stored(DiskAt(w, x), IdAt(w, !x))
    case None => w
    case Some(s) =>
      match SealWith(s, text, DeviceAt(w, x).keys, 2)
      case None => w
      case Some(c) =>
        var z := Holds(w, x);
        var t := TalkOf(w, z);
        WithTalkOf(WithDiskAt(w, x, Saved(DiskAt(w, x), c.session)), z,
                   Sent(t, z == x, text, Fields(NextBound(s, DeviceAt(w, x).keys, 2)))).(
          posts := w.posts + [Post(x, z, |t.packets|, c.envelope)])
  }

  /** What the reader's cipher answers for post `i` when it has not been written down. */
  ghost function ReadAt(w: Pair, i: nat, mint: nat): Option<Read>
    requires i < |w.posts|
  {
    var reader, author := DeviceAt(w, !w.posts[i].from), DeviceAt(w, w.posts[i].from).keys;
    Reading(reader.disk, reader.keys, w.posts[i].envelope, author.userId, Some(author.identity), mint)
  }

  /** Post `i` comes to its reader, whose process dies after `writes` writes when they are fewer than three. */
  ghost function ArrivedAt(w: Pair, i: nat, mint: nat, writes: nat): Pair
    requires i < |w.posts|
  {
    var post := w.posts[i];
    var y := !post.from;
    if i in DiskAt(w, y).texts || writes == 0 then w
    else
      match ReadAt(w, i, mint)
      case None => w
      case Some(read) =>
        var v := WithDiskAt(w, y, Written(DiskAt(w, y), i, read, writes));
        var t := TalkOf(w, post.start);
        (if post.place < |t.packets| then WithTalkOf(v, post.start, Delivered(t, post.place, mint)) else v).(
          turned := if post.envelope.Envelope? && post.envelope.bound.k.Some? then w.turned + {y} else w.turned)
  }

  ghost function Moved(w: Pair, move: Move): Pair
    requires May(w, move)
  {
    match move
    case Says(x, text) => SaidAt(w, x, text)
    case Arrives(i, mint, writes) => ArrivedAt(w, i, mint, writes)
    case TopsUp(x, added) => WithDiskAt(w, x, DiskAt(w, x).(preKeys := DiskAt(w, x).preKeys + added))
  }

  ghost predicate Moves(w: Pair, moves: seq<Move>, v: Pair)
    decreases |moves|
  {
    if moves == [] then v == w
    else May(w, moves[0]) && Moves(Moved(w, moves[0]), moves[1..], v)
  }

  // ── Which line everything comes down ──────────────────────────────────────

  ghost predicate SideLined(w: Pair, x: bool) {
    var s := Stored(DiskAt(w, x), IdAt(w, !x));
    && s.Some? && s.value.deviceId == IdAt(w, !x) && Of(s.value, StartKey(w, Holds(w, x)))
    && (s.value.pending.Some? ==> x !in w.turned)
  }

  predicate PostLined(w: Pair, i: nat)
    requires i < |w.posts|
  {
    var post := w.posts[i];
    && post.envelope.Envelope? && post.envelope.c.Sealed? && post.envelope.bound.s == IdAt(w, post.from)
    && Base(post.envelope.c.key) == StartKey(w, post.start)
    && (post.envelope.bound.k.Some? ==> post.start == post.from)
  }

  /** Each device's session comes down its own start or, once it turned, the
      other's; and a preamble travels only on its author's own start. */
  ghost predicate Lined(w: Pair) {
    && w.ofLeft.log.start.Agreed? && w.ofRight.log.start.Agreed? && w.ofLeft.log.start != w.ofRight.log.start
    && SideLined(w, true) && SideLined(w, false)
    && (forall id :: id in w.left.disk.texts || id in w.right.disk.texts ==> id < |w.posts|)
    && forall i: nat {:trigger PostLined(w, i)} :: i < |w.posts| ==> PostLined(w, i)
  }

  lemma SendKeepsStart(t: Talk, initiator: bool, text: string, aad: string)
    ensures Sent(t, initiator, text, aad).log.start == t.log.start && Sent(t, initiator, text, aad).log.pre == t.log.pre
  {
  }

  lemma DeliveryKeepsStart(t: Talk, i: nat, mint: nat)
    requires i < |t.packets|
    ensures Delivered(t, i, mint).log.start == t.log.start && Delivered(t, i, mint).log.pre == t.log.pre
  {
    hide Decrypt;
  }

  /** Saying something saves the stepped session and posts a copy of the line the device holds. */
  lemma SaidPosts(w: Pair, x: bool, text: string)
    requires Lined(w)
    ensures var v := SaidAt(w, x, text);
            && v.turned == w.turned && v.left.keys == w.left.keys && v.right.keys == w.right.keys
            && v.ofLeft.log.start == w.ofLeft.log.start && v.ofRight.log.start == w.ofRight.log.start
            && v.left.disk.texts == w.left.disk.texts && v.right.disk.texts == w.right.disk.texts
            && DiskAt(v, !x) == DiskAt(w, !x)
            && (|| v == w
                || (&& SideLined(v, x) && |v.posts| == |w.posts| + 1 && v.posts[..|w.posts|] == w.posts
                    && PostLined(v, |w.posts|)
                    && var post := v.posts[|w.posts|];
                       post.from == x && post.start == Holds(w, x) && (x in w.turned ==> post.envelope.bound.k.None?)))
  {
    hide Fields, Sent, Of, Encrypt;
    assert SideLined(w, true) && SideLined(w, false);
    var s := Stored(DiskAt(w, x), IdAt(w, !x)).value;
    hide Lined;
    if SealWith(s, text, DeviceAt(w, x).keys, 2).Some? {
      var aad := Fields(NextBound(s, DeviceAt(w, x).keys, 2));
      EncryptKeepsBase(s, StartKey(w, Holds(w, x)), text, aad);
      EncryptCarriesPending(s, text, aad);
      SendKeepsStart(TalkOf(w, Holds(w, x)), Holds(w, x) == x, text, aad);
    }
  }

  lemma SaidKeepsLined(w: Pair, x: bool, text: string)
    requires Lined(w)
    ensures Lined(SaidAt(w, x, text)) && SaidAt(w, x, text).turned == w.turned
    ensures |w.posts| <= |SaidAt(w, x, text).posts| && SaidAt(w, x, text).posts[..|w.posts|] == w.posts
    ensures forall y :: DiskAt(SaidAt(w, x, text), y).texts == DiskAt(w, y).texts
    ensures forall i :: |w.posts| <= i < |SaidAt(w, x, text).posts| ==>
              var post := SaidAt(w, x, text).posts[i];
              post.from == x && post.start == Holds(w, x) && (x in w.turned ==> post.envelope.bound.k.None?)
  {
    hide Of, SaidAt;
    SaidPosts(w, x, text);
    var v := SaidAt(w, x, text);
    assert SideLined(w, true) && SideLined(w, false);
    if v != w {
      assert SideLined(v, !x);
      forall i: nat | i < |v.posts|
        ensures PostLined(v, i)
      {
        if i < |w.posts| {
          assert PostLined(w, i) && v.posts[i] == w.posts[i];
        }
      }
    }
  }

  lemma EncryptCarriesPending(s: Session, text: string, aad: string)
    ensures var o := Encrypt(s, text, aad); o.Some? ==> o.value.header.pre == s.pending && o.value.session.deviceId == s.deviceId
  {
  }

  /** A read message either comes down the reader's own line, or travels under a
      preamble, and then down its author's; the session left comes down the message's. */
  lemma ReadKeepsLine(w: Pair, i: nat, mint: nat)
    requires Lined(w) && i < |w.posts| && ReadAt(w, i, mint).Some?
    ensures var post, y := w.posts[i], !w.posts[i].from;
            var read := ReadAt(w, i, mint).value;
            && PostLined(w, i)
            && (post.start == Holds(w, y) || post.envelope.bound.k.Some?)
            && Of(read.session, StartKey(w, post.start)) && read.session.deviceId == IdAt(w, post.from)
            && (read.session.pending.Some? ==> y !in w.turned && post.envelope.bound.k.None?)
  {
    hide Fields, Of, Decrypt, Accept;
    assert PostLined(w, i);
    var e, y := w.posts[i].envelope, !w.posts[i].from;
    var s := Stored(DiskAt(w, y), IdAt(w, !y)).value;
    DecryptKeepsBase(s, StartKey(w, Holds(w, y)), Wire(e.bound), e.c, Fields(e.bound), mint);
    if e.bound.k.Some? {
      var me := DeviceAt(w, y).keys.(preKeys := DiskAt(w, y).preKeys);
      BuiltOf(e, me, mint);
    }
  }

  lemma BuiltOf(e: Envelope, me: Privates, mint: nat)
    requires e.Envelope?
    ensures var r := OpenAnew(e, me, mint);
            r.Some? ==> && e.c.Sealed? && Of(r.value.session, Base(e.c.key)) && r.value.session.pending == None
                        && r.value.session.deviceId == e.bound.s
  {
    hide Decrypt, Fields;
    if e.bound.k.Some? && Accept(e.bound.k.value, me, e.bound.s).Some? {
      var b := Accept(e.bound.k.value, me, e.bound.s).value;
      DecryptKeepsBase(b, b.rootKey, Wire(e.bound), e.c, Fields(e.bound), mint);
    }
  }

  lemma WrittenHolds(d: Disk, id: MessageId, read: Read, writes: nat)
    requires writes > 0
    ensures Stored(Written(d, id, read, writes), read.session.deviceId) == Some(read.session)
    ensures forall j :: j in Written(d, id, read, writes).texts ==> j in d.texts || j == id
  {
  }

  /** What an arrival that is read does to the reader's disk. */
  lemma ArrivedWrites(w: Pair, i: nat, mint: nat, writes: nat)
    requires Lined(w) && i < |w.posts| && ReadAt(w, i, mint).Some? && writes > 0 && i !in DiskAt(w, !w.posts[i].from).texts
    ensures var y := !w.posts[i].from;
            var v := ArrivedAt(w, i, mint, writes);
            && DiskAt(v, y) == Written(DiskAt(w, y), i, ReadAt(w, i, mint).value, writes)
            && DiskAt(v, !y) == DiskAt(w, !y) && v.posts == w.posts && PostLined(w, i)
            && v.left.keys == w.left.keys && v.right.keys == w.right.keys
            && v.turned == (if w.posts[i].envelope.bound.k.Some? then w.turned + {y} else w.turned)
  {
    hide Fields, Of, ReadAt, Delivered, Lined, Written;
    ReadKeepsLine(w, i, mint);
  }

  lemma ArrivedKeepsStarts(w: Pair, i: nat, mint: nat, writes: nat)
    requires i < |w.posts|
    ensures var v := ArrivedAt(w, i, mint, writes);
            v.ofLeft.log.start == w.ofLeft.log.start && v.ofRight.log.start == w.ofRight.log.start
  {
    hide ReadAt, Delivered, Written;
    var post := w.posts[i];
    if post.place < |TalkOf(w, post.start).packets| {
      DeliveryKeepsStart(TalkOf(w, post.start), post.place, mint);
    }
  }

  lemma ArrivedKeepsLined(w: Pair, i: nat, mint: nat, writes: nat)
    requires Lined(w) && i < |w.posts|
    ensures Lined(ArrivedAt(w, i, mint, writes)) && w.turned <= ArrivedAt(w, i, mint, writes).turned
    ensures ArrivedAt(w, i, mint, writes).posts == w.posts
  {
    hide Fields, Of, ReadAt, Delivered, Written;
    var y := !w.posts[i].from;
    if i !in DiskAt(w, y).texts && writes > 0 && ReadAt(w, i, mint).Some? {
      ReadKeepsLine(w, i, mint);
      ArrivedWrites(w, i, mint, writes);
      ArrivedKeepsStarts(w, i, mint, writes);
      WrittenHolds(DiskAt(w, y), i, ReadAt(w, i, mint).value, writes);
      var v := ArrivedAt(w, i, mint, writes);
      hide ArrivedAt;
      assert SideLined(w, true) && SideLined(w, false);
      assert SideLined(v, y);
      assert SideLined(v, !y);
      forall j: nat | j < |v.posts|
        ensures PostLined(v, j)
      {
        assert PostLined(w, j);
      }
    }
  }

  lemma MoveKeepsLined(w: Pair, move: Move)
    requires Lined(w) && May(w, move)
    ensures Lined(Moved(w, move)) && w.turned <= Moved(w, move).turned
    ensures |w.posts| <= |Moved(w, move).posts| && Moved(w, move).posts[..|w.posts|] == w.posts
  {
    hide Of, SaidAt, ArrivedAt;
    match move {
      case Says(x, text) => SaidKeepsLined(w, x, text);
      case Arrives(i, mint, writes) => ArrivedKeepsLined(w, i, mint, writes);
      case TopsUp(x, added) =>
        var v := Moved(w, move);
        forall i: nat | i < |v.posts|
          ensures PostLined(v, i)
        {
          assert PostLined(w, i);
        }
    }
  }

  lemma CrossingIsLined(left: Device, right: Device, ofLeft: KeyBundle, ofRight: KeyBundle,
                        el: nat, rl: nat, er: nat, rr: nat)
    requires Starting(left, right, ofLeft, ofRight, el, rl, er, rr)
    ensures Crossing(left, right, ofLeft, ofRight, el, rl, er, rr).Some?
    ensures Lined(Crossing(left, right, ofLeft, ofRight, el, rl, er, rr).value)
  {
    hide Inv, Of;
    BeginningHoldsInv(ofRight, Holder(right), left.keys.deviceId, el, rl);
    BeginningHoldsInv(ofLeft, Holder(left), right.keys.deviceId, er, rr);
    InitiateIsOf(ofRight, el, rl);
    InitiateIsOf(ofLeft, er, rr);
    BegunAgrees(ofRight, Holder(right), left.keys.deviceId, el, rl);
    BegunAgrees(ofLeft, Holder(left), right.keys.deviceId, er, rr);
    hide Published, Accept, Begun, Initiate;
  }

  lemma BegunAgrees(bundle: KeyBundle, me: Privates, theirDeviceId: string, ephemeral: nat, ratchet: nat)
    requires Published(bundle, me) && Begun(bundle, me, theirDeviceId, ephemeral, ratchet).Some?
    ensures var t := Begun(bundle, me, theirDeviceId, ephemeral, ratchet).value;
            && t.initiator == Initiate(bundle, ephemeral, ratchet) && t.initiator.deviceId == bundle.deviceId
            && t.initiator.rootKey.Root? && t.initiator.rootKey.root == t.log.start && t.log.start.Agreed?
            && t.log.start.signed == Agree(ephemeral, PublicKey(me.signedPreKey))
  {
  }

  lemma InitiateIsOf(bundle: KeyBundle, ephemeral: nat, ratchet: nat)
    ensures var s := Initiate(bundle, ephemeral, ratchet); s.rootKey.Root? && s.rootKey.root.Agreed? && Of(s, s.rootKey.root)
  {
  }

  /** Both devices hold what the other published and nothing of each other's, and their ephemeral secrets are new. */
  ghost predicate Starting(left: Device, right: Device, ofLeft: KeyBundle, ofRight: KeyBundle,
                           el: nat, rl: nat, er: nat, rr: nat)
  {
    && Published(ofLeft, Holder(left)) && Published(ofRight, Holder(right))
    && ofLeft.deviceId == left.keys.deviceId && ofRight.deviceId == right.keys.deviceId
    && rl != right.keys.signedPreKey && rr != left.keys.signedPreKey && el != er && el != left.keys.signedPreKey
    && left.disk.texts == map[] && right.disk.texts == map[]
  }

  // ── Once both have turned ─────────────────────────────────────────────────

  /** Everything posted from number `since` on is off the line its reader holds, unread and under no preamble. */
  ghost predicate Deaf(w: Pair, since: nat) {
    && Lined(w) && w.turned == {true, false} && since <= |w.posts|
    && forall i: nat {:trigger PostLined(w, i)} :: since <= i < |w.posts| ==>
         && PostLined(w, i)
         && w.posts[i].start != w.posts[i].from && w.posts[i].envelope.bound.k.None?
         && i !in DiskAt(w, !w.posts[i].from).texts
  }

  lemma DeafReadsNothing(w: Pair, since: nat, i: nat, mint: nat)
    requires Deaf(w, since) && since <= i < |w.posts|
    ensures ReadAt(w, i, mint) == None
  {
    hide Fields, Of, Reading;
    assert PostLined(w, i);
    if ReadAt(w, i, mint).Some? {
      ReadKeepsLine(w, i, mint);
    }
  }

  lemma MoveKeepsDeaf(w: Pair, since: nat, move: Move)
    requires Deaf(w, since) && May(w, move)
    ensures Deaf(Moved(w, move), since)
  {
    hide Of, Fields, Reading, Delivered, Sent;
    MoveKeepsLined(w, move);
    match move {
      case Says(x, text) =>
        SaidKeepsLined(w, x, text);
        var v := Moved(w, move);
        hide SaidAt;
        forall i: nat | since <= i < |v.posts|
          ensures PostLined(v, i) && v.posts[i].start != v.posts[i].from && v.posts[i].envelope.bound.k.None?
          ensures i !in DiskAt(v, !v.posts[i].from).texts
        {
          assert PostLined(v, i);
          if i < |w.posts| {
            assert PostLined(w, i) && v.posts[i] == w.posts[i];
          }
        }
      case Arrives(i, mint, writes) =>
        if since <= i {
          DeafReadsNothing(w, since, i, mint);
        }
        ArrivalKeepsDeaf(w, since, i, mint, writes);
      case TopsUp(x, added) =>
        var v := Moved(w, move);
        forall i: nat | since <= i < |v.posts|
          ensures PostLined(v, i) && v.posts[i].start != v.posts[i].from && v.posts[i].envelope.bound.k.None?
          ensures i !in DiskAt(v, !v.posts[i].from).texts
        {
          assert PostLined(w, i);
        }
    }
  }

  lemma ArrivalKeepsDeaf(w: Pair, since: nat, i: nat, mint: nat, writes: nat)
    requires Deaf(w, since) && i < |w.posts| && (since <= i ==> ReadAt(w, i, mint) == None)
    requires Lined(ArrivedAt(w, i, mint, writes))
    ensures Deaf(ArrivedAt(w, i, mint, writes), since)
  {
    hide Of, Fields, ReadAt, Delivered, Lined;
    var y := !w.posts[i].from;
    if i !in DiskAt(w, y).texts && writes > 0 && ReadAt(w, i, mint).Some? {
      ArrivedWrites(w, i, mint, writes);
      ArrivedKeepsStarts(w, i, mint, writes);
      WrittenHolds(DiskAt(w, y), i, ReadAt(w, i, mint).value, writes);
      var v := ArrivedAt(w, i, mint, writes);
      hide ArrivedAt, Written;
      forall j: nat | since <= j < |v.posts|
        ensures PostLined(v, j) && v.posts[j].start != v.posts[j].from && v.posts[j].envelope.bound.k.None?
        ensures j !in DiskAt(v, !v.posts[j].from).texts
      {
        assert PostLined(w, j);
      }
    }
  }

  /** Once each device has given its start up for the other's, nothing either says
      from then on is ever read, whatever else arrives, crashes or repeats. */
  lemma {:induction false} BothTurnedAreDeaf(w: Pair, since: nat, moves: seq<Move>, v: Pair, i: nat, mint: nat)
    requires Deaf(w, since) && Moves(w, moves, v) && since <= i < |v.posts|
    ensures v.turned == {true, false} && i !in DiskAt(v, !v.posts[i].from).texts && ReadAt(v, i, mint) == None
    decreases |moves|
  {
    if moves == [] {
      assert PostLined(v, i);
      DeafReadsNothing(v, since, i, mint);
    } else {
      hide Deaf, Moved, ReadAt;
      MoveKeepsDeaf(w, since, moves[0]);
      BothTurnedAreDeaf(Moved(w, moves[0]), since, moves[1..], v, i, mint);
    }
  }
}
