/**
 * Which topics of the bus a gateway node is on. It is on a topic for as long as
 * one of its sessions is, and some while longer; an event that removes somebody
 * takes their sessions off the conversation and, if that is a space, off its channels.
 */
module Subscriptions {
  import opened Wrappers

  type Id = string

  datatype Topic = ConversationTopic(id: Id) | UserTopic(id: Id)

  /** What a session is subscribed to, and the space each conversation sits in. */
  datatype Held = Held(conversations: set<Id>, parentOf: map<Id, Option<Id>>)

  const NOTHING := Held({}, map[])

  class Session {
    const user: Id
    const device: Id
    var conversations: set<Id>
    var parentOf: map<Id, Option<Id>>

    constructor (user: Id, device: Id)
      ensures this.user == user && this.device == device && AsHeld() == NOTHING
    {
      this.user, this.device, conversations, parentOf := user, device, {}, map[];
    }

    function AsHeld(): Held
      reads this
    {
      Held(conversations, parentOf)
    }
  }

  /** Who wants each topic, the topics with a remembered unsubscribe timer, the
      timers that will still go off, and what the bus delivers.

      A handle is only ever dropped or cleared, and any of a topic's timers going
      off drops it, so which of them a handle names makes no difference. */
  datatype Room = Room(
    topics: map<Topic, set<Session>>,
    pending: set<Topic>,
    timers: multiset<Topic>,
    bus: set<Topic>)

  /** One node: its topics, what each session holds, and the sessions the server has registered. */
  datatype Node = Node(room: Room, held: map<Session, Held>, registered: set<Session>)

  const EMPTY := Node(Room(map[], {}, multiset{}, {}), map[], {})

  function HeldBy(n: Node, s: Session): Held {
    if s in n.held then n.held[s] else NOTHING
  }

  predicate On(r: Room, s: Session, topic: Topic) {
    topic in r.topics && s in r.topics[topic]
  }

  /** What a session's own index says about a topic. */
  predicate Wants(n: Node, s: Session, topic: Topic) {
    match topic
    case ConversationTopic(c) => c in HeldBy(n, s).conversations
    case UserTopic(u) => u == s.user && s in n.registered
  }

  // ── Topics and timers ─────────────────────────────────────────────────────

  /** `reachable` says whether the bus takes a new subscription. */
  function Added(r: Room, topic: Topic, s: Session, reachable: bool): (Room, bool) {
    var m :=
      if topic in r.pending then r.(pending := r.pending - {topic}, timers := r.timers - multiset{topic}) else r;
    if topic in m.topics then (m.(topics := m.topics[topic := m.topics[topic] + {s}]), true)
    else if reachable then (m.(topics := m.topics[topic := {s}], bus := m.bus + {topic}), true)
    else (m, false)
  }

  function Removed(r: Room, topic: Topic, s: Session): Room {
    if topic !in r.topics then r
    else
      var rest := r.topics[topic] - {s};
      var m := r.(topics := r.topics[topic := rest]);
      if rest != {} then m else m.(pending := m.pending + {topic}, timers := m.timers + multiset{topic})
  }

  function Fired(r: Room, topic: Topic): Room {
    var m := r.(timers := r.timers - multiset{topic}, pending := r.pending - {topic});
    if topic in m.topics && m.topics[topic] != {} then m
    else m.(topics := m.topics - {topic}, bus := m.bus - {topic})
  }

  predicate Among(topic: Topic, ids: set<Id>) {
    topic.ConversationTopic? && topic.id in ids
  }

  /** The topics among these conversations that one session leaving would leave with nobody. */
  function Emptied(r: Room, s: Session, ids: set<Id>): set<Topic> {
    set t | t in r.topics && Among(t, ids) && r.topics[t] - {s} == {}
  }

  /** One session taken off many conversations at once. */
  function Without(r: Room, s: Session, ids: set<Id>): Room {
    Room(
      Left(r.topics, s, ids),
      r.pending + Emptied(r, s, ids),
      r.timers + multiset(Emptied(r, s, ids)),
      r.bus)
  }

  lemma WithoutNone(r: Room, s: Session)
    ensures Without(r, s, {}) == r
  {
    assert Emptied(r, s, {}) == {};
    assert Without(r, s, {}).topics == r.topics;
  }

  lemma EmptiedOneMore(r: Room, s: Session, ids: set<Id>, id: Id)
    requires id !in ids
    ensures var t := ConversationTopic(id);
            var more := if t in r.topics && r.topics[t] - {s} == {} then {t} else {};
            && Emptied(r, s, ids + {id}) == Emptied(r, s, ids) + more
            && multiset(Emptied(r, s, ids + {id})) == multiset(Emptied(r, s, ids)) + multiset(more)
  {
    var t := ConversationTopic(id);
    var more := if t in r.topics && r.topics[t] - {s} == {} then {t} else {};
    assert forall x :: Among(x, ids + {id}) <==> Among(x, ids) || x == t;
    assert Emptied(r, s, ids + {id}) == Emptied(r, s, ids) + more;
    assert Emptied(r, s, ids) !! more;
  }

  function Left(topics: map<Topic, set<Session>>, s: Session, ids: set<Id>): map<Topic, set<Session>> {
    map t | t in topics :: if Among(t, ids) then topics[t] - {s} else topics[t]
  }

  lemma LeftOneMore(topics: map<Topic, set<Session>>, s: Session, ids: set<Id>, id: Id)
    requires id !in ids
    ensures var t := ConversationTopic(id);
            && (t in topics ==> Left(topics, s, ids)[t] == topics[t])
            && Left(topics, s, ids + {id}) ==
               if t in topics then Left(topics, s, ids)[t := topics[t] - {s}] else Left(topics, s, ids)
  {
    assert forall x :: Among(x, ids + {id}) <==> Among(x, ids) || x == ConversationTopic(id);
  }

  /** Taking a session off one conversation after another adds up, in any order. */
  lemma WithoutOneMore(r: Room, s: Session, ids: set<Id>, id: Id)
    requires id !in ids
    ensures Removed(Without(r, s, ids), ConversationTopic(id), s) == Without(r, s, ids + {id})
  {
    EmptiedOneMore(r, s, ids, id);
    LeftOneMore(r.topics, s, ids, id);
    var t, e := ConversationTopic(id), Emptied(r, s, ids);
    hide Emptied, Left;
    if t in r.topics && r.topics[t] - {s} == {} {
      assert r.pending + e + {t} == r.pending + (e + {t});
      assert multiset({t}) == multiset{t};
      assert r.timers + multiset(e) + multiset{t} == r.timers + (multiset(e) + multiset{t});
    } else {
      assert e + {} == e;
    }
  }

  // ── Sessions ──────────────────────────────────────────────────────────────

  function Greeted(n: Node, s: Session, reachable: bool): Node {
    var (room, done) := Added(n.room, UserTopic(s.user), s, reachable);
    n.(room := room, registered := if done then n.registered + {s} else n.registered)
  }

  function More(h: Held, id: Id, parent: Option<Id>): Held {
    Held(h.conversations + {id}, h.parentOf[id := parent])
  }

  function Less(h: Held, ids: set<Id>): Held {
    Held(h.conversations - ids, h.parentOf - ids)
  }

  lemma LessOneMore(h: Held, ids: set<Id>, id: Id)
    ensures Less(Less(h, ids), {id}) == Less(h, ids + {id})
    ensures Less(h, ids).conversations == h.conversations - ids
  {
    assert h.conversations - ids - {id} == h.conversations - (ids + {id});
    assert h.parentOf - ids - {id} == h.parentOf - (ids + {id});
  }

  lemma OneFewer(done: set<Id>, rest: set<Id>, all: set<Id>, id: Id)
    requires done !! rest && id in rest
    ensures var after := if id in all then done + {id} else done;
            after !! rest - {id} && after + (rest - {id}) * all == done + rest * all
  {
  }

  function Subscribed(n: Node, s: Session, id: Id, parent: Option<Id>, reachable: bool): Node {
    var (room, done) := Added(n.room, ConversationTopic(id), s, reachable);
    n.(room := room, held := if done then n.held[s := More(HeldBy(n, s), id, parent)] else n.held)
  }

  function Unsubscribed(n: Node, s: Session, id: Id): Node {
    n.(room := Removed(n.room, ConversationTopic(id), s), held := n.held[s := Less(HeldBy(n, s), {id})])
  }

  /** What a session loses with a conversation: that one, and the channels under it that the session holds. */
  function Gone(h: Held, id: Id): set<Id> {
    set c | c in h.conversations && (c == id || (c in h.parentOf && h.parentOf[c] == Some(id)))
  }

  function Dropped(n: Node, s: Session, id: Id): Node {
    var h := HeldBy(n, s);
    n.(room := Without(n.room, s, Gone(h, id)), held := n.held[s := Less(h, Gone(h, id))])
  }

  /** A session's own topic and all its conversations. */
  function Cleared(r: Room, s: Session, h: Held): Room {
    Without(Removed(r, UserTopic(s.user), s), s, h.conversations)
  }

  function Destroyed(n: Node, s: Session): Node {
    if s !in n.registered then n
    else Node(Cleared(n.room, s, HeldBy(n, s)), n.held[s := NOTHING], n.registered - {s})
  }

  // ── Events ────────────────────────────────────────────────────────────────

  datatype Event =
    | MemberRemove(conversationId: Id, userId: Id)
    | ConversationDelete(id: Id)
    | SessionRevoked(deviceId: Id)
    | Other

  datatype Message = Message(event: Event, exclude: set<Id>, excludeDevice: Option<Id>)

  function Interested(r: Room, topic: Topic): set<Session> {
    if topic in r.topics then r.topics[topic] else {}
  }

  predicate Skipped(m: Message, s: Session) {
    || s.user in m.exclude
    || (m.excludeDevice.Some? && m.excludeDevice.value != "" && s.device == m.excludeDevice.value)
  }

  function Recipients(r: Room, topic: Topic, m: Message): set<Session> {
    set s | s in Interested(r, topic) && !Skipped(m, s)
  }

  /** What an event takes from a session, once it has been delivered. */
  function Evicted(n: Node, s: Session, event: Event): Node {
    match event
    case MemberRemove(c, u) => if c != "" && u != "" && s.user == u then Dropped(n, s, c) else n
    case ConversationDelete(c) => if c != "" then Dropped(n, s, c) else n
    case SessionRevoked(d) => if d != "" && s.device == d then Destroyed(n, s) else n
    case Other => n
  }

  /** The same, for the sessions on the topic in the order they are visited. */
  function Handled(n: Node, order: seq<Session>, event: Event): Node {
    if order == [] then n
    else Evicted(Handled(n, order[..|order| - 1], event), order[|order| - 1], event)
  }

  predicate Lists(order: seq<Session>, sessions: set<Session>) {
    && (forall s :: s in sessions ==> s in order)
    && (forall s :: s in order ==> s in sessions)
    && (forall i, j :: 0 <= i < j < |order| ==> order[i] != order[j])
  }

  // ── The node itself ───────────────────────────────────────────────────────

  class SubscriptionManager {
    var topics: map<Topic, set<Session>>
    var pendingUnsubscribe: set<Topic>
    var timers: multiset<Topic>
    var bus: set<Topic>
    /** The server's own map, reached through the revocation callback. */
    var registered: set<Session>

    constructor ()
      ensures AsRoom() == EMPTY.room && registered == {}
    {
      topics, pendingUnsubscribe, timers, bus, registered := map[], {}, multiset{}, {}, {};
    }

    ghost function AsRoom(): Room
      reads this
    {
      Room(topics, pendingUnsubscribe, timers, bus)
    }

    method Add(topic: Topic, s: Session, reachable: bool) returns (done: bool)
      modifies this`topics, this`pendingUnsubscribe, this`timers, this`bus
      ensures (AsRoom(), done) == Added(old(AsRoom()), topic, s, reachable)
    {
      if topic in pendingUnsubscribe {
        timers := timers - multiset{topic};
        pendingUnsubscribe := pendingUnsubscribe - {topic};
      }
      if topic !in topics {
        topics := topics[topic := {}];
        if !reachable {
          topics := topics - {topic};
          assert topics == old(topics);
          return false;
        }
        bus := bus + {topic};
      }
      topics := topics[topic := topics[topic] + {s}];
      assert {} + {s} == {s};
      assert topic !in old(topics) ==> topics == old(topics)[topic := {s}];
      done := true;
    }

    method Remove(topic: Topic, s: Session)
      modifies this`topics, this`pendingUnsubscribe, this`timers
      ensures AsRoom() == Removed(old(AsRoom()), topic, s)
    {
      if topic !in topics {
        return;
      }
      topics := topics[topic := topics[topic] - {s}];
      if topics[topic] != {} {
        return;
      }
      timers := timers + multiset{topic};
      pendingUnsubscribe := pendingUnsubscribe + {topic};
    }

    method Fire(topic: Topic)
      requires topic in timers
      modifies this`topics, this`pendingUnsubscribe, this`timers, this`bus
      ensures AsRoom() == Fired(old(AsRoom()), topic)
    {
      timers := timers - multiset{topic};
      pendingUnsubscribe := pendingUnsubscribe - {topic};
      if topic in topics && topics[topic] != {} {
        return;
      }
      topics := topics - {topic};
      bus := bus - {topic};
    }

    method AddUser(s: Session, reachable: bool) returns (done: bool)
      modifies this
      ensures (AsRoom(), done) == Added(old(AsRoom()), UserTopic(s.user), s, reachable)
      ensures registered == if done then old(registered) + {s} else old(registered)
    {
      done := Add(UserTopic(s.user), s, reachable);
      if done {
        registered := registered + {s};
      }
    }

    method Subscribe(s: Session, id: Id, parent: Option<Id>, reachable: bool) returns (done: bool)
      modifies this`topics, this`pendingUnsubscribe, this`timers, this`bus, s
      ensures (AsRoom(), done) == Added(old(AsRoom()), ConversationTopic(id), s, reachable)
      ensures s.AsHeld() == if done then More(old(s.AsHeld()), id, parent) else old(s.AsHeld())
    {
      done := Add(ConversationTopic(id), s, reachable);
      if done {
        s.conversations := s.conversations + {id};
        s.parentOf := s.parentOf[id := parent];
      }
    }

    method Unsubscribe(s: Session, id: Id)
      modifies this`topics, this`pendingUnsubscribe, this`timers, s
      ensures AsRoom() == Removed(old(AsRoom()), ConversationTopic(id), s)
      ensures s.AsHeld() == Less(old(s.AsHeld()), {id})
    {
      Remove(ConversationTopic(id), s);
      s.conversations := s.conversations - {id};
      s.parentOf := s.parentOf - {id};
    }

    method DropConversation(s: Session, conversationId: Id)
      modifies this`topics, this`pendingUnsubscribe, this`timers, s
      ensures var h := old(s.AsHeld());
              && AsRoom() == Without(old(AsRoom()), s, Gone(h, conversationId))
              && s.AsHeld() == Less(h, Gone(h, conversationId))
    {
      var rest := {conversationId} + set id | id in s.parentOf && s.parentOf[id] == Some(conversationId);
      ghost var was, h := AsRoom(), s.AsHeld();
      ghost var ids, done: set<Id> := Gone(h, conversationId), {};
      assert ids == done + rest * h.conversations;
      assert Less(h, done) == h by {
        assert h.conversations - done == h.conversations && h.parentOf - done == h.parentOf;
      }
      WithoutNone(was, s);
      hide Without, Removed, Gone, Less;
      while rest != {}
        invariant done !! rest && ids == done + rest * h.conversations
        invariant s.AsHeld() == Less(h, done) && AsRoom() == Without(was, s, done)
        decreases rest
      {
        var id :| id in rest;
        ghost var after := if id in h.conversations then done + {id} else done;
        LessOneMore(h, done, id);
        OneFewer(done, rest, h.conversations, id);
        rest := rest - {id};
        if id in s.conversations {
          WithoutOneMore(was, s, done, id);
          Unsubscribe(s, id);
        }
        done := after;
      }
      assert done == ids;
    }

    method RemoveAll(s: Session)
      modifies this`topics, this`pendingUnsubscribe, this`timers, s
      ensures AsRoom() == Cleared(old(AsRoom()), s, old(s.AsHeld()))
      ensures s.AsHeld() == NOTHING
    {
      Remove(UserTopic(s.user), s);
      ghost var was, done: set<Id> := AsRoom(), {};
      var rest := s.conversations;
      WithoutNone(was, s);
      assert was == Removed(old(AsRoom()), UserTopic(s.user), s);
      hide Without, Removed;
      while rest != {}
        invariant done !! rest && done + rest == s.conversations && s.AsHeld() == old(s.AsHeld())
        invariant AsRoom() == Without(was, s, done)
        decreases rest
      {
        var id :| id in rest;
        rest := rest - {id};
        WithoutOneMore(was, s, done, id);
        Remove(ConversationTopic(id), s);
        done := done + {id};
      }
      assert done == s.conversations;
      s.conversations, s.parentOf := {}, map[];
    }

    /** The server closes and forgets a session whose device was revoked. */
    method Destroy(s: Session)
      modifies this, s
      ensures registered == old(registered) - {s}
      ensures AsRoom() == if s in old(registered) then Cleared(old(AsRoom()), s, old(s.AsHeld())) else old(AsRoom())
      ensures s.AsHeld() == if s in old(registered) then NOTHING else old(s.AsHeld())
    {
      if s in registered {
        RemoveAll(s);
        registered := registered - {s};
      }
    }

    ghost function AsNode(all: set<Session>): Node
      reads this, all
    {
      Node(AsRoom(), map s | s in all :: s.AsHeld(), registered)
    }

    method Evict(s: Session, event: Event, ghost all: set<Session>)
      requires s in all
      modifies this, s
      ensures AsNode(all) == Evicted(old(AsNode(all)), s, event)
    {
      hide Without, Gone, Less, Cleared;
      match event {
        case MemberRemove(c, u) => if c != "" && u != "" && s.user == u { DropConversation(s, c); }
        case ConversationDelete(c) => if c != "" { DropConversation(s, c); }
        case SessionRevoked(d) => if d != "" && s.device == d { Destroy(s); }
        case Other =>
      }
      assert AsNode(all).held == old(AsNode(all)).held[s := s.AsHeld()];
    }

    /** What the bus calls: deliver to everyone on the topic, then take back what the event revokes. */
    method Handle(topic: Topic, m: Message, ghost all: set<Session>)
      returns (sent: set<Session>, ghost order: seq<Session>)
      requires Interested(AsRoom(), topic) <= all
      modifies this, all
      ensures Lists(order, old(Interested(AsRoom(), topic)))
      ensures sent == old(Recipients(AsRoom(), topic, m))
      ensures forall s :: s in sent <==>
                s in old(Interested(AsRoom(), topic)) && s.user !in m.exclude
                && (m.excludeDevice.None? || m.excludeDevice.value == "" || s.device != m.excludeDevice.value)
      ensures AsNode(all) == Handled(old(AsNode(all)), order, m.event)
    {
      var sessions := if topic in topics then topics[topic] else {};
      sent := set s | s in sessions && !Skipped(m, s);
      assert sent == Recipients(AsRoom(), topic, m);
      ghost var was := AsNode(all);
      order := [];
      var rest := sessions;
      hide AsNode, Evicted, Skipped;
      while rest != {}
        invariant rest <= sessions && (forall s :: s in sessions <==> s in rest || s in order)
        invariant forall s :: s in order ==> s !in rest
        invariant forall i, j :: 0 <= i < j < |order| ==> order[i] != order[j]
        invariant AsNode(all) == Handled(was, order, m.event)
        decreases rest
      {
        var s :| s in rest;
        rest := rest - {s};
        Evict(s, m.event, all);
        assert (order + [s])[..|order|] == order;
        order := order + [s];
      }
    }
  }

  // ── Every run ─────────────────────────────────────────────────────────────

  datatype Action =
    | Greet(s: Session, reachable: bool)
    | Subscribe(s: Session, id: Id, parent: Option<Id>, reachable: bool)
    | Unsubscribe(s: Session, id: Id)
    | Destroy(s: Session)
    | Fire(topic: Topic)
    | Publish(topic: Topic, m: Message, order: seq<Session>)

  predicate Enabled(n: Node, a: Action) {
    match a
    case Fire(t) => t in n.room.timers
    case Publish(t, _, order) => t in n.room.bus && Lists(order, Interested(n.room, t))
    case _ => true
  }

  function After(n: Node, a: Action): Node {
    match a
    case Greet(s, reachable) => Greeted(n, s, reachable)
    case Subscribe(s, id, parent, reachable) => Subscribed(n, s, id, parent, reachable)
    case Unsubscribe(s, id) => Unsubscribed(n, s, id)
    case Destroy(s) => Destroyed(n, s)
    case Fire(t) => n.(room := Fired(n.room, t))
    case Publish(_, m, order) => Handled(n, order, m.event)
  }

  /** The bus delivers exactly the topics the node has, and a topic nobody wants
      is exactly one with an unsubscribe timer remembered, and still running. */
  predicate TimedAt(r: Room, t: Topic) {
    && (t in r.bus <==> t in r.topics)
    && (t in r.pending <==> t in r.topics && r.topics[t] == {})
    && (t in r.pending ==> t in r.timers)
  }

  ghost predicate Timed(r: Room) {
    forall t :: TimedAt(r, t)
  }

  /** Topics and sessions agree about who is subscribed to what. */
  ghost predicate Indexed(n: Node) {
    && (forall t, s :: t in n.room.topics && s in n.room.topics[t] ==> Wants(n, s, t))
    && (forall s, c :: s in n.held && c in n.held[s].conversations ==> On(n.room, s, ConversationTopic(c)))
    && (forall s :: s in n.registered ==> On(n.room, s, UserTopic(s.user)))
    && (forall s :: s in n.held ==> n.held[s].parentOf.Keys == n.held[s].conversations)
  }

  ghost predicate Inv(n: Node) {
    Timed(n.room) && Indexed(n)
  }

  lemma IndexedBothWays(n: Node, s: Session, t: Topic)
    requires Indexed(n)
    ensures On(n.room, s, t) <==> Wants(n, s, t)
  {
  }

  lemma AddedKeeps(r: Room, topic: Topic, s: Session, reachable: bool)
    requires Timed(r)
    ensures Timed(Added(r, topic, s, reachable).0)
    ensures forall x, t :: On(Added(r, topic, s, reachable).0, x, t) <==>
                           On(r, x, t) || (Added(r, topic, s, reachable).1 && x == s && t == topic)
  {
    assert TimedAt(r, topic);
    var q := Added(r, topic, s, reachable).0;
    assert TimedAt(q, topic);
    forall t
      ensures TimedAt(q, t)
    {
      assert TimedAt(r, t);
    }
  }

  lemma RemovedKeeps(r: Room, topic: Topic, s: Session)
    requires Timed(r)
    ensures Timed(Removed(r, topic, s))
    ensures forall x, t :: On(Removed(r, topic, s), x, t) <==> On(r, x, t) && !(x == s && t == topic)
  {
    assert TimedAt(r, topic);
    forall t
      ensures TimedAt(Removed(r, topic, s), t)
    {
      assert TimedAt(r, t);
    }
  }

  lemma FiredKeeps(r: Room, topic: Topic)
    requires Timed(r)
    ensures Timed(Fired(r, topic))
    ensures forall x, t :: On(Fired(r, topic), x, t) <==> On(r, x, t)
  {
    assert TimedAt(r, topic);
    forall t
      ensures TimedAt(Fired(r, topic), t)
    {
      assert TimedAt(r, t);
    }
  }

  lemma WithoutKeeps(r: Room, s: Session, ids: set<Id>)
    requires Timed(r)
    ensures Timed(Without(r, s, ids))
    ensures forall x, t :: On(Without(r, s, ids), x, t) <==> On(r, x, t) && !(x == s && Among(t, ids))
  {
    forall t
      ensures TimedAt(Without(r, s, ids), t)
    {
      assert TimedAt(r, t);
    }
  }

  lemma GreetKeeps(n: Node, s: Session, reachable: bool)
    requires Inv(n)
    ensures Inv(Greeted(n, s, reachable))
  {
    AddedKeeps(n.room, UserTopic(s.user), s, reachable);
    hide Timed, Added;
  }

  lemma MoreIndexed(n: Node, m: Node, s: Session, id: Id, parent: Option<Id>)
    requires Indexed(n)
    requires m.held == n.held[s := More(HeldBy(n, s), id, parent)] && m.registered == n.registered
    requires forall x, t :: On(m.room, x, t) <==> On(n.room, x, t) || (x == s && t == ConversationTopic(id))
    ensures Indexed(m)
  {
    forall t, x | On(m.room, x, t)
      ensures Wants(m, x, t)
    {
      assert (x == s && t == ConversationTopic(id)) || Wants(n, x, t);
    }
    forall x | x in m.held
      ensures m.held[x].parentOf.Keys == m.held[x].conversations
    {
      assert x != s ==> m.held[x] == n.held[x];
    }
  }

  lemma SubscribeKeeps(n: Node, s: Session, id: Id, parent: Option<Id>, reachable: bool)
    requires Inv(n)
    ensures Inv(Subscribed(n, s, id, parent, reachable))
  {
    AddedKeeps(n.room, ConversationTopic(id), s, reachable);
    var m := Subscribed(n, s, id, parent, reachable);
    hide Timed, Added;
    if Added(n.room, ConversationTopic(id), s, reachable).1 {
      hide Indexed, More, HeldBy, On;
      MoreIndexed(n, m, s, id, parent);
    } else {
      assert forall t, x :: On(m.room, x, t) ==> On(n.room, x, t);
    }
  }

  lemma UnsubscribeKeeps(n: Node, s: Session, id: Id)
    requires Inv(n)
    ensures Inv(Unsubscribed(n, s, id))
  {
    RemovedKeeps(n.room, ConversationTopic(id), s);
    hide Timed, Removed;
  }

  lemma DropKeeps(n: Node, s: Session, id: Id)
    requires Inv(n)
    ensures Inv(Dropped(n, s, id))
  {
    WithoutKeeps(n.room, s, Gone(HeldBy(n, s), id));
    hide Timed, Without, Gone;
  }

  lemma ClearedKeeps(n: Node, s: Session)
    requires Inv(n)
    ensures Timed(Cleared(n.room, s, HeldBy(n, s)))
    ensures forall x, t :: On(Cleared(n.room, s, HeldBy(n, s)), x, t) <==> On(n.room, x, t) && x != s
  {
    var gone := Removed(n.room, UserTopic(s.user), s);
    RemovedKeeps(n.room, UserTopic(s.user), s);
    WithoutKeeps(gone, s, HeldBy(n, s).conversations);
    hide Timed, Without, Removed;
    forall t
      ensures !On(Without(gone, s, HeldBy(n, s).conversations), s, t)
    {
      IndexedBothWays(n, s, t);
    }
  }

  lemma DestroyKeeps(n: Node, s: Session)
    requires Inv(n)
    ensures Inv(Destroyed(n, s))
  {
    if s in n.registered {
      ClearedKeeps(n, s);
      hide Timed, Cleared;
    }
  }

  lemma FireKeeps(n: Node, t: Topic)
    requires Inv(n)
    ensures Inv(n.(room := Fired(n.room, t)))
  {
    FiredKeeps(n.room, t);
    hide Timed, Fired;
  }

  lemma {:induction false} HandleKeeps(n: Node, order: seq<Session>, event: Event)
    requires Inv(n)
    ensures Inv(Handled(n, order, event))
  {
    if order != [] {
      var m, s := Handled(n, order[..|order| - 1], event), order[|order| - 1];
      HandleKeeps(n, order[..|order| - 1], event);
      hide Inv, Dropped, Destroyed;
      match event
      case MemberRemove(c, _) => DropKeeps(m, s, c);
      case ConversationDelete(c) => DropKeeps(m, s, c);
      case SessionRevoked(_) => DestroyKeeps(m, s);
      case Other =>
    }
  }

  lemma StepKeeps(n: Node, a: Action)
    requires Inv(n) && Enabled(n, a)
    ensures Inv(After(n, a))
  {
    hide Inv;
    match a
    case Greet(s, reachable) => GreetKeeps(n, s, reachable);
    case Subscribe(s, id, parent, reachable) => SubscribeKeeps(n, s, id, parent, reachable);
    case Unsubscribe(s, id) => UnsubscribeKeeps(n, s, id);
    case Destroy(s) => DestroyKeeps(n, s);
    case Fire(t) => FireKeeps(n, t);
    case Publish(_, m, order) => HandleKeeps(n, order, m.event);
  }

  predicate Run(n: Node, actions: seq<Action>, last: Node)
    decreases |actions|
  {
    if actions == [] then last == n
    else Enabled(n, actions[0]) && Run(After(n, actions[0]), actions[1..], last)
  }

  lemma {:induction false} RunsKeep(n: Node, actions: seq<Action>, last: Node)
    requires Inv(n) && Run(n, actions, last)
    ensures Inv(last)
    decreases |actions|
  {
    if actions != [] {
      StepKeeps(n, actions[0]);
      hide Inv;
      RunsKeep(After(n, actions[0]), actions[1..], last);
    }
  }

  /** Whatever sessions did and whichever timers went off, leftover ones too: an
      event on a conversation goes to exactly the sessions holding it, less the
      accounts it excludes and the one device it names, and a conversation
      somebody holds is never unsubscribed. */
  lemma ReachesExactly(actions: seq<Action>, n: Node, s: Session, id: Id, m: Message)
    requires Run(EMPTY, actions, n)
    ensures s in Recipients(n.room, ConversationTopic(id), m) <==>
            && id in HeldBy(n, s).conversations && s.user !in m.exclude
            && !(m.excludeDevice.Some? && m.excludeDevice.value != "" && s.device == m.excludeDevice.value)
    ensures id in HeldBy(n, s).conversations ==> ConversationTopic(id) in n.room.bus
    ensures s in Recipients(n.room, UserTopic(s.user), m) <==>
            && s in n.registered && s.user !in m.exclude
            && !(m.excludeDevice.Some? && m.excludeDevice.value != "" && s.device == m.excludeDevice.value)
    ensures s in n.registered ==> UserTopic(s.user) in n.room.bus
  {
    RunsKeep(EMPTY, actions, n);
    IndexedBothWays(n, s, ConversationTopic(id));
    IndexedBothWays(n, s, UserTopic(s.user));
    assert TimedAt(n.room, ConversationTopic(id)) && TimedAt(n.room, UserTopic(s.user));
  }

  /** An event that names the device it came from goes to the account's other devices and not to that one. */
  lemma OtherDevicesHear(actions: seq<Action>, n: Node, s: Session, t: Session, id: Id, m: Message)
    requires Run(EMPTY, actions, n)
    requires id in HeldBy(n, s).conversations && id in HeldBy(n, t).conversations
    requires s.user == t.user && s.user !in m.exclude && m.excludeDevice == Some(s.device) && s.device != ""
    ensures s !in Recipients(n.room, ConversationTopic(id), m)
    ensures t.device != s.device ==> t in Recipients(n.room, ConversationTopic(id), m)
  {
    ReachesExactly(actions, n, s, id, m);
    ReachesExactly(actions, n, t, id, m);
  }

  /** Asking for a conversation holds it, and where it sits, if and only if the
      node is on its topic already or the bus takes it on; nobody else's holdings move. */
  lemma SubscribingHolds(n: Node, s: Session, id: Id, parent: Option<Id>, reachable: bool)
    requires Inv(n)
    ensures var w := After(n, Subscribe(s, id, parent, reachable));
            var taken := ConversationTopic(id) in n.room.topics || reachable;
            && HeldBy(w, s) == (if taken then Held(HeldBy(n, s).conversations + {id}, HeldBy(n, s).parentOf[id := parent])
                                else HeldBy(n, s))
            && (forall x :: x != s ==> HeldBy(w, x) == HeldBy(n, x)) && w.registered == n.registered
            && (!taken ==> w == n)
  {
    assert TimedAt(n.room, ConversationTopic(id));
  }

  /** And letting it go lets go of it alone. */
  lemma UnsubscribingLetsGo(n: Node, s: Session, id: Id)
    ensures var w := After(n, Unsubscribe(s, id));
            && HeldBy(w, s).conversations == HeldBy(n, s).conversations - {id}
            && HeldBy(w, s).parentOf == HeldBy(n, s).parentOf - {id}
            && (forall x :: x != s ==> HeldBy(w, x) == HeldBy(n, x)) && w.registered == n.registered
  {
  }

  /** A session is registered, on its account's topic, exactly when that topic is there or the bus takes it on. */
  lemma GreetingRegisters(n: Node, s: Session, reachable: bool)
    ensures var w := After(n, Greet(s, reachable));
            && w.registered == n.registered + (if UserTopic(s.user) in n.room.topics || reachable then {s} else {})
            && w.held == n.held
  {
  }

  lemma {:induction false} HandlingKeepsBus(n: Node, order: seq<Session>, event: Event)
    ensures Handled(n, order, event).room.bus == n.room.bus
  {
    if order != [] {
      HandlingKeepsBus(n, order[..|order| - 1], event);
    }
  }

  /** Nothing but a timer of its own takes a topic off the bus: somebody who asks
      again before one goes off needs nothing from the bus. */
  lemma OnlyTimersUnsubscribe(n: Node, a: Action, t: Topic)
    requires Inv(n) && Enabled(n, a) && t in n.room.bus && a != Fire(t)
    ensures t in After(n, a).room.bus
  {
    if a.Publish? {
      HandlingKeepsBus(n, a.order, a.m.event);
    }
  }

  // ── Removal ───────────────────────────────────────────────────────────────

  /** The conversation, and each channel the session's index puts under it. */
  predicate Under(h: Held, c: Id, space: Id) {
    c == space || (c in h.parentOf && h.parentOf[c] == Some(space))
  }

  /** Who an event takes the conversation from. */
  predicate Loses(s: Session, event: Event, space: Id) {
    match event
    case MemberRemove(c, u) => c == space && c != "" && u != "" && s.user == u
    case ConversationDelete(c) => c == space && c != ""
    case _ => false
  }

  lemma {:induction false} HandledHolds(n: Node, order: seq<Session>, event: Event, space: Id, s: Session)
    requires event.MemberRemove? || event.ConversationDelete?
    requires space == if event.MemberRemove? then event.conversationId else event.id
    requires forall i, j :: 0 <= i < j < |order| ==> order[i] != order[j]
    ensures var h := HeldBy(n, s);
            HeldBy(Handled(n, order, event), s) ==
            if s in order && Loses(s, event, space) then Less(h, Gone(h, space)) else h
  {
    if order != [] {
      HandledHolds(n, order[..|order| - 1], event, space, s);
      hide Gone, Without, Less;
    }
  }

  /** A kick or a deletion on a topic: each session it concerns loses the
      conversation and every channel of it, nothing else, and nobody else loses
      anything. A session of that person which was not on the topic keeps what it holds. */
  lemma RemovalTakesChannels(n: Node, topic: Topic, m: Message, order: seq<Session>, space: Id, s: Session, c: Id)
    requires Inv(n) && Lists(order, Interested(n.room, topic))
    requires m.event.MemberRemove? || m.event.ConversationDelete?
    requires space == if m.event.MemberRemove? then m.event.conversationId else m.event.id
    ensures On(Handled(n, order, m.event).room, s, ConversationTopic(c)) <==>
            && On(n.room, s, ConversationTopic(c))
            && !(On(n.room, s, topic) && Loses(s, m.event, space) && Under(HeldBy(n, s), c, space))
  {
    var after := Handled(n, order, m.event);
    HandleKeeps(n, order, m.event);
    HandledHolds(n, order, m.event, space, s);
    hide Handled;
    IndexedBothWays(n, s, ConversationTopic(c));
    IndexedBothWays(after, s, ConversationTopic(c));
  }

  lemma {:induction false} RevokedIsGone(n: Node, order: seq<Session>, device: Id, s: Session)
    requires Inv(n) && device != ""
    ensures var after := Handled(n, order, SessionRevoked(device));
            && after.registered == n.registered - (set x | x in order && x.device == device)
            && (s in order && s in n.registered && s.device == device ==> HeldBy(after, s) == NOTHING)
            && (HeldBy(after, s) == HeldBy(n, s) || HeldBy(after, s) == NOTHING)
  {
    if order != [] {
      RevokedIsGone(n, order[..|order| - 1], device, s);
      hide Cleared, Inv;
    }
  }

  /** Once its device is revoked, a session the event reached is on no topic at all. */
  lemma RevocationSilences(n: Node, topic: Topic, order: seq<Session>, device: Id, s: Session, t: Topic)
    requires Inv(n) && Lists(order, Interested(n.room, topic)) && device != ""
    requires s.device == device && On(n.room, s, topic) && s in n.registered
    ensures !On(Handled(n, order, SessionRevoked(device)).room, s, t)
  {
    RevokedIsGone(n, order, device, s);
    HandleKeeps(n, order, SessionRevoked(device));
    IndexedBothWays(Handled(n, order, SessionRevoked(device)), s, t);
  }

  predicate Resubscribes(a: Action, s: Session, id: Id) {
    a.Subscribe? && a.s == s && a.id == id
  }

  lemma {:induction false} HandledTakesOnly(n: Node, order: seq<Session>, event: Event, s: Session)
    ensures HeldBy(Handled(n, order, event), s).conversations <= HeldBy(n, s).conversations
  {
    if order != [] {
      HandledTakesOnly(n, order[..|order| - 1], event, s);
      hide Without, Cleared, Gone;
    }
  }

  /** A session taken off a conversation hears nothing of it until it asks for it again. */
  lemma {:induction false} OutStaysOut(n: Node, actions: seq<Action>, last: Node, s: Session, id: Id)
    requires Inv(n) && Run(n, actions, last)
    requires id !in HeldBy(n, s).conversations
    requires forall a :: a in actions ==> !Resubscribes(a, s, id)
    ensures id !in HeldBy(last, s).conversations && !On(last.room, s, ConversationTopic(id))
    decreases |actions|
  {
    if actions == [] {
      IndexedBothWays(n, s, ConversationTopic(id));
    } else {
      StepKeeps(n, actions[0]);
      assert !Resubscribes(actions[0], s, id);
      if actions[0].Publish? {
        HandledTakesOnly(n, actions[0].order, actions[0].m.event, s);
      }
      hide Inv, Handled, Without, Cleared, Added, Removed, Gone;
      OutStaysOut(After(n, actions[0]), actions[1..], last, s, id);
    }
  }

  // ── Letting go ────────────────────────────────────────────────────────────

  function FiredAll(r: Room, order: seq<Topic>): Room
    decreases |order|
  {
    if order == [] then r else FiredAll(Fired(r, order[0]), order[1..])
  }

  lemma FirstOff(order: seq<Topic>, r: Room)
    requires order != [] && multiset(order) == r.timers
    ensures multiset(order[1..]) == Fired(r, order[0]).timers
  {
    assert order == [order[0]] + order[1..];
  }

  /** No deferred unsubscribe is forgotten: when every timer has gone off, in any
      order, the bus delivers exactly the topics some session is on. */
  lemma {:induction false} TimersLetGo(r: Room, order: seq<Topic>)
    requires Timed(r) && multiset(order) == r.timers
    ensures var after := FiredAll(r, order);
            && (forall t :: t in after.bus <==> t in r.topics && r.topics[t] != {})
            && (forall s, t :: On(after, s, t) <==> On(r, s, t))
    decreases |order|
  {
    if order == [] {
      forall t
        ensures t in r.bus <==> t in r.topics && r.topics[t] != {}
      {
        assert TimedAt(r, t);
      }
    } else {
      var r' := Fired(r, order[0]);
      FirstOff(order, r);
      FiredKeeps(r, order[0]);
      assert forall t :: t in r'.topics && r'.topics[t] != {} <==> t in r.topics && r.topics[t] != {};
      hide Timed, Fired, On;
      TimersLetGo(r', order[1..]);
    }
  }
}
