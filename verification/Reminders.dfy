/**
 * The reminder bot: a list kept in memory and in a file that is replaced whole,
 * one write after another, and a timer for each reminder, across crashes.
 */
module Reminders {
  import opened Wrappers

  type Id = nat

  datatype Reminder = Reminder(id: Id, userId: string, text: string, dueAt: int)

  /** `setTimeout` goes wrong past this many milliseconds, so longer waits are chained. */
  const MAX_DELAY := 2_147_483_000

  /** A timer: when it was set, when it goes off, and whether it fires the reminder or only looks again. */
  datatype Timer = Timer(reminder: Reminder, setAt: int, wake: int, fires: bool)

  /** Who is waiting for a write, and what it will put in the file once it has begun. */
  datatype Waiter = AddWaits(reminder: Reminder) | CancelWaits(id: Id) | FireWaits(id: Id)

  datatype Write = Write(waiter: Waiter, body: Option<seq<Reminder>>)

  /** The process and its file. An add that has landed has been written, and has
      yet to go on and set its timer. */
  datatype Bot = Bot(
    now: int,
    zoneIsValid: bool,
    running: bool,
    state: seq<Reminder>,
    disk: seq<Reminder>,
    writing: seq<Write>,
    landed: set<Reminder>,
    timers: map<Id, Timer>,
    sending: set<Reminder>)

  // ── The store ─────────────────────────────────────────────────────────────

  function Without(list: seq<Reminder>, id: Id): seq<Reminder> {
    if list == [] then []
    else
      var front, last := Without(list[..|list| - 1], id), list[|list| - 1];
      if last.id == id then front else front + [last]
  }

  lemma {:induction false} WithoutLeaves(list: seq<Reminder>, id: Id)
    ensures forall r :: r in Without(list, id) <==> r in list && r.id != id
  {
    if list != [] {
      WithoutLeaves(list[..|list| - 1], id);
    }
  }

  function Find(list: seq<Reminder>, id: Id): (found: Option<Reminder>)
    ensures found.Some? ==> found.value in list && found.value.id == id
  {
    if list == [] then None
    else if list[0].id == id then Some(list[0])
    else Find(list[1..], id)
  }

  function Saving(b: Bot, next: seq<Reminder>, waiter: Waiter): Bot {
    b.(state := next, writing := b.writing + [Write(waiter, None)])
  }

  /** The file's new text is made from the state as it is when the write begins. */
  function Begun(b: Bot): Bot
    requires b.writing != []
  {
    b.(writing := b.writing[0 := b.writing[0].(body := Some(b.state))])
  }

  function Committed(b: Bot): Bot
    requires b.writing != [] && b.writing[0].body.Some?
  {
    var w := b.writing[0];
    b.(disk := w.body.value, writing := b.writing[1..],
       landed := if w.waiter.AddWaits? then b.landed + {w.waiter.reminder} else b.landed)
  }

  // ── Reminders ─────────────────────────────────────────────────────────────

  function TimerFor(now: int, r: Reminder): Timer {
    if r.dueAt - now > MAX_DELAY then Timer(r, now, now + MAX_DELAY, false)
    else Timer(r, now, if r.dueAt > now then r.dueAt else now, true)
  }

  function Scheduled(b: Bot, r: Reminder): Bot {
    b.(timers := b.timers[r.id := TimerFor(b.now, r)])
  }

  function AddCalled(b: Bot, r: Reminder): Bot {
    Saving(b, b.state + [r], AddWaits(r))
  }

  function AddReturned(b: Bot, r: Reminder): Bot {
    Scheduled(b.(landed := b.landed - {r}), r)
  }

  predicate MayCancel(b: Bot, id: Id, user: string) {
    var found := Find(b.state, id);
    found.Some? && found.value.userId == user
  }

  function CancelCalled(b: Bot, id: Id, user: string): Bot {
    if MayCancel(b, id, user)
    then Saving(b.(timers := b.timers - {id}), Without(b.state, id), CancelWaits(id))
    else b
  }

  function Fired(b: Bot, r: Reminder): Bot {
    b.(timers := b.timers - {r.id}, sending := b.sending + {r})
  }

  /** Sent or failed, the reminder is taken off the list. */
  function SendEnded(b: Bot, r: Reminder): Bot {
    Saving(b.(sending := b.sending - {r}), Without(b.state, r.id), FireWaits(r.id))
  }

  function WentOff(b: Bot, id: Id): Bot
    requires id in b.timers
  {
    var t := b.timers[id];
    if t.fires then Fired(b, t.reminder) else Scheduled(b, t.reminder)
  }

  function Crashed(b: Bot): Bot {
    b.(running := false, state := [], writing := [], landed := {}, timers := map[], sending := {})
  }

  function Restored(b: Bot, list: seq<Reminder>): Bot {
    if list == [] then b
    else
      var c, r := Restored(b, list[..|list| - 1]), list[|list| - 1];
      if r.dueAt <= b.now then Fired(c, r) else Scheduled(c, r)
  }

  function Booted(b: Bot): Bot {
    Restored(b.(running := true, state := b.disk), b.disk)
  }

  // ── The program ───────────────────────────────────────────────────────────

  class Store {
    var state: seq<Reminder>
    var writing: seq<Write>
    var disk: seq<Reminder>

    constructor (disk: seq<Reminder>)
      ensures state == disk && this.disk == disk && writing == []
    {
      this.disk, state, writing := disk, disk, [];
    }

    method Set(next: seq<Reminder>, waiter: Waiter)
      modifies this`state, this`writing
      ensures state == next && writing == old(writing) + [Write(waiter, None)]
    {
      state := next;
      writing := writing + [Write(waiter, None)];
    }

    /** The first half of `flush`: the text is made. */
    method Begin()
      requires writing != [] && writing[0].body.None?
      modifies this`writing
      ensures writing == old(writing)[0 := Write(old(writing)[0].waiter, Some(state))]
    {
      writing := writing[0 := writing[0].(body := Some(state))];
    }

    /** The second half: the file written beside the old one takes its place. */
    method Commit() returns (waiter: Waiter)
      requires writing != [] && writing[0].body.Some?
      modifies this`writing, this`disk
      ensures waiter == old(writing)[0].waiter
      ensures disk == old(writing)[0].body.value && writing == old(writing)[1..]
    {
      waiter := writing[0].waiter;
      disk := writing[0].body.value;
      writing := writing[1..];
    }
  }

  class Reminders {
    const store: Store
    const zoneIsValid: bool
    var now: int
    var timers: map<Id, Timer>
    var landed: set<Reminder>
    var sending: set<Reminder>

    constructor (store: Store, zoneIsValid: bool, now: int)
      ensures this.store == store && this.zoneIsValid == zoneIsValid && this.now == now
      ensures timers == map[] && landed == {} && sending == {}
    {
      this.store, this.zoneIsValid, this.now := store, zoneIsValid, now;
      timers, landed, sending := map[], {}, {};
    }

    ghost function AsBot(): Bot
      reads this, store
    {
      Bot(now, zoneIsValid, true, store.state, store.disk, store.writing, landed, timers, sending)
    }

    method Schedule(reminder: Reminder)
      modifies this`timers
      ensures AsBot() == Scheduled(old(AsBot()), reminder)
    {
      timers := timers - {reminder.id};
      var wait := reminder.dueAt - now;
      if wait > MAX_DELAY {
        timers := timers[reminder.id := Timer(reminder, now, now + MAX_DELAY, false)];
      } else {
        timers := timers[reminder.id := Timer(reminder, now, now + if wait > 0 then wait else 0, true)];
      }
      assert timers == old(timers)[reminder.id := TimerFor(now, reminder)];
    }

    /** `add` up to its wait for the write, and after it. */
    method Add(reminder: Reminder)
      modifies store
      ensures AsBot() == AddCalled(old(AsBot()), reminder)
    {
      var state := store.state;
      store.Set(state + [reminder], AddWaits(reminder));
    }

    method AddGoesOn(reminder: Reminder)
      modifies this`timers, this`landed
      ensures AsBot() == AddReturned(old(AsBot()), reminder)
    {
      landed := landed - {reminder};
      Schedule(reminder);
    }

    method Cancel(id: Id, byUserId: string) returns (found: Option<Reminder>)
      modifies this`timers, store
      ensures AsBot() == CancelCalled(old(AsBot()), id, byUserId)
      ensures found.Some? <==> old(MayCancel(AsBot(), id, byUserId))
      ensures found.Some? ==> found == old(Find(store.state, id))
    {
      found := FindById(id);
      if found.None? || found.value.userId != byUserId {
        return None;
      }
      timers := timers - {id};
      var kept := Filtered(store.state, id);
      store.Set(kept, CancelWaits(id));
    }

    method FindById(id: Id) returns (found: Option<Reminder>)
      ensures found == Find(store.state, id)
    {
      assert store.state[0..] == store.state;
      for i := 0 to |store.state|
        invariant Find(store.state, id) == Find(store.state[i..], id)
      {
        assert store.state[i..][1..] == store.state[i + 1..];
        if store.state[i].id == id {
          return Some(store.state[i]);
        }
      }
      found := None;
    }

    /** What a timer going off does, up to the send. */
    method GoOff(id: Id)
      requires id in timers
      modifies this`timers, this`sending
      ensures AsBot() == WentOff(old(AsBot()), id)
    {
      var t := timers[id];
      if t.fires {
        Fire(t.reminder);
      } else {
        Schedule(t.reminder);
      }
    }

    method Fire(reminder: Reminder)
      modifies this`timers, this`sending
      ensures AsBot() == Fired(old(AsBot()), reminder)
    {
      timers := timers - {reminder.id};
      sending := sending + {reminder};
    }

    method FireEnds(reminder: Reminder)
      modifies this`sending, store
      ensures AsBot() == SendEnded(old(AsBot()), reminder)
    {
      sending := sending - {reminder};
      var kept := Filtered(store.state, reminder.id);
      store.Set(kept, FireWaits(reminder.id));
    }

    method Resume()
      modifies this`timers, this`sending
      ensures AsBot() == Restored(old(AsBot()), old(AsBot()).state)
    {
      var reminders := store.state;
      ghost var was := AsBot();
      for i := 0 to |reminders|
        invariant AsBot() == Restored(was, reminders[..i])
        invariant now == was.now
      {
        assert reminders[..i + 1][..i] == reminders[..i];
        if reminders[i].dueAt <= now {
          Fire(reminders[i]);
        } else {
          Schedule(reminders[i]);
        }
      }
      assert reminders[..|reminders|] == reminders;
    }

    method Flush() returns (waiter: Waiter)
      requires store.writing != [] && store.writing[0].body.Some?
      modifies this`landed, store
      ensures AsBot() == Committed(old(AsBot()))
    {
      waiter := store.Commit();
      if waiter.AddWaits? {
        landed := landed + {waiter.reminder};
      }
    }
  }

  method Filtered(list: seq<Reminder>, id: Id) returns (kept: seq<Reminder>)
    ensures kept == Without(list, id)
  {
    kept := [];
    for i := 0 to |list|
      invariant kept == Without(list[..i], id)
    {
      assert list[..i + 1][..i] == list[..i];
      if list[i].id != id {
        kept := kept + [list[i]];
      }
    }
    assert list[..|list|] == list;
  }

  // ── Every run, crashes and all ────────────────────────────────────────────

  /** What has happened so far: reminders asked for; those the bot answers for,
      their adds having come back or a start having found them in the file; those
      cancelled by their owners; those whose send was attempted; those a start
      gave up because they were overdue in a zone that does not exist; and those
      whose removal has been written. */
  datatype Log = Log(
    known: map<Id, Reminder>,
    resolved: set<Reminder>,
    cancelled: set<Id>,
    attempted: set<Id>,
    dropped: set<Id>,
    forgotten: set<Id>)

  datatype System = System(b: Bot, log: Log)

  function Start(zoneIsValid: bool, now: int): System {
    System(Bot(now, zoneIsValid, false, [], [], [], {}, map[], {}), Log(map[], {}, {}, {}, {}, {}))
  }

  datatype Action =
    | Tick(to: int)
    | Add(r: Reminder)
    | Begin
    | Commit
    | AddGoesOn(r: Reminder)
    | Cancel(id: Id, user: string)
    | GoOff(id: Id)
    | SendEnds(r: Reminder)
    | Crash
    | Boot

  predicate Enabled(s: System, a: Action) {
    match a
    case Tick(to) => to >= s.b.now
    case Add(r) => s.b.running && r.id !in s.log.known
    case Begin => s.b.running && s.b.writing != [] && s.b.writing[0].body.None?
    case Commit => s.b.running && s.b.writing != [] && s.b.writing[0].body.Some?
    case AddGoesOn(r) => s.b.running && r in s.b.landed
    case Cancel(_, _) => s.b.running
    case GoOff(id) => s.b.running && id in s.b.timers && s.b.timers[id].wake <= s.b.now
    case SendEnds(r) => s.b.running && r in s.b.sending
    case Crash => s.b.running
    case Boot => !s.b.running
  }

  function Due(list: seq<Reminder>, now: int): set<Id> {
    set r | r in list && r.dueAt <= now :: r.id
  }

  function Removes(w: Waiter): set<Id> {
    match w
    case AddWaits(_) => {}
    case CancelWaits(id) => {id}
    case FireWaits(id) => {id}
  }

  /** A late send names the zone before it is attempted, and fails if there is none by that name. */
  function After(s: System, a: Action): System
    requires Enabled(s, a)
  {
    var b, log := s.b, s.log;
    match a
    case Tick(to) => s.(b := b.(now := to))
    case Add(r) => System(AddCalled(b, r), log.(known := log.known[r.id := r]))
    case Begin => s.(b := Begun(b))
    case Commit => System(Committed(b), log.(forgotten := log.forgotten + Removes(b.writing[0].waiter)))
    case AddGoesOn(r) => System(AddReturned(b, r), log.(resolved := log.resolved + {r}))
    case Cancel(id, user) =>
      System(CancelCalled(b, id, user), if MayCancel(b, id, user) then log.(cancelled := log.cancelled + {id}) else log)
    case GoOff(id) =>
      System(WentOff(b, id), if b.timers[id].fires then log.(attempted := log.attempted + {id}) else log)
    case SendEnds(r) => s.(b := SendEnded(b, r))
    case Crash => s.(b := Crashed(b))
    case Boot =>
      var found := log.(resolved := log.resolved + (set r | r in b.disk));
      System(Booted(b), if b.zoneIsValid then found.(attempted := log.attempted + Due(b.disk, b.now))
                        else found.(dropped := log.dropped + Due(b.disk, b.now)))
  }

  predicate Run(s: System, actions: seq<Action>, last: System)
    decreases |actions|
  {
    if actions == [] then last == s
    else Enabled(s, actions[0]) && Run(After(s, actions[0]), actions[1..], last)
  }

  // ── What every step keeps ─────────────────────────────────────────────────

  predicate Gone(log: Log, id: Id) {
    id in log.cancelled || id in log.attempted || id in log.dropped
  }

  predicate Knows(log: Log, r: Reminder) {
    r.id in log.known && log.known[r.id] == r
  }

  ghost predicate KnowsAll(log: Log, list: seq<Reminder>) {
    forall r :: r in list ==> Knows(log, r)
  }

  predicate Lacks(list: seq<Reminder>, id: Id) {
    forall r :: r in list ==> r.id != id
  }

  /** What is being sent was attempted, or given up before it was. */
  ghost predicate Sends(log: Log, sending: set<Reminder>) {
    forall r :: r in sending ==> Knows(log, r) && r.id in log.attempted + log.dropped
  }

  /** Each timer is the one its reminder was given when it was set. */
  ghost predicate Timed(log: Log, timers: map<Id, Timer>, now: int) {
    forall id :: id in timers ==>
      && timers[id].reminder.id == id && Knows(log, timers[id].reminder)
      && timers[id] == TimerFor(timers[id].setAt, timers[id].reminder) && timers[id].setAt <= now
  }

  predicate Stopped(b: Bot) {
    b.state == [] && b.writing == [] && b.landed == {} && b.timers == map[] && b.sending == {}
  }

  /** The adds whose write has landed. */
  function Promised(s: System): set<Reminder> {
    s.b.landed + s.log.resolved
  }

  /** A list that may become the file still holds what must not be lost, and
      nothing that has been forgotten. */
  ghost predicate Holds(log: Log, promised: set<Reminder>, list: seq<Reminder>) {
    && KnowsAll(log, list)
    && (forall r :: r in promised ==> Gone(log, r.id) || r in list)
    && (forall id :: id in log.forgotten ==> Lacks(list, id))
  }

  /** One write waiting: what it is for shows in a list. */
  ghost predicate WriteOk(log: Log, w: Waiter, list: seq<Reminder>) {
    match w
    case AddWaits(r) => Knows(log, r) && (Gone(log, r.id) || r in list)
    case CancelWaits(id) => id in log.known && Lacks(list, id)
    case FireWaits(id) => id in log.known && Lacks(list, id)
  }

  ghost predicate Begins(s: System, w: Write) {
    w.body.Some? ==> Holds(s.log, Promised(s), w.body.value) && WriteOk(s.log, w.waiter, w.body.value)
  }

  /** Only the first write has begun; the last one leaves the state as it is. */
  ghost predicate Writes(s: System) {
    && (forall i :: 0 <= i < |s.b.writing| ==> WriteOk(s.log, s.b.writing[i].waiter, s.b.state))
    && (forall i :: 0 < i < |s.b.writing| ==> s.b.writing[i].body.None?)
    && (s.b.writing != [] ==> Begins(s, s.b.writing[0]))
    && (|s.b.writing| == 1 && s.b.writing[0].body.Some? ==> s.b.writing[0].body.value == s.b.state)
    && (s.b.running && s.b.writing == [] ==> s.b.disk == s.b.state)
  }

  /** A timer for each reminder that was promised. */
  ghost predicate Armed(log: Log, timers: map<Id, Timer>) {
    forall r :: r in log.resolved ==> Gone(log, r.id) || (r.id in timers && timers[r.id].reminder == r)
  }

  ghost predicate Inv(s: System) {
    && (forall r :: r in Promised(s) ==> Knows(s.log, r))
    && (forall id :: id in s.log.forgotten ==> id in s.log.known)
    && Sends(s.log, s.b.sending) && Timed(s.log, s.b.timers, s.b.now) && Writes(s)
    && Holds(s.log, Promised(s), s.b.disk)
    && (if s.b.running then Holds(s.log, Promised(s), s.b.state) && Armed(s.log, s.b.timers) else Stopped(s.b))
  }

  lemma TickKeeps(s: System, to: int)
    requires Inv(s) && Enabled(s, Tick(to))
    ensures Inv(After(s, Tick(to)))
  {
    hide Holds, WriteOk, Armed, Sends;
  }

  // ── As more happens ───────────────────────────────────────────────────────

  /** Nothing more was forgotten, and what was known still is. */
  ghost predicate Later(log: Log, later: Log) {
    && (forall r :: Knows(log, r) ==> Knows(later, r))
    && (forall id :: id in log.known ==> id in later.known)
    && log.cancelled <= later.cancelled && log.attempted <= later.attempted && log.dropped <= later.dropped
    && later.forgotten == log.forgotten
  }

  lemma HoldsLater(log: Log, later: Log, promised: set<Reminder>, list: seq<Reminder>)
    requires Later(log, later) && Holds(log, promised, list)
    ensures Holds(later, promised, list)
  {
    hide Knows, Lacks;
  }

  lemma TimersLater(log: Log, later: Log, sending: set<Reminder>, timers: map<Id, Timer>, now: int)
    requires Later(log, later) && Sends(log, sending) && Timed(log, timers, now)
    ensures Sends(later, sending) && Timed(later, timers, now)
  {
    hide Knows;
  }

  lemma WriteLater(log: Log, later: Log, w: Waiter, list: seq<Reminder>)
    requires Later(log, later) && WriteOk(log, w, list)
    ensures WriteOk(later, w, list)
  {
    hide Knows, Lacks;
  }

  lemma BeginsLater(s: System, t: System, w: Write)
    requires Begins(s, w) && Later(s.log, t.log) && Promised(t) == Promised(s)
    ensures Begins(t, w)
  {
    hide Holds, WriteOk, Later, Promised;
    if w.body.Some? {
      HoldsLater(s.log, t.log, Promised(s), w.body.value);
      WriteLater(s.log, t.log, w.waiter, w.body.value);
    }
  }

  /** What happens without touching the lists and writes leaves them in order. */
  lemma WritesLater(s: System, t: System)
    requires Writes(s) && Later(s.log, t.log) && Promised(t) == Promised(s)
    requires t.b.running == s.b.running && t.b.state == s.b.state && t.b.disk == s.b.disk && t.b.writing == s.b.writing
    ensures Writes(t)
  {
    hide WriteOk, Begins, Later, Promised;
    forall i | 0 <= i < |t.b.writing|
      ensures WriteOk(t.log, t.b.writing[i].waiter, t.b.state)
    {
      WriteLater(s.log, t.log, s.b.writing[i].waiter, s.b.state);
    }
    if t.b.writing != [] {
      BeginsLater(s, t, s.b.writing[0]);
    }
  }

  /** A change to the list that has a write to follow it. */
  lemma SavingKeeps(s: System, t: System, waiter: Waiter)
    requires Writes(s) && Later(s.log, t.log) && Promised(t) == Promised(s) && Holds(s.log, Promised(s), s.b.disk)
    requires t.b.running && t.b.disk == s.b.disk && t.b.writing == s.b.writing + [Write(waiter, None)]
    requires WriteOk(t.log, waiter, t.b.state)
    requires forall i :: 0 <= i < |s.b.writing| ==> WriteOk(t.log, s.b.writing[i].waiter, t.b.state)
    ensures Writes(t) && Holds(t.log, Promised(t), t.b.disk)
  {
    hide Holds, WriteOk, Later, Promised, Begins;
    HoldsLater(s.log, t.log, Promised(s), s.b.disk);
    assert forall i :: 0 <= i < |s.b.writing| ==> t.b.writing[i] == s.b.writing[i];
    if s.b.writing != [] {
      BeginsLater(s, t, s.b.writing[0]);
    } else {
      NotBegun(t, waiter);
    }
  }

  lemma NotBegun(s: System, waiter: Waiter)
    ensures Begins(s, Write(waiter, None))
  {
  }

  lemma RemovalHolds(log: Log, later: Log, promised: set<Reminder>, list: seq<Reminder>, id: Id)
    requires Later(log, later) && Gone(later, id) && Holds(log, promised, list)
    ensures Holds(later, promised, Without(list, id))
  {
    WithoutLeaves(list, id);
    hide Without;
  }

  lemma RemovalWrites(log: Log, later: Log, w: Waiter, list: seq<Reminder>, id: Id)
    requires Later(log, later) && Gone(later, id) && WriteOk(log, w, list)
    ensures WriteOk(later, w, Without(list, id))
  {
    WithoutLeaves(list, id);
    hide Without;
  }

  /** Taking a reminder off the list, once it may go. */
  lemma RemovalKeeps(s: System, t: System, waiter: Waiter, id: Id)
    requires Writes(s) && Later(s.log, t.log) && Promised(t) == Promised(s)
    requires Holds(s.log, Promised(s), s.b.disk) && Holds(s.log, Promised(s), s.b.state)
    requires t.b.running && t.b.disk == s.b.disk && t.b.writing == s.b.writing + [Write(waiter, None)]
    requires t.b.state == Without(s.b.state, id) && Gone(t.log, id) && id in t.log.known && Removes(waiter) == {id}
    ensures Writes(t) && Holds(t.log, Promised(t), t.b.disk) && Holds(t.log, Promised(t), t.b.state)
  {
    WithoutLeaves(s.b.state, id);
    assert WriteOk(t.log, waiter, t.b.state);
    hide Holds, WriteOk, Later, Promised, Begins, Gone, Removes, Without;
    RemovalHolds(s.log, t.log, Promised(s), s.b.state, id);
    forall i | 0 <= i < |s.b.writing|
      ensures WriteOk(t.log, s.b.writing[i].waiter, t.b.state)
    {
      RemovalWrites(s.log, t.log, s.b.writing[i].waiter, s.b.state, id);
    }
    SavingKeeps(s, t, waiter);
  }

  // ── Step by step ──────────────────────────────────────────────────────────

  lemma AddHolds(log: Log, later: Log, promised: set<Reminder>, list: seq<Reminder>, r: Reminder)
    requires Later(log, later) && Knows(later, r) && r.id !in log.forgotten && Holds(log, promised, list)
    ensures Holds(later, promised, list + [r])
  {
    hide Knows;
  }

  lemma AddWrites(log: Log, later: Log, w: Waiter, list: seq<Reminder>, r: Reminder)
    requires Later(log, later) && r.id !in log.known && WriteOk(log, w, list)
    ensures WriteOk(later, w, list + [r])
  {
    hide Knows;
  }

  lemma AddKeeps(s: System, r: Reminder)
    requires Inv(s) && Enabled(s, Add(r))
    ensures Inv(After(s, Add(r)))
  {
    var t := After(s, Add(r));
    assert Later(s.log, t.log) && Promised(t) == Promised(s);
    assert WriteOk(t.log, AddWaits(r), t.b.state);
    hide Holds, Writes, Armed, Sends, Timed, WriteOk, Later, Promised;
    AddHolds(s.log, t.log, Promised(s), s.b.state, r);
    TimersLater(s.log, t.log, s.b.sending, s.b.timers, s.b.now);
    ArmedLater(s.log, t.log, s.b.timers);
    forall i | 0 <= i < |s.b.writing|
      ensures WriteOk(t.log, s.b.writing[i].waiter, t.b.state)
    {
      WriteAt(s, i);
      AddWrites(s.log, t.log, s.b.writing[i].waiter, s.b.state, r);
    }
    SavingKeeps(s, t, AddWaits(r));
    assert forall x :: x in Promised(t) ==> Knows(t.log, x);
  }

  lemma WriteAt(s: System, i: nat)
    requires Writes(s) && i < |s.b.writing|
    ensures WriteOk(s.log, s.b.writing[i].waiter, s.b.state)
  {
    hide WriteOk;
  }

  lemma ArmedLater(log: Log, later: Log, timers: map<Id, Timer>)
    requires Later(log, later) && Armed(log, timers) && later.resolved == log.resolved
    ensures Armed(later, timers)
  {
    hide Knows;
  }

  lemma BeginKeeps(s: System)
    requires Inv(s) && Enabled(s, Begin)
    ensures Inv(After(s, Begin))
  {
    hide Holds, WriteOk, Knows, Armed, Sends, Timed;
  }

  /** The file has just become what its text said. */
  lemma CommitHolds(log: Log, later: Log, promised: set<Reminder>, w: Waiter, list: seq<Reminder>)
    requires Holds(log, promised, list) && WriteOk(log, w, list)
    requires later == log.(forgotten := log.forgotten + Removes(w))
    ensures Holds(later, if w.AddWaits? then promised + {w.reminder} else promised, list)
    ensures forall x, other :: WriteOk(log, x, other) ==> WriteOk(later, x, other)
  {
  }

  lemma CommitKeeps(s: System)
    requires Inv(s) && Enabled(s, Commit)
    ensures Inv(After(s, Commit))
  {
    var t, w := After(s, Commit), s.b.writing[0];
    assert forall i :: 0 <= i < |t.b.writing| ==> (var j := i + 1; t.b.writing[i] == s.b.writing[j]);
    CommitHolds(s.log, t.log, Promised(s), w.waiter, s.b.state);
    CommitHolds(s.log, t.log, Promised(s), w.waiter, w.body.value);
    assert Promised(t) == if w.waiter.AddWaits? then Promised(s) + {w.waiter.reminder} else Promised(s);
    assert Armed(t.log, t.b.timers) && Sends(t.log, t.b.sending) && Timed(t.log, t.b.timers, t.b.now);
    assert forall r :: r in Promised(t) ==> Knows(t.log, r);
    assert forall id :: id in t.log.forgotten ==> id in t.log.known;
    hide Holds, WriteOk, Promised, Armed, Sends, Timed, Knows;
    assert t.b.writing != [] ==> t.b.writing[0].body.None?;
  }

  lemma AddGoesOnKeeps(s: System, r: Reminder)
    requires Inv(s) && Enabled(s, AddGoesOn(r))
    ensures Inv(After(s, AddGoesOn(r)))
  {
    var t := After(s, AddGoesOn(r));
    assert Later(s.log, t.log) && Promised(t) == Promised(s);
    assert Knows(s.log, r) && (forall x :: x in s.log.resolved ==> x in Promised(s));
    TimerSet(s.log, s.b.timers, s.b.now, r);
    assert Timed(t.log, t.b.timers, t.b.now);
    assert Armed(t.log, t.b.timers);
    assert Sends(t.log, t.b.sending);
    hide Holds, Writes, Armed, Sends, Timed, Later, Promised;
    WritesLater(s, t);
    HoldsLater(s.log, t.log, Promised(s), s.b.disk);
    HoldsLater(s.log, t.log, Promised(s), s.b.state);
    assert forall x :: x in Promised(t) ==> Knows(t.log, x);
  }

  lemma TimerSet(log: Log, timers: map<Id, Timer>, now: int, r: Reminder)
    requires Timed(log, timers, now) && Knows(log, r)
    ensures Timed(log, timers[r.id := TimerFor(now, r)], now)
  {
  }

  lemma CancelKeeps(s: System, id: Id, user: string)
    requires Inv(s) && Enabled(s, Cancel(id, user))
    ensures Inv(After(s, Cancel(id, user)))
  {
    var t := After(s, Cancel(id, user));
    if MayCancel(s.b, id, user) {
      assert Later(s.log, t.log) && Promised(t) == Promised(s);
      assert id in t.log.known && Gone(t.log, id);
      assert Armed(t.log, t.b.timers) && Sends(t.log, t.b.sending) && Timed(t.log, t.b.timers, t.b.now);
      hide Holds, Writes, Armed, Sends, Timed, Later, Promised, Gone;
      RemovalKeeps(s, t, CancelWaits(id), id);
    }
  }

  lemma GoOffKeeps(s: System, id: Id)
    requires Inv(s) && Enabled(s, GoOff(id))
    ensures Inv(After(s, GoOff(id)))
  {
    var t := After(s, GoOff(id));
    var r := s.b.timers[id].reminder;
    assert Later(s.log, t.log) && Promised(t) == Promised(s);
    TimerSet(s.log, s.b.timers, s.b.now, r);
    assert Timed(t.log, t.b.timers, t.b.now) && Sends(t.log, t.b.sending);
    assert Armed(t.log, t.b.timers) by {
      assert forall x :: x in s.log.resolved && x.id == id ==> x in Promised(s) && Knows(s.log, x);
    }
    hide Holds, Writes, Armed, Sends, Timed, Later, Promised, Knows;
    WritesLater(s, t);
    HoldsLater(s.log, t.log, Promised(s), s.b.disk);
    HoldsLater(s.log, t.log, Promised(s), s.b.state);
  }

  lemma SendEndsKeeps(s: System, r: Reminder)
    requires Inv(s) && Enabled(s, SendEnds(r))
    ensures Inv(After(s, SendEnds(r)))
  {
    var t := After(s, SendEnds(r));
    assert Later(s.log, t.log) && Promised(t) == Promised(s);
    assert r.id in t.log.known && Gone(t.log, r.id) && Sends(t.log, t.b.sending);
    hide Holds, Writes, Armed, Sends, Timed, Later, Promised, Gone;
    RemovalKeeps(s, t, FireWaits(r.id), r.id);
  }

  lemma CrashKeeps(s: System)
    requires Inv(s) && Enabled(s, Crash)
    ensures Inv(After(s, Crash))
  {
    hide Knows, Lacks, Armed;
  }

  /** What restoring a list leaves: what is overdue is being sent, the rest has timers. */
  lemma {:induction false} RestoredIs(log: Log, b: Bot, list: seq<Reminder>)
    requires KnowsAll(log, list) && b.timers == map[]
    ensures var c := Restored(b, list);
            && c == b.(timers := c.timers, sending := c.sending)
            && (forall r :: r in c.sending <==> r in b.sending || (r in list && r.dueAt <= b.now))
            && (forall id :: id in c.timers ==>
                  && c.timers[id] == TimerFor(b.now, c.timers[id].reminder)
                  && c.timers[id].reminder.id == id && c.timers[id].reminder in list && c.timers[id].reminder.dueAt > b.now)
            && (forall r :: r in list && r.dueAt > b.now ==> r.id in c.timers && c.timers[r.id].reminder == r)
  {
    if list != [] {
      var front, last := list[..|list| - 1], list[|list| - 1];
      assert forall r :: r in list <==> r in front || r == last;
      assert Knows(log, last);
      RestoredIs(log, b, front);
    }
  }

  /** A start picks up the file as it is. */
  lemma BootIs(s: System)
    requires Inv(s) && Enabled(s, Boot)
    ensures var t := After(s, Boot);
            && Later(s.log, t.log) && Promised(t) == Promised(s) + (set r | r in s.b.disk)
            && t.b.writing == [] && t.b.running && t.b.state == t.b.disk == s.b.disk && t.b.now == s.b.now
  {
    RestoredIs(s.log, s.b.(running := true, state := s.b.disk), s.b.disk);
    hide Restored, Due, Lacks, Writes;
  }

  /** What is overdue is attempted or given up. */
  lemma BootSends(s: System)
    requires Inv(s) && Enabled(s, Boot)
    ensures var t := After(s, Boot);
            Sends(t.log, t.b.sending) && Timed(t.log, t.b.timers, t.b.now)
  {
    RestoredIs(s.log, s.b.(running := true, state := s.b.disk), s.b.disk);
    assert forall r :: r in s.b.disk && r.dueAt <= s.b.now ==> r.id in Due(s.b.disk, s.b.now);
    hide Restored, Due, Lacks, Writes, Knows, Armed, Later;
  }

  lemma BootArms(s: System)
    requires Inv(s) && Enabled(s, Boot)
    ensures Armed(After(s, Boot).log, After(s, Boot).b.timers)
  {
    RestoredIs(s.log, s.b.(running := true, state := s.b.disk), s.b.disk);
    assert forall r :: r in s.b.disk && r.dueAt <= s.b.now ==> r.id in Due(s.b.disk, s.b.now);
    hide Restored, Due, Lacks, Writes, Timed, Sends, KnowsAll, Knows;
  }

  lemma BootHolds(log: Log, later: Log, promised: set<Reminder>, list: seq<Reminder>)
    requires Later(log, later) && Holds(log, promised, list)
    ensures Holds(later, promised + (set r | r in list), list)
    ensures forall r :: r in list ==> Knows(later, r)
  {
    hide Lacks;
  }

  lemma BootKeeps(s: System)
    requires Inv(s) && Enabled(s, Boot)
    ensures Inv(After(s, Boot))
  {
    var t := After(s, Boot);
    BootIs(s);
    BootSends(s);
    BootArms(s);
    BootHolds(s.log, t.log, Promised(s), s.b.disk);
    assert forall r :: r in Promised(t) ==> Knows(t.log, r);
    hide Armed, After, Later, Holds, Promised, Sends, Timed, Knows;
  }

  lemma StepKeeps(s: System, a: Action)
    requires Inv(s) && Enabled(s, a)
    ensures Inv(After(s, a))
  {
    hide Inv;
    match a
    case Tick(to) => TickKeeps(s, to);
    case Add(r) => AddKeeps(s, r);
    case Begin => BeginKeeps(s);
    case Commit => CommitKeeps(s);
    case AddGoesOn(r) => AddGoesOnKeeps(s, r);
    case Cancel(id, user) => CancelKeeps(s, id, user);
    case GoOff(id) => GoOffKeeps(s, id);
    case SendEnds(r) => SendEndsKeeps(s, r);
    case Crash => CrashKeeps(s);
    case Boot => BootKeeps(s);
  }

  lemma {:induction false} RunsKeep(s: System, actions: seq<Action>, last: System)
    requires Inv(s) && Run(s, actions, last)
    ensures Inv(last)
    decreases |actions|
  {
    if actions != [] {
      StepKeeps(s, actions[0]);
      hide Inv, Enabled;
      RunsKeep(After(s, actions[0]), actions[1..], last);
    }
  }

  /** Whenever the process dies: a reminder whose `add` came back, or that a start
      found, is in the file until its send is attempted, its owner cancels it, or a
      start gives it up for want of a zone. While the process runs it has a timer too. */
  lemma KeptUntilSent(zoneIsValid: bool, now: int, actions: seq<Action>, s: System, r: Reminder)
    requires Run(Start(zoneIsValid, now), actions, s) && r in s.log.resolved && !Gone(s.log, r.id)
    ensures r in s.b.disk
    ensures s.b.running ==> r in s.b.state && r.id in s.b.timers && s.b.timers[r.id].reminder == r
  {
    RunsKeep(Start(zoneIsValid, now), actions, s);
  }

  /** A removal once written is never undone by a crash, and a file with no write
      waiting is the list in memory: no add, cancel or fire lost another's change. */
  lemma WrittenStays(zoneIsValid: bool, now: int, actions: seq<Action>, s: System, id: Id)
    requires Run(Start(zoneIsValid, now), actions, s)
    ensures id in s.log.forgotten ==> Lacks(s.b.disk, id) && Lacks(s.b.state, id)
    ensures s.b.running && s.b.writing == [] ==> s.b.disk == s.b.state
  {
    RunsKeep(Start(zoneIsValid, now), actions, s);
  }

  /** No timer is set for longer than a timer can wait, none fires a reminder
      early, and one that fires it does so when it is due, or at once. */
  lemma NeverEarly(zoneIsValid: bool, now: int, actions: seq<Action>, s: System, id: Id)
    requires Run(Start(zoneIsValid, now), actions, s) && id in s.b.timers
    ensures s.b.timers[id].wake - s.b.timers[id].setAt < 0x8000_0000
    ensures s.b.timers[id].fires ==>
              var due, began := s.b.timers[id].reminder.dueAt, s.b.timers[id].setAt;
              s.b.timers[id].wake == if due > began then due else began
    ensures Enabled(s, GoOff(id)) && s.b.timers[id].fires ==> s.b.timers[id].reminder.dueAt <= s.b.now
    ensures !s.b.timers[id].fires ==> s.b.timers[id].wake < s.b.timers[id].reminder.dueAt
  {
    RunsKeep(Start(zoneIsValid, now), actions, s);
  }

  /** An add puts its reminder on the list, disturbs no other, and waits for its write. */
  lemma AddIsWaiting(s: System, r: Reminder)
    requires Enabled(s, Add(r))
    ensures var t := After(s, Add(r));
            && (forall x :: x in t.b.state <==> x in s.b.state || x == r)
            && AddWaiting(t.b, r.id) && t.b.timers == s.b.timers && t.b.disk == s.b.disk
  {
    var t := After(s, Add(r));
    assert t.b.writing[|s.b.writing|].waiter.AddWaits?;
  }

  /** A cancel by the reminder's owner takes it off the list, its timer with it,
      disturbs no other, and has a write to follow; one by anybody else does nothing. */
  lemma CancelIsItsOwners(s: System, id: Id, user: string)
    requires Inv(s) && s.b.running
    ensures var t := After(s, Cancel(id, user));
            if exists r :: r in s.b.state && r.id == id && r.userId == user then
              && (forall x :: x in t.b.state <==> x in s.b.state && x.id != id)
              && t.b.timers == s.b.timers - {id} && |t.b.writing| == |s.b.writing| + 1
              && t.b.disk == s.b.disk && t.b.sending == s.b.sending && t.log == s.log.(cancelled := s.log.cancelled + {id})
            else t == s
  {
    hide Writes, Armed, Sends, Timed;
    WithoutLeaves(s.b.state, id);
    FindFinds(s.b.state, id);
    assert forall x :: x in s.b.state ==> Knows(s.log, x);
  }

  lemma {:induction false} FindFinds(list: seq<Reminder>, id: Id)
    ensures Find(list, id).Some? <==> exists r :: r in list && r.id == id
  {
    if list != [] {
      assert list == [list[0]] + list[1..];
      FindFinds(list[1..], id);
    }
  }

  /** Sent or not, that reminder alone is taken off, with a write to follow. */
  lemma SendTakesOne(s: System, r: Reminder)
    requires Enabled(s, SendEnds(r))
    ensures var t := After(s, SendEnds(r));
            && (forall x :: x in t.b.state <==> x in s.b.state && x.id != r.id)
            && t.b.sending == s.b.sending - {r} && |t.b.writing| == |s.b.writing| + 1
            && t.b.timers == s.b.timers && t.b.disk == s.b.disk
  {
    WithoutLeaves(s.b.state, r.id);
  }

  // ── What a start loses ────────────────────────────────────────────────────

  /** The reminder is in the list, in the file, and in whatever is about to become the file. */
  predicate Held(b: Bot, r: Reminder) {
    && r in b.disk && (forall x :: x in b.sending ==> x.id != r.id)
    && (b.running ==> r in b.state)
    && forall i :: 0 <= i < |b.writing| && b.writing[i].body.Some? ==> r in b.writing[i].body.value
  }

  lemma HeldStep(s: System, a: Action, r: Reminder)
    requires Inv(s) && Enabled(s, a) && !a.Boot? && !(a.Cancel? && a.id == r.id) && Held(s.b, r)
    ensures Held(After(s, a).b, r) || r.id in After(s, a).log.attempted
  {
    hide Holds, Writes, Armed, Sends;
    match a {
      case SendEnds(x) => WithoutLeaves(s.b.state, x.id);
      case Cancel(id, user) => WithoutLeaves(s.b.state, id);
      case _ =>
    }
  }

  lemma AttemptedStays(s: System, a: Action, id: Id)
    requires Enabled(s, a)
    ensures s.log.attempted <= After(s, a).log.attempted && s.log.forgotten <= After(s, a).log.forgotten
  {
  }

  /** Nobody cancels the reminder. */
  predicate Uncancelled(actions: seq<Action>, id: Id) {
    forall a :: a in actions ==> !(a.Cancel? && a.id == id)
  }

  lemma {:induction false} HeldStays(s: System, actions: seq<Action>, last: System, r: Reminder)
    requires Inv(s) && Run(s, actions, last) && Boot !in actions && (Held(s.b, r) || r.id in s.log.attempted)
    requires Uncancelled(actions, r.id)
    ensures r in last.b.disk || r.id in last.log.attempted
    decreases |actions|
  {
    if actions != [] {
      assert actions[0] in actions;
      AttemptedStays(s, actions[0], r.id);
      if Held(s.b, r) {
        HeldStep(s, actions[0], r);
      }
      StepKeeps(s, actions[0]);
      hide Inv, Enabled, After, Held;
      HeldStays(After(s, actions[0]), actions[1..], last, r);
    }
  }

  /** The next start, and what follows it with neither another start nor its owner cancelling it, loses the reminder. */
  ghost predicate StartLoses(s: System, r: Reminder) {
    exists actions, last ::
      && Run(s, [Boot] + actions, last) && Boot !in actions && Uncancelled(actions, r.id)
      && r !in last.b.disk && r.id !in last.log.attempted
  }

  lemma BootSpares(s: System, r: Reminder)
    requires Inv(s) && !s.b.running && r in s.b.disk && (s.b.zoneIsValid || r.dueAt > s.b.now)
    ensures Held(After(s, Boot).b, r) || r.id in After(s, Boot).log.attempted
  {
    RestoredIs(s.log, s.b.(running := true, state := s.b.disk), s.b.disk);
    hide Restored, Armed, Sends, Timed, Lacks;
    if r.dueAt <= s.b.now {
      assert r.id in Due(s.b.disk, s.b.now);
    }
  }

  lemma BootOverdue(s: System, r: Reminder)
    requires Inv(s) && !s.b.running && r in s.b.disk && !s.b.zoneIsValid && r.dueAt <= s.b.now
    ensures var t := After(s, Boot);
            t.b.running && r in t.b.sending && t.b.writing == [] && t.log.attempted == s.log.attempted
  {
    RestoredIs(s.log, s.b.(running := true, state := s.b.disk), s.b.disk);
    hide Restored, Due;
  }

  /** A send that ends with no write waiting is written out of the file. */
  lemma SendEndsWrites(s: System, r: Reminder)
    requires s.b.running && r in s.b.sending && s.b.writing == []
    ensures exists last :: && Run(s, [SendEnds(r), Begin, Commit], last)
                           && r !in last.b.disk && last.log.attempted == s.log.attempted && r.id in last.log.forgotten
  {
    WithoutLeaves(s.b.state, r.id);
    hide Without;
    var t := After(s, SendEnds(r));
    var u := After(t, Begin);
    var v := After(u, Commit);
    var none: seq<Action> := [];
    assert [SendEnds(r), Begin, Commit][1..] == [Begin, Commit] && [Begin, Commit][1..] == [Commit] && [Commit][1..] == none;
    assert Run(u, [Commit], v);
    assert Run(t, [Begin, Commit], v);
  }

  /** A start that finds an unsent reminder overdue in a zone that does not exist writes it out of the file. */
  lemma BadZoneRun(s: System, r: Reminder)
    requires Inv(s) && !s.b.running && r in s.b.disk && r.id !in s.log.attempted && !s.b.zoneIsValid && r.dueAt <= s.b.now
    ensures exists last ::
              && Run(s, [Boot] + [SendEnds(r), Begin, Commit], last)
              && r !in last.b.disk && r.id !in last.log.attempted && r.id in last.log.forgotten
  {
    hide Inv;
    BootOverdue(s, r);
    SendEndsWrites(After(s, Boot), r);
    hide After;
    var rest := [SendEnds(r), Begin, Commit];
    assert ([Boot] + rest)[0] == Boot && ([Boot] + rest)[1..] == rest;
  }

  /** A start loses an unsent reminder of the file if and only if the zone does not exist and the reminder is overdue. */
  lemma BadZoneLoses(s: System, r: Reminder)
    requires Inv(s) && !s.b.running && r in s.b.disk && r.id !in s.log.attempted
    ensures StartLoses(s, r) <==> !s.b.zoneIsValid && r.dueAt <= s.b.now
  {
    if !s.b.zoneIsValid && r.dueAt <= s.b.now {
      BadZoneRun(s, r);
      var rest := [SendEnds(r), Begin, Commit];
      var last :| Run(s, [Boot] + rest, last) && r !in last.b.disk && r.id !in last.log.attempted;
      assert Boot !in rest && Uncancelled(rest, r.id);
      hide Inv, Run;
      assert StartLoses(s, r);
    } else {
      forall actions, last
        | Run(s, [Boot] + actions, last) && Boot !in actions && Uncancelled(actions, r.id)
        ensures r in last.b.disk || r.id in last.log.attempted
      {
        assert ([Boot] + actions)[0] == Boot && ([Boot] + actions)[1..] == actions;
        BootSpares(s, r);
        BootKeeps(s);
        hide Inv, After, Held;
        HeldStays(After(s, Boot), actions, last, r);
      }
    }
  }

  // ── Cancelling ────────────────────────────────────────────────────────────

  predicate AddWaiting(b: Bot, id: Id) {
    (exists i :: 0 <= i < |b.writing| && b.writing[i].waiter.AddWaits? && b.writing[i].waiter.reminder.id == id)
    || exists r :: r in b.landed && r.id == id
  }

  predicate Quiet(b: Bot, id: Id) {
    id !in b.timers && !AddWaiting(b, id)
  }

  /** Nothing in the process would send the reminder. */
  ghost predicate Silent(s: System, id: Id) {
    id in s.log.known && id !in s.log.attempted && Quiet(s.b, id)
  }

  lemma SilentStep(s: System, a: Action, id: Id)
    requires Inv(s) && Enabled(s, a) && !a.Boot? && Silent(s, id)
    ensures Silent(After(s, a), id)
  {
    hide Holds, Writes, Armed, Sends;
    var t := After(s, a);
    if a.Commit? {
      assert forall i :: 0 <= i < |t.b.writing| ==> (var j := i + 1; t.b.writing[i] == s.b.writing[j]);
    } else if a.Begin? {
      assert forall i :: 0 <= i < |t.b.writing| ==> t.b.writing[i].waiter == s.b.writing[i].waiter;
    }
  }

  lemma SilentBoot(s: System, id: Id)
    requires Inv(s) && Enabled(s, Boot) && Silent(s, id) && id in s.log.forgotten
    ensures Silent(After(s, Boot), id)
  {
    RestoredIs(s.log, s.b.(running := true, state := s.b.disk), s.b.disk);
    assert Lacks(s.b.disk, id);
    hide Restored, Armed, Sends, Timed, Writes;
    assert id !in Due(s.b.disk, s.b.now);
  }

  /** The bot is started again only once the removal has been written. */
  predicate StartsAfterRemoval(s: System, actions: seq<Action>, id: Id)
    decreases |actions|
  {
    actions == [] ||
    (Enabled(s, actions[0]) && (actions[0].Boot? ==> id in s.log.forgotten)
     && StartsAfterRemoval(After(s, actions[0]), actions[1..], id))
  }

  lemma {:induction false} SilentStays(s: System, actions: seq<Action>, last: System, id: Id)
    requires Inv(s) && Run(s, actions, last) && StartsAfterRemoval(s, actions, id) && Silent(s, id)
    ensures id !in last.log.attempted
    decreases |actions|
  {
    if actions != [] {
      if actions[0].Boot? {
        SilentBoot(s, id);
      } else {
        SilentStep(s, actions[0], id);
      }
      StepKeeps(s, actions[0]);
      hide Inv, Enabled, After, Silent;
      SilentStays(After(s, actions[0]), actions[1..], last, id);
    }
  }

  // ── Sent once ─────────────────────────────────────────────────────────────

  predicate AddQueued(b: Bot, i: int, id: Id) {
    0 <= i < |b.writing| && b.writing[i].waiter.AddWaits? && b.writing[i].waiter.reminder.id == id
  }

  /** A reminder is in one place at a time: its add waiting for one write, landed, on a timer, or being sent. */
  ghost predicate InOnePlace(b: Bot) {
    && (forall i, j, id :: AddQueued(b, i, id) && AddQueued(b, j, id) ==> i == j)
    && (forall i, r :: r in b.landed ==> !AddQueued(b, i, r.id))
    && (forall i, id :: id in b.timers ==> !AddQueued(b, i, id))
    && (forall r :: r in b.landed ==> r.id !in b.timers)
    && (forall i, r :: r in b.sending ==> !AddQueued(b, i, r.id))
    && (forall r, x :: r in b.sending && x in b.landed ==> r.id != x.id)
    && (forall r :: r in b.sending ==> r.id !in b.timers)
  }

  /** Whose ids are known, and name one reminder each. */
  lemma PlacesAreKnown(s: System)
    requires Inv(s)
    ensures forall r :: r in s.b.landed || r in s.b.sending ==> Knows(s.log, r)
    ensures forall id :: id in s.b.timers ==> Knows(s.log, s.b.timers[id].reminder) && s.b.timers[id].reminder.id == id
    ensures forall i, id :: AddQueued(s.b, i, id) ==> Knows(s.log, s.b.writing[i].waiter.reminder)
  {
    hide Holds, Armed, Gone, Begins;
  }

  lemma CommitKeepsPlaces(s: System)
    requires Inv(s) && Enabled(s, Commit) && InOnePlace(s.b)
    ensures InOnePlace(After(s, Commit).b)
  {
    PlacesAreKnown(s);
    hide Inv;
    var t := After(s, Commit);
    assert forall i, id :: AddQueued(t.b, i, id) ==> (var j := i + 1; AddQueued(s.b, j, id));
    assert s.b.writing[0].waiter.AddWaits? ==> AddQueued(s.b, 0, s.b.writing[0].waiter.reminder.id);
  }

  lemma AddKeepsPlaces(s: System, r: Reminder)
    requires Inv(s) && Enabled(s, Add(r)) && InOnePlace(s.b)
    ensures InOnePlace(After(s, Add(r)).b)
  {
    PlacesAreKnown(s);
    hide Inv;
    var t := After(s, Add(r));
    assert forall i, id :: AddQueued(t.b, i, id) ==> AddQueued(s.b, i, id) || (i == |s.b.writing| && id == r.id);
  }

  lemma GoingOffKeepsPlaces(s: System, id: Id)
    requires Inv(s) && Enabled(s, GoOff(id)) && InOnePlace(s.b)
    ensures InOnePlace(After(s, GoOff(id)).b)
  {
    PlacesAreKnown(s);
    hide Inv, Knows;
    assert forall i, x :: AddQueued(After(s, GoOff(id)).b, i, x) <==> AddQueued(s.b, i, x);
  }

  lemma RemovingKeepsPlaces(s: System, a: Action)
    requires Inv(s) && Enabled(s, a) && InOnePlace(s.b) && (a.Cancel? || a.SendEnds?)
    ensures InOnePlace(After(s, a).b)
  {
    hide Inv, Without, Find;
    assert forall i, x :: AddQueued(After(s, a).b, i, x) ==> AddQueued(s.b, i, x);
  }

  lemma GoingOnKeepsPlaces(s: System, r: Reminder)
    requires Inv(s) && Enabled(s, AddGoesOn(r)) && InOnePlace(s.b)
    ensures InOnePlace(After(s, AddGoesOn(r)).b)
  {
    PlacesAreKnown(s);
    hide Inv;
    assert forall i, x :: AddQueued(After(s, AddGoesOn(r)).b, i, x) <==> AddQueued(s.b, i, x);
  }

  lemma OthersKeepPlaces(s: System, a: Action)
    requires Enabled(s, a) && InOnePlace(s.b) && (a.Tick? || a.Begin? || a.Crash?)
    ensures InOnePlace(After(s, a).b)
  {
    assert forall i, x :: AddQueued(After(s, a).b, i, x) ==> AddQueued(s.b, i, x);
  }

  lemma StepKeepsPlaces(s: System, a: Action)
    requires Inv(s) && Enabled(s, a) && InOnePlace(s.b) && !a.Boot?
    ensures InOnePlace(After(s, a).b)
  {
    hide Inv;
    match a
    case Commit => CommitKeepsPlaces(s);
    case Add(r) => AddKeepsPlaces(s, r);
    case GoOff(id) => GoingOffKeepsPlaces(s, id);
    case AddGoesOn(r) => GoingOnKeepsPlaces(s, r);
    case Cancel(_, _) => RemovingKeepsPlaces(s, a);
    case SendEnds(_) => RemovingKeepsPlaces(s, a);
    case _ => OthersKeepPlaces(s, a);
  }

  lemma BootPlaces(s: System)
    requires Inv(s) && Enabled(s, Boot)
    ensures InOnePlace(After(s, Boot).b)
  {
    RestoredIs(s.log, s.b.(running := true, state := s.b.disk), s.b.disk);
    hide Restored;
  }

  lemma {:induction false} RunsKeepPlaces(s: System, actions: seq<Action>, last: System)
    requires Inv(s) && InOnePlace(s.b) && Run(s, actions, last)
    ensures InOnePlace(last.b)
    decreases |actions|
  {
    if actions != [] {
      if actions[0].Boot? {
        BootPlaces(s);
      } else {
        StepKeepsPlaces(s, actions[0]);
      }
      StepKeeps(s, actions[0]);
      hide Inv, Enabled, After, InOnePlace;
      RunsKeepPlaces(After(s, actions[0]), actions[1..], last);
    }
  }

  lemma QuietStays(s: System, a: Action, id: Id)
    requires Inv(s) && Enabled(s, a) && !a.Boot? && id in s.log.known && Quiet(s.b, id)
    ensures id in After(s, a).log.known && Quiet(After(s, a).b, id)
  {
    hide Holds, Writes, Armed, Sends;
    var t := After(s, a);
    if a.Commit? {
      assert forall i :: 0 <= i < |t.b.writing| ==> (var j := i + 1; t.b.writing[i] == s.b.writing[j]);
    } else if a.Begin? {
      assert forall i :: 0 <= i < |t.b.writing| ==> t.b.writing[i].waiter == s.b.writing[i].waiter;
    }
  }

  lemma {:induction false} QuietThroughout(s: System, actions: seq<Action>, last: System, id: Id)
    requires Inv(s) && Run(s, actions, last) && Boot !in actions && id in s.log.known && Quiet(s.b, id)
    ensures id !in last.b.timers
    decreases |actions|
  {
    if actions != [] {
      assert actions[0] in actions;
      QuietStays(s, actions[0], id);
      StepKeeps(s, actions[0]);
      hide Inv, Enabled, After, Quiet;
      QuietThroughout(After(s, actions[0]), actions[1..], last, id);
    }
  }

  lemma SendingIsQuiet(b: Bot, r: Reminder)
    requires InOnePlace(b) && r in b.sending
    ensures Quiet(b, r.id)
  {
    if i :| 0 <= i < |b.writing| && b.writing[i].waiter.AddWaits? && b.writing[i].waiter.reminder.id == r.id {
      assert AddQueued(b, i, r.id);
    }
  }

  /** Once a reminder's send has begun, no timer of it goes off again before the
      bot is next started: between two starts it is sent at most once. */
  lemma SentOncePerStart(zoneIsValid: bool, now: int, actions: seq<Action>, s: System, r: Reminder,
                         more: seq<Action>, last: System)
    requires Run(Start(zoneIsValid, now), actions, s) && r in s.b.sending
    requires Run(s, more, last) && Boot !in more
    ensures !Enabled(last, GoOff(r.id))
  {
    RunsKeep(Start(zoneIsValid, now), actions, s);
    RunsKeepPlaces(Start(zoneIsValid, now), actions, s);
    PlacesAreKnown(s);
    hide Run, Inv, InOnePlace, Quiet;
    SendingIsQuiet(s.b, r);
    QuietThroughout(s, more, last, r.id);
  }

  // ── An add still waiting ──────────────────────────────────────────────────

  lemma {:induction false} RunsJoin(s: System, actions: seq<Action>, t: System, more: seq<Action>, last: System)
    requires Run(s, actions, t) && Run(t, more, last)
    ensures Run(s, actions + more, last)
    decreases |actions|
  {
    hide Enabled, After;
    if actions == [] {
      assert actions + more == more;
    } else {
      assert (actions + more)[1..] == actions[1..] + more;
      RunsJoin(After(s, actions[0]), actions[1..], t, more, last);
    }
  }

  lemma RunsOne(s: System, a: Action)
    requires Enabled(s, a)
    ensures Run(s, [a], After(s, a))
  {
    assert Run(After(s, a), [a][1..], After(s, a));
  }

  /** However far off the reminder is, ticking and looking again comes to its send. */
  lemma {:induction false} GoesOffAtLast(s: System, id: Id) returns (actions: seq<Action>, last: System)
    requires Inv(s) && s.b.running && id in s.b.timers
    ensures Run(s, actions, last) && Boot !in actions && id in last.log.attempted
    decreases s.b.timers[id].reminder.dueAt - s.b.timers[id].setAt, if s.b.timers[id].fires then 0 else 1
  {
    hide Holds, Writes, Armed, Sends;
    var timer := s.b.timers[id];
    var tick := Tick(if timer.wake > s.b.now then timer.wake else s.b.now);
    var t := After(s, tick);
    TickKeeps(s, tick.to);
    var u := After(t, GoOff(id));
    GoOffKeeps(t, id);
    hide Inv;
    RunsOne(s, tick);
    RunsOne(t, GoOff(id));
    RunsJoin(s, [tick], t, [GoOff(id)], u);
    hide Run;
    actions, last := [tick] + [GoOff(id)], u;
    if !timer.fires {
      assert u.b.timers[id] == TimerFor(t.b.now, timer.reminder);
      var more, end := GoesOffAtLast(u, id);
      RunsJoin(s, actions, u, more, end);
      actions, last := actions + more, end;
    }
  }

  /** One write of the queue is made. */
  lemma OneWrite(s: System) returns (actions: seq<Action>, t: System)
    requires Inv(s) && s.b.running && s.b.writing != []
    ensures Run(s, actions, t) && Boot !in actions && Inv(t) && t.b.running && t.b.writing == s.b.writing[1..]
    ensures s.b.landed <= t.b.landed
    ensures s.b.writing[0].waiter.AddWaits? ==> s.b.writing[0].waiter.reminder in t.b.landed
  {
    hide Inv;
    actions, t := [], s;
    assert Run(s, [], s);
    if s.b.writing[0].body.None? {
      BeginKeeps(s);
      t := After(s, Begin);
      RunsOne(s, Begin);
      actions := [Begin];
    }
    CommitKeeps(t);
    RunsOne(t, Commit);
    RunsJoin(s, actions, t, [Commit], After(t, Commit));
    assert t.b.writing[1..] == s.b.writing[1..];
    actions, t := actions + [Commit], After(t, Commit);
  }

  /** The writes ahead of an add are made, then its own. */
  lemma {:induction false} LandsAtLast(s: System, i: nat) returns (actions: seq<Action>, t: System)
    requires Inv(s) && s.b.running && i < |s.b.writing| && s.b.writing[i].waiter.AddWaits?
    ensures Run(s, actions, t) && Boot !in actions && Inv(t) && t.b.running
    ensures s.b.writing[i].waiter.reminder in t.b.landed
    decreases i
  {
    actions, t := OneWrite(s);
    hide Inv, Run;
    if i > 0 {
      assert t.b.writing[i - 1] == s.b.writing[i];
      var more, end := LandsAtLast(t, i - 1);
      RunsJoin(s, actions, t, more, end);
      actions, t := actions + more, end;
    }
  }

  /** An add that has landed goes on, and its reminder is sent in time. */
  lemma LandedIsSent(s: System, r: Reminder) returns (actions: seq<Action>, last: System)
    requires Inv(s) && s.b.running && r in s.b.landed
    ensures Run(s, actions, last) && Boot !in actions && r.id in last.log.attempted
  {
    hide Inv, Run;
    var t := After(s, AddGoesOn(r));
    AddGoesOnKeeps(s, r);
    RunsOne(s, AddGoesOn(r));
    var more, end := GoesOffAtLast(t, r.id);
    RunsJoin(s, [AddGoesOn(r)], t, more, end);
    actions, last := [AddGoesOn(r)] + more, end;
  }

  lemma WaitingIsSent(s: System, id: Id) returns (actions: seq<Action>, last: System)
    requires Inv(s) && s.b.running && AddWaiting(s.b, id)
    ensures Run(s, actions, last) && Boot !in actions && id in last.log.attempted
  {
    hide Inv, Run;
    if r :| r in s.b.landed && r.id == id {
      actions, last := LandedIsSent(s, r);
    } else {
      var i: nat :| i < |s.b.writing| && s.b.writing[i].waiter.AddWaits? && s.b.writing[i].waiter.reminder.id == id;
      var first, t := LandsAtLast(s, i);
      var more, end := LandedIsSent(t, s.b.writing[i].waiter.reminder);
      RunsJoin(s, first, t, more, end);
      actions, last := first + more, end;
    }
  }

  lemma CancelLeavesAdds(b: Bot, id: Id, user: string)
    requires MayCancel(b, id, user)
    ensures AddWaiting(CancelCalled(b, id, user), id) <==> AddWaiting(b, id)
    ensures id !in CancelCalled(b, id, user).timers
  {
    var c := CancelCalled(b, id, user);
    assert forall i :: 0 <= i < |b.writing| ==> c.writing[i] == b.writing[i];
    assert c.writing[|b.writing|].waiter == CancelWaits(id);
  }

  lemma {:induction false} NoStartNoMatter(s: System, actions: seq<Action>, last: System, id: Id)
    requires Run(s, actions, last) && Boot !in actions
    ensures StartsAfterRemoval(s, actions, id)
    decreases |actions|
  {
    if actions != [] {
      assert actions[0] in actions;
      NoStartNoMatter(After(s, actions[0]), actions[1..], last, id);
    }
  }

  /** The reminder is never sent in any run from here that starts the bot again only once its removal has been written. */
  ghost predicate NeverSent(s: System, id: Id) {
    forall actions, last :: Run(s, actions, last) && StartsAfterRemoval(s, actions, id) ==> id !in last.log.attempted
  }

  /** After its owner cancels it a reminder is never sent if and only if no add of
      it was waiting, for its write or to set its timer, at the cancel. */
  lemma CancelStops(s: System, id: Id, user: string)
    requires Inv(s) && s.b.running && MayCancel(s.b, id, user) && id !in s.log.attempted
    ensures NeverSent(After(s, Cancel(id, user)), id) <==> !AddWaiting(s.b, id)
  {
    var t := After(s, Cancel(id, user));
    CancelKeeps(s, id, user);
    CancelLeavesAdds(s.b, id, user);
    assert id in t.log.known && id !in t.log.attempted && t.b.running by {
      hide Writes, Armed, Sends, Timed;
    }
    hide Inv, After, CancelCalled;
    if AddWaiting(s.b, id) {
      var actions, last := WaitingIsSent(t, id);
      NoStartNoMatter(t, actions, last, id);
    } else {
      assert Silent(t, id);
      forall actions, last | Run(t, actions, last) && StartsAfterRemoval(t, actions, id)
        ensures id !in last.log.attempted
      {
        SilentStays(t, actions, last, id);
      }
    }
  }

  /** And a process that dies before the removal is written brings the reminder back. */
  lemma CrashUndoesCancel(s: System, r: Reminder, user: string)
    requires Inv(s) && s.b.running && MayCancel(s.b, r.id, user) && r in s.b.disk
    ensures exists last :: Run(s, [Cancel(r.id, user), Crash, Boot], last) && r in last.b.state
                           && (r in last.b.sending || r.id in last.b.timers)
  {
    var s1 := After(s, Cancel(r.id, user));
    CancelKeeps(s, r.id, user);
    var s2 := After(s1, Crash);
    CrashKeeps(s1);
    BootFinds(s2, r);
    hide Inv;
    var s3 := After(s2, Boot);
    hide After;
    var none: seq<Action> := [];
    assert [Cancel(r.id, user), Crash, Boot][1..] == [Crash, Boot] && [Crash, Boot][1..] == [Boot] && [Boot][1..] == none;
    assert Run(s2, [Boot], s3);
    assert Run(s1, [Crash, Boot], s3);
  }

  lemma BootFinds(s: System, r: Reminder)
    requires Inv(s) && !s.b.running && r in s.b.disk
    ensures var t := After(s, Boot); r in t.b.state && (r in t.b.sending || r.id in t.b.timers)
  {
    RestoredIs(s.log, s.b.(running := true, state := s.b.disk), s.b.disk);
    hide Restored;
  }
}
