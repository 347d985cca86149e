/**
 * One keychain record shared by the app and its share extension. Refreshes take
 * turns under a file lease; signing in or out replaces the record at any moment.
 */
module SharedSession {
  import opened Wrappers

  type Id = nat
  type Token = nat

  /** A record without tokens is a tombstone: signed out, and known to be. */
  datatype Record = Record(id: Id, access: Option<Token>, refresh: Option<Token>)

  datatype Failure = Unavailable | Changed

  /** What the app goes by: whether it can read the shared record just now, that
      record, and the one it has cached. */
  datatype Keep = Keep(readable: bool, record: Option<Record>, own: Record)

  /** The cache is made the shared record; the first time, the shared record is made the cache. */
  function Loaded(k: Keep): Keep {
    if !k.readable then k
    else var r := if k.record.Some? then k.record.value else k.own; Keep(true, Some(r), r)
  }

  /** Signing in or out puts a record of its own in both places, the shared one only where it can. */
  function Replaced(k: Keep, r: Record): Keep {
    Keep(k.readable, if k.readable then Some(r) else k.record, r)
  }

  /** Tokens a private refresh brought, kept for the account they were asked for. */
  function SavedFor(k: Keep, generation: Id, access: Token, refresh: Token): (Keep, bool) {
    if Loaded(k).own.id != generation then (Loaded(k), false)
    else (Replaced(Loaded(k), Record(generation, Some(access), Some(refresh))), true)
  }

  /** How far a refresh under the lease has got. */
  datatype Stage =
    | Waiting
    | Leased
    | Asking(current: Record)
    | Presented(current: Record)
    | Rotated(current: Record, access: Token, refresh: Token)

  datatype Refresh = Refresh(id: Id, failedAccess: Option<Token>, stage: Stage)

  /** A refresh the app makes without the lease, when it cannot read the shared record. */
  datatype Private =
    | Begun(generation: Id)
    | Shown(generation: Id, token: Token)
    | Answered(generation: Id, token: Token, access: Token, refresh: Token)

  type Task = nat

  /** What the app goes by, who holds the lease, the refreshes under way in
      either process, every id ever minted, those signing in or out has replaced,
      the refresh tokens whose replacement has been stored, every token ever
      issued, the record each access token was issued for, and, for each token shown to the server, whether its replacement
      was stored by then. */
  datatype Shared = Shared(
    keep: Keep,
    lease: Option<Task>,
    tasks: map<Task, Refresh>,
    privates: map<Task, Private>,
    ids: set<Id>,
    retired: set<Id>,
    superseded: set<Token>,
    issued: set<Token>,
    minted: map<Token, Record>,
    shown: seq<(Token, bool)>)

  datatype Action =
    | Toggle
    | Load
    | SignIn(newId: Id, access: Token, refresh: Token)
    | SignOut(newId: Id)
    | StartRefresh(task: Task, id: Id, failedAccess: Option<Token>)
    | Acquire(task: Task)
    | GiveUp(task: Task)
    | ReadRecord(task: Task)
    | Present(task: Task)
    | ServerRotates(task: Task, access: Token, refresh: Token)
    | ServerFails(task: Task)
    | Write(task: Task)
    | Die(task: Task)
    | StartPrivate(task: Task)
    | PresentPrivate(task: Task)
    | PrivateRotates(task: Task, access: Token, refresh: Token)
    | SavePrivate(task: Task)
    | PrivateEnds(task: Task)

  // ── Steps ─────────────────────────────────────────────────────────────────

  /** An id nothing has had. */
  predicate NewId(s: Shared, id: Id) {
    id !in s.ids
  }

  predicate NewToken(s: Shared, t: Token) {
    t !in s.issued
  }

  predicate NewTokens(s: Shared, access: Token, refresh: Token) {
    NewToken(s, access) && NewToken(s, refresh) && access != refresh
  }

  function StageOf(s: Shared, t: Task): Option<Stage> {
    if t in s.tasks then Some(s.tasks[t].stage) else None
  }

  predicate Enabled(s: Shared, a: Action) {
    match a
    case Toggle => true
    case Load => true
    case SignIn(id, access, refresh) => NewId(s, id) && NewTokens(s, access, refresh)
    case SignOut(id) => NewId(s, id)
    case StartRefresh(t, _, _) => t !in s.tasks
    case Acquire(t) => StageOf(s, t) == Some(Waiting) && s.lease.None?
    case GiveUp(t) => StageOf(s, t) == Some(Waiting)
    case ReadRecord(t) => StageOf(s, t) == Some(Leased)
    case Present(t) => t in s.tasks && s.tasks[t].stage.Asking? && s.tasks[t].stage.current.refresh.Some?
    case ServerRotates(t, access, refresh) => t in s.tasks && s.tasks[t].stage.Presented? && NewTokens(s, access, refresh)
    case ServerFails(t) => t in s.tasks && s.tasks[t].stage.Presented?
    case Write(t) => t in s.tasks && s.tasks[t].stage.Rotated?
    case Die(t) => t in s.tasks
    case StartPrivate(t) => t !in s.privates && !s.keep.readable
    case PresentPrivate(t) => t in s.privates && s.privates[t].Begun?
    case PrivateRotates(t, access, refresh) => t in s.privates && s.privates[t].Shown? && NewTokens(s, access, refresh)
    case SavePrivate(t) => t in s.privates && s.privates[t].Answered?
    case PrivateEnds(t) => t in s.privates
  }

  /** Signing in or out, under a new id. */
  function Signed(s: Shared, r: Record): Shared {
    s.(keep := Replaced(s.keep, r), ids := s.ids + {r.id},
       retired := if s.keep.readable && s.keep.record.Some? then s.retired + {s.keep.record.value.id} else s.retired)
  }

  /** The server issues a pair of tokens to an account. */
  function Minted(s: Shared, id: Id, access: Token, refresh: Token): Shared {
    s.(issued := s.issued + {access, refresh}, minted := s.minted[access := Record(id, Some(access), Some(refresh))])
  }

  /** A refresh is over; the lease goes with it. */
  function Ended(s: Shared, t: Task): Shared {
    s.(tasks := s.tasks - {t}, lease := if s.lease == Some(t) then None else s.lease)
  }

  function AtStage(s: Shared, t: Task, stage: Stage): Shared
    requires t in s.tasks
  {
    s.(tasks := s.tasks[t := s.tasks[t].(stage := stage)])
  }

  /** The record is for this account, signed in, and still holds the token that was refused. */
  predicate MayRefresh(record: Option<Record>, id: Id, failedAccess: Option<Token>) {
    && record.Some? && record.value.id == id && record.value.refresh.Some? && record.value.access.Some?
    && record.value.access == failedAccess
  }

  /** Compare before writing: only the record that was read is replaced. */
  predicate Unchanged(record: Option<Record>, id: Id, current: Record) {
    record.Some? && record.value.id == id && record.value.access == current.access
  }

  function After(s: Shared, a: Action): Shared
    requires Enabled(s, a)
  {
    match a
    case Toggle => s.(keep := s.keep.(readable := !s.keep.readable))
    case Load => s.(keep := Loaded(s.keep))
    case SignIn(id, access, refresh) =>
      Minted(Signed(s, Record(id, Some(access), Some(refresh))), id, access, refresh)
    case SignOut(id) => Signed(s, Record(id, None, None))
    case StartRefresh(t, id, failedAccess) => s.(tasks := s.tasks[t := Refresh(id, failedAccess, Waiting)])
    case Acquire(t) => AtStage(s, t, Leased).(lease := Some(t))
    case GiveUp(t) => Ended(s, t)
    case ReadRecord(t) =>
      if MayRefresh(s.keep.record, s.tasks[t].id, s.tasks[t].failedAccess) then AtStage(s, t, Asking(s.keep.record.value))
      else Ended(s, t)
    case Present(t) =>
      var current := s.tasks[t].stage.current;
      AtStage(s, t, Presented(current)).(
        shown := s.shown + [(current.refresh.value, current.refresh.value in s.superseded)])
    case ServerRotates(t, access, refresh) =>
      Minted(AtStage(s, t, Rotated(s.tasks[t].stage.current, access, refresh)), s.tasks[t].id, access, refresh)
    case ServerFails(t) => Ended(s, t)
    case Write(t) =>
      var Rotated(current, access, refresh) := s.tasks[t].stage;
      if Unchanged(s.keep.record, s.tasks[t].id, current) then
        Ended(s, t).(
          keep := s.keep.(record := Some(Record(s.tasks[t].id, Some(access), Some(refresh)))),
          superseded := s.superseded + (if current.refresh.Some? then {current.refresh.value} else {}))
      else Ended(s, t)
    case Die(t) => Ended(s, t)
    case StartPrivate(t) => s.(privates := s.privates[t := Begun(s.keep.own.id)])
    case PresentPrivate(t) =>
      var own := Loaded(s.keep).own;
      if own.refresh.Some? then
        s.(keep := Loaded(s.keep), privates := s.privates[t := Shown(s.privates[t].generation, own.refresh.value)],
           shown := s.shown + [(own.refresh.value, own.refresh.value in s.superseded)])
      else s.(keep := Loaded(s.keep), privates := s.privates - {t})
    case PrivateRotates(t, access, refresh) =>
      Minted(s.(privates := s.privates[t := Answered(s.privates[t].generation, s.privates[t].token, access, refresh)]),
             s.privates[t].generation, access, refresh)
    case SavePrivate(t) =>
      var Answered(generation, token, access, refresh) := s.privates[t];
      var (keep, ok) := SavedFor(s.keep, generation, access, refresh);
      s.(keep := keep, privates := s.privates - {t}, superseded := if ok then s.superseded + {token} else s.superseded)
    case PrivateEnds(t) => s.(privates := s.privates - {t})
  }

  // ── Which ids come back ───────────────────────────────────────────────────

  /** The shared record never has a replaced id, and none is replaced before there is one. */
  predicate IdsOk(s: Shared) {
    && s.retired <= s.ids && s.keep.own.id in s.ids
    && (s.keep.record.Some? ==> s.keep.record.value.id in s.ids && s.keep.record.value.id !in s.retired)
    && (s.keep.record.None? ==> s.retired == {})
  }

  lemma StepKeepsIds(s: Shared, a: Action)
    requires IdsOk(s) && Enabled(s, a)
    ensures IdsOk(After(s, a)) && s.retired <= After(s, a).retired
  {
  }

  // ── Which record an access token names ────────────────────────────────────

  function CurrentOf(stage: Stage): Option<Record> {
    match stage
    case Asking(c) => Some(c)
    case Presented(c) => Some(c)
    case Rotated(c, _, _) => Some(c)
    case _ => None
  }

  predicate Named(s: Shared, r: Record) {
    r.access.Some? ==> r.access.value in s.minted && s.minted[r.access.value] == r
  }

  ghost predicate TaskNamed(s: Shared, t: Task)
    requires t in s.tasks
  {
    var r := s.tasks[t];
    && (CurrentOf(r.stage).Some? ==>
          Named(s, CurrentOf(r.stage).value) && CurrentOf(r.stage).value.access.Some? && CurrentOf(r.stage).value.id == r.id)
    && (r.stage.Rotated? ==> Named(s, Record(r.id, Some(r.stage.access), Some(r.stage.refresh))))
  }

  ghost predicate PrivateNamed(s: Shared, p: Task)
    requires p in s.privates
  {
    var q := s.privates[p];
    q.Answered? ==> Named(s, Record(q.generation, Some(q.access), Some(q.refresh)))
  }

  ghost predicate KeepNamed(s: Shared) {
    Named(s, s.keep.own) && (s.keep.record.Some? ==> Named(s, s.keep.record.value))
  }

  /** Every record there is, and every answer not yet stored, is what its access token was issued for. */
  ghost predicate NamesOk(s: Shared) {
    && s.minted.Keys <= s.issued && KeepNamed(s)
    && (forall t {:trigger TaskNamed(s, t)} :: t in s.tasks ==> TaskNamed(s, t))
    && (forall p {:trigger PrivateNamed(s, p)} :: p in s.privates ==> PrivateNamed(s, p))
  }

  /** A pair of new tokens takes no name from a record that had one. */
  lemma MintingKeepsNames(s: Shared, id: Id, access: Token, refresh: Token)
    requires NamesOk(s) && NewTokens(s, access, refresh)
    ensures NamesOk(Minted(s, id, access, refresh))
    ensures Named(Minted(s, id, access, refresh), Record(id, Some(access), Some(refresh)))
  {
    var m := Minted(s, id, access, refresh);
    forall t | t in s.tasks
      ensures TaskNamed(m, t)
    {
      assert TaskNamed(s, t);
    }
    forall p | p in s.privates
      ensures PrivateNamed(m, p)
    {
      assert PrivateNamed(s, p);
    }
  }

  lemma TasksKeepNames(s: Shared, a: Action)
    requires NamesOk(s) && Enabled(s, a)
    requires a.StartRefresh? || a.Acquire? || a.GiveUp? || a.ReadRecord? || a.Present? || a.ServerFails? || a.Write? || a.Die?
    ensures NamesOk(After(s, a))
  {
    var m := After(s, a);
    forall t | t in m.tasks
      ensures TaskNamed(m, t)
    {
      assert t in s.tasks ==> TaskNamed(s, t);
    }
    forall p | p in m.privates
      ensures PrivateNamed(m, p)
    {
      assert PrivateNamed(s, p);
    }
    if a.Write? {
      assert TaskNamed(s, a.task);
    }
  }

  lemma PrivatesKeepNames(s: Shared, a: Action)
    requires NamesOk(s) && Enabled(s, a)
    requires a.Toggle? || a.Load? || a.SignOut? || a.StartPrivate? || a.PresentPrivate? || a.SavePrivate? || a.PrivateEnds?
    ensures NamesOk(After(s, a))
  {
    var m := After(s, a);
    forall t | t in m.tasks
      ensures TaskNamed(m, t)
    {
      assert TaskNamed(s, t);
    }
    forall p | p in m.privates
      ensures PrivateNamed(m, p)
    {
      assert p in s.privates ==> PrivateNamed(s, p);
    }
    if a.SavePrivate? {
      assert PrivateNamed(s, a.task);
    }
  }

  lemma IssuesKeepNames(s: Shared, a: Action)
    requires NamesOk(s) && Enabled(s, a) && (a.SignIn? || a.ServerRotates? || a.PrivateRotates?)
    ensures NamesOk(After(s, a))
  {
    var m := After(s, a);
    var id := match a
      case SignIn(id, _, _) => id
      case ServerRotates(t, _, _) => s.tasks[t].id
      case PrivateRotates(p, _, _) => s.privates[p].generation
      case _ => 0;
    var named := Minted(s, id, a.access, a.refresh);
    MintingKeepsNames(s, id, a.access, a.refresh);
    forall t | t in m.tasks
      ensures TaskNamed(m, t)
    {
      assert TaskNamed(named, t);
    }
    forall p | p in m.privates
      ensures PrivateNamed(m, p)
    {
      assert PrivateNamed(named, p);
    }
  }

  lemma StepKeepsNames(s: Shared, a: Action)
    requires NamesOk(s) && Enabled(s, a)
    ensures NamesOk(After(s, a))
  {
    hide NamesOk, Enabled, After;
    if a.SignIn? || a.ServerRotates? || a.PrivateRotates? {
      IssuesKeepNames(s, a);
    } else if a.Toggle? || a.Load? || a.SignOut? || a.StartPrivate? || a.PresentPrivate? || a.SavePrivate? || a.PrivateEnds? {
      PrivatesKeepNames(s, a);
    } else {
      TasksKeepNames(s, a);
    }
  }

  lemma {:induction false} RunsKeepNames(s: Shared, actions: seq<Action>, t: Shared)
    requires NamesOk(s) && Run(s, actions, t)
    ensures NamesOk(t)
    decreases |actions|
  {
    if actions != [] {
      StepKeepsNames(s, actions[0]);
      hide NamesOk;
      RunsKeepNames(After(s, actions[0]), actions[1..], t);
    }
  }

  // ── The invariant of refreshes under the lease ────────────────────────────

  /** Only the lease's holder is past the lock. */
  ghost predicate LeaseOk(s: Shared) {
    && (s.lease.Some? ==> s.lease.value in s.tasks && !s.tasks[s.lease.value].stage.Waiting?)
    && (forall t :: t in s.tasks && !s.tasks[t].stage.Waiting? ==> s.lease == Some(t))
  }

  /** What the holder read: its own account's record, not superseded, and, while
      that account's record stands, exactly that record. */
  ghost predicate HolderOk(s: Shared) {
    forall t :: t in s.tasks && CurrentOf(s.tasks[t].stage).Some? ==>
      var c := CurrentOf(s.tasks[t].stage).value;
      && c.id == s.tasks[t].id && c.refresh.Some? && c.refresh.value !in s.superseded
      && s.keep.record.Some? && (s.keep.record.value.id == c.id ==> s.keep.record.value == c)
      && (s.keep.record.value.id != c.id ==> c.id in s.retired)
  }

  ghost predicate TokensOk(s: Shared) {
    && s.superseded <= s.issued
    && (s.keep.own.refresh.Some? ==> s.keep.own.refresh.value in s.issued)
    && (s.keep.record.Some? && s.keep.record.value.refresh.Some? ==>
          s.keep.record.value.refresh.value in s.issued && s.keep.record.value.refresh.value !in s.superseded)
    && (s.keep.record.None? ==> s.superseded == {})
    && (forall t :: t in s.tasks && s.tasks[t].stage.Rotated? ==>
          s.tasks[t].stage.refresh in s.issued && s.tasks[t].stage.refresh !in s.superseded
          && s.tasks[t].stage.current.refresh != Some(s.tasks[t].stage.refresh))
    && (forall t :: t in s.tasks && CurrentOf(s.tasks[t].stage).Some? ==>
          CurrentOf(s.tasks[t].stage).value.refresh.Some? ==>
            CurrentOf(s.tasks[t].stage).value.refresh.value in s.issued)
  }

  /** No token was shown after its replacement was stored. */
  predicate ShownOk(s: Shared) {
    forall i :: 0 <= i < |s.shown| ==> !s.shown[i].1
  }

  ghost predicate Inv(s: Shared) {
    IdsOk(s) && LeaseOk(s) && HolderOk(s) && TokensOk(s) && ShownOk(s) && s.privates == map[]
  }

  lemma StepKeepsLease(s: Shared, a: Action)
    requires LeaseOk(s) && Enabled(s, a)
    ensures LeaseOk(After(s, a))
  {
  }

  lemma StepKeepsHolder(s: Shared, a: Action)
    requires Inv(s) && Enabled(s, a) && !a.StartPrivate?
    ensures HolderOk(After(s, a))
  {
  }

  lemma StepKeepsTokens(s: Shared, a: Action)
    requires Inv(s) && Enabled(s, a) && !a.StartPrivate?
    ensures TokensOk(After(s, a))
  {
    hide ShownOk;
  }

  lemma StepKeepsShown(s: Shared, a: Action)
    requires Inv(s) && Enabled(s, a) && !a.StartPrivate?
    ensures ShownOk(After(s, a)) && After(s, a).privates == map[]
  {
    hide LeaseOk, TokensOk, IdsOk;
  }

  lemma StepKeeps(s: Shared, a: Action)
    requires Inv(s) && Enabled(s, a) && !a.StartPrivate?
    ensures Inv(After(s, a))
  {
    hide HolderOk, TokensOk, ShownOk, LeaseOk, IdsOk, After;
    StepKeepsIds(s, a);
    StepKeepsLease(s, a);
    StepKeepsHolder(s, a);
    StepKeepsTokens(s, a);
    StepKeepsShown(s, a);
  }

  // ── Runs ──────────────────────────────────────────────────────────────────

  /** The app starts with a cache of its own and no shared record. */
  function Start(own: Record): Shared {
    Shared(Keep(true, None, own), None, map[], map[], {own.id}, {}, {},
           (if own.access.Some? then {own.access.value} else {}) + (if own.refresh.Some? then {own.refresh.value} else {}),
           if own.access.Some? then map[own.access.value := own] else map[], [])
  }

  predicate Run(s: Shared, actions: seq<Action>, t: Shared)
    decreases |actions|
  {
    if actions == [] then t == s
    else Enabled(s, actions[0]) && Run(After(s, actions[0]), actions[1..], t)
  }

  /** The app could read the shared record whenever it came to refresh. */
  predicate AlwaysLeased(actions: seq<Action>) {
    forall a :: a in actions ==> !a.StartPrivate?
  }

  /** So it could wherever the record was readable throughout. */
  lemma {:induction false} ReadableIsLeased(s: Shared, actions: seq<Action>, t: Shared)
    requires s.keep.readable && Run(s, actions, t) && Toggle !in actions
    ensures AlwaysLeased(actions)
    decreases |actions|
  {
    if actions != [] {
      assert actions[0] in actions;
      ReadableIsLeased(After(s, actions[0]), actions[1..], t);
      assert actions == [actions[0]] + actions[1..];
    }
  }

  lemma {:induction false} RunsKeep(s: Shared, actions: seq<Action>, t: Shared)
    requires Inv(s) && Run(s, actions, t) && AlwaysLeased(actions)
    ensures Inv(t)
    decreases |actions|
  {
    if actions != [] {
      assert actions[0] in actions;
      StepKeeps(s, actions[0]);
      hide Inv;
      RunsKeep(After(s, actions[0]), actions[1..], t);
    }
  }

  lemma {:induction false} RunsKeepIds(s: Shared, actions: seq<Action>, t: Shared)
    requires IdsOk(s) && Run(s, actions, t)
    ensures IdsOk(t) && s.retired <= t.retired
    decreases |actions|
  {
    if actions != [] {
      StepKeepsIds(s, actions[0]);
      hide IdsOk;
      RunsKeepIds(After(s, actions[0]), actions[1..], t);
    }
  }

  /** Once signing in or out replaces the shared record, no interleaving of
      refreshes, in either process, leased or private and started at any time,
      writes a record with its id again. */
  lemma ReplacedIdsStayGone(own: Record, before: seq<Action>, s: Shared, replacing: Action, after: seq<Action>, t: Shared)
    requires Run(Start(own), before, s) && s.keep.record.Some? && s.keep.readable
    requires (replacing.SignIn? || replacing.SignOut?) && Enabled(s, replacing)
    requires Run(After(s, replacing), after, t)
    ensures t.keep.record.Some? && t.keep.record.value.id != s.keep.record.value.id
  {
    RunsKeepIds(Start(own), before, s);
    StepKeepsIds(s, replacing);
    RunsKeepIds(After(s, replacing), after, t);
  }

  /** Where the app cannot read the shared record at that moment it replaces
      nothing: once it can again, the account signed out of is back. */
  lemma UnreadSignOutReturns(s: Shared, replacing: Action)
    requires s.keep.record.Some? && !s.keep.readable
    requires (replacing.SignIn? || replacing.SignOut?) && Enabled(s, replacing)
    ensures exists t :: Run(s, [replacing, Toggle, Load], t) && t.keep.own == s.keep.record.value && t.keep.record == s.keep.record
  {
    var u := After(s, replacing);
    var v := After(u, Toggle);
    var t := After(v, Load);
    RunsThree(s, replacing, Toggle, Load);
  }

  lemma RunsThree(s: Shared, a: Action, b: Action, c: Action)
    requires Enabled(s, a) && Enabled(After(s, a), b) && Enabled(After(After(s, a), b), c)
    ensures Run(s, [a, b, c], After(After(After(s, a), b), c))
  {
    hide Enabled, After;
    assert [a, b, c][1..] == [b, c] && [b, c][1..] == [c] && [c][1..] == [];
    assert Run(After(After(s, a), b), [c], After(After(After(s, a), b), c));
    assert Run(After(s, a), [b, c], After(After(After(s, a), b), c));
  }

  /** Two refreshes are never past the lock at once, and none goes round it,
      while the app can read the shared record whenever it refreshes. */
  lemma RefreshesNeverOverlap(own: Record, actions: seq<Action>, s: Shared, t: Task, u: Task)
    requires Run(Start(own), actions, s) && AlwaysLeased(actions)
    requires t in s.tasks && u in s.tasks && !s.tasks[t].stage.Waiting? && !s.tasks[u].stage.Waiting?
    ensures t == u && s.privates == map[]
  {
    RunsKeep(Start(own), actions, s);
  }

  /** No refresh token is then shown to the server after its replacement was stored. */
  lemma NoSupersededTokenShown(own: Record, actions: seq<Action>, s: Shared, i: nat)
    requires Run(Start(own), actions, s) && AlwaysLeased(actions) && i < |s.shown|
    ensures !s.shown[i].1
  {
    RunsKeep(Start(own), actions, s);
  }

  /** What a refresh under the lease stores replaces exactly the record it read,
      in the same account, whatever was done outside the lease. */
  lemma WritesOverWhatItRead(own: Record, actions: seq<Action>, s: Shared, t: Task)
    requires Run(Start(own), actions, s) && Enabled(s, Write(t))
    ensures var Rotated(current, access, refresh) := s.tasks[t].stage;
            var r := After(s, Write(t)).keep.record;
            && (s.keep.record == Some(current) ==> r == Some(Record(current.id, Some(access), Some(refresh))))
            && (s.keep.record != Some(current) ==> r == s.keep.record)
  {
    RunsKeepNames(Start(own), actions, s);
    assert TaskNamed(s, t);
  }

  // ── One refused token, one rotation ───────────────────────────────────────

  /** A refresh that has read the record read the very token that was refused. */
  ghost predicate AsksForRefused(s: Shared) {
    forall t :: t in s.tasks && CurrentOf(s.tasks[t].stage).Some? ==>
      var r := CurrentOf(s.tasks[t].stage).value;
      r.access.Some? && r.access == s.tasks[t].failedAccess && r.id == s.tasks[t].id
  }

  lemma {:induction false} RunsAskForRefused(s: Shared, actions: seq<Action>, t: Shared)
    requires AsksForRefused(s) && Run(s, actions, t)
    ensures AsksForRefused(t)
    decreases |actions|
  {
    if actions != [] {
      StepAsksForRefused(s, actions[0]);
      hide AsksForRefused;
      RunsAskForRefused(After(s, actions[0]), actions[1..], t);
    }
  }

  lemma StepAsksForRefused(s: Shared, a: Action)
    requires AsksForRefused(s) && Enabled(s, a)
    ensures AsksForRefused(After(s, a))
  {
  }

  /** In every run a refresh shows the server a token only while it goes by a
      record of its own account that held the refused access token when it was read. */
  lemma ShowsForRefused(own: Record, actions: seq<Action>, s: Shared, t: Task)
    requires Run(Start(own), actions, s) && Enabled(s, Present(t))
    ensures var r := s.tasks[t].stage.current;
            && r.id == s.tasks[t].id && r.access.Some? && r.access == s.tasks[t].failedAccess
            && After(s, Present(t)).shown == s.shown + [(r.refresh.value, r.refresh.value in s.superseded)]
  {
    RunsAskForRefused(Start(own), actions, s);
  }

  /** What reading the record under the lease decides: to go on with exactly a
      record that still holds the refused token, or to end there, having asked and
      changed nothing. */
  lemma ReadsExactly(s: Shared, t: Task)
    requires Enabled(s, ReadRecord(t))
    ensures var w := After(s, ReadRecord(t));
            var task := s.tasks[t];
            && w.keep == s.keep && w.shown == s.shown && w.issued == s.issued && w.privates == s.privates
            && (forall r :: w.tasks == s.tasks[t := task.(stage := Asking(r))] <==>
                              s.keep.record == Some(r) && r.id == task.id && r.refresh.Some?
                              && r.access.Some? && r.access == task.failedAccess)
            && (s.keep.record.None? || s.keep.record.value.access != task.failedAccess ==>
                  w.tasks == s.tasks - {t} && (s.lease == Some(t) ==> w.lease == None))
  {
    var w := After(s, ReadRecord(t));
    if w.tasks != s.tasks - {t} {
      assert t in w.tasks;
    }
  }

  /** Where the server's answer to a refresh waits to be stored. */
  datatype Slot = OfTask(task: Task) | OfPrivate(private: Task)

  function AnswerAt(s: Shared, k: Slot): Option<Token> {
    match k
    case OfTask(t) => if t in s.tasks && s.tasks[t].stage.Rotated? then Some(s.tasks[t].stage.access) else None
    case OfPrivate(p) => if p in s.privates && s.privates[p].Answered? then Some(s.privates[p].access) else None
  }

  function RecordAccess(s: Shared): Option<Token> {
    if s.keep.record.Some? then s.keep.record.value.access else None
  }

  /** An answer not stored yet is nowhere else. */
  ghost predicate AnswersApart(s: Shared) {
    && (forall k :: AnswerAt(s, k).Some? ==>
          AnswerAt(s, k).value in s.issued && AnswerAt(s, k) != RecordAccess(s) && AnswerAt(s, k) != s.keep.own.access)
    && (forall j, k :: j != k && AnswerAt(s, j).Some? ==> AnswerAt(s, j) != AnswerAt(s, k))
    && (RecordAccess(s).Some? ==> RecordAccess(s).value in s.issued)
    && (s.keep.own.access.Some? ==> s.keep.own.access.value in s.issued)
  }

  function Answering(a: Action): Option<Slot> {
    match a
    case ServerRotates(t, _, _) => Some(OfTask(t))
    case PrivateRotates(p, _, _) => Some(OfPrivate(p))
    case _ => None
  }

  function Storing(a: Action): Option<Slot> {
    match a
    case Write(t) => Some(OfTask(t))
    case SavePrivate(p) => Some(OfPrivate(p))
    case _ => None
  }

  lemma AnswersMove(s: Shared, a: Action, k: Slot)
    requires Enabled(s, a)
    ensures var w := After(s, a);
            && s.issued <= w.issued
            && (Answering(a) == Some(k) ==> AnswerAt(w, k) == Some(a.access) && a.access !in s.issued && a.access in w.issued)
            && (Storing(a) == Some(k) ==> AnswerAt(s, k).Some? && AnswerAt(w, k) == None)
            && (Answering(a) != Some(k) ==> AnswerAt(w, k) == None || AnswerAt(w, k) == AnswerAt(s, k))
  {
  }

  /** What can be in the record, or the app's cache, after a step. */
  lemma RecordsMove(s: Shared, a: Action)
    requires Enabled(s, a)
    ensures var w := After(s, a);
            var brought := if Storing(a).Some? then AnswerAt(s, Storing(a).value) else if a.SignIn? then Some(a.access) else None;
            && (RecordAccess(w) in {RecordAccess(s), brought, None} || (s.keep.record.None? && RecordAccess(w) == s.keep.own.access))
            && w.keep.own.access in {s.keep.own.access, RecordAccess(s), brought, None}
            && (s.keep.record.Some? ==> w.keep.record.Some?)
            && (a.SignIn? ==> a.access !in s.issued && a.access in w.issued)
  {
  }

  lemma StepKeepsApart(s: Shared, a: Action)
    requires AnswersApart(s) && Enabled(s, a)
    ensures AnswersApart(After(s, a))
  {
    hide After, Enabled, AnswerAt, RecordAccess;
    var w := After(s, a);
    RecordsMove(s, a);
    AnswersMove(s, a, if Storing(a).Some? then Storing(a).value else OfTask(0));
    forall k ensures AnswerAt(w, k).Some? ==>
        AnswerAt(w, k).value in w.issued && AnswerAt(w, k) != RecordAccess(w) && AnswerAt(w, k) != w.keep.own.access
    {
      AnswersMove(s, a, k);
    }
    forall j, k | j != k ensures AnswerAt(w, j).Some? ==> AnswerAt(w, j) != AnswerAt(w, k) {
      AnswersMove(s, a, j);
      AnswersMove(s, a, k);
    }
  }

  /** A refresh for this refused access token stores what the server answered. */
  predicate Stores(s: Shared, a: Action, access: Token)
    requires Enabled(s, a)
  {
    a.Write? && s.tasks[a.task].failedAccess == Some(access) && After(s, a).keep.record != s.keep.record
  }

  function Rotations(s: Shared, actions: seq<Action>, access: Token): nat
    decreases |actions|
  {
    if actions == [] || !Enabled(s, actions[0]) then 0
    else (if Stores(s, actions[0], access) then 1 else 0) + Rotations(After(s, actions[0]), actions[1..], access)
  }

  /** The token is not in the record, and will not be put there. */
  ghost predicate Past(s: Shared, access: Token) {
    && access in s.issued && s.keep.record.Some? && RecordAccess(s) != Some(access)
    && forall k :: AnswerAt(s, k) != Some(access)
  }

  lemma {:induction false} PastIsNotRotated(s: Shared, actions: seq<Action>, t: Shared, access: Token)
    requires AsksForRefused(s) && Past(s, access) && Run(s, actions, t)
    ensures Rotations(s, actions, access) == 0
    decreases |actions|
  {
    if actions != [] {
      StepKeepsPast(s, actions[0], access);
      StepAsksForRefused(s, actions[0]);
      if Stores(s, actions[0], access) {
        StoresOverRefused(s, actions[0], access);
      }
      hide Past, AsksForRefused, After, Enabled, Stores;
      PastIsNotRotated(After(s, actions[0]), actions[1..], t, access);
    }
  }

  lemma StepKeepsPast(s: Shared, a: Action, access: Token)
    requires Past(s, access) && Enabled(s, a)
    ensures Past(After(s, a), access)
  {
    hide After, Enabled, AnswerAt, RecordAccess;
    RecordsMove(s, a);
    AnswersMove(s, a, OfTask(0));
    forall k ensures AnswerAt(After(s, a), k) != Some(access) {
      AnswersMove(s, a, k);
    }
  }

  lemma StoresOverRefused(s: Shared, a: Action, access: Token)
    requires AsksForRefused(s) && Enabled(s, a) && Stores(s, a, access)
    ensures RecordAccess(s) == Some(access) && RecordAccess(After(s, a)) == AnswerAt(s, OfTask(a.task))
  {
  }

  /** In every run one refused access token leads to at most one stored rotation,
      however many refreshes it sets off in either process. */
  lemma RotatedOnce(own: Record, actions: seq<Action>, s: Shared, access: Token)
    requires Run(Start(own), actions, s)
    ensures Rotations(Start(own), actions, access) <= 1
  {
    AtMostOnce(Start(own), actions, s, access);
  }

  lemma {:induction false} AtMostOnce(s: Shared, actions: seq<Action>, t: Shared, access: Token)
    requires AsksForRefused(s) && AnswersApart(s) && Run(s, actions, t)
    ensures Rotations(s, actions, access) <= 1
    decreases |actions|
  {
    if actions != [] {
      var a := actions[0];
      StepAsksForRefused(s, a);
      StepKeepsApart(s, a);
      if Stores(s, a, access) {
        StoringIsPast(s, a, access);
        PastIsNotRotated(After(s, a), actions[1..], t, access);
      } else {
        hide AnswersApart, AsksForRefused, After, Enabled, Stores;
        AtMostOnce(After(s, a), actions[1..], t, access);
      }
    }
  }

  lemma StoringIsPast(s: Shared, a: Action, access: Token)
    requires AsksForRefused(s) && AnswersApart(s) && Enabled(s, a) && Stores(s, a, access)
    ensures Past(After(s, a), access)
  {
    hide After, AnswerAt, RecordAccess, Enabled;
    StoresOverRefused(s, a, access);
    AnswersMove(s, a, OfTask(a.task));
    RecordsMove(s, a);
    forall k ensures AnswerAt(After(s, a), k) != Some(access) {
      AnswersMove(s, a, k);
    }
  }

  // ── And while it cannot ───────────────────────────────────────────────────

  /** The app is signed in, its cache the shared record. */
  predicate SignedIn(s: Shared) {
    s.keep.record == Some(s.keep.own) && s.keep.own.access.Some? && s.keep.own.refresh.Some?
  }

  lemma {:induction false} RunExtends(s: Shared, actions: seq<Action>, t: Shared, a: Action)
    requires Run(s, actions, t) && Enabled(t, a)
    ensures Run(s, actions + [a], After(t, a))
    decreases |actions|
  {
    hide Enabled, After;
    if actions == [] {
      assert actions + [a] == [a] && [a][1..] == [];
      assert Run(After(t, a), [], After(t, a));
    } else {
      RunExtends(After(s, actions[0]), actions[1..], t, a);
      assert (actions + [a])[1..] == actions[1..] + [a];
    }
  }

  /** The app shows its token without the lease. */
  lemma AloneRuns(s: Shared, p: Task) returns (actions: seq<Action>, t: Shared)
    requires SignedIn(s) && s.keep.readable && p !in s.privates
    ensures Run(s, actions, t) && !AlwaysLeased(actions)
    ensures t == s.(keep := s.keep.(readable := false),
                    privates := s.privates[p := Shown(s.keep.own.id, s.keep.own.refresh.value)],
                    shown := s.shown + [(s.keep.own.refresh.value, s.keep.own.refresh.value in s.superseded)])
  {
    actions, t := [Toggle], After(s, Toggle);
    assert Run(s, [], s);
    RunExtends(s, [], s, Toggle);
    assert [] + [Toggle] == [Toggle];
    RunExtends(s, actions, t, StartPrivate(p));
    actions, t := actions + [StartPrivate(p)], After(t, StartPrivate(p));
    assert actions[1] == StartPrivate(p);
    RunExtends(s, actions, t, PresentPrivate(p));
    actions, t := actions + [PresentPrivate(p)], After(t, PresentPrivate(p));
    assert actions[1] == StartPrivate(p) && actions[1] in actions;
  }

  /** A refresh takes the lease and shows the token of the record it read. */
  lemma LeasedRuns(s: Shared, before: seq<Action>, w: Shared, u: Task) returns (actions: seq<Action>, t: Shared)
    requires Run(s, before, w) && w.lease.None? && u !in w.tasks
    requires w.keep.record.Some? && w.keep.record.value.access.Some? && w.keep.record.value.refresh.Some?
    ensures Run(s, before + actions, t)
    ensures var r := w.keep.record.value;
            && t.shown == w.shown + [(r.refresh.value, r.refresh.value in w.superseded)]
            && t.privates == w.privates && StageOf(t, u) == Some(Presented(r))
  {
    var r := w.keep.record.value;
    actions, t := [], w;
    assert before + actions == before;
    RunExtends(s, before + actions, t, StartRefresh(u, r.id, r.access));
    assert before + (actions + [StartRefresh(u, r.id, r.access)]) == before + actions + [StartRefresh(u, r.id, r.access)];
    actions, t := actions + [StartRefresh(u, r.id, r.access)], After(t, StartRefresh(u, r.id, r.access));
    RunExtends(s, before + actions, t, Acquire(u));
    assert before + (actions + [Acquire(u)]) == before + actions + [Acquire(u)];
    actions, t := actions + [Acquire(u)], After(t, Acquire(u));
    RunExtends(s, before + actions, t, ReadRecord(u));
    assert before + (actions + [ReadRecord(u)]) == before + actions + [ReadRecord(u)];
    actions, t := actions + [ReadRecord(u)], After(t, ReadRecord(u));
    RunExtends(s, before + actions, t, Present(u));
    assert before + (actions + [Present(u)]) == before + actions + [Present(u)];
    actions, t := actions + [Present(u)], After(t, Present(u));
  }

  /** From any state the app is signed in, one refresh made while it cannot read
      the shared record goes round the lease: another shows the same token at the same time. */
  lemma PrivateOverlaps(s: Shared, p: Task, u: Task)
    requires SignedIn(s) && s.keep.readable && s.lease.None? && p !in s.privates && u !in s.tasks
    ensures exists actions, t ::
              && Run(s, actions, t) && p in t.privates && t.privates[p] == Shown(s.keep.own.id, s.keep.own.refresh.value)
              && StageOf(t, u) == Some(Presented(s.keep.own))
  {
    hide Run;
    var first, w := AloneRuns(s, p);
    var second, t := LeasedRuns(s, first, w, u);
    assert Run(s, first + second, t);
  }

  /** And it leaves there a token its replacement has superseded, which the next
      refresh under the lease shows. */
  lemma PrivateSupersedes(s: Shared, p: Task, u: Task, access: Token, refresh: Token)
    requires SignedIn(s) && s.keep.readable && s.lease.None? && p !in s.privates && u !in s.tasks
    requires NewTokens(s, access, refresh)
    ensures exists actions, t :: Run(s, actions, t) && |t.shown| == |s.shown| + 2
                                 && t.shown[|s.shown| + 1] == (s.keep.own.refresh.value, true)
  {
    hide Run;
    var first, w := AloneRuns(s, p);
    RunExtends(s, first, w, PrivateRotates(p, access, refresh));
    first, w := first + [PrivateRotates(p, access, refresh)], After(w, PrivateRotates(p, access, refresh));
    RunExtends(s, first, w, SavePrivate(p));
    first, w := first + [SavePrivate(p)], After(w, SavePrivate(p));
    var second, t := LeasedRuns(s, first, w, u);
    assert Run(s, first + second, t);
  }

  /** So a signed-in app whose lease is free keeps superseded tokens from being
      shown exactly by never refreshing while the shared record cannot be read. */
  lemma LeasedExactly(own: Record, before: seq<Action>, s: Shared, p: Task, u: Task, access: Token, refresh: Token)
    requires Run(Start(own), before, s) && AlwaysLeased(before) && SignedIn(s) && s.keep.readable && s.lease.None?
    requires p !in s.privates && u !in s.tasks && NewTokens(s, access, refresh)
    ensures forall actions, t :: Run(s, actions, t) && AlwaysLeased(actions) ==> ShownOk(t)
    ensures exists actions, t :: Run(s, actions, t) && !ShownOk(t)
  {
    RunsKeep(Start(own), before, s);
    forall actions, t | Run(s, actions, t) && AlwaysLeased(actions)
      ensures ShownOk(t)
    {
      RunsKeep(s, actions, t);
    }
    hide Run, Inv;
    PrivateSupersedes(s, p, u, access, refresh);
    var actions, t :| Run(s, actions, t) && |t.shown| == |s.shown| + 2 && t.shown[|s.shown| + 1].1;
    assert !ShownOk(t);
  }

  // ── The app's own store ───────────────────────────────────────────────────

  /** The keychain item both processes share, when the build may reach it. */
  class Keychain {
    var available: bool
    var record: Option<Record>

    constructor (available: bool)
      ensures this.available == available && record == None
    {
      this.available, record := available, None;
    }

    /** Under the lease: the record to refresh from, or why there is nothing to
        do. Neither means a sibling has rotated the refused token already. */
    method ReadForRefresh(id: Id, failedAccess: Option<Token>) returns (current: Option<Record>, failure: Option<Failure>)
      ensures current == if available && MayRefresh(record, id, failedAccess) then record else None
      ensures current.Some? <==> available && record.Some? && record.value.id == id && record.value.refresh.Some?
                                 && record.value.access.Some? && record.value.access == failedAccess
      ensures available && record.Some? && record.value.access != failedAccess ==> current == None
      ensures failure == Some(Unavailable) <==> !available
      ensures failure == Some(Changed) <==>
                available && (record.None? || record.value.id != id || record.value.refresh.None? || record.value.access.None?)
    {
      if !available {
        return None, Some(Unavailable);
      }
      if record.None? || record.value.id != id || record.value.refresh.None? || record.value.access.None? {
        return None, Some(Changed);
      }
      if record.value.access != failedAccess {
        return None, None;
      }
      current, failure := record, None;
    }

    /** What the server answered, stored over the record it was asked for and over no other. */
    method StoreRotated(id: Id, current: Record, access: Token, refresh: Token) returns (failure: Option<Failure>)
      modifies this`record
      ensures failure == if !available then Some(Unavailable)
                         else if Unchanged(old(record), id, current) then None else Some(Changed)
      ensures record == if failure.None? then Some(Record(id, Some(access), Some(refresh))) else old(record)
    {
      if !available {
        return Some(Unavailable);
      }
      if record.None? || record.value.id != id || record.value.access != current.access {
        return Some(Changed);
      }
      record := Some(Record(id, Some(access), Some(refresh)));
      failure := None;
    }
  }

  class SessionStore {
    const shared: Keychain
    var epoch: Id
    var cachedAccess: Option<Token>
    var cachedRefresh: Option<Token>
    var loaded: bool
    var privateAccess: Option<Token>
    var privateRefresh: Option<Token>

    constructor (shared: Keychain, epoch: Id)
      ensures this.shared == shared && this.epoch == epoch && !loaded && privateAccess == None && privateRefresh == None
    {
      this.shared, this.epoch, loaded := shared, epoch, false;
      cachedAccess, cachedRefresh, privateAccess, privateRefresh := None, None, None, None;
    }

    /** What the cache holds once private credentials have been read. */
    function Known(): Record
      reads this
    {
      Record(epoch, if loaded then cachedAccess else privateAccess, if loaded then cachedRefresh else privateRefresh)
    }

    /** What the runs above say the app goes by. */
    function AsKeep(): Keep
      reads this, shared
    {
      Keep(shared.available, shared.record, Known())
    }

    /** The record that counts: the shared one, a tombstone included, or this process's own. */
    function Effective(): Record
      reads this, shared
    {
      if shared.available && shared.record.Some? then shared.record.value else Known()
    }

    /** Private credentials are copied out once; from then on the shared record decides, so a
        tombstone keeps old private items from signing anyone back in. */
    method LoadIfNeeded()
      modifies this, shared`record
      ensures AsKeep() == Loaded(old(AsKeep()))
      ensures loaded && Record(epoch, cachedAccess, cachedRefresh) == old(Effective())
      ensures shared.record == if shared.available then Some(old(Effective())) else old(shared.record)
      ensures privateAccess == old(privateAccess) && privateRefresh == old(privateRefresh)
    {
      if !loaded {
        cachedAccess := privateAccess;
        cachedRefresh := privateRefresh;
        loaded := true;
      }
      if shared.available {
        if shared.record.None? {
          shared.record := Some(Record(epoch, cachedAccess, cachedRefresh));
        }
        epoch := shared.record.value.id;
        cachedAccess := shared.record.value.access;
        cachedRefresh := shared.record.value.refresh;
      }
    }

    method SaveTokens(newId: Id, access: Token, refresh: Token)
      modifies this, shared`record
      ensures AsKeep() == Replaced(old(AsKeep()), Record(newId, Some(access), Some(refresh)))
      ensures loaded && Record(epoch, cachedAccess, cachedRefresh) == Record(newId, Some(access), Some(refresh))
      ensures shared.available ==> shared.record == Some(Record(newId, Some(access), Some(refresh)))
      ensures privateAccess == Some(access) && privateRefresh == Some(refresh)
    {
      LoadIfNeeded();
      epoch := newId;
      cachedAccess, cachedRefresh := Some(access), Some(refresh);
      if shared.available {
        shared.record := Some(Record(epoch, cachedAccess, cachedRefresh));
      }
      privateAccess, privateRefresh := Some(access), Some(refresh);
    }

    /** Tokens from a refresh are kept only while the account they were asked for is still signed in here. */
    method SaveRefreshedTokens(access: Token, refresh: Token, generation: Id) returns (ok: bool)
      modifies this, shared`record
      ensures (AsKeep(), ok) == SavedFor(old(AsKeep()), generation, access, refresh)
      ensures ok <==> old(Effective()).id == generation
      ensures ok ==> Effective() == Record(generation, Some(access), Some(refresh))
                     && privateAccess == Some(access) && privateRefresh == Some(refresh)
      ensures !ok ==> Effective() == old(Effective())
                      && privateAccess == old(privateAccess) && privateRefresh == old(privateRefresh)
    {
      LoadIfNeeded();
      if epoch != generation {
        return false;
      }
      if shared.available && shared.record.Some? {
        if shared.record.value.id != generation {
          return false;
        }
        shared.record := Some(Record(generation, Some(access), Some(refresh)));
      }
      cachedAccess, cachedRefresh, loaded := Some(access), Some(refresh), true;
      privateAccess, privateRefresh := Some(access), Some(refresh);
      ok := true;
    }

    method Clear(newId: Id)
      modifies this, shared`record
      ensures AsKeep() == Replaced(old(AsKeep()), Record(newId, None, None))
      ensures privateAccess == None && privateRefresh == None
      ensures shared.available ==> shared.record == Some(Record(newId, None, None))
    {
      epoch := newId;
      cachedAccess, cachedRefresh, loaded := None, None, true;
      if shared.available {
        shared.record := Some(Record(newId, None, None));
      }
      privateAccess, privateRefresh := None, None;
    }
  }
}
