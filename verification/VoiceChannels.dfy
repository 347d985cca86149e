/**
 * One voice seat. Joins and leaves drain in the order they were asked for, and
 * every join is stamped, so an answer that comes late can tell it is late.
 */
module VoiceChannels {
  import opened Wrappers

  type Account = nat

  /** A join or a leave, and how far it has got. Each `await` is a stage. */
  datatype Stage = Waiting | AskingPermission | Requested | Answered(ok: bool) | Undoing | Connecting

  datatype Operation =
    | JoinOp(attempt: nat, channel: string, account: Account, stage: Stage)
    | LeaveOp(channel: string, account: Account, asked: bool)

  datatype Session = Session(channel: string, account: Account)

  /** A request to the server: whose credentials it went out under, and for whom it was meant. */
  datatype Request = Request(under: Account, owner: Account)

  datatype Seat = Seat(account: Account, channel: string)

  /** The client, the account signed in, whether a call is up, and the seats the server holds. */
  datatype Voice = Voice(
    session: Option<Session>,
    generation: nat,
    stamps: nat,
    queue: seq<Operation>,
    account: Account,
    callBusy: bool,
    seats: set<Seat>,
    requests: seq<Request>)

  const START := Voice(None, 0, 1, [], 0, false, {}, [])

  // ── What the person does ──────────────────────────────────────────────────

  function Left(v: Voice): Voice {
    var w := v.(generation := v.stamps, stamps := v.stamps + 1);
    match v.session
    case None => w
    case Some(s) => w.(session := None, queue := v.queue + [LeaveOp(s.channel, s.account, false)])
  }

  function Joined(v: Voice, channel: string): Voice {
    if v.callBusy || (v.session.Some? && v.session.value.channel == channel) then v
    else
      var w := Left(v);
      w.(generation := w.stamps, stamps := w.stamps + 1,
         session := Some(Session(channel, w.account)),
         queue := w.queue + [JoinOp(w.stamps, channel, w.account, Waiting)])
  }

  // ── What the head of the queue does between two waits ─────────────────────

  function AtStage(v: Voice, stage: Stage): Voice
    requires v.queue != [] && v.queue[0].JoinOp?
  {
    v.(queue := [v.queue[0].(stage := stage)] + v.queue[1..])
  }

  function Finished(v: Voice): Voice
    requires v.queue != []
  {
    v.(queue := v.queue[1..])
  }

  predicate Current(v: Voice)
    requires v.queue != [] && v.queue[0].JoinOp?
  {
    v.generation == v.queue[0].attempt && v.account == v.queue[0].account
  }

  predicate HeadIs(v: Voice, stage: Stage) {
    v.queue != [] && v.queue[0].JoinOp? && v.queue[0].stage == stage
  }

  function Begun(v: Voice): Voice
    requires HeadIs(v, Waiting)
  {
    if Current(v) then AtStage(v, AskingPermission) else Finished(v)
  }

  function Permitted(v: Voice): Voice
    requires HeadIs(v, AskingPermission)
  {
    if !Current(v) then Finished(v)
    else if v.callBusy then Finished(Left(v))
    else AtStage(v, Requested).(requests := v.requests + [Request(v.account, v.queue[0].account)])
  }

  /** The join came back: either the seat is kept and media connects, or it is given back. */
  function Replied(v: Voice, ok: bool): Voice
    requires HeadIs(v, Answered(ok))
  {
    if !ok then
      if v.generation == v.queue[0].attempt then Finished(Left(v)) else Finished(v)
    else if Current(v) && !v.callBusy then AtStage(v, Connecting)
    else if v.account == v.queue[0].account then
      AtStage(v, Undoing).(requests := v.requests + [Request(v.account, v.queue[0].account)])
    else if v.generation == v.queue[0].attempt then Finished(Left(v))
    else Finished(v)
  }

  function Undone(v: Voice): Voice
    requires HeadIs(v, Undoing)
  {
    if v.generation == v.queue[0].attempt then Finished(Left(v)) else Finished(v)
  }

  function LeaveBegun(v: Voice): Voice
    requires v.queue != [] && v.queue[0].LeaveOp? && !v.queue[0].asked
  {
    if v.account == v.queue[0].account then
      v.(queue := [v.queue[0].(asked := true)] + v.queue[1..],
         requests := v.requests + [Request(v.account, v.queue[0].account)])
    else Finished(v)
  }

  // ── What the server does ──────────────────────────────────────────────────

  function HeadSeat(v: Voice): Seat
    requires v.queue != []
  {
    Seat(v.queue[0].account, v.queue[0].channel)
  }

  /** The join request arrives; its answer may still be lost, and then it fails at this end. */
  function Granted(v: Voice, heard: bool): Voice
    requires HeadIs(v, Requested)
  {
    AtStage(v, Answered(heard)).(seats := v.seats + {HeadSeat(v)})
  }

  function Refused(v: Voice): Voice
    requires HeadIs(v, Requested)
  {
    AtStage(v, Answered(false))
  }

  function Vacated(v: Voice): Voice
    requires v.queue != []
  {
    v.(seats := v.seats - {HeadSeat(v)})
  }

  datatype Action =
    | Join(channel: string)
    | Leave
    | CallChanges(busy: bool)
    | SwitchAccount(account: Account)
    | Begin
    | Permission
    | Grant(heard: bool)
    | Refuse
    | Reply(ok: bool)
    | Undo
    | MediaConnected
    | BeginLeave
    | LeaveDone

  predicate Enabled(v: Voice, a: Action) {
    match a
    case Begin => HeadIs(v, Waiting)
    case Permission => HeadIs(v, AskingPermission)
    case Grant(_) => HeadIs(v, Requested)
    case Refuse => HeadIs(v, Requested)
    case Reply(ok) => HeadIs(v, Answered(ok))
    case Undo => HeadIs(v, Undoing)
    case MediaConnected => HeadIs(v, Connecting)
    case BeginLeave => v.queue != [] && v.queue[0].LeaveOp? && !v.queue[0].asked
    case LeaveDone => v.queue != [] && v.queue[0].LeaveOp? && v.queue[0].asked
    case _ => true
  }

  function After(v: Voice, a: Action): Voice
    requires Enabled(v, a)
  {
    match a
    case Join(channel) => Joined(v, channel)
    case Leave => Left(v)
    case CallChanges(busy) => v.(callBusy := busy)
    case SwitchAccount(account) => v.(account := account)
    case Begin => Begun(v)
    case Permission => Permitted(v)
    case Grant(heard) => Granted(v, heard)
    case Refuse => Refused(v)
    case Reply(ok) => Replied(v, ok)
    case Undo => Undone(Vacated(v))
    case MediaConnected => Finished(v)
    case BeginLeave => LeaveBegun(v)
    case LeaveDone => Finished(Vacated(v))
  }

  // ── The invariant ─────────────────────────────────────────────────────────

  /** The join the current session stands for has been asked for and is still under way. */
  predicate Live(v: Voice, op: Operation) {
    op.JoinOp? && op.attempt == v.generation
  }

  /** A join that has been left behind is followed by its own leave, before any other join. */
  ghost predicate CleanedUp(queue: seq<Operation>, i: nat)
    requires i < |queue| && queue[i].JoinOp?
  {
    exists k :: i < k < |queue| && queue[k].LeaveOp? && queue[k].channel == queue[i].channel
                && forall j :: i < j < k ==> queue[j].LeaveOp?
  }

  ghost predicate QueueOk(v: Voice) {
    && v.generation < v.stamps
    && (forall i :: 0 <= i < |v.queue| ==> v.queue[i].account == v.account)
    && (forall i :: 0 <= i < |v.queue| && v.queue[i].JoinOp? ==> v.queue[i].attempt < v.stamps)
    && (forall i :: 0 < i < |v.queue| && v.queue[i].JoinOp? ==> v.queue[i].stage == Waiting)
    && (forall i :: 0 < i < |v.queue| && v.queue[i].LeaveOp? ==> !v.queue[i].asked)
    && (forall i :: 0 <= i < |v.queue| && Live(v, v.queue[i]) ==>
          i == |v.queue| - 1 && v.session == Some(Session(v.queue[i].channel, v.account)))
    && (forall i: nat :: i < |v.queue| && v.queue[i].JoinOp? && !Live(v, v.queue[i]) ==> CleanedUp(v.queue, i))
    && (v.session.Some? ==>
          v.session.value.account == v.account && (v.queue == [] || Live(v, v.queue[|v.queue| - 1])))
  }

  /** A leave for this channel comes before any join. */
  predicate Owed(queue: seq<Operation>, channel: string) {
    queue != [] && queue[0].LeaveOp? && (queue[0].channel == channel || Owed(queue[1..], channel))
  }

  /** The head's join may hold a seat already. */
  predicate MayHold(op: Operation) {
    op.JoinOp? && (op.stage.Answered? || op.stage.Undoing? || op.stage.Connecting?)
  }

  /** A seat belongs to the join at the head, to a leave that will run before any
      other join, or, once nothing is left to run, to the session. */
  predicate Accounted(v: Voice, seat: Seat) {
    && seat.account == v.account
    && if v.queue == [] then v.session == Some(Session(seat.channel, v.account))
       else if v.queue[0].JoinOp? then MayHold(v.queue[0]) && seat == HeadSeat(v)
       else Owed(v.queue, seat.channel)
  }

  ghost predicate SeatsOk(v: Voice) {
    && (forall seat :: seat in v.seats ==> Accounted(v, seat))
    && (forall a, b :: a in v.seats && b in v.seats ==> a == b)
    && (v.queue == [] && v.session.Some? ==> Seat(v.account, v.session.value.channel) in v.seats)
    && (HeadIs(v, Connecting) || HeadIs(v, Answered(true)) ==> HeadSeat(v) in v.seats)
  }

  ghost predicate Inv(v: Voice) {
    QueueOk(v) && SeatsOk(v)
  }

  // ── Each step keeps it ────────────────────────────────────────────────────

  lemma {:induction false} OwedStays(queue: seq<Operation>, op: Operation, channel: string)
    requires Owed(queue, channel)
    ensures Owed(queue + [op], channel)
    decreases |queue|
  {
    if queue[0].channel != channel {
      assert (queue + [op])[1..] == queue[1..] + [op];
      OwedStays(queue[1..], op, channel);
    }
  }

  lemma {:induction false} LeaveIsOwed(queue: seq<Operation>, k: nat)
    requires k < |queue| && forall j :: 0 <= j <= k ==> queue[j].LeaveOp?
    ensures Owed(queue, queue[k].channel)
    decreases k
  {
    if k > 0 {
      LeaveIsOwed(queue[1..], k - 1);
    }
  }

  lemma CleanedUpStays(queue: seq<Operation>, op: Operation, i: nat)
    requires i < |queue| && queue[i].JoinOp? && CleanedUp(queue, i)
    ensures CleanedUp(queue + [op], i)
  {
    var k :| i < k < |queue| && queue[k].LeaveOp? && queue[k].channel == queue[i].channel
             && forall j :: i < j < k ==> queue[j].LeaveOp?;
    var longer := queue + [op];
    assert longer[k] == queue[k] && forall j :: i < j < k ==> longer[j] == queue[j];
  }

  lemma CleanedUpAfterHead(queue: seq<Operation>, i: nat)
    requires 0 < i < |queue| && queue[i].JoinOp? && CleanedUp(queue, i)
    ensures CleanedUp(queue[1..], i - 1)
  {
    var k :| i < k < |queue| && queue[k].LeaveOp? && queue[k].channel == queue[i].channel
             && forall j :: i < j < k ==> queue[j].LeaveOp?;
    var rest := queue[1..];
    assert rest[k - 1] == queue[k] && forall j :: i - 1 < j < k - 1 ==> rest[j] == queue[j + 1];
  }

  lemma CleanedUpOfHead(queue: seq<Operation>)
    requires queue != [] && queue[0].JoinOp? && CleanedUp(queue, 0)
    ensures Owed(queue[1..], queue[0].channel)
  {
    var k :| 0 < k < |queue| && queue[k].LeaveOp? && queue[k].channel == queue[0].channel
             && forall j :: 0 < j < k ==> queue[j].LeaveOp?;
    LeaveIsOwed(queue[1..], k - 1);
  }

  /** Only the head's progress changed. */
  predicate SameButHead(p: seq<Operation>, q: seq<Operation>) {
    && |p| == |q| > 0 && p[1..] == q[1..]
    && p[0].JoinOp? == q[0].JoinOp? && p[0].channel == q[0].channel && p[0].account == q[0].account
    && (p[0].JoinOp? ==> p[0].attempt == q[0].attempt)
  }

  lemma CleanedUpWhateverHead(p: seq<Operation>, q: seq<Operation>, i: nat)
    requires SameButHead(p, q) && i < |p| && p[i].JoinOp? && CleanedUp(p, i)
    ensures q[i].JoinOp? && CleanedUp(q, i)
  {
    assert forall j :: 1 <= j < |p| ==> p[j] == p[1..][j - 1] == q[1..][j - 1] == q[j];
    var k :| i < k < |p| && p[k].LeaveOp? && p[k].channel == p[i].channel && forall j :: i < j < k ==> p[j].LeaveOp?;
    assert q[k].LeaveOp?;
  }

  lemma HeadKeepsQueue(v: Voice, w: Voice)
    requires QueueOk(v) && SameButHead(v.queue, w.queue)
    requires w.generation == v.generation && w.stamps == v.stamps && w.account == v.account && w.session == v.session
    ensures QueueOk(w)
  {
    assert forall j :: 1 <= j < |v.queue| ==> v.queue[j] == v.queue[1..][j - 1] == w.queue[1..][j - 1] == w.queue[j];
    forall i: nat | i < |w.queue| && w.queue[i].JoinOp? && !Live(w, w.queue[i])
      ensures CleanedUp(w.queue, i)
    {
      CleanedUpWhateverHead(v.queue, w.queue, i);
    }
  }

  /** Leaving makes the live join a stale one, with its leave behind it. */
  lemma LeftKeeps(v: Voice)
    requires Inv(v)
    ensures Inv(Left(v)) && Left(v).session == None
  {
    var w := Left(v);
    forall i: nat | i < |w.queue| && w.queue[i].JoinOp? && !Live(w, w.queue[i])
      ensures CleanedUp(w.queue, i)
    {
      if Live(v, v.queue[i]) {
        assert w.queue[i + 1].LeaveOp? && w.queue[i + 1].channel == w.queue[i].channel;
      } else if v.session.Some? {
        CleanedUpStays(v.queue, w.queue[|v.queue|], i);
      }
    }
    forall seat | seat in w.seats
      ensures Accounted(w, seat)
    {
      assert Accounted(v, seat);
      if v.session.Some? && v.queue != [] && v.queue[0].LeaveOp? {
        OwedStays(v.queue, w.queue[|v.queue|], seat.channel);
      }
    }
  }

  lemma JoinedKeeps(v: Voice, channel: string)
    requires Inv(v)
    ensures Inv(Joined(v, channel))
  {
    LeftKeeps(v);
    var u, w := Left(v), Joined(v, channel);
    if w != v {
      var op := w.queue[|u.queue|];
      forall i: nat | i < |w.queue| && w.queue[i].JoinOp? && !Live(w, w.queue[i])
        ensures CleanedUp(w.queue, i)
      {
        assert !Live(u, u.queue[i]);
        CleanedUpStays(u.queue, op, i);
      }
      forall seat | seat in w.seats
        ensures Accounted(w, seat)
      {
        assert Accounted(u, seat);
        if u.queue != [] && u.queue[0].LeaveOp? {
          OwedStays(u.queue, op, seat.channel);
        }
      }
    }
  }

  /** The head is done: what it held is owed to the leave behind it, or is the session's. */
  lemma FinishedKeepsQueue(v: Voice)
    requires QueueOk(v) && v.queue != []
    requires Live(v, v.queue[0]) ==> |v.queue| == 1
    ensures QueueOk(Finished(v))
  {
    var w := Finished(v);
    forall i: nat | i < |w.queue| && w.queue[i].JoinOp? && !Live(w, w.queue[i])
      ensures CleanedUp(w.queue, i)
    {
      assert w.queue[i] == v.queue[i + 1];
      CleanedUpAfterHead(v.queue, i + 1);
    }
    if w.queue != [] {
      assert w.queue[|w.queue| - 1] == v.queue[|v.queue| - 1];
    }
  }

  /** A join done with, its session gone and its seat given back or owed. */
  lemma StaleFinished(v: Voice)
    requires Inv(v) && v.queue != [] && v.queue[0].JoinOp? && !Live(v, v.queue[0])
    ensures Inv(Finished(v))
  {
    FinishedKeepsQueue(v);
    CleanedUpOfHead(v.queue);
    assert forall seat :: seat in v.seats ==> Accounted(v, seat);
  }

  lemma StageKeeps(v: Voice, stage: Stage)
    requires QueueOk(v) && v.queue != [] && v.queue[0].JoinOp?
    ensures QueueOk(AtStage(v, stage))
  {
    HeadKeepsQueue(v, AtStage(v, stage));
  }

  lemma BeginKeeps(v: Voice)
    requires Inv(v) && HeadIs(v, Waiting)
    ensures Inv(Begun(v))
  {
    assert forall seat :: seat in v.seats ==> Accounted(v, seat);
    if Current(v) {
      StageKeeps(v, AskingPermission);
    } else {
      StaleFinished(v);
    }
  }

  lemma PermissionKeeps(v: Voice)
    requires Inv(v) && HeadIs(v, AskingPermission)
    ensures Inv(Permitted(v))
  {
    assert forall seat :: seat in v.seats ==> Accounted(v, seat);
    if !Current(v) {
      StaleFinished(v);
    } else if v.callBusy {
      LeftKeeps(v);
      StaleFinished(Left(v));
    } else {
      StageKeeps(v, Requested);
    }
  }

  lemma GrantKeeps(v: Voice, heard: bool)
    requires Inv(v) && HeadIs(v, Requested)
    ensures Inv(Granted(v, heard))
  {
    hide CleanedUp;
    assert forall seat :: seat in v.seats ==> Accounted(v, seat);
    HeadKeepsQueue(v, Granted(v, heard));
  }

  lemma RefuseKeeps(v: Voice)
    requires Inv(v) && HeadIs(v, Requested)
    ensures Inv(Refused(v))
  {
    assert forall seat :: seat in v.seats ==> Accounted(v, seat);
    StageKeeps(v, Answered(false));
  }

  lemma RefusalKeeps(v: Voice)
    requires Inv(v) && HeadIs(v, Answered(false))
    ensures Inv(Replied(v, false))
  {
    assert forall seat :: seat in v.seats ==> Accounted(v, seat);
    if v.generation == v.queue[0].attempt {
      LeftKeeps(v);
      StaleFinished(Left(v));
    } else {
      StaleFinished(v);
    }
  }

  lemma TakenUpKeeps(v: Voice)
    requires Inv(v) && HeadIs(v, Answered(true)) && Current(v) && !v.callBusy
    ensures Inv(AtStage(v, Connecting))
  {
    assert forall seat :: seat in v.seats ==> Accounted(v, seat);
    StageKeeps(v, Connecting);
  }

  lemma ReplyKeeps(v: Voice, ok: bool)
    requires Inv(v) && HeadIs(v, Answered(ok))
    ensures Inv(Replied(v, ok))
  {
    if !ok {
      RefusalKeeps(v);
    } else if Current(v) && !v.callBusy {
      TakenUpKeeps(v);
    } else {
      assert forall seat :: seat in v.seats ==> Accounted(v, seat);
      StageKeeps(v, Undoing);
    }
  }

  lemma UndoKeeps(v: Voice)
    requires Inv(v) && HeadIs(v, Undoing)
    ensures Inv(Undone(Vacated(v)))
  {
    var u := Vacated(v);
    assert forall seat :: seat in v.seats ==> Accounted(v, seat);
    assert u.seats == {};
    if v.generation == v.queue[0].attempt {
      LeftKeeps(u);
      StaleFinished(Left(u));
    } else {
      StaleFinished(u);
    }
  }

  lemma ConnectedKeeps(v: Voice)
    requires Inv(v) && HeadIs(v, Connecting)
    ensures Inv(Finished(v))
  {
    assert forall seat :: seat in v.seats ==> Accounted(v, seat);
    if Live(v, v.queue[0]) {
      FinishedKeepsQueue(v);
    } else {
      StaleFinished(v);
    }
  }

  lemma BeginLeaveKeeps(v: Voice)
    requires Inv(v) && v.queue != [] && v.queue[0].LeaveOp? && !v.queue[0].asked
    ensures Inv(LeaveBegun(v))
  {
    hide CleanedUp;
    var w := LeaveBegun(v);
    HeadKeepsQueue(v, w);
    forall seat | seat in w.seats
      ensures Accounted(w, seat)
    {
      assert Accounted(v, seat);
    }
  }

  lemma LeaveDoneKeeps(v: Voice)
    requires Inv(v) && v.queue != [] && v.queue[0].LeaveOp?
    ensures Inv(Finished(Vacated(v)))
  {
    hide CleanedUp;
    var w := Finished(Vacated(v));
    FinishedKeepsQueue(Vacated(v));
    forall seat | seat in w.seats
      ensures Accounted(w, seat)
    {
      assert Accounted(v, seat);
      assert Owed(v.queue, seat.channel);
      assert v.queue[0].account == v.account && seat != HeadSeat(v);
      assert Owed(w.queue, seat.channel);
    }
  }

  lemma StepKeeps(v: Voice, a: Action)
    requires Inv(v) && Enabled(v, a) && !a.SwitchAccount?
    ensures Inv(After(v, a))
  {
    match a {
      case Join(channel) => JoinedKeeps(v, channel);
      case Leave => LeftKeeps(v);
      case CallChanges(busy) => BusyKeeps(v, busy);
      case Begin => BeginKeeps(v);
      case Permission => PermissionKeeps(v);
      case Grant(heard) => GrantKeeps(v, heard);
      case Refuse => RefuseKeeps(v);
      case Reply(ok) => ReplyKeeps(v, ok);
      case Undo => UndoKeeps(v);
      case MediaConnected => ConnectedKeeps(v);
      case BeginLeave => BeginLeaveKeeps(v);
      case LeaveDone => LeaveDoneKeeps(v);
    }
  }

  lemma BusyKeeps(v: Voice, busy: bool)
    requires Inv(v)
    ensures Inv(v.(callBusy := busy))
  {
    var w := v.(callBusy := busy);
    assert forall seat :: seat in v.seats ==> Accounted(v, seat) && Accounted(w, seat);
    assert forall i: nat :: i < |v.queue| && v.queue[i].JoinOp? && !Live(v, v.queue[i]) ==> CleanedUp(w.queue, i);
  }

  // ── Runs ──────────────────────────────────────────────────────────────────

  predicate Run(v: Voice, actions: seq<Action>, w: Voice)
    decreases |actions|
  {
    if actions == [] then w == v
    else Enabled(v, actions[0]) && Run(After(v, actions[0]), actions[1..], w)
  }

  predicate SameAccount(actions: seq<Action>) {
    forall i :: 0 <= i < |actions| ==> !actions[i].SwitchAccount?
  }

  lemma {:induction false} RunsKeep(v: Voice, actions: seq<Action>, w: Voice)
    requires Inv(v) && Run(v, actions, w) && SameAccount(actions)
    ensures Inv(w)
    decreases |actions|
  {
    hide Inv, After;
    if actions != [] {
      StepKeeps(v, actions[0]);
      RunsKeep(After(v, actions[0]), actions[1..], w);
    }
  }

  /** In every interleaving of joins, leaves, late answers and calls coming and
      going, the server never holds two seats, and once nothing is left to run
      it holds exactly the session's, or none. */
  lemma OneSeat(actions: seq<Action>, v: Voice)
    requires Run(START, actions, v) && SameAccount(actions)
    ensures |v.seats| <= 1
    ensures v.queue == [] ==>
              v.seats == if v.session.Some? then {Seat(v.account, v.session.value.channel)} else {}
  {
    RunsKeep(START, actions, v);
    assert forall seat :: seat in v.seats ==> Accounted(v, seat);
    if seat :| seat in v.seats {
      assert v.seats == {seat};
    }
  }

  // ── Where it all ends ─────────────────────────────────────────────────────

  /** What joining asks for, and that a call up or being there already changes nothing. */
  lemma JoinMoves(v: Voice, channel: string)
    ensures var w := After(v, Join(channel));
            if v.callBusy || (v.session.Some? && v.session.value.channel == channel) then w == v
            else
              && w.session == Some(Session(channel, v.account)) && v.stamps <= w.generation < w.stamps
              && w.queue == v.queue
                            + (if v.session.Some? then [LeaveOp(v.session.value.channel, v.session.value.account, false)] else [])
                            + [JoinOp(w.generation, channel, v.account, Waiting)]
              && w.seats == v.seats && w.requests == v.requests && w.account == v.account && w.callBusy == v.callBusy
  {
  }

  /** And what leaving does: no join under way stands for a session any more. */
  lemma LeaveMoves(v: Voice)
    ensures var w := After(v, Leave);
            && w.session == None && w.generation == v.stamps < w.stamps
            && w.queue == v.queue
                          + (if v.session.Some? then [LeaveOp(v.session.value.channel, v.session.value.account, false)] else [])
            && w.seats == v.seats && w.requests == v.requests && w.account == v.account && w.callBusy == v.callBusy
  {
  }

  /** Only the join the session stands for gets as far as asking for the
      microphone, and only it, with no call up, as asking the server. */
  lemma OnlyTheSessionAsks(v: Voice)
    requires Inv(v) && v.queue != [] && v.queue[0].JoinOp?
    ensures var live := v.session == Some(Session(v.queue[0].channel, v.account)) && v.generation == v.queue[0].attempt;
            && (v.queue[0].stage == Waiting ==> (HeadIs(After(v, Begin), AskingPermission) <==> live))
            && (v.queue[0].stage == AskingPermission ==>
                  (After(v, Permission).requests == v.requests + [Request(v.account, v.account)] <==> live && !v.callBusy)
                  && (!(live && !v.callBusy) ==> After(v, Permission).requests == v.requests))
  {
  }

  /** Whatever account is signed in by then, the answer to the join a session
      stands for leaves the session standing only where media goes on to connect;
      else the session goes, once the seat has been given back if there is one to
      give back and the account that took it is still the one signed in. */
  lemma AnswerSettles(v: Voice, ok: bool)
    requires HeadIs(v, Answered(ok)) && v.generation == v.queue[0].attempt
    ensures var w := After(v, Reply(ok));
            var own := v.account == v.queue[0].account;
            if ok && own && !v.callBusy then HeadIs(w, Connecting) && w.session == v.session && w.requests == v.requests
            else if ok && own then
              && HeadIs(w, Undoing) && w.requests == v.requests + [Request(v.account, v.account)]
              && After(w, Undo).session == None && After(w, Undo).seats == v.seats - {HeadSeat(v)}
            else w.session == None && w.seats == v.seats && w.requests == v.requests
  {
  }

  /** A join left behind gives back the seat it was granted, if its account is
      still the one signed in, and touches nobody's session. */
  lemma StaleAnswerSettles(v: Voice, ok: bool)
    requires HeadIs(v, Answered(ok)) && v.generation != v.queue[0].attempt
    ensures var w := After(v, Reply(ok));
            && w.session == v.session && w.generation == v.generation
            && (if ok && v.account == v.queue[0].account then
                  && HeadIs(w, Undoing) && w.requests == v.requests + [Request(v.account, v.account)]
                  && After(w, Undo).session == v.session && After(w, Undo).queue == v.queue[1..]
                else w.queue == v.queue[1..] && w.requests == v.requests)
  {
  }

  /** The queue draining by itself, every request of it granted and answered. */
  predicate Settling(a: Action) {
    match a
    case Grant(heard) => heard
    case Join(_) => false
    case Leave => false
    case CallChanges(_) => false
    case SwitchAccount(_) => false
    case Refuse => false
    case _ => true
  }

  /** The live join has been refused, or is being undone, or has yet to meet a call that is up. */
  predicate Doomed(v: Voice) {
    && v.queue != [] && Live(v, v.queue[|v.queue| - 1])
    && var stage := v.queue[|v.queue| - 1].stage;
       stage == Answered(false) || stage == Undoing || (v.callBusy && stage != Connecting)
  }

  /** The session the client will be left with. */
  function Bound(v: Voice): Option<Session> {
    if Doomed(v) then None else v.session
  }

  /** The waits an operation may still come to, a refused join's own leave among them. */
  function Waits(op: Operation): nat {
    match op
    case LeaveOp(_, _, asked) => if asked then 1 else 2
    case JoinOp(_, _, _, stage) =>
      match stage
      case Waiting => 8
      case AskingPermission => 7
      case Requested => 6
      case Answered(_) => 5
      case Undoing => 4
      case Connecting => 3
  }

  function Work(queue: seq<Operation>): nat {
    if queue == [] then 0 else Waits(queue[0]) + Work(queue[1..])
  }

  lemma BoundStays(v: Voice, a: Action)
    requires Inv(v) && Enabled(v, a) && Settling(a)
    ensures Bound(After(v, a)) == Bound(v)
  {
    hide SeatsOk, CleanedUp;
  }

  lemma WorkShrinks(v: Voice, a: Action)
    requires Inv(v) && Enabled(v, a) && Settling(a)
    ensures var w := After(v, a); w.account == v.account && w.callBusy == v.callBusy && Work(w.queue) < Work(v.queue)
  {
    hide SeatsOk, CleanedUp;
  }

  predicate AllSettling(actions: seq<Action>) {
    forall i :: 0 <= i < |actions| ==> Settling(actions[i])
  }

  /** However the queue drains, granted and answered, it ends with the seat the
      client was bound for, and no other. */
  lemma {:induction false} SettlesAsBound(v: Voice, actions: seq<Action>, w: Voice)
    requires Inv(v) && AllSettling(actions) && Run(v, actions, w)
    ensures Inv(w) && Bound(w) == Bound(v) && w.account == v.account
    ensures w.queue == [] ==>
              w.seats == if Bound(v).Some? then {Seat(v.account, Bound(v).value.channel)} else {}
    decreases |actions|
  {
    hide Inv, After, Bound, Enabled;
    if actions != [] {
      assert Settling(actions[0]);
      StepKeeps(v, actions[0]);
      BoundStays(v, actions[0]);
      WorkShrinks(v, actions[0]);
      SettlesAsBound(After(v, actions[0]), actions[1..], w);
    } else if w.queue == [] {
      QuietSeats(w);
    }
  }

  lemma QuietSeats(v: Voice)
    requires Inv(v) && v.queue == []
    ensures v.seats == if Bound(v).Some? then {Seat(v.account, Bound(v).value.channel)} else {}
  {
    assert forall seat :: seat in v.seats ==> Accounted(v, seat);
  }

  /** What the head of the queue waits for, when it is granted. */
  function Next(v: Voice): Action
    requires v.queue != []
  {
    match v.queue[0]
    case LeaveOp(_, _, asked) => if asked then LeaveDone else BeginLeave
    case JoinOp(_, _, _, stage) =>
      match stage
      case Waiting => Begin
      case AskingPermission => Permission
      case Requested => Grant(true)
      case Answered(ok) => Reply(ok)
      case Undoing => Undo
      case Connecting => MediaConnected
  }

  /** It always can drain. */
  lemma {:induction false} CanSettle(v: Voice) returns (actions: seq<Action>, w: Voice)
    requires Inv(v)
    ensures AllSettling(actions) && Run(v, actions, w) && w.queue == []
    decreases Work(v.queue)
  {
    hide Inv, After, Bound;
    actions, w := [], v;
    if v.queue != [] {
      var a := Next(v);
      StepKeeps(v, a);
      WorkShrinks(v, a);
      actions, w := CanSettle(After(v, a));
      actions := [a] + actions;
    }
  }

  /** With no call up, joining a channel comes to exactly its seat, from any state
      at all, whatever was under way; unless the client is there already and that
      very join has been refused or is being undone, and then it comes to none. */
  lemma JoinArrives(v: Voice, channel: string) returns (actions: seq<Action>, w: Voice)
    requires Inv(v) && !v.callBusy
    ensures actions != [] && actions[0] == Join(channel) && Run(v, actions, w) && AllSettling(actions[1..]) && w.queue == []
    ensures forall rest, u :: Run(After(v, Join(channel)), rest, u) && AllSettling(rest) && u.queue == [] ==>
              (u.seats == {Seat(v.account, channel)} <==>
                 !(v.session.Some? && v.session.value.channel == channel && Doomed(v)))
  {
    var joined := After(v, Join(channel));
    JoinedKeeps(v, channel);
    JoinMoves(v, channel);
    forall rest, u | Run(joined, rest, u) && AllSettling(rest) && u.queue == []
      ensures u.seats == if Bound(joined).Some? then {Seat(v.account, Bound(joined).value.channel)} else {}
    {
      SettlesAsBound(joined, rest, u);
    }
    hide Inv;
    var rest;
    rest, w := CanSettle(joined);
    actions := [Join(channel)] + rest;
    assert actions[1..] == rest;
  }

  /** Leaving comes to no seat at all, whatever was under way. */
  lemma LeaveArrives(v: Voice) returns (actions: seq<Action>, w: Voice)
    requires Inv(v)
    ensures actions != [] && actions[0] == Leave && Run(v, actions, w) && AllSettling(actions[1..]) && w.queue == []
    ensures forall rest, u :: Run(After(v, Leave), rest, u) && AllSettling(rest) && u.queue == [] ==> u.seats == {}
  {
    var left := After(v, Leave);
    LeftKeeps(v);
    forall rest, u | Run(left, rest, u) && AllSettling(rest) && u.queue == []
      ensures u.seats == {}
    {
      SettlesAsBound(left, rest, u);
    }
    hide Inv;
    var rest;
    rest, w := CanSettle(left);
    actions := [Leave] + rest;
    assert actions[1..] == rest;
  }

  // ── Accounts ──────────────────────────────────────────────────────────────

  predicate OwnCredentials(v: Voice) {
    forall i :: 0 <= i < |v.requests| ==> v.requests[i].under == v.requests[i].owner
  }

  lemma {:induction false} RunsUseOwnCredentials(v: Voice, actions: seq<Action>, w: Voice)
    requires OwnCredentials(v) && Run(v, actions, w)
    ensures OwnCredentials(w)
    decreases |actions|
  {
    if actions != [] {
      StepUsesOwnCredentials(v, actions[0]);
      hide After;
      RunsUseOwnCredentials(After(v, actions[0]), actions[1..], w);
    }
  }

  /** Accounts may change at any moment: no request for one account's seat ever
      goes out under another's credentials. */
  lemma StepUsesOwnCredentials(v: Voice, a: Action)
    requires OwnCredentials(v) && Enabled(v, a)
    ensures OwnCredentials(After(v, a))
  {
  }

  // ── The object ────────────────────────────────────────────────────────────

  /** The client's own fields; the environment owns the account, the call and the seats. */
  class VoiceClient {
    var session: Option<Session>
    var generation: nat
    var stamps: nat
    var queue: seq<Operation>
    var requests: seq<Request>

    function AsVoice(account: Account, callBusy: bool, seats: set<Seat>): Voice
      reads this
    {
      Voice(session, generation, stamps, queue, account, callBusy, seats, requests)
    }

    constructor ()
      ensures AsVoice(0, false, {}) == START
    {
      session, generation, stamps, queue, requests := None, 0, 1, [], [];
    }

    method Leave(ghost account: Account, ghost callBusy: bool, ghost seats: set<Seat>)
      modifies this
      ensures AsVoice(account, callBusy, seats) == Left(old(AsVoice(account, callBusy, seats)))
    {
      generation, stamps := stamps, stamps + 1;
      if session.None? {
        return;
      }
      var departing := session.value;
      session := None;
      queue := queue + [LeaveOp(departing.channel, departing.account, false)];
    }

    method Join(channel: string, account: Account, callBusy: bool, ghost seats: set<Seat>)
      modifies this
      ensures AsVoice(account, callBusy, seats) == Joined(old(AsVoice(account, callBusy, seats)), channel)
      ensures !callBusy ==> session.Some? && session.value.channel == channel
      ensures !callBusy && (old(session).None? || old(session).value.channel != channel) ==>
                && session.value.account == account && generation >= old(stamps)
                && queue == old(queue)
                            + (if old(session).Some? then [LeaveOp(old(session).value.channel, old(session).value.account, false)]
                               else [])
                            + [JoinOp(generation, channel, account, Waiting)]
    {
      if callBusy {
        return;
      }
      if session.Some? && session.value.channel == channel {
        return;
      }
      Leave(account, callBusy, seats);
      var attempt := stamps;
      generation, stamps := attempt, stamps + 1;
      session := Some(Session(channel, account));
      queue := queue + [JoinOp(attempt, channel, account, Waiting)];
    }

    /** The head join up to its first wait. */
    method BeginJoin(account: Account, ghost callBusy: bool, ghost seats: set<Seat>)
      requires HeadIs(AsVoice(account, callBusy, seats), Waiting)
      modifies this
      ensures AsVoice(account, callBusy, seats) == Begun(old(AsVoice(account, callBusy, seats)))
    {
      var op := queue[0];
      if generation != op.attempt || account != op.account {
        queue := queue[1..];
        return;
      }
      queue := [op.(stage := AskingPermission)] + queue[1..];
    }

    method AfterPermission(account: Account, callBusy: bool, ghost seats: set<Seat>)
      requires HeadIs(AsVoice(account, callBusy, seats), AskingPermission)
      modifies this
      ensures AsVoice(account, callBusy, seats) == Permitted(old(AsVoice(account, callBusy, seats)))
    {
      var op := queue[0];
      if generation != op.attempt || account != op.account {
        queue := queue[1..];
        return;
      }
      if callBusy {
        Leave(account, callBusy, seats);
        queue := queue[1..];
        return;
      }
      requests := requests + [Request(account, op.account)];
      queue := [op.(stage := Requested)] + queue[1..];
    }

    method AfterJoin(ok: bool, account: Account, callBusy: bool, ghost seats: set<Seat>)
      requires HeadIs(AsVoice(account, callBusy, seats), Answered(ok))
      modifies this
      ensures AsVoice(account, callBusy, seats) == Replied(old(AsVoice(account, callBusy, seats)), ok)
    {
      var op := queue[0];
      if !ok {
        if generation == op.attempt {
          Leave(account, callBusy, seats);
        }
        queue := queue[1..];
        return;
      }
      if generation != op.attempt || callBusy || account != op.account {
        if account == op.account {
          requests := requests + [Request(account, op.account)];
          queue := [op.(stage := Undoing)] + queue[1..];
          return;
        }
        if generation == op.attempt {
          Leave(account, callBusy, seats);
        }
        queue := queue[1..];
        return;
      }
      queue := [op.(stage := Connecting)] + queue[1..];
    }

    method AfterUndo(ghost account: Account, ghost callBusy: bool, ghost seats: set<Seat>)
      requires HeadIs(AsVoice(account, callBusy, seats), Undoing)
      modifies this
      ensures AsVoice(account, callBusy, seats) == Undone(old(AsVoice(account, callBusy, seats)))
    {
      if generation == queue[0].attempt {
        Leave(account, callBusy, seats);
      }
      queue := queue[1..];
    }

    method BeginLeave(account: Account, ghost callBusy: bool, ghost seats: set<Seat>)
      requires queue != [] && queue[0].LeaveOp? && !queue[0].asked
      modifies this
      ensures AsVoice(account, callBusy, seats) == LeaveBegun(old(AsVoice(account, callBusy, seats)))
    {
      var op := queue[0];
      if account != op.account {
        queue := queue[1..];
        return;
      }
      requests := requests + [Request(account, op.account)];
      queue := [op.(asked := true)] + queue[1..];
    }
  }
}
