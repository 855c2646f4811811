/** The client's running subscriptions (util/rpc/handler.go, `clientSubs`), as dispatch changes them
    beside the request table. */
module SubscriptionTable {
  import opened Common
  import opened RequestTable
  import opened Dispatch
  import opened DispatchInvariant

  /** A subscription: the id that the server gave it, and the request that asked for it. */
  type Running = (string, OpRef)

  datatype Subs = Subs(
    table: map<string, OpRef>,      // clientSubs of the current connection's handler
    started: multiset<Running>,     // history: launched with run
    closed: multiset<Running>,      // history: told to close
    shadowed: multiset<Running>)    // history: overwritten by a later one with the same id

  const NoSubs := Subs(map[], multiset{}, multiset{}, multiset{})

  /** handleResponse launches a subscription when its request is answered with an id. */
  predicate Starts(p: Pending, r: Reply) {
    && r.id in p.table && p.table[r.id] in p.ops && p.ops[p.table[r.id]].subscribe
    && r.error.None? && r.subId.Some?
  }

  function Launch(u: Subs, id: string, o: OpRef): Subs {
    Subs(u.table[id := o], u.started + multiset{(id, o)}, u.closed,
         u.shadowed + if id in u.table then multiset{(id, u.table[id])} else multiset{})
  }

  function TakeReply(p: Pending, u: Subs, r: Reply): Subs {
    if Starts(p, r) then Launch(u, r.subId.value, p.table[r.id]) else u
  }

  function TakeReplies(p: Pending, u: Subs, rs: seq<Reply>): Subs {
    if rs == [] then u
    else
      var n := |rs| - 1;
      TakeReply(HandleReplies(p, rs[..n]), TakeReplies(p, u, rs[..n]), rs[n])
  }

  function Entries(table: map<string, OpRef>): set<Running> {
    set id | id in table :: (id, table[id])
  }

  /** The second loop of cancelAllRequests. */
  function CloseSubs(u: Subs): Subs {
    u.(table := map[], closed := u.closed + multiset(Entries(u.table)))
  }

  /** What a step of dispatch does to the subscriptions. A new connection begins with none. */
  function After(s: State, step: Step, u: Subs): Subs {
    match step
    case ReadOp(_, replies) => TakeReplies(s.Pend(), u, replies)
    case ReadErr(_) => CloseSubs(u)
    case Reconnect(_, _) => (if s.reading then CloseSubs(u) else u).(table := map[])
    case Quit(_) => if s.reading then CloseSubs(u) else u
    case _ => u
  }

  ghost function SubsAt(states: seq<State>, steps: seq<Step>, k: nat): Subs
    requires IsRun(states, steps) && k < |states|
  {
    if k == 0 then NoSubs else After(states[k - 1], steps[k - 1], SubsAt(states, steps, k - 1))
  }

  // ---------- the invariant ----------

  /** The channel of a subscribe request was closed without an error: its answer carried an id. */
  ghost predicate Granted(ops: Ops, o: OpRef) {
    o in ops && ops[o].subscribe && ops[o].closes == 1 && ops[o].err.None?
  }

  ghost predicate HasStarted(u: Subs, o: OpRef) {
    exists id :: (id, o) in u.started
  }

  /** Whatever was started is in the table, closed or shadowed. */
  ghost predicate Accounted(u: Subs) {
    u.started == multiset(Entries(u.table)) + u.closed + u.shadowed
  }

  /** One subscription for each request that was granted one. */
  ghost predicate OneEach(ops: Ops, u: Subs) {
    && (forall g :: g in u.started ==> u.started[g] == 1 && Granted(ops, g.1))
    && (forall g, h :: g in u.started && h in u.started && g.1 == h.1 ==> g == h)
    && (forall o :: Granted(ops, o) ==> HasStarted(u, o))
  }

  ghost predicate SubsOk(s: State, u: Subs) {
    && Accounted(u) && OneEach(s.ops, u)
    && (s.quit || !s.reading ==> u.table == map[])
  }

  lemma EntriesAfter(table: map<string, OpRef>, id: string, o: OpRef)
    ensures Entries(table[id := o]) == Entries(table) - (if id in table then {(id, table[id])} else {}) + {(id, o)}
  {
    var t := table[id := o];
    forall i | i in table && i != id
      ensures (i, table[i]) in Entries(t)
    {
      assert i in t && t[i] == table[i];
    }
    assert id in t && t[id] == o;
  }

  lemma LaunchAccounted(u: Subs, id: string, o: OpRef)
    requires Accounted(u)
    ensures Accounted(Launch(u, id, o))
  {
    var lost := if id in u.table then {(id, u.table[id])} else {};
    EntriesAfter(u.table, id, o);
    assert multiset(Entries(u.table)) == multiset(Entries(u.table) - lost) + multiset(lost);
    assert (id, o) !in Entries(u.table) - lost;
  }

  lemma LaunchOneEach(ops: Ops, ops': Ops, u: Subs, id: string, o: OpRef)
    requires OneEach(ops, u) && !Granted(ops, o)
    requires forall x :: Granted(ops', x) <==> Granted(ops, x) || x == o
    ensures OneEach(ops', Launch(u, id, o))
  {
    var v := Launch(u, id, o);
    assert (id, o) in v.started;
    forall x | Granted(ops', x)
      ensures HasStarted(v, x)
    {
      if x != o {
        var i :| (i, x) in u.started;
        assert (i, x) in v.started;
      }
    }
  }

  /** A response grants a subscription exactly when it starts one. */
  lemma ReplyGrants(p: Pending, r: Reply, x: OpRef)
    requires PendingOk(p)
    ensures Granted(HandleReply(p, r).ops, x) <==> Granted(p.ops, x) || (Starts(p, r) && x == p.table[r.id])
    ensures Starts(p, r) ==> !Granted(p.ops, p.table[r.id])
  {
    if r.id in p.table { assert EntryOk(p.ops, r.id, p.table[r.id]); }
  }

  lemma TakeReplyKeeps(p: Pending, u: Subs, r: Reply)
    requires PendingOk(p) && Accounted(u) && OneEach(p.ops, u)
    ensures Accounted(TakeReply(p, u, r)) && OneEach(HandleReply(p, r).ops, TakeReply(p, u, r))
  {
    var ops' := HandleReply(p, r).ops;
    forall x
      ensures Granted(ops', x) <==> Granted(p.ops, x) || (Starts(p, r) && x == p.table[r.id])
      ensures Starts(p, r) ==> !Granted(p.ops, p.table[r.id])
    {
      ReplyGrants(p, r, x);
    }
    if Starts(p, r) {
      LaunchAccounted(u, r.subId.value, p.table[r.id]);
      LaunchOneEach(p.ops, ops', u, r.subId.value, p.table[r.id]);
    } else {
      OneEachFrame(p.ops, ops', u);
    }
  }

  lemma {:induction false} TakeRepliesKeeps(p: Pending, u: Subs, rs: seq<Reply>)
    requires PendingOk(p) && Accounted(u) && OneEach(p.ops, u)
    ensures Accounted(TakeReplies(p, u, rs)) && OneEach(HandleReplies(p, rs).ops, TakeReplies(p, u, rs))
  {
    if rs != [] {
      var n := |rs| - 1;
      TakeRepliesKeeps(p, u, rs[..n]);
      HandleRepliesKeeps(p, rs[..n]);
      TakeReplyKeeps(HandleReplies(p, rs[..n]), TakeReplies(p, u, rs[..n]), rs[n]);
    }
  }

  lemma UpdateGrant(ops: Ops, o: OpRef, op: Op, x: OpRef)
    requires if o in ops then op.subscribe == ops[o].subscribe && op.closes == ops[o].closes && op.err == ops[o].err
             else op.closes == 0
    ensures Granted(ops[o := op], x) <==> Granted(ops, x)
  {
  }

  lemma CallerGrants(s: State, step: Step, x: OpRef)
    requires Enabled(s, step) && IsCallerStep(step)
    ensures Granted(Apply(s, step).ops, x) <==> Granted(s.ops, x)
  {
    var t := Apply(s, step);
    assert t.ops == s.ops[step.o := t.ops[step.o]];
    UpdateGrant(s.ops, step.o, t.ops[step.o], x);
  }

  lemma DispatcherGrants(s: State, step: Step, x: OpRef)
    requires Enabled(s, step) && (step.ReqInit? || step.Timeout? || step.TakeSent?)
    ensures Granted(Apply(s, step).ops, x) <==> Granted(s.ops, x)
  {
    match step
    case ReqInit(o) => UpdateGrant(s.ops, o, s.ops[o].(phase := Writing(false)), x);
    case Timeout(o) => UpdateGrant(s.ops, o, s.ops[o].(phase := TimedOut), x);
    case TakeSent =>
  }

  /** Only answers grant subscriptions; closing a handler refuses those still pending. */
  lemma GrantedKept(s: State, step: Step, o: OpRef)
    requires Inv(s) && Enabled(s, step) && !step.ReadOp?
    ensures Granted(Apply(s, step).ops, o) <==> Granted(s.ops, o)
  {
    match step
    case ReadErr(_) => CancelGrants(s.Pend(), ReadFailed, s.lastOp, o);
    case Reconnect(_, _) => CancelGrants(s.Pend(), ClientReconnected, s.lastOp, o);
    case Quit(_) => CancelGrants(s.Pend(), ClientQuit, None, o);
    case ReqInit(_) => DispatcherGrants(s, step, o);
    case Timeout(_) => DispatcherGrants(s, step, o);
    case TakeSent => DispatcherGrants(s, step, o);
    case _ => CallerGrants(s, step, o);
  }

  lemma CancelGrants(p: Pending, e: Failure, spared: Option<OpRef>, o: OpRef)
    requires PendingOk(p)
    ensures Granted(CancelAll(p, e, spared).ops, o) <==> Granted(p.ops, o)
  {
    if o in Victims(p.table, spared) {
      var id :| id in p.table && p.table[id] == o;
      assert EntryOk(p.ops, id, o);
    }
  }

  lemma CloseSubsKeeps(ops: Ops, u: Subs)
    requires Accounted(u) && OneEach(ops, u)
    ensures Accounted(CloseSubs(u)) && OneEach(ops, CloseSubs(u))
  {
    forall o | Granted(ops, o)
      ensures HasStarted(CloseSubs(u), o)
    {
      assert HasStarted(u, o);
    }
  }

  lemma OneEachFrame(ops: Ops, ops': Ops, u: Subs)
    requires OneEach(ops, u) && forall o :: Granted(ops', o) <==> Granted(ops, o)
    ensures OneEach(ops', u)
  {
  }

  /** Messages are handled only while reading; a lost connection stays lost until a reconnect. */
  lemma EmptyWhenLost(s: State, step: Step, u: Subs)
    requires ReaderOk(s) && Enabled(s, step) && (s.quit || !s.reading ==> u.table == map[])
    ensures Apply(s, step).quit || !Apply(s, step).reading ==> After(s, step, u).table == map[]
  {
  }

  lemma SubsKept(s: State, step: Step, u: Subs)
    requires Inv(s) && Enabled(s, step) && SubsOk(s, u)
    ensures SubsOk(Apply(s, step), After(s, step, u))
  {
    var t, v := Apply(s, step), After(s, step, u);
    EmptyWhenLost(s, step, u);
    if step.ReadOp? { ReadOpSubs(s, step, u); } else { OtherSubs(s, step, u); }
    assert SubsOk(t, v);
  }

  lemma ReadOpSubs(s: State, step: Step, u: Subs)
    requires PendingOk(s.Pend()) && Offered(s, step) && step.ReadOp? && Accounted(u) && OneEach(s.ops, u)
    ensures Accounted(After(s, step, u)) && OneEach(Apply(s, step).ops, After(s, step, u))
  {
    TakeRepliesKeeps(s.Pend(), u, step.replies);
  }

  lemma OtherSubs(s: State, step: Step, u: Subs)
    requires Inv(s) && Enabled(s, step) && !step.ReadOp?
    requires Accounted(u) && OneEach(s.ops, u) && (!s.reading ==> u.table == map[])
    ensures Accounted(After(s, step, u)) && OneEach(Apply(s, step).ops, After(s, step, u))
  {
    AfterKeeps(s, step, u);
    GrantsFrame(s, step, After(s, step, u));
  }

  lemma GrantsFrame(s: State, step: Step, u: Subs)
    requires Inv(s) && Enabled(s, step) && !step.ReadOp? && OneEach(s.ops, u)
    ensures OneEach(Apply(s, step).ops, u)
  {
    var ops, ops' := s.ops, Apply(s, step).ops;
    forall o
      ensures Granted(ops', o) <==> Granted(ops, o)
    {
      GrantedKept(s, step, o);
    }
    OneEachFrame(ops, ops', u);
  }

  lemma AfterKeeps(s: State, step: Step, u: Subs)
    requires Accounted(u) && OneEach(s.ops, u) && (!s.reading ==> u.table == map[]) && !step.ReadOp?
    ensures Accounted(After(s, step, u)) && OneEach(s.ops, After(s, step, u))
  {
    CloseSubsKeeps(s.ops, u);
    assert After(s, step, u) == u || After(s, step, u) == CloseSubs(u);
  }

  lemma {:induction false} RunKeepsSubs(states: seq<State>, steps: seq<Step>, k: nat)
    requires IsRun(states, steps) && k < |states|
    ensures SubsOk(states[k], SubsAt(states, steps, k))
  {
    if k > 0 {
      RunKeepsSubs(states, steps, k - 1);
      RunKeeps(states, steps, k - 1);
      SubsKept(states[k - 1], steps[k - 1], SubsAt(states, steps, k - 1));
    }
  }

  /** Over every run: a subscription was started for a request, once, exactly when the request's channel
      was closed without an error; and what was started is in clientSubs, was closed or was shadowed,
      one of the three, once. */
  lemma SubscriptionsAccounted(states: seq<State>, steps: seq<Step>, k: nat, g: Running)
    requires IsRun(states, steps) && k < |states|
    ensures var u := SubsAt(states, steps, k);
            && (HasStarted(u, g.1) <==> Granted(states[k].ops, g.1))
            && u.started[g] <= 1
            && u.started[g] == (if g in Entries(u.table) then 1 else 0) + u.closed[g] + u.shadowed[g]
  {
    RunKeepsSubs(states, steps, k);
    var u := SubsAt(states, steps, k);
    if HasStarted(u, g.1) {
      var id :| (id, g.1) in u.started;
    }
  }

  /** The response answers request `o` of the table with subscription id `id`. */
  ghost predicate GivesId(table: Table, r: Reply, id: string, o: OpRef) {
    r.id in table && table[r.id] == o && r.error.None? && r.subId == Some(id)
  }

  lemma {:induction false} BatchStarts(p: Pending, u: Subs, rs: seq<Reply>, g: Running)
    requires g in TakeReplies(p, u, rs).started && g !in u.started
    ensures exists i :: 0 <= i < |rs| && GivesId(p.table, rs[i], g.0, g.1)
  {
    var n := |rs| - 1;
    if g in TakeReplies(p, u, rs[..n]).started {
      BatchStarts(p, u, rs[..n], g);
      var i :| 0 <= i < n && GivesId(p.table, rs[..n][i], g.0, g.1);
      assert rs[i] == rs[..n][i];
    } else {
      HandleRepliesSameRequests(p, rs[..n]);
      assert GivesId(p.table, rs[n], g.0, g.1);
    }
  }

  /** A subscription was started under the very id that a response to its request carried. */
  lemma {:induction false} StartedByAnswer(states: seq<State>, steps: seq<Step>, k: nat, g: Running)
    requires IsRun(states, steps) && k < |states| && g in SubsAt(states, steps, k).started
    ensures exists j, i :: 0 <= j < k && steps[j].ReadOp? && 0 <= i < |steps[j].replies|
                           && GivesId(states[j].table, steps[j].replies[i], g.0, g.1)
  {
    var u := SubsAt(states, steps, k - 1);
    if g in u.started {
      StartedByAnswer(states, steps, k - 1, g);
    } else {
      BatchStarts(states[k - 1].Pend(), u, steps[k - 1].replies, g);
    }
  }

  /** Subscribe has returned a subscription to its caller. */
  ghost predicate Holds(s: State, o: OpRef) {
    s.InPhase(o, Ended) && s.ops[o].subscribe && s.ops[o].err.None?
  }

  /** A subscription was started for a call that has returned an error: nobody holds it. */
  ghost predicate Orphaned(s: State, u: Subs, o: OpRef) {
    HasStarted(u, o) && (s.InPhase(o, TimedOut) || s.InPhase(o, Failed))
  }

  /** A call of Subscribe that is over. */
  ghost predicate IsOver(s: State, o: OpRef) {
    o in s.ops && s.ops[o].subscribe && (s.ops[o].phase.Ended? || s.ops[o].phase.TimedOut? || s.ops[o].phase.Failed?)
  }

  /** The caller's side, over every run: once a call of Subscribe is over, the caller holds a
      subscription if and only if one was started for it and the call neither timed out nor failed;
      one that was started is held or orphaned. */
  lemma HeldOrOrphaned(states: seq<State>, steps: seq<Step>, k: nat, o: OpRef)
    requires IsRun(states, steps) && k < |states| && IsOver(states[k], o)
    ensures var s, u := states[k], SubsAt(states, steps, k);
            && (Holds(s, o) <==> HasStarted(u, o) && !s.InPhase(o, TimedOut) && !s.InPhase(o, Failed))
            && (HasStarted(u, o) <==> Holds(s, o) || Orphaned(s, u, o))
            && !(Holds(s, o) && Orphaned(s, u, o))
  {
    SubscriptionsAccounted(states, steps, k, ("", o));
    RunKeeps(states, steps, k);
    assert OpOk(states[k].ops[o]);
  }

  /** When the connection is lost or the client has quit, a subscription has been closed exactly once,
      if and only if the server did not give its id away again while clientSubs held it. */
  lemma ClosedUnlessShadowed(states: seq<State>, steps: seq<Step>, k: nat, g: Running)
    requires IsRun(states, steps) && k < |states| && (states[k].quit || !states[k].reading)
    requires g in SubsAt(states, steps, k).started
    ensures var u := SubsAt(states, steps, k);
            (u.closed[g] == 1 <==> g !in u.shadowed) && u.closed[g] <= 1
  {
    RunKeepsSubs(states, steps, k);
    SubscriptionsAccounted(states, steps, k, g);
  }

  // ---------- a run that shadows a subscription ----------

  lemma {:induction false} SubsAtSame(states: seq<State>, steps: seq<Step>, states': seq<State>, steps': seq<Step>,
                                      k: nat)
    requires IsRun(states, steps) && IsRun(states', steps') && states <= states' && steps <= steps' && k < |states|
    ensures SubsAt(states', steps', k) == SubsAt(states, steps, k)
  {
    if k > 0 { SubsAtSame(states, steps, states', steps', k - 1); }
  }

  /** State `s`, with subscriptions `u`, ends a run. */
  ghost predicate Reached(s: State, u: Subs) {
    exists states, steps :: RunTo(states, steps, s, u)
  }

  ghost predicate RunTo(states: seq<State>, steps: seq<Step>, s: State, u: Subs) {
    IsRun(states, steps) && states[|steps|] == s && SubsAt(states, steps, |steps|) == u
  }

  lemma Go(s: State, u: Subs, step: Step)
    requires Reached(s, u) && Enabled(s, step)
    ensures Reached(Apply(s, step), After(s, step, u))
  {
    var states, steps :| RunTo(states, steps, s, u);
    var states', steps' := states + [Apply(s, step)], steps + [step];
    SubsAtSame(states, steps, states', steps', |steps|);
    assert RunTo(states', steps', Apply(s, step), After(s, step, u));
  }

  /** A subscribe request with one id. */
  function Subscribe(id: Id, phase: Phase): Op {
    Op([id], true, phase, [], 0, 0, 0, None)
  }

  lemma Draft(s: State, u: Subs, o: OpRef) returns (t: State)
    requires Reached(s, u) && o !in s.ops && CounterInRange(s)
    ensures Reached(t, u)
    ensures t == s.(drawn := s.drawn + [(o, 0)], ops := s.ops[o := Subscribe(NextId(s.drawn), Building)])
  {
    Go(s, u, NewOp(o, true));
    var a := s.(ops := s.ops[o := Op([], true, Building, [], 0, 0, 0, None)]);
    assert a == Apply(s, NewOp(o, true));
    Go(a, u, DrawId(o));
    t := Apply(a, DrawId(o));
    assert t.ops[o].ids == [NextId(s.drawn)];
    assert t.ops == s.ops[o := Subscribe(NextId(s.drawn), Building)];
  }

  /** Any idle client accepts a subscribe request. */
  lemma Accept(s: State, u: Subs, o: OpRef) returns (t: State)
    requires Reached(s, u) && o !in s.ops && !s.quit && !s.locked && CounterInRange(s)
    ensures Reached(t, u)
    ensures var id := NextId(s.drawn);
            t == s.(drawn := s.drawn + [(o, 0)], ops := s.ops[o := Subscribe(id, Writing(false))],
                    table := Register(s.table, [id], o), locked := true, lastOp := Some(o))
  {
    var a := Draft(s, u, o);
    Go(a, u, ReqInit(o));
    t := Apply(a, ReqInit(o));
    assert t.ops == s.ops[o := Subscribe(NextId(s.drawn), Writing(false))];
  }

  /** Its write succeeds and is reported. */
  lemma Write(s: State, u: Subs, o: OpRef, id: Id) returns (t: State)
    requires Reached(s, u) && s.lastOp == Some(o) && o in s.ops && s.ops[o] == Subscribe(id, Writing(false))
    requires s.writeConn.Some? && s.reqSent == [] && !s.quit
    ensures Reached(t, u)
    ensures t == s.(ops := s.ops[o := Subscribe(id, Waiting)], locked := false, lastOp := None)
  {
    Go(s, u, WriteOk(o));
    var a := Apply(s, WriteOk(o));
    Go(a, u, PutSent(o));
    var b := Apply(a, PutSent(o));
    assert b.ops == s.ops[o := Subscribe(id, Waiting)];
    Go(b, u, TakeSent);
    t := Apply(b, TakeSent);
  }

  /** An idle client comes to wait for the answer to one more subscribe request. */
  lemma Ask(s: State, u: Subs, o: OpRef, id: Id) returns (t: State)
    requires Reached(s, u) && o !in s.ops && !s.quit && !s.locked && CounterInRange(s) && id == NextId(s.drawn)
    requires s.writeConn.Some? && s.reqSent == [] && s.lastOp.None?
    ensures Reached(t, u)
    ensures t == s.(drawn := s.drawn + [(o, 0)], ops := s.ops[o := Subscribe(id, Waiting)],
                    table := Register(s.table, [id], o))
  {
    var a := Accept(s, u, o);
    t := Write(a, u, o, id);
    assert a.ops[o := Subscribe(id, Waiting)] == s.ops[o := Subscribe(id, Waiting)];
  }

  const OneWaiting := Init.(drawn := [(0, 0)], table := map[1 := 0], ops := map[0 := Subscribe(1, Waiting)])

  const TwoWaiting := Init.(drawn := [(0, 0), (1, 0)], table := map[1 := 0, 2 := 1],
                            ops := map[0 := Subscribe(1, Waiting), 1 := Subscribe(2, Waiting)])

  lemma OneWaitingReached()
    ensures Reached(OneWaiting, NoSubs)
  {
    assert RunTo([Init], [], Init, NoSubs);
    var a := Ask(Init, NoSubs, 0, 1);
    assert Register(map[], [1], 0) == map[1 := 0];
    assert a == OneWaiting;
  }

  lemma TwoWaitingReached()
    ensures Reached(TwoWaiting, NoSubs)
  {
    OneWaitingReached();
    var a := Ask(OneWaiting, NoSubs, 1, 2);
    TwoEntries();
    assert a == TwoWaiting;
  }

  lemma TwoEntries()
    ensures Register(map[1 := 0], [2], 1) == map[1 := 0, 2 := 1]
    ensures OneWaiting.ops[1 := Subscribe(2, Waiting)] == TwoWaiting.ops
    ensures OneWaiting.drawn + [(1, 0)] == TwoWaiting.drawn
  {
  }

  lemma FirstAnswer(p: Pending, r: Reply)
    requires p == TwoWaiting.Pend() && r == Reply(1, None, "", Some("x"))
    ensures HandleReply(p, r).table == map[2 := 1] && HandleReply(p, r).ops[1] == p.ops[1]
    ensures Granted(HandleReply(p, r).ops, 0)
  {
  }

  /** Two answers with the same id launch two subscriptions, and the second shadows the first. */
  lemma SameIdTwice(p: Pending, r1: Reply, r2: Reply)
    requires p == TwoWaiting.Pend() && r1 == Reply(1, None, "", Some("x")) && r2 == Reply(2, None, "", Some("x"))
    ensures TakeReplies(p, NoSubs, [r1, r2]) ==
            Subs(map["x" := 1], multiset{("x", 0), ("x", 1)}, multiset{}, multiset{("x", 0)})
    ensures Granted(HandleReplies(p, [r1, r2]).ops, 0)
  {
    TwoReplies(p, NoSubs, r1, r2);
    var q := HandleReply(p, r1);
    FirstAnswer(p, r1);
    assert TakeReply(p, NoSubs, r1) == Subs(map["x" := 0], multiset{("x", 0)}, multiset{}, multiset{});
  }

  /** Both requests are answered with the id `x`; when the connection is lost, only the second one's
      subscription is told. */
  lemma ShadowingHappens() returns (s: State, u: Subs)
    ensures Reached(s, u) && !s.reading
    ensures Granted(s.ops, 0) && ("x", 0) in u.started && u.closed == multiset{("x", 1)}
  {
    TwoWaitingReached();
    var r1, r2 := Reply(1, None, "", Some("x")), Reply(2, None, "", Some("x"));
    SameIdTwice(TwoWaiting.Pend(), r1, r2);
    Go(TwoWaiting, NoSubs, ReadOp(0, [r1, r2]));
    var a, v := Apply(TwoWaiting, ReadOp(0, [r1, r2])), After(TwoWaiting, ReadOp(0, [r1, r2]), NoSubs);
    s, u := LoseConnection(a, v);
  }

  lemma OneEntry(id: string, o: OpRef)
    ensures Entries(map[id := o]) == {(id, o)}
  {
    assert id in map[id := o];
  }

  lemma LoseConnection(a: State, v: Subs) returns (s: State, u: Subs)
    requires Reached(a, v) && 0 in a.readers && !a.quit && Granted(a.ops, 0)
    requires v.table == map["x" := 1] && v.closed == multiset{}
    ensures Reached(s, u) && !s.reading && Granted(s.ops, 0)
    ensures u.started == v.started && u.closed == multiset{("x", 1)}
  {
    Go(a, v, ReadErr(0));
    s, u := Apply(a, ReadErr(0)), After(a, ReadErr(0), v);
    OneEntry("x", 1);
    var states, steps :| RunTo(states, steps, a, v);
    RunKeeps(states, steps, |steps|);
    GrantedKept(a, ReadErr(0), 0);
  }

  /** A caller gives up while dispatch handles the answer to its call: the subscription runs, and is in
      clientSubs, but Subscribe returns an error. */
  lemma OrphanHappens() returns (s: State, u: Subs)
    ensures Reached(s, u) && Orphaned(s, u, 0) && u.table == map["x" := 0]
  {
    OneWaitingReached();
    var r := Reply(1, None, "", Some("x"));
    OneAnswer(r);
    Go(OneWaiting, NoSubs, ReadOp(0, [r]));
    var a, v := Apply(OneWaiting, ReadOp(0, [r])), After(OneWaiting, ReadOp(0, [r]), NoSubs);
    Go(a, v, Timeout(0));
    s, u := Apply(a, Timeout(0)), v;
    assert ("x", 0) in u.started;
  }

  lemma OneAnswer(r: Reply)
    requires r == Reply(1, None, "", Some("x"))
    ensures TakeReplies(OneWaiting.Pend(), NoSubs, [r]) ==
            Subs(map["x" := 0], multiset{("x", 0)}, multiset{}, multiset{})
    ensures HandleReplies(OneWaiting.Pend(), [r]).ops == map[0 := Subscribe(1, Waiting).CloseWith(None)]
  {
    var p := OneWaiting.Pend();
    assert [r][..0] == [];
    assert HandleReplies(p, []) == p && TakeReplies(p, NoSubs, []) == NoSubs;
  }

  lemma TwoReplies(p: Pending, u: Subs, r1: Reply, r2: Reply)
    ensures HandleReplies(p, [r1, r2]) == HandleReply(HandleReply(p, r1), r2)
    ensures TakeReplies(p, u, [r1, r2]) == TakeReply(HandleReply(p, r1), TakeReply(p, u, r1), r2)
  {
    assert [r1, r2][..1] == [r1] && [r1][..0] == [];
    assert HandleReplies(p, [r1]) == HandleReply(p, r1) && TakeReplies(p, u, [r1]) == TakeReply(p, u, r1);
  }
}
