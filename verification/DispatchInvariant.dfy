/** What every step of the dispatch loop keeps. */
module DispatchInvariant {
  import opened Common
  import opened RequestTable
  import opened Dispatch

  /** E1 in use: the k-th id drawn is k, so an id tells who drew it. */
  ghost predicate IdsOwned(drawn: seq<(OpRef, nat)>, o: OpRef, ids: seq<Id>) {
    forall i :: 0 <= i < |ids| ==> 1 <= ids[i] <= |drawn| && drawn[ids[i] - 1] == (o, i)
  }

  /** The replies put on a channel carry ids of its request, no id twice. */
  ghost predicate OneReplyPerId(ids: seq<Id>, sent: seq<Reply>) {
    && (forall k :: 0 <= k < |sent| ==> sent[k].id in ids)
    && (forall j, k :: 0 <= j < k < |sent| ==> sent[j].id != sent[k].id)
  }

  /** Never closed twice, never written after closing. */
  ghost predicate ChannelSafe(op: Op) {
    op.closes <= 1 && op.lateSends == 0 && op.taken <= |op.sent|
  }

  ghost predicate Untouched(op: Op) {
    op.sent == [] && op.closes == 0
  }

  ghost predicate OpOk(op: Op) {
    && ChannelSafe(op)
    && OneReplyPerId(op.ids, op.sent)
    && (op.subscribe ==> op.sent == [] && |op.ids| <= 1)
    && (op.phase.Building? ==> Untouched(op))
    && (op.err.Some? ==> op.closes == 1)
    && (op.closes == 1 && !op.subscribe ==> op.err.Some?)
    && (op.closes == 1 ==> op.ids != [])
    && (op.phase.Ended? ==> op.closes == 1)
  }

  /** A table entry belongs to a request whose channel is open and that still lacks this reply. */
  ghost predicate EntryOk(ops: Ops, id: Id, o: OpRef) {
    && o in ops
    && id in ops[o].ids
    && ops[o].closes == 0
    && !ops[o].phase.Building?
    && forall k :: 0 <= k < |ops[o].sent| ==> ops[o].sent[k].id != id
  }

  ghost predicate PendingOk(p: Pending) {
    && (forall o :: o in p.ops ==> OpOk(p.ops[o]))
    && (forall id :: id in p.table ==> EntryOk(p.ops, id, p.table[id]))
  }

  /** The write lock: `reqInitLock`, `lastOp` and `reqSent` agree with the one sender inside. */
  ghost predicate LockOk(s: State) {
    && (s.locked <==> s.lastOp.Some?)
    && (forall o :: o in s.ops && s.ops[o].HoldsLock() ==> s.lastOp == Some(o))
    && (s.lastOp.None? ==> s.reqSent == [])
    && (s.lastOp.Some? ==> s.lastOp.value in s.ops && LockHolderOk(s.ops[s.lastOp.value], s.reqSent))
  }

  ghost predicate LockHolderOk(op: Op, reqSent: seq<bool>) {
    if op.HoldsLock() then reqSent == []
    else !op.phase.Building? && reqSent == [op.phase != Failed]
  }

  ghost predicate ReaderOk(s: State) {
    && s.conn < s.nextConn
    && s.readers == (if s.reading && !s.quit then {s.conn} else {})
    && (s.writeConn.Some? ==> s.writeConn.value == s.conn)
    && (!s.reading ==> s.conn in s.closedCodecs)
    && (forall k :: 0 <= k < |s.handled| ==> s.handled[k].0 == s.handled[k].1)
  }

  ghost predicate Owned(s: State) {
    forall o :: o in s.ops ==> IdsOwned(s.drawn, o, s.ops[o].ids)
  }

  ghost predicate Inv(s: State) {
    && !s.panicked
    && |s.drawn| < IdSpace
    && Owned(s)
    && PendingOk(s.Pend())
    && LockOk(s)
    && ReaderOk(s)
  }

  /** Steps that one caller takes without the dispatcher. */
  predicate IsCallerStep(step: Step) {
    || step.NewOp? || step.DrawId?
    || step.WriteOk? || step.WriteFail? || step.ReconnectFail? || step.PutSent? || step.Receive? || step.SeeClosed?
  }

  /** They leave the table, the connection and every other request alone. */
  ghost predicate OnlyCaller(s: State, t: State, o: OpRef) {
    && t.table == s.table && t.lastOp == s.lastOp && t.conn == s.conn && t.reading == s.reading
    && t.closedCodecs == s.closedCodecs && t.quit == s.quit
    && t.ops.Keys == s.ops.Keys + {o}
    && forall x :: x in s.ops && x != o ==> t.ops[x] == s.ops[x]
  }

  lemma CallerStepFrame(s: State, step: Step)
    requires Enabled(s, step) && IsCallerStep(step)
    ensures OnlyCaller(s, Apply(s, step), step.o)
  {
  }

  /** They neither serve nor time out the request, and only WriteOk makes it written. */
  lemma CallerStepOp(s: State, step: Step)
    requires Enabled(s, step) && IsCallerStep(step)
    ensures step.o in Apply(s, step).ops
    ensures var b := Apply(s, step).ops[step.o];
            && b.phase != TimedOut
            && (if step.NewOp? then Untouched(b) && b.phase.Building?
                else
                  var a := s.ops[step.o];
                  && b.sent == a.sent && b.closes == a.closes && (b.ids == a.ids || a.phase.Building?)
                  && (b.phase.Writing? ==> a.phase.Writing?) && (b.phase.Building? <==> a.phase.Building?)
                  && (b.Written() <==> a.Written() || step.WriteOk?)
                  && (step.WriteOk? ==> a.phase.Writing?))
  {
  }

  lemma HandleReplyKeeps(p: Pending, r: Reply)
    requires PendingOk(p)
    ensures PendingOk(HandleReply(p, r))
  {
    if r.id in p.table {
      var o := p.table[r.id];
      var op, q := p.ops[o], HandleReply(p, r);
      assert EntryOk(p.ops, r.id, o);
      assert OpOk(q.ops[o]);
      forall id | id in q.table
        ensures EntryOk(q.ops, id, q.table[id])
      {
        assert EntryOk(p.ops, id, p.table[id]);
      }
    }
  }

  /** Message handling changes neither ids nor phases, and only shrinks the table. */
  ghost predicate SameRequests(p: Pending, q: Pending) {
    && q.ops.Keys == p.ops.Keys
    && (forall o :: o in p.ops ==> SameRequest(p.ops[o], q.ops[o]))
    && (forall id :: id in q.table ==> id in p.table && q.table[id] == p.table[id])
  }

  ghost predicate SameRequest(a: Op, b: Op) {
    a.ids == b.ids && a.phase == b.phase && a.subscribe == b.subscribe
  }

  /** What message handling and closing leave alone. */
  lemma SameRequestsFrame(s: State, t: State)
    requires Owned(s) && LockOk(s) && SameRequests(s.Pend(), t.Pend().(table := map[]))
    requires t.drawn == s.drawn && t.locked == s.locked && t.lastOp == s.lastOp && t.reqSent == s.reqSent
    ensures Owned(t) && LockOk(t)
  {
    forall o | o in t.ops
      ensures SameRequest(s.ops[o], t.ops[o])
    {
    }
  }

  lemma {:induction false} HandleRepliesSameRequests(p: Pending, rs: seq<Reply>)
    ensures SameRequests(p, HandleReplies(p, rs))
  {
    if rs != [] {
      HandleRepliesSameRequests(p, rs[..|rs| - 1]);
    }
  }

  lemma {:induction false} HandleRepliesKeeps(p: Pending, rs: seq<Reply>)
    requires PendingOk(p)
    ensures PendingOk(HandleReplies(p, rs))
  {
    if rs != [] {
      HandleRepliesKeeps(p, rs[..|rs| - 1]);
      HandleReplyKeeps(HandleReplies(p, rs[..|rs| - 1]), rs[|rs| - 1]);
    }
  }

  /** Closing a handler closes each open channel at most once, whatever the table's order. */
  lemma CancelAllKeeps(p: Pending, e: Failure, spared: Option<OpRef>)
    requires PendingOk(p)
    ensures PendingOk(CancelAll(p, e, spared))
    ensures SameRequests(p, CancelAll(p, e, spared))
  {
    var q := CancelAll(p, e, spared);
    forall o | o in q.ops
      ensures OpOk(q.ops[o])
    {
      assert OpOk(p.ops[o]);
      if o in Victims(p.table, spared) {
        var id :| id in p.table && p.table[id] == o;
        assert EntryOk(p.ops, id, o);
      }
    }
  }

  lemma RegisterKeeps(p: Pending, o: OpRef)
    requires PendingOk(p)
    requires o in p.ops && Untouched(p.ops[o]) && !p.ops[o].phase.Building?
    ensures PendingOk(p.(table := Register(p.table, p.ops[o].ids, o)))
  {
  }

  /** Replacing one request, with its table entries still in order. */
  lemma UpdateKeeps(p: Pending, o: OpRef, op: Op)
    requires PendingOk(p) && OpOk(op)
    requires forall id :: id in p.table && p.table[id] == o ==> EntryOk(p.ops[o := op], id, o)
    ensures PendingOk(p.(ops := p.ops[o := op]))
  {
    forall id | id in p.table
      ensures EntryOk(p.ops[o := op], id, p.table[id])
    {
      assert EntryOk(p.ops, id, p.table[id]);
    }
  }

  lemma SetPhaseKeeps(s: State, o: OpRef, ph: Phase)
    requires PendingOk(s.Pend()) && o in s.ops
    requires !ph.Building? && (ph.Ended? ==> s.ops[o].closes > 0)
    ensures PendingOk(s.SetPhase(o, ph).Pend())
  {
    var op := s.ops[o].(phase := ph);
    assert OpOk(s.ops[o]);
    forall id | id in s.table && s.table[id] == o
      ensures EntryOk(s.ops[o := op], id, o)
    {
      assert EntryOk(s.ops, id, o);
    }
    UpdateKeeps(s.Pend(), o, op);
  }

  lemma NewOpKeeps(s: State, o: OpRef, subscribe: bool)
    requires Inv(s) && Enabled(s, NewOp(o, subscribe))
    ensures Inv(Apply(s, NewOp(o, subscribe)))
  {
    var op := Op([], subscribe, Building, [], 0, 0, 0, None);
    forall id | id in s.table
      ensures s.table[id] != o
    {
      assert EntryOk(s.ops, id, s.table[id]);
    }
    UpdateKeeps(s.Pend(), o, op);
  }

  lemma IdsOwnedGrow(drawn: seq<(OpRef, nat)>, x: OpRef, ids: seq<Id>, last: (OpRef, nat))
    requires IdsOwned(drawn, x, ids)
    ensures IdsOwned(drawn + [last], x, ids)
    ensures last == (x, |ids|) ==> IdsOwned(drawn + [last], x, ids + [|drawn| + 1])
  {
  }

  lemma DrawIdOwned(s: State, o: OpRef, x: OpRef)
    requires Inv(s) && Enabled(s, DrawId(o)) && x in s.ops
    ensures IdsOwned(ApplyDrawId(s, o).drawn, x, ApplyDrawId(s, o).ops[x].ids)
  {
    IdsOwnedGrow(s.drawn, x, s.ops[x].ids, (o, |s.ops[o].ids|));
    assert NextId(s.drawn) == |s.drawn| + 1;
  }

  lemma DrawIdKeeps(s: State, o: OpRef)
    requires Inv(s) && Enabled(s, DrawId(o))
    ensures Inv(ApplyDrawId(s, o))
  {
    var t := ApplyDrawId(s, o);
    assert OpOk(t.ops[o]) by {
      assert OpOk(s.ops[o]);
    }
    assert PendingOk(t.Pend()) by {
      forall id | id in s.table
        ensures s.table[id] != o
      {
        assert EntryOk(s.ops, id, s.table[id]);
      }
      UpdateKeeps(s.Pend(), o, t.ops[o]);
    }
    forall x | x in t.ops
      ensures IdsOwned(t.drawn, x, t.ops[x].ids)
    {
      DrawIdOwned(s, o, x);
    }
  }

  lemma ReqInitKeeps(s: State, o: OpRef)
    requires Inv(s) && Enabled(s, ReqInit(o))
    ensures Inv(ApplyReqInit(s, o))
  {
    assert OpOk(s.ops[o]);
    SetPhaseKeeps(s, o, Writing(false));
    RegisterKeeps(s.SetPhase(o, Writing(false)).Pend(), o);
  }

  lemma SenderStepKeeps(s: State, step: Step)
    requires Inv(s) && Enabled(s, step)
    requires step.WriteOk? || step.WriteFail? || step.ReconnectFail? || step.PutSent?
    ensures Inv(Apply(s, step))
  {
    assert OpOk(s.ops[step.o]);
    SetPhaseKeeps(s, step.o, Apply(s, step).ops[step.o].phase);
  }

  lemma SeeClosedKeeps(s: State, o: OpRef)
    requires Inv(s) && Enabled(s, SeeClosed(o))
    ensures Inv(Apply(s, SeeClosed(o)))
  {
    SetPhaseKeeps(s, o, Ended);
    StopWaiting(s, o, Ended);
  }

  /** The lock is not a matter of those who wait. */
  lemma StopWaiting(s: State, o: OpRef, ph: Phase)
    requires Owned(s) && LockOk(s) && s.InPhase(o, Waiting) && (ph.Ended? || ph.TimedOut?)
    ensures Owned(s.SetPhase(o, ph)) && LockOk(s.SetPhase(o, ph))
  {
    var t := s.SetPhase(o, ph);
    forall x | x in t.ops
      ensures t.ops[x].ids == s.ops[x].ids && t.ops[x].HoldsLock() == s.ops[x].HoldsLock()
    {
    }
  }

  lemma ReconnectPending(s: State, o: OpRef, r: nat)
    requires Inv(s) && Enabled(s, Reconnect(o, r))
    ensures PendingOk(ApplyReconnect(s, r).Pend())
    ensures SameRequests(s.Pend(), ApplyReconnect(s, r).Pend().(table := map[]))
  {
    assert s.lastOp == Some(o);
    assert OpOk(s.ops[o]);
    var p := if s.reading then CancelAll(s.Pend(), ClientReconnected, s.lastOp) else s.Pend();
    if s.reading {
      CancelAllKeeps(s.Pend(), ClientReconnected, s.lastOp);
    }
    var q := p.(table := map[]);
    assert PendingOk(q);
    RegisterKeeps(q, o);
  }

  lemma ReconnectKeeps(s: State, o: OpRef, r: nat)
    requires Inv(s) && Enabled(s, Reconnect(o, r))
    ensures Inv(ApplyReconnect(s, r))
  {
    assert s.lastOp == Some(o);
    ReconnectPending(s, o, r);
    SameRequestsFrame(s, ApplyReconnect(s, r));
  }

  lemma TakeSentKeeps(s: State)
    requires Inv(s) && Enabled(s, TakeSent)
    ensures Inv(ApplyTakeSent(s))
  {
  }

  lemma ReadOpKeeps(s: State, r: nat, replies: seq<Reply>)
    requires Inv(s) && Enabled(s, ReadOp(r, replies))
    ensures Inv(ApplyReadOp(s, r, replies))
  {
    HandleRepliesKeeps(s.Pend(), replies);
    HandleRepliesSameRequests(s.Pend(), replies);
    SameRequestsFrame(s, ApplyReadOp(s, r, replies));
  }

  lemma ReadErrKeeps(s: State, r: nat)
    requires Inv(s) && Enabled(s, ReadErr(r))
    ensures Inv(ApplyReadErr(s, r))
  {
    CancelAllKeeps(s.Pend(), ReadFailed, s.lastOp);
    SameRequestsFrame(s, ApplyReadErr(s, r));
  }

  lemma TimeoutKeeps(s: State, o: OpRef)
    requires Inv(s) && Enabled(s, Timeout(o))
    ensures Inv(ApplyTimeout(s, o))
  {
    var t := s.SetPhase(o, TimedOut);
    SetPhaseKeeps(s, o, TimedOut);
    StopWaiting(s, o, TimedOut);
    assert PendingOk(t.Pend().(table := Deregister(s.table, s.ops[o].ids)));
  }

  lemma ReceiveKeeps(s: State, o: OpRef)
    requires Inv(s) && Enabled(s, Receive(o))
    ensures Inv(ApplyReceive(s, o))
  {
    var t := ApplyReceive(s, o);
    assert OpOk(s.ops[o]);
    forall id | id in s.table && s.table[id] == o
      ensures EntryOk(t.ops, id, o)
    {
      assert EntryOk(s.ops, id, o);
    }
    UpdateKeeps(s.Pend(), o, t.ops[o]);
  }

  lemma QuitKeeps(s: State, r: nat)
    requires Inv(s) && Enabled(s, Quit(r))
    ensures Inv(ApplyQuit(s, r))
  {
    if s.reading {
      CancelAllKeeps(s.Pend(), ClientQuit, None);
      SameRequestsFrame(s, ApplyQuit(s, r));
    }
  }

  lemma StepKeeps(s: State, step: Step)
    requires Inv(s) && Enabled(s, step)
    ensures Inv(Apply(s, step))
  {
    match step
    case NewOp(o, subscribe) => NewOpKeeps(s, o, subscribe);
    case DrawId(o) => DrawIdKeeps(s, o);
    case ReqInit(o) => ReqInitKeeps(s, o);
    case WriteOk(o) => SenderStepKeeps(s, step);
    case WriteFail(o) => SenderStepKeeps(s, step);
    case ReconnectFail(o) => SenderStepKeeps(s, step);
    case Reconnect(o, r) => ReconnectKeeps(s, o, r);
    case PutSent(o) => SenderStepKeeps(s, step);
    case TakeSent => TakeSentKeeps(s);
    case ReadOp(r, replies) => ReadOpKeeps(s, r, replies);
    case ReadErr(r) => ReadErrKeeps(s, r);
    case Timeout(o) => TimeoutKeeps(s, o);
    case Receive(o) => ReceiveKeeps(s, o);
    case SeeClosed(o) => SeeClosedKeeps(s, o);
    case Quit(r) => QuitKeeps(s, r);
  }

  lemma {:induction false} RunKeeps(states: seq<State>, steps: seq<Step>, k: nat)
    requires IsRun(states, steps) && k < |states|
    ensures Inv(states[k])
  {
    if k > 0 {
      RunKeeps(states, steps, k - 1);
      StepKeeps(states[k - 1], steps[k - 1]);
    }
  }
}
