/** What holds over every run of the dispatch loop. */
module DispatchTheorems {
  import opened Common
  import opened RequestTable
  import opened Dispatch
  import opened DispatchInvariant

  /** No reply channel is ever closed twice or written after it was closed. */
  lemma ChannelSafety(states: seq<State>, steps: seq<Step>, k: nat, o: OpRef)
    requires IsRun(states, steps) && k < |states| && o in states[k].ops
    ensures states[k].ops[o].closes <= 1 && states[k].ops[o].lateSends == 0
    ensures !states[k].panicked
  {
    RunKeeps(states, steps, k);
    assert OpOk(states[k].ops[o]);
  }

  /** Under E1 an id belongs to one position of one request. */
  lemma IdsNeverShared(states: seq<State>, steps: seq<Step>, k: nat, o1: OpRef, i: nat, o2: OpRef, j: nat)
    requires IsRun(states, steps) && k < |states| && o1 in states[k].ops && o2 in states[k].ops
    requires i < |states[k].ops[o1].ids| && j < |states[k].ops[o2].ids|
    ensures states[k].ops[o1].ids[i] == states[k].ops[o2].ids[j] ==> o1 == o2 && i == j
  {
    RunKeeps(states, steps, k);
    assert IdsOwned(states[k].drawn, o1, states[k].ops[o1].ids) && IdsOwned(states[k].drawn, o2, states[k].ops[o2].ids);
  }

  lemma ReplyBound(op: Op)
    requires OpOk(op)
    ensures |op.sent| <= op.Capacity()
    ensures Distinct(Ids(op.sent)) && |Ids(op.sent)| == |op.sent|
  {
    Pigeonhole(Ids(op.sent), op.ids);
  }

  ghost function Ids(rs: seq<Reply>): seq<Id> {
    seq(|rs|, i requires 0 <= i < |rs| => rs[i].id)
  }

  /** One reply per id, whatever the peer repeats or invents. */
  lemma RepliesFitBuffer(states: seq<State>, steps: seq<Step>, k: nat, o: OpRef)
    requires IsRun(states, steps) && k < |states| && o in states[k].ops
    ensures OneReplyPerId(states[k].ops[o].ids, states[k].ops[o].sent)
    ensures |states[k].ops[o].sent| <= if states[k].ops[o].subscribe then 0 else |states[k].ops[o].ids|
    ensures |states[k].ops[o].sent| <= states[k].ops[o].Capacity()
  {
    RunKeeps(states, steps, k);
    ReplyBound(states[k].ops[o]);
  }

  /** The send made while handling the i-th message of a batch finds a free slot, even if the
      caller has received nothing yet: dispatch does not block on a reply. */
  lemma DispatchNeverBlocks(states: seq<State>, steps: seq<Step>, k: nat, i: nat)
    requires IsRun(states, steps) && k < |steps| && steps[k].ReadOp? && i < |steps[k].replies|
    ensures var q := HandleReplies(states[k].Pend(), steps[k].replies[..i]);
            var id := steps[k].replies[i].id;
            id in q.table ==>
              && q.table[id] in q.ops
              && (!q.ops[q.table[id]].subscribe ==>
                    |q.ops[q.table[id]].sent| < q.ops[q.table[id]].Capacity() == |q.ops[q.table[id]].ids|)
  {
    RunKeeps(states, steps, k);
    var p, rs := states[k].Pend(), steps[k].replies;
    var q := HandleReplies(p, rs[..i]);
    HandleRepliesKeeps(p, rs[..i]);
    HandleRepliesSameRequests(p, rs[..i]);
    if rs[i].id in q.table {
      var o := q.table[rs[i].id];
      assert EntryOk(q.ops, rs[i].id, o) && SameRequest(p.ops[o], q.ops[o]);
      HandleReplyKeeps(q, rs[i]);
      ReplyBound(HandleReply(q, rs[i]).ops[o]);
    }
  }

  /** Exactly one read goroutine while reading, none otherwise; it reads the current connection, and
      every message ever handled came from the connection whose handler took it. */
  lemma SingleReader(states: seq<State>, steps: seq<Step>, k: nat)
    requires IsRun(states, steps) && k < |states|
    ensures states[k].readers == (if states[k].reading && !states[k].quit then {states[k].conn} else {})
    ensures forall i :: 0 <= i < |states[k].handled| ==> states[k].handled[i].0 == states[k].handled[i].1
  {
    RunKeeps(states, steps, k);
  }

  /** The write lock. */
  lemma WriteLock(states: seq<State>, steps: seq<Step>, k: nat)
    requires IsRun(states, steps) && k < |states|
    ensures states[k].locked <==> states[k].lastOp.Some?
    ensures |states[k].reqSent| <= 1
    ensures forall o1, o2 | o1 in states[k].ops && o2 in states[k].ops
              :: states[k].ops[o1].HoldsLock() && states[k].ops[o2].HoldsLock() ==> o1 == o2
    ensures k < |steps| && steps[k].Reconnect? ==> states[k].lastOp == Some(steps[k].o)
    ensures k < |steps| && steps[k].PutSent? ==> states[k].reqSent == []
  {
    RunKeeps(states, steps, k);
  }

  ghost predicate NoTimedOutEntry(s: State) {
    !s.quit ==> forall id :: id in s.table && s.table[id] in s.ops ==> s.ops[s.table[id]].phase != TimedOut
  }

  lemma NoTimedOutEntryKept(s: State, step: Step)
    requires Inv(s) && Enabled(s, step) && NoTimedOutEntry(s)
    ensures NoTimedOutEntry(Apply(s, step))
  {
    match step
    case ReqInit(o) => NoTimedOutEntryReqInit(s, o);
    case Reconnect(o, r) => NoTimedOutEntryReconnect(s, o, r);
    case TakeSent => NoTimedOutEntryTakeSent(s);
    case ReadOp(r, replies) => NoTimedOutEntryReadOp(s, r, replies);
    case ReadErr(r) => assert Apply(s, step).table == map[];
    case Timeout(o) => NoTimedOutEntryTimeout(s, o);
    case Quit(r) =>
    case _ => NoTimedOutEntryCaller(s, step);
  }

  lemma NoTimedOutEntryCaller(s: State, step: Step)
    requires Enabled(s, step) && NoTimedOutEntry(s) && IsCallerStep(step)
    ensures NoTimedOutEntry(Apply(s, step))
  {
    CallerStepFrame(s, step);
    CallerStepOp(s, step);
  }

  lemma NoTimedOutEntryReconnect(s: State, o: OpRef, r: nat)
    requires Inv(s) && Enabled(s, Reconnect(o, r))
    ensures NoTimedOutEntry(ApplyReconnect(s, r))
  {
    assert s.lastOp == Some(o);
    assert ApplyReconnect(s, r).ops[o] == s.ops[o];
  }

  lemma NoTimedOutEntryReqInit(s: State, o: OpRef)
    requires Enabled(s, ReqInit(o)) && NoTimedOutEntry(s)
    ensures NoTimedOutEntry(ApplyReqInit(s, o))
  {
  }

  lemma NoTimedOutEntryTakeSent(s: State)
    requires Enabled(s, TakeSent) && NoTimedOutEntry(s)
    ensures NoTimedOutEntry(ApplyTakeSent(s))
  {
  }

  lemma NoTimedOutEntryReadOp(s: State, r: nat, replies: seq<Reply>)
    requires Inv(s) && NoTimedOutEntry(s)
    ensures NoTimedOutEntry(ApplyReadOp(s, r, replies))
  {
    HandleRepliesSameRequests(s.Pend(), replies);
    var t := ApplyReadOp(s, r, replies);
    forall id | id in t.table && !s.quit
      ensures t.ops[t.table[id]].phase != TimedOut
    {
      assert EntryOk(s.ops, id, s.table[id]);
      assert SameRequest(s.ops[s.table[id]], t.ops[t.table[id]]);
    }
  }

  lemma NoTimedOutEntryTimeout(s: State, o: OpRef)
    requires Inv(s) && Enabled(s, Timeout(o)) && NoTimedOutEntry(s)
    ensures NoTimedOutEntry(ApplyTimeout(s, o))
  {
    forall id | id in ApplyTimeout(s, o).table && !s.quit
      ensures s.table[id] != o
    {
      assert EntryOk(s.ops, id, s.table[id]);
    }
  }

  /** Until the client quits, nothing waits for a request that timed out: it is never re-registered. */
  lemma {:induction false} TimedOutStaysOut(states: seq<State>, steps: seq<Step>, k: nat)
    requires IsRun(states, steps) && k < |states|
    ensures NoTimedOutEntry(states[k])
  {
    if k > 0 {
      RunKeeps(states, steps, k - 1);
      TimedOutStaysOut(states, steps, k - 1);
      NoTimedOutEntryKept(states[k - 1], steps[k - 1]);
    }
  }

  lemma TableShrinks(s: State, step: Step, id: Id)
    requires Enabled(s, step) && !step.ReqInit? && !step.Reconnect?
    ensures id in Apply(s, step).table ==> id in s.table && Apply(s, step).table[id] == s.table[id]
  {
    match step
    case ReadOp(_, replies) => HandleRepliesSameRequests(s.Pend(), replies);
    case TakeSent =>
    case ReadErr(_) =>
    case Timeout(_) =>
    case Quit(_) =>
    case _ => CallerStepFrame(s, step);
  }

  /** A request that timed out gains no table entry, before the client quits or after. */
  lemma NeverReregistered(states: seq<State>, steps: seq<Step>, k: nat, o: OpRef, id: Id)
    requires IsRun(states, steps) && k < |steps| && states[k].InPhase(o, TimedOut)
    ensures states[k + 1].InPhase(o, TimedOut)
    ensures id in states[k + 1].table && states[k + 1].table[id] == o ==>
              id in states[k].table && states[k].table[id] == o
  {
    RunKeeps(states, steps, k);
    var s, step := states[k], steps[k];
    TimedOutKept(s, step, o);
    if !step.ReqInit? && !step.Reconnect? {
      TableShrinks(s, step, id);
    } else {
      assert step.Reconnect? ==> s.lastOp == Some(step.o);
    }
  }

  lemma TimedOutKept(s: State, step: Step, o: OpRef)
    requires Enabled(s, step) && s.InPhase(o, TimedOut)
    ensures Apply(s, step).InPhase(o, TimedOut)
  {
    match step
    case ReadOp(_, replies) =>
      HandleRepliesSameRequests(s.Pend(), replies);
      assert SameRequest(s.ops[o], Apply(s, step).ops[o]);
    case Reconnect(_, _) => TimedOutClose(s, step, o);
    case ReadErr(_) => TimedOutClose(s, step, o);
    case Quit(_) => TimedOutClose(s, step, o);
    case ReqInit(_) =>
    case TakeSent =>
    case Timeout(_) =>
    case _ => TimedOutCaller(s, step, o);
  }

  lemma TimedOutCaller(s: State, step: Step, o: OpRef)
    requires Enabled(s, step) && IsCallerStep(step) && s.InPhase(o, TimedOut)
    ensures Apply(s, step).InPhase(o, TimedOut)
  {
    assert step.o != o;
    CallerStepFrame(s, step);
  }

  lemma TimedOutClose(s: State, step: Step, o: OpRef)
    requires Enabled(s, step) && (step.Reconnect? || step.ReadErr? || step.Quit?) && s.InPhase(o, TimedOut)
    ensures Apply(s, step).InPhase(o, TimedOut)
  {
  }

  // ---------- what E2 asks ----------

  /** E2 is exactly what a reconnect needs: it keeps the invariant if and only if nothing has been put
      on the sender's channel and the channel is open. */
  lemma ReconnectKeepsIff(s: State, o: OpRef, r: nat)
    requires Inv(s) && Offered(s, Reconnect(o, r))
    ensures Inv(Apply(s, Reconnect(o, r))) <==> Untouched(s.ops[o])
  {
    if Untouched(s.ops[o]) {
      ReconnectKeeps(s, o, r);
    } else {
      TouchedBreaks(s, o, r);
    }
  }

  /** An id that was answered, or any id of a closed request, may not be registered again. */
  lemma TouchedBreaks(s: State, o: OpRef, r: nat)
    requires Inv(s) && Offered(s, Reconnect(o, r)) && !Untouched(s.ops[o])
    ensures !Inv(ApplyReconnect(s, r))
  {
    var op, t := s.ops[o], ApplyReconnect(s, r);
    assert OpOk(op) && s.lastOp == Some(o);
    var id := if op.sent != [] then op.sent[0].id else op.ids[0];
    assert t.ops[o] == op;
    assert id in t.table && t.table[id] == o;
    assert !EntryOk(t.ops, id, o);
  }

  /** Until the client quits, a request that is being written has not been touched. */
  ghost predicate SendersUntouched(s: State) {
    !s.quit ==> forall o :: o in s.ops && s.ops[o].phase.Writing? ==> Untouched(s.ops[o])
  }

  lemma {:induction false} UnwrittenUntouched(p: Pending, rs: seq<Reply>, o: OpRef)
    requires o in p.ops && !p.ops[o].Written()
    requires forall k :: 0 <= k < |rs| && rs[k].id in p.table ==>
               p.table[rs[k].id] in p.ops && p.ops[p.table[rs[k].id]].Written()
    ensures o in HandleReplies(p, rs).ops && HandleReplies(p, rs).ops[o] == p.ops[o]
  {
    if rs != [] {
      UnwrittenUntouched(p, rs[..|rs| - 1], o);
      HandleRepliesSameRequests(p, rs[..|rs| - 1]);
    }
  }

  lemma SendersReadOp(s: State, step: Step)
    requires Inv(s) && Offered(s, step) && step.ReadOp? && AnswersOnlyWritten(s, step) && SendersUntouched(s)
    ensures SendersUntouched(Apply(s, step))
  {
    HandleRepliesSameRequests(s.Pend(), step.replies);
    forall k | 0 <= k < |step.replies| && step.replies[k].id in s.table
      ensures s.table[step.replies[k].id] in s.ops
    {
      assert EntryOk(s.ops, step.replies[k].id, s.table[step.replies[k].id]);
    }
    var t := Apply(s, step);
    forall o | o in t.ops && t.ops[o].phase.Writing?
      ensures t.ops[o] == s.ops[o]
    {
      assert SameRequest(s.ops[o], t.ops[o]);
      UnwrittenUntouched(s.Pend(), step.replies, o);
    }
  }

  lemma SendersClose(s: State, step: Step)
    requires Inv(s) && Offered(s, step) && SendersUntouched(s) && (step.ReadErr? || step.Reconnect?)
    ensures SendersUntouched(Apply(s, step))
  {
    assert step.Reconnect? ==> s.lastOp == Some(step.o);
    var t := Apply(s, step);
    forall o | o in t.ops && t.ops[o].phase.Writing?
      ensures t.ops[o] == s.ops[o]
    {
      assert o in s.ops && s.ops[o].HoldsLock();
      assert s.lastOp == Some(o);
    }
  }

  lemma SendersCaller(s: State, step: Step)
    requires Inv(s) && Offered(s, step) && SendersUntouched(s) && IsCallerStep(step)
    ensures SendersUntouched(Apply(s, step))
  {
    CallerStepFrame(s, step);
    CallerStepOp(s, step);
    var t := Apply(s, step);
    forall o | o in t.ops && t.ops[o].phase.Writing? && !s.quit
      ensures Untouched(t.ops[o])
    {
      assert o in s.ops && s.ops[o].phase.Writing?;
    }
  }

  lemma SendersKept(s: State, step: Step)
    requires Inv(s) && Offered(s, step) && AnswersOnlyWritten(s, step) && SendersUntouched(s)
    ensures SendersUntouched(Apply(s, step))
  {
    match step
    case ReadOp(_, _) => SendersReadOp(s, step);
    case ReadErr(_) => SendersClose(s, step);
    case Reconnect(_, _) => SendersClose(s, step);
    case ReqInit(o) => assert OpOk(s.ops[o]);
    case Quit(_) =>
    case TakeSent =>
    case Timeout(_) =>
    case _ => SendersCaller(s, step);
  }

  lemma {:induction false} PoliteKeeps(states: seq<State>, steps: seq<Step>, k: nat)
    requires IsPoliteRun(states, steps) && k < |states|
    ensures Inv(states[k]) && SendersUntouched(states[k])
    ensures forall j :: 0 <= j < k ==> Enabled(states[j], steps[j])
  {
    if k > 0 {
      PoliteKeeps(states, steps, k - 1);
      SendersKept(states[k - 1], steps[k - 1]);
      StepKeeps(states[k - 1], steps[k - 1]);
    }
  }

  /** With a peer that answers only what was written, whatever the code does is a run, so every theorem
      about runs holds. */
  lemma PoliteRunIsRun(states: seq<State>, steps: seq<Step>)
    requires IsPoliteRun(states, steps)
    ensures IsRun(states, steps)
  {
    PoliteKeeps(states, steps, |steps|);
  }
}
