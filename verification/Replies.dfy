/** What reaches the callers: replies unchanged, and the reason when a channel is closed. */
module Replies {
  import opened Common
  import opened RequestTable
  import opened Dispatch
  import opened DispatchInvariant
  import T = DispatchTheorems

  /** Nothing but the channel of request `o`, and the entry for `id`, has changed. */
  ghost predicate OnlyChannel(p: Pending, q: Pending, o: OpRef, id: Id)
    requires o in p.ops
  {
    && q.table == p.table - {id} && q.ops.Keys == p.ops.Keys
    && (forall x :: x in p.ops && x != o ==> q.ops[x] == p.ops[x])
    && SameRequest(p.ops[o], q.ops[o]) && q.ops[o].taken == p.ops[o].taken
  }

  /** A response reaches the request that is registered for its id and no other: a call gets the response
      as it came, a subscribe request is closed with the error it carries, if any. A response to an id
      that nobody waits for changes nothing. */
  lemma ReplyReaches(p: Pending, r: Reply)
    requires forall id :: id in p.table ==> p.table[id] in p.ops
    ensures r.id !in p.table ==> HandleReply(p, r) == p
    ensures r.id in p.table ==>
              var o, q := p.table[r.id], HandleReply(p, r);
              && OnlyChannel(p, q, o, r.id)
              && (if p.ops[o].subscribe
                  then && q.ops[o].sent == p.ops[o].sent && q.ops[o].closes == p.ops[o].closes + 1
                       && (r.error.Some? ==> q.ops[o].err == Some(ErrorReply(r.error.value)))
                       && (q.ops[o].err.None? <==> r.error.None? && r.subId.Some?)
                  else && q.ops[o].sent == p.ops[o].sent + [r] && q.ops[o].closes == p.ops[o].closes
                       && q.ops[o].err == p.ops[o].err)
  {
  }

  /** The i-th response of a batch, if it finds its request registered, is on the channel when the batch
      has been handled, at the place that was next. */
  lemma Delivered(p: Pending, rs: seq<Reply>, i: nat)
    requires i < |rs| && forall id :: id in p.table ==> p.table[id] in p.ops
    ensures var q, t := HandleReplies(p, rs[..i]), HandleReplies(p, rs);
            rs[i].id in q.table && q.table[rs[i].id] in q.ops && !q.ops[q.table[rs[i].id]].subscribe ==>
              var o := q.table[rs[i].id];
              o in t.ops && q.ops[o].sent + [rs[i]] <= t.ops[o].sent
  {
    HandleRepliesSameRequests(p, rs[..i]);
    var q := HandleReplies(p, rs[..i]);
    if rs[i].id in q.table && q.table[rs[i].id] in q.ops && !q.ops[q.table[rs[i].id]].subscribe {
      var o := q.table[rs[i].id];
      ReplyReaches(q, rs[i]);
      assert rs[..i + 1][..i] == rs[..i];
      SentGrows(p, rs, i + 1, o);
    }
  }

  lemma {:induction false} SentGrows(p: Pending, rs: seq<Reply>, n: nat, o: OpRef)
    requires n <= |rs| && o in HandleReplies(p, rs[..n]).ops
    ensures o in HandleReplies(p, rs).ops && HandleReplies(p, rs[..n]).ops[o].sent <= HandleReplies(p, rs).ops[o].sent
    decreases |rs|
  {
    if n == |rs| {
      assert rs[..n] == rs;
    } else {
      assert rs[..|rs| - 1][..n] == rs[..n];
      SentGrows(p, rs[..|rs| - 1], n, o);
    }
  }

  // ---------- over runs ----------

  /** The response was read, in the step of some ReadOp before state `k`. */
  ghost predicate WasRead(steps: seq<Step>, k: nat, r: Reply)
    requires k <= |steps|
  {
    exists j :: 0 <= j < k && steps[j].ReadOp? && r in steps[j].replies
  }

  lemma {:induction false} BatchAdds(p: Pending, rs: seq<Reply>, o: OpRef, r: Reply)
    requires o in p.ops && o in HandleReplies(p, rs).ops && r in HandleReplies(p, rs).ops[o].sent
    ensures r in p.ops[o].sent || r in rs
  {
    if rs != [] {
      var n := |rs| - 1;
      HandleRepliesSameRequests(p, rs[..n]);
      if r in HandleReplies(p, rs[..n]).ops[o].sent { BatchAdds(p, rs[..n], o, r); }
    }
  }

  lemma SentKept(s: State, step: Step, o: OpRef)
    requires Enabled(s, step) && !step.ReadOp? && o in Apply(s, step).ops
    ensures if o in s.ops then Apply(s, step).ops[o].sent == s.ops[o].sent else Apply(s, step).ops[o].sent == []
  {
    if IsCallerStep(step) { SentByCaller(s, step, o); }
  }

  lemma SentByCaller(s: State, step: Step, o: OpRef)
    requires Enabled(s, step) && IsCallerStep(step) && o in Apply(s, step).ops
    ensures if o in s.ops then Apply(s, step).ops[o].sent == s.ops[o].sent else Apply(s, step).ops[o].sent == []
  {
    CallerStepFrame(s, step);
    CallerStepOp(s, step);
  }

  /** Every reply ever put on a channel is a response that was read, with all it carries. */
  lemma {:induction false} RepliesGenuine(states: seq<State>, steps: seq<Step>, k: nat, o: OpRef, r: Reply)
    requires IsRun(states, steps) && k < |states| && o in states[k].ops && r in states[k].ops[o].sent
    ensures WasRead(steps, k, r)
  {
    if k > 0 {
      var s, step := states[k - 1], steps[k - 1];
      if step.ReadOp? {
        HandleRepliesSameRequests(s.Pend(), step.replies);
        BatchAdds(s.Pend(), step.replies, o, r);
      } else {
        SentKept(s, step, o);
      }
      if o in s.ops && r in s.ops[o].sent {
        RepliesGenuine(states, steps, k - 1, o, r);
        var j :| 0 <= j < k - 1 && steps[j].ReadOp? && r in steps[j].replies;
        assert steps[j].ReadOp? && r in steps[j].replies;
      } else {
        assert steps[k - 1].ReadOp? && r in steps[k - 1].replies;
      }
    }
  }

  /** When a read error is taken, every pending request but the one in flight is closed with that error;
      when the client quits while reading, every pending request is closed with ErrClientQuit. */
  lemma ClosedWithCause(states: seq<State>, steps: seq<Step>, k: nat, id: Id)
    requires IsRun(states, steps) && k < |steps| && id in states[k].table
    requires steps[k].ReadErr? || (steps[k].Quit? && states[k].reading)
    ensures var s, t, o := states[k], states[k + 1], states[k].table[id];
            && o in s.ops && o in t.ops && s.ops[o].closes == 0 && t.table == map[]
            && t.ops[o] == (if steps[k].ReadErr? && s.lastOp == Some(o) then s.ops[o]
                            else s.ops[o].(closes := 1, err := Some(if steps[k].Quit? then ClientQuit else ReadFailed)))
  {
    RunKeeps(states, steps, k);
    assert EntryOk(states[k].ops, id, states[k].table[id]);
  }

  /** How often the caller of request `o` has received. */
  ghost function Receives(steps: seq<Step>, k: nat, o: OpRef): nat
    requires k <= |steps|
  {
    if k == 0 then 0 else Receives(steps, k - 1, o) + if steps[k - 1] == Receive(o) then 1 else 0
  }

  lemma {:induction false} HandleRepliesTaken(p: Pending, rs: seq<Reply>, o: OpRef)
    requires o in p.ops
    ensures o in HandleReplies(p, rs).ops && HandleReplies(p, rs).ops[o].taken == p.ops[o].taken
  {
    if rs != [] { HandleRepliesTaken(p, rs[..|rs| - 1], o); }
  }

  lemma TakenKept(s: State, step: Step, o: OpRef)
    requires Enabled(s, step) && o in s.ops
    ensures o in Apply(s, step).ops
    ensures Apply(s, step).ops[o].taken == s.ops[o].taken + if step == Receive(o) then 1 else 0
  {
    if step.ReadOp? { HandleRepliesTaken(s.Pend(), step.replies, o); }
  }

  lemma NewRequests(s: State, step: Step, o: OpRef)
    requires Enabled(s, step) && o !in s.ops && o in Apply(s, step).ops
    ensures step.NewOp? && Apply(s, step).ops[o].taken == 0
  {
    if IsCallerStep(step) { CallerStepFrame(s, step); } else { SamePeople(s, step); }
  }

  /** A channel hands out one reply per receive. */
  lemma {:induction false} TakenIsReceived(states: seq<State>, steps: seq<Step>, k: nat, o: OpRef)
    requires IsRun(states, steps) && k < |states|
    ensures Receives(steps, k, o) == if o in states[k].ops then states[k].ops[o].taken else 0
  {
    if k > 0 {
      TakenIsReceived(states, steps, k - 1, o);
      var s, step := states[k - 1], steps[k - 1];
      if o in s.ops {
        TakenKept(s, step, o);
      } else if o in states[k].ops {
        NewRequests(s, step, o);
      }
    }
  }

  // ---------- writing ----------

  /** How often a write of request `o` was tried, and how often it failed. */
  ghost function Tries(steps: seq<Step>, k: nat, o: OpRef): nat
    requires k <= |steps|
  {
    if k == 0 then 0
    else Tries(steps, k - 1, o) + if steps[k - 1] == WriteOk(o) || steps[k - 1] == WriteFail(o) then 1 else 0
  }

  /** A write is tried once, and once more if it failed; the retry is the last. */
  ghost predicate TriesOk(s: State, o: OpRef, tries: nat) {
    if o !in s.ops then tries == 0
    else match s.ops[o].phase
      case Building => tries == 0
      case Writing(retry) => tries == if retry then 1 else 0
      case _ => tries <= 2
  }

  lemma OtherPhase(s: State, step: Step, o: OpRef)
    requires Enabled(s, step) && !IsCallerStep(step) && o in s.ops
    ensures o in Apply(s, step).ops
    ensures Apply(s, step).ops[o].phase == s.ops[o].phase
            || (step == ReqInit(o) && Apply(s, step).ops[o].phase == Writing(false))
            || (step == Timeout(o) && Apply(s, step).ops[o].phase == TimedOut)
  {
    if step.ReadOp? {
      HandleRepliesSameRequests(s.Pend(), step.replies);
      assert SameRequest(s.ops[o], Apply(s, step).ops[o]);
    }
  }

  lemma SamePeople(s: State, step: Step)
    requires Enabled(s, step) && !IsCallerStep(step)
    ensures Apply(s, step).ops.Keys == s.ops.Keys
  {
    if step.ReadOp? { HandleRepliesSameRequests(s.Pend(), step.replies); }
  }

  lemma TriesCaller(s: State, step: Step, o: OpRef, tries: nat)
    requires Enabled(s, step) && IsCallerStep(step) && TriesOk(s, o, tries)
    ensures TriesOk(Apply(s, step), o, tries + if step == WriteOk(o) || step == WriteFail(o) then 1 else 0)
  {
    CallerStepFrame(s, step);
  }

  lemma TriesKept(s: State, step: Step, o: OpRef, tries: nat)
    requires Enabled(s, step) && TriesOk(s, o, tries)
    ensures TriesOk(Apply(s, step), o, tries + if step == WriteOk(o) || step == WriteFail(o) then 1 else 0)
  {
    if IsCallerStep(step) {
      TriesCaller(s, step, o, tries);
    } else {
      SamePeople(s, step);
      if o in s.ops { OtherPhase(s, step, o); }
    }
  }

  /** A request is written at most twice, whatever connections come and go. */
  lemma {:induction false} RetriedOnce(states: seq<State>, steps: seq<Step>, k: nat, o: OpRef)
    requires IsRun(states, steps) && k < |states|
    ensures TriesOk(states[k], o, Tries(steps, k, o)) && Tries(steps, k, o) <= 2
  {
    if k > 0 {
      RetriedOnce(states, steps, k - 1, o);
      TriesKept(states[k - 1], steps[k - 1], o, Tries(steps, k - 1, o));
    }
  }

  /** After the first failure the write is tried again, on a new connection; after the second the request
      fails. */
  lemma FailureRetries(states: seq<State>, steps: seq<Step>, k: nat, o: OpRef)
    requires IsRun(states, steps) && k < |steps| && steps[k] == WriteFail(o)
    ensures states[k + 1].writeConn.None? && o in states[k + 1].ops
    ensures states[k + 1].ops[o].phase == if Tries(steps, k, o) == 0 then Writing(true) else Finished(false)
  {
    RetriedOnce(states, steps, k, o);
  }

  // ---------- requests that failed ----------

  /** A request whose send failed has entries only until dispatch takes the report. */
  ghost predicate NoFailedEntry(s: State) {
    forall id :: id in s.table && s.InPhase(s.table[id], Failed) ==> s.lastOp == Some(s.table[id])
  }

  /** A request is made Failed only by its sender, who holds the lock. */
  lemma BecomesFailed(s: State, step: Step, o: OpRef)
    requires Inv(s) && Enabled(s, step) && o in s.ops && Apply(s, step).InPhase(o, Failed) && !s.InPhase(o, Failed)
    ensures step.PutSent? && s.lastOp == Some(o) && Apply(s, step).lastOp == Some(o)
  {
    if IsCallerStep(step) {
      CallerStepFrame(s, step);
    } else {
      OtherPhase(s, step, o);
    }
  }

  lemma TakeSentFailed(s: State, id: Id)
    requires Inv(s) && Enabled(s, TakeSent) && NoFailedEntry(s) && id in ApplyTakeSent(s).table
    ensures !s.InPhase(s.table[id], Failed)
  {
    var o := s.table[id];
    assert EntryOk(s.ops, id, o);
    assert s.InPhase(o, Failed) ==> s.lastOp == Some(o);
  }

  lemma ReqInitFailed(s: State, o: OpRef, id: Id)
    requires Inv(s) && Enabled(s, ReqInit(o)) && NoFailedEntry(s) && id in ApplyReqInit(s, o).table
    ensures !ApplyReqInit(s, o).InPhase(ApplyReqInit(s, o).table[id], Failed)
  {
    assert s.lastOp.None?;
    if id in s.table { assert EntryOk(s.ops, id, s.table[id]); }
  }

  lemma ReconnectFailed(s: State, o: OpRef, r: nat, id: Id)
    requires Inv(s) && Enabled(s, Reconnect(o, r)) && id in ApplyReconnect(s, r).table
    ensures !ApplyReconnect(s, r).InPhase(ApplyReconnect(s, r).table[id], Failed)
  {
    assert s.lastOp == Some(o);
    assert ApplyReconnect(s, r).table[id] == o;
  }

  lemma SameLastOp(s: State, step: Step)
    requires Enabled(s, step) && !step.TakeSent? && !step.ReqInit?
    ensures Apply(s, step).lastOp == s.lastOp
  {
  }

  lemma NoFailedEntryKept(s: State, step: Step)
    requires Inv(s) && Enabled(s, step) && NoFailedEntry(s)
    ensures NoFailedEntry(Apply(s, step))
  {
    var t := Apply(s, step);
    forall id | id in t.table && t.InPhase(t.table[id], Failed)
      ensures t.lastOp == Some(t.table[id])
    {
      if step.ReqInit? {
        ReqInitFailed(s, step.o, id);
      } else if step.Reconnect? {
        ReconnectFailed(s, step.o, step.drained, id);
      } else {
        T.TableShrinks(s, step, id);
        assert EntryOk(s.ops, id, s.table[id]);
        if !s.InPhase(s.table[id], Failed) {
          BecomesFailed(s, step, s.table[id]);
        } else if step.TakeSent? {
          TakeSentFailed(s, id);
        } else {
          SameLastOp(s, step);
        }
      }
    }
  }

  /** Once dispatch has taken the report of a failed write, the request has no table entry. */
  lemma {:induction false} FailedLeavesNoEntry(states: seq<State>, steps: seq<Step>, k: nat)
    requires IsRun(states, steps) && k < |states|
    ensures NoFailedEntry(states[k])
  {
    if k > 0 {
      RunKeeps(states, steps, k - 1);
      FailedLeavesNoEntry(states, steps, k - 1);
      NoFailedEntryKept(states[k - 1], steps[k - 1]);
    }
  }

  // ---------- nobody is held up ----------

  /** While a connection is read, anything may be read from it, its reading may fail, and the client may be
      closed. */
  lemma PeerFree(states: seq<State>, steps: seq<Step>, k: nat, replies: seq<Reply>)
    requires IsRun(states, steps) && k < |states| && !states[k].quit
    ensures var s := states[k];
            && Enabled(s, Quit(s.conn))
            && (s.reading ==> Enabled(s, ReadOp(s.conn, replies)) && Enabled(s, ReadErr(s.conn)))
  {
    RunKeeps(states, steps, k);
  }

  /** Whoever holds the write lock can go on, whatever the connection does, and so can dispatch once the
      result is reported: the lock is always on its way to be released. */
  lemma SenderNeverStuck(states: seq<State>, steps: seq<Step>, k: nat)
    requires IsRun(states, steps) && k < |states| && states[k].locked && !states[k].quit
    ensures var s := states[k];
            && s.lastOp.Some? && s.lastOp.value in s.ops
            && var o := s.lastOp.value;
               match s.ops[o].phase
               case Writing(_) =>
                 if s.writeConn.Some? then Enabled(s, WriteOk(o)) && Enabled(s, WriteFail(o))
                 else Enabled(s, ReconnectFail(o)) && (Untouched(s.ops[o]) ==> Enabled(s, Reconnect(o, s.conn)))
               case Finished(_) => Enabled(s, PutSent(o))
               case _ => Enabled(s, TakeSent)
  {
    RunKeeps(states, steps, k);
  }

  /** A caller can make requests, offer one when the lock is free, and while it waits it can take what came,
      see the close, or give up. */
  lemma CallerFree(s: State, o: OpRef)
    ensures o !in s.ops ==> Enabled(s, NewOp(o, true)) && Enabled(s, NewOp(o, false))
    ensures s.InPhase(o, Building) && !s.ops[o].subscribe && |s.drawn| + 1 < 0x1_0000_0000 ==> Enabled(s, DrawId(o))
    ensures s.InPhase(o, Building) && !s.locked && !s.quit && |s.ops[o].ids| == 1 ==> Enabled(s, ReqInit(o))
    ensures s.InPhase(o, Waiting) ==>
              && Enabled(s, Timeout(o))
              && (s.ops[o].taken < |s.ops[o].sent| ==> Enabled(s, Receive(o)))
              && (s.ops[o].taken == |s.ops[o].sent| && s.ops[o].closes > 0 ==> Enabled(s, SeeClosed(o)))
  {
  }
}
