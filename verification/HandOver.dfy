/** Where pending requests go when a connection breaks or is replaced, under E3. */
module HandOver {
  import opened Common
  import opened RequestTable
  import opened Dispatch
  import opened DispatchInvariant

  ghost predicate Registered(s: State, o: OpRef, id: Id) {
    id in s.table && s.table[id] == o
  }

  ghost predicate Answered(op: Op, id: Id) {
    exists k :: 0 <= k < |op.sent| && op.sent[k].id == id
  }

  /** The reply to `id` has not come, and the channel is open for it. */
  ghost predicate Open(s: State, o: OpRef, id: Id) {
    o in s.ops && id in s.ops[o].ids && s.ops[o].closes == 0 && !Answered(s.ops[o], id)
  }

  /** A written request whose caller still wants the reply to `id` and has not been unblocked. */
  ghost predicate Unserved(s: State, o: OpRef, id: Id) {
    Open(s, o, id) && (s.ops[o].phase == Finished(true) || s.ops[o].phase == Waiting)
  }

  /** The requests whose write had succeeded, but was not yet reported to dispatch, when the
      connection's read error was taken. */
  ghost function Stranded(states: seq<State>, steps: seq<Step>, k: nat): set<OpRef>
    requires |states| == |steps| + 1 && k <= |steps|
  {
    if k == 0 then {}
    else Stranded(states, steps, k - 1) + StrandedBy(states[k - 1], steps[k - 1])
  }

  ghost function StrandedBy(s: State, step: Step): set<OpRef> {
    if step.ReadErr? && s.HasLastOp() && s.ops[s.lastOp.value].Written() then {s.lastOp.value} else {}
  }

  /** A dead connection holds nothing but the unwritten request of the sender. */
  ghost predicate DeadTable(s: State) {
    && (s.quit ==> s.conn in s.closedCodecs)
    && (!s.reading ==> forall id :: id in s.table ==> SendersEntry(s, id))
  }

  ghost predicate SendersEntry(s: State, id: Id) {
    id in s.table && s.lastOp == Some(s.table[id]) && s.HasLastOp() && !s.ops[s.lastOp.value].Written()
  }

  /** Every request is where it should be. */
  ghost predicate Placed(s: State, stranded: set<OpRef>, o: OpRef)
    requires o in s.ops
  {
    && (s.ops[o].phase.Writing? && s.reading && !s.quit ==> forall id :: Open(s, o, id) ==> Registered(s, o, id))
    && (o !in stranded ==> forall id :: Unserved(s, o, id) ==> Registered(s, o, id))
    && (o in stranded ==> s.ops[o].Written() && forall id :: id in s.table ==> s.table[id] != o)
  }

  ghost predicate Accounted(s: State, stranded: set<OpRef>) {
    && stranded <= s.ops.Keys
    && DeadTable(s)
    && forall o :: o in s.ops ==> Placed(s, stranded, o)
  }

  /** E1: a registered id is not lost when another request comes or goes. */
  lemma OwnersDiffer(s: State, o1: OpRef, o2: OpRef, id: Id)
    requires Inv(s) && o1 in s.ops && o2 in s.ops
    requires id in s.ops[o1].ids && id in s.ops[o2].ids
    ensures o1 == o2
  {
    assert IdsOwned(s.drawn, o1, s.ops[o1].ids) && IdsOwned(s.drawn, o2, s.ops[o2].ids);
  }

  lemma DeadTableKept(s: State, step: Step)
    requires Inv(s) && Enabled(s, step) && WriteRespectsClose(s, step) && DeadTable(s)
    ensures DeadTable(Apply(s, step))
  {
    match step
    case ReqInit(o) => DeadTableReqInit(s, o);
    case ReadOp(r, replies) =>
    case ReadErr(r) =>
    case Reconnect(o, r) =>
    case TakeSent => DeadTableTakeSent(s);
    case Timeout(o) => DeadTableTimeout(s, o);
    case Quit(r) =>
    case _ => DeadTableCaller(s, step);
  }

  lemma DeadTableReqInit(s: State, o: OpRef)
    requires Inv(s) && Enabled(s, ReqInit(o)) && DeadTable(s)
    ensures DeadTable(ApplyReqInit(s, o))
  {
    var t := ApplyReqInit(s, o);
    forall id | id in t.table && !s.reading
      ensures SendersEntry(t, id)
    {
      assert id in s.table ==> SendersEntry(s, id);
    }
  }

  lemma DeadTableTakeSent(s: State)
    requires Inv(s) && Enabled(s, TakeSent) && DeadTable(s)
    ensures DeadTable(ApplyTakeSent(s))
  {
    if !s.reading {
      forall id | id in s.table
        ensures !s.reqSent[0] && id in s.ops[s.lastOp.value].ids
      {
        assert SendersEntry(s, id) && EntryOk(s.ops, id, s.table[id]);
      }
    }
  }

  lemma DeadTableTimeout(s: State, o: OpRef)
    requires Inv(s) && Enabled(s, Timeout(o)) && DeadTable(s)
    ensures DeadTable(ApplyTimeout(s, o))
  {
    var t := ApplyTimeout(s, o);
    forall id | id in t.table && !s.reading
      ensures SendersEntry(t, id)
    {
      assert SendersEntry(s, id);
    }
  }

  lemma DeadTableCaller(s: State, step: Step)
    requires Inv(s) && Enabled(s, step) && WriteRespectsClose(s, step) && DeadTable(s) && IsCallerStep(step)
    ensures DeadTable(Apply(s, step))
  {
    var t := Apply(s, step);
    CallerStepFrame(s, step);
    CallerStepOp(s, step);
    forall id | id in t.table && !s.reading
      ensures SendersEntry(t, id)
    {
      assert SendersEntry(s, id);
    }
  }

  /** A request that a step leaves alone, together with its entries, stays placed. */
  lemma BystanderPlaced(s: State, t: State, stranded: set<OpRef>, o: OpRef)
    requires Accounted(s, stranded) && o in s.ops && o in t.ops && t.ops[o] == s.ops[o]
    requires t.reading && !t.quit ==> s.reading && !s.quit
    requires forall id :: Registered(t, o, id) <==> Registered(s, o, id)
    ensures Placed(t, stranded, o)
  {
    assert Placed(s, stranded, o);
    forall id | Unserved(t, o, id)
      ensures Unserved(s, o, id)
    {
    }
    forall id | id in t.table && t.table[id] == o
      ensures Registered(s, o, id)
    {
      assert Registered(t, o, id);
    }
  }

  lemma CallerPlaced(s: State, step: Step, stranded: set<OpRef>)
    requires Inv(s) && Enabled(s, step) && WriteRespectsClose(s, step) && Accounted(s, stranded) && IsCallerStep(step)
    ensures step.o in Apply(s, step).ops && Placed(Apply(s, step), stranded, step.o)
  {
    var t, o := Apply(s, step), step.o;
    CallerStepFrame(s, step);
    CallerStepOp(s, step);
    if !step.NewOp? {
      assert Placed(s, stranded, o);
      forall id | Open(t, o, id) && !s.ops[o].phase.Building?
        ensures Open(s, o, id)
      {
        AnsweredGrows(s.ops[o], t.ops[o], id);
      }
      forall id | Unserved(t, o, id) && !step.WriteOk?
        ensures Unserved(s, o, id)
      {
      }
    }
  }

  /** Steps of one caller touch no entry of another request. */
  lemma CallerStepPlaced(s: State, step: Step, stranded: set<OpRef>)
    requires Inv(s) && Enabled(s, step) && WriteRespectsClose(s, step) && Accounted(s, stranded) && IsCallerStep(step)
    ensures Accounted(Apply(s, step), stranded)
  {
    var t := Apply(s, step);
    DeadTableKept(s, step);
    CallerStepFrame(s, step);
    forall x | x in t.ops
      ensures Placed(t, stranded, x)
    {
      if x == step.o {
        CallerPlaced(s, step, stranded);
      } else {
        BystanderPlaced(s, t, stranded, x);
      }
    }
  }

  /** Registering the ids of `o` leaves the entries of every other request. */
  lemma RegisterLeavesOthers(s: State, o: OpRef, x: OpRef, id: Id)
    requires Inv(s) && o in s.ops && x != o && Registered(s, x, id)
    ensures id !in s.ops[o].ids
  {
    assert EntryOk(s.ops, id, x);
    if id in s.ops[o].ids { OwnersDiffer(s, x, o, id); }
  }

  lemma ReqInitBystander(s: State, o: OpRef, stranded: set<OpRef>, x: OpRef)
    requires Inv(s) && Enabled(s, ReqInit(o)) && Accounted(s, stranded) && x in s.ops && x != o
    ensures Placed(ApplyReqInit(s, o), stranded, x)
  {
    var t := ApplyReqInit(s, o);
    forall id | Registered(s, x, id)
      ensures Registered(t, x, id)
    {
      RegisterLeavesOthers(s, o, x, id);
    }
    BystanderPlaced(s, t, stranded, x);
  }

  lemma ReqInitPlaced(s: State, o: OpRef, stranded: set<OpRef>)
    requires Inv(s) && Enabled(s, ReqInit(o)) && Accounted(s, stranded)
    ensures Accounted(ApplyReqInit(s, o), stranded)
  {
    DeadTableKept(s, ReqInit(o));
    assert Placed(s, stranded, o);
    forall x | x in s.ops && x != o
      ensures Placed(ApplyReqInit(s, o), stranded, x)
    {
      ReqInitBystander(s, o, stranded, x);
    }
  }

  /** Forgetting the ids of `o` leaves the entries of every other request. */
  lemma DeregisterLeavesOthers(s: State, o: OpRef, x: OpRef, id: Id)
    requires Inv(s) && o in s.ops && x != o && Registered(s, x, id)
    ensures id in Deregister(s.table, s.ops[o].ids)
  {
    assert EntryOk(s.ops, id, x);
    if id in s.ops[o].ids { OwnersDiffer(s, x, o, id); }
  }

  lemma TimeoutPlaced(s: State, o: OpRef, stranded: set<OpRef>)
    requires Inv(s) && Enabled(s, Timeout(o)) && Accounted(s, stranded)
    ensures Accounted(Apply(s, Timeout(o)), stranded)
  {
    DeadTableKept(s, Timeout(o));
    var t := Apply(s, Timeout(o));
    forall x | x in t.ops
      ensures Placed(t, stranded, x)
    {
      assert Placed(s, stranded, x);
      if x != o {
        forall id | Registered(s, x, id)
          ensures Registered(t, x, id)
        {
          DeregisterLeavesOthers(s, o, x, id);
        }
        BystanderPlaced(s, t, stranded, x);
      }
    }
  }

  lemma TakeSentPlaced(s: State, stranded: set<OpRef>)
    requires Inv(s) && Enabled(s, TakeSent) && Accounted(s, stranded)
    ensures Accounted(Apply(s, TakeSent), stranded)
  {
    DeadTableKept(s, TakeSent);
    var t := Apply(s, TakeSent);
    var o := s.lastOp.value;
    forall x | x in t.ops
      ensures Placed(t, stranded, x)
    {
      assert Placed(s, stranded, x);
      if x != o {
        forall id | Registered(s, x, id)
          ensures Registered(t, x, id)
        {
          DeregisterLeavesOthers(s, o, x, id);
        }
        BystanderPlaced(s, t, stranded, x);
      } else {
        forall id | Unserved(t, o, id)
          ensures Unserved(s, o, id) && s.reqSent[0]
        {
        }
      }
    }
  }

  /** Handling replies: a channel only fills, and an entry goes only by serving its request. */
  ghost predicate Served(p: Pending, q: Pending, o: OpRef)
    requires o in p.ops && o in q.ops
  {
    && p.ops[o].sent <= q.ops[o].sent && p.ops[o].closes <= q.ops[o].closes
    && forall id :: id in p.table && p.table[id] == o ==>
         (id in q.table && q.table[id] == o) || q.ops[o].closes > 0 || Answered(q.ops[o], id)
  }

  lemma AnsweredGrows(a: Op, b: Op, id: Id)
    requires a.sent <= b.sent
    ensures Answered(a, id) ==> Answered(b, id)
  {
    if Answered(a, id) {
      var k :| 0 <= k < |a.sent| && a.sent[k].id == id;
      assert b.sent[k].id == id;
    }
  }

  lemma {:induction false} HandleRepliesServes(p: Pending, rs: seq<Reply>, o: OpRef)
    requires o in p.ops
    ensures o in HandleReplies(p, rs).ops && Served(p, HandleReplies(p, rs), o)
  {
    if rs != [] {
      var n := |rs| - 1;
      HandleRepliesServes(p, rs[..n], o);
      var q, q' := HandleReplies(p, rs[..n]), HandleReplies(p, rs);
      forall id | id in p.table && p.table[id] == o
        ensures (id in q'.table && q'.table[id] == o) || q'.ops[o].closes > 0 || Answered(q'.ops[o], id)
      {
        if id in q.table && q.table[id] == o {
          if id == rs[n].id && !q.ops[o].subscribe {
            assert q'.ops[o].sent[|q.ops[o].sent|].id == id;
          }
        }
        AnsweredGrows(q.ops[o], q'.ops[o], id);
      }
    }
  }

  lemma ReadOpUnserved(s: State, t: State, stranded: set<OpRef>, x: OpRef, id: Id)
    requires x in s.ops && Placed(s, stranded, x) && x !in stranded
    requires x in t.ops && SameRequest(s.ops[x], t.ops[x]) && Served(s.Pend(), t.Pend(), x)
    requires Unserved(t, x, id)
    ensures Registered(t, x, id)
  {
    AnsweredGrows(s.ops[x], t.ops[x], id);
    assert Unserved(s, x, id) && Registered(s, x, id);
  }

  lemma ReadOpPlaces(s: State, t: State, stranded: set<OpRef>, x: OpRef)
    requires x in s.ops && Placed(s, stranded, x)
    requires x in t.ops && SameRequest(s.ops[x], t.ops[x]) && Served(s.Pend(), t.Pend(), x)
    requires s.reading == t.reading && s.quit == t.quit
    requires forall id :: id in t.table ==> id in s.table && t.table[id] == s.table[id]
    ensures Placed(t, stranded, x)
  {
    if s.ops[x].phase.Writing? && t.reading && !t.quit {
      forall id | Open(t, x, id)
        ensures Registered(t, x, id)
      {
        AnsweredGrows(s.ops[x], t.ops[x], id);
        assert Open(s, x, id) && Registered(s, x, id);
      }
    }
    forall id | Unserved(t, x, id) && x !in stranded
      ensures Registered(t, x, id)
    {
      ReadOpUnserved(s, t, stranded, x, id);
    }
  }

  lemma ReadOpPlacesAll(s: State, r: nat, replies: seq<Reply>, stranded: set<OpRef>, x: OpRef)
    requires x in s.ops && Placed(s, stranded, x)
    ensures x in ApplyReadOp(s, r, replies).ops && Placed(ApplyReadOp(s, r, replies), stranded, x)
  {
    HandleRepliesSameRequests(s.Pend(), replies);
    HandleRepliesServes(s.Pend(), replies, x);
    var t := ApplyReadOp(s, r, replies);
    assert t.Pend() == HandleReplies(s.Pend(), replies);
    ReadOpPlaces(s, t, stranded, x);
  }

  lemma ReadOpPlaced(s: State, r: nat, replies: seq<Reply>, stranded: set<OpRef>)
    requires Inv(s) && Enabled(s, ReadOp(r, replies)) && Accounted(s, stranded)
    ensures Accounted(ApplyReadOp(s, r, replies), stranded)
  {
    DeadTableKept(s, ReadOp(r, replies));
    HandleRepliesSameRequests(s.Pend(), replies);
    forall x | x in s.ops
      ensures Placed(ApplyReadOp(s, r, replies), stranded, x)
    {
      ReadOpPlacesAll(s, r, replies, stranded, x);
    }
  }

  /** After a live connection is closed, the only requests left open and unserved are the spared
      one and those stranded before. */
  lemma CloseConnServes(s: State, e: Failure, spared: Option<OpRef>, stranded: set<OpRef>, o: OpRef, id: Id)
    requires Inv(s) && Accounted(s, stranded) && Unserved(CloseConn(s, e, spared), o, id)
    ensures o in stranded || spared == Some(o)
  {
    assert s.ops[o] == CloseConn(s, e, spared).ops[o];
    assert Placed(s, stranded, o);
    if o !in stranded {
      assert Unserved(s, o, id) && Registered(s, o, id);
    }
  }

  lemma ReadErrPlaced(s: State, r: nat, stranded: set<OpRef>)
    requires Inv(s) && Enabled(s, ReadErr(r)) && Accounted(s, stranded)
    ensures Accounted(Apply(s, ReadErr(r)), stranded + StrandedBy(s, ReadErr(r)))
  {
    DeadTableKept(s, ReadErr(r));
    var t := Apply(s, ReadErr(r));
    forall x | x in t.ops
      ensures Placed(t, stranded + StrandedBy(s, ReadErr(r)), x)
    {
      assert Placed(s, stranded, x);
      forall id | Unserved(t, x, id)
        ensures x in stranded + StrandedBy(s, ReadErr(r))
      {
        assert Unserved(CloseConn(s, ReadFailed, s.lastOp), x, id);
        CloseConnServes(s, ReadFailed, s.lastOp, stranded, x, id);
      }
    }
  }

  lemma ReconnectServes(s: State, o: OpRef, r: nat, stranded: set<OpRef>, x: OpRef, id: Id)
    requires Inv(s) && Enabled(s, Reconnect(o, r)) && Accounted(s, stranded)
    requires Unserved(ApplyReconnect(s, r), x, id)
    ensures x in stranded
  {
    assert s.lastOp == Some(o);
    if s.reading {
      assert Unserved(CloseConn(s, ClientReconnected, s.lastOp), x, id);
      CloseConnServes(s, ClientReconnected, s.lastOp, stranded, x, id);
    } else {
      assert Unserved(s, x, id) && Placed(s, stranded, x);
      assert x !in stranded ==> Registered(s, x, id);
      assert Registered(s, x, id) ==> SendersEntry(s, id);
    }
  }

  /** The new table holds the sender's ids and nothing else; phases are as before. */
  lemma ReconnectTable(s: State, o: OpRef, r: nat)
    requires Inv(s) && Enabled(s, Reconnect(o, r))
    ensures var t := ApplyReconnect(s, r);
            && t.ops.Keys == s.ops.Keys
            && (forall id :: id in t.table <==> id in s.ops[o].ids)
            && (forall id :: id in t.table ==> t.table[id] == o)
            && (forall x :: x in s.ops ==> SameRequest(s.ops[x], t.ops[x]))
  {
    assert s.lastOp == Some(o);
  }

  lemma ReconnectPlaces(s: State, t: State, o: OpRef, stranded: set<OpRef>, x: OpRef)
    requires LockOk(s) && o in s.ops && s.ops[o].phase.Writing? && Accounted(s, stranded)
    requires x in s.ops && x in t.ops && SameRequest(s.ops[x], t.ops[x])
    requires forall id :: id in t.table <==> id in s.ops[o].ids
    requires forall id :: id in t.table ==> t.table[id] == o
    requires forall id :: Unserved(t, x, id) ==> x in stranded
    ensures Placed(t, stranded, x)
  {
    assert Placed(s, stranded, x) && Placed(s, stranded, o);
    assert s.ops[x].phase.Writing? ==> x == o;
  }

  lemma ReconnectPlaced(s: State, o: OpRef, r: nat, stranded: set<OpRef>)
    requires Inv(s) && Enabled(s, Reconnect(o, r)) && Accounted(s, stranded)
    ensures Accounted(ApplyReconnect(s, r), stranded)
  {
    DeadTableKept(s, Reconnect(o, r));
    ReconnectTable(s, o, r);
    var t := ApplyReconnect(s, r);
    forall x | x in s.ops
      ensures Placed(t, stranded, x)
    {
      forall id | Unserved(t, x, id)
        ensures x in stranded
      {
        ReconnectServes(s, o, r, stranded, x, id);
      }
      ReconnectPlaces(s, t, o, stranded, x);
    }
  }

  lemma QuitPlaced(s: State, r: nat, stranded: set<OpRef>)
    requires Inv(s) && Enabled(s, Quit(r)) && Accounted(s, stranded)
    ensures Accounted(Apply(s, Quit(r)), stranded)
  {
    DeadTableKept(s, Quit(r));
    var t := Apply(s, Quit(r));
    forall x | x in t.ops
      ensures Placed(t, stranded, x)
    {
      assert Placed(s, stranded, x);
      if s.reading {
        forall id | Unserved(t, x, id)
          ensures x in stranded
        {
          assert Unserved(CloseConn(s, ClientQuit, None), x, id);
          CloseConnServes(s, ClientQuit, None, stranded, x, id);
        }
      } else {
        BystanderPlaced(s, t, stranded, x);
      }
    }
  }

  lemma StepPlaced(s: State, step: Step, stranded: set<OpRef>)
    requires Inv(s) && Enabled(s, step) && WriteRespectsClose(s, step) && Accounted(s, stranded)
    ensures Accounted(Apply(s, step), stranded + StrandedBy(s, step))
  {
    assert !step.ReadErr? ==> stranded + StrandedBy(s, step) == stranded;
    match step
    case ReqInit(o) => ReqInitPlaced(s, o, stranded);
    case Reconnect(o, r) => ReconnectPlaced(s, o, r, stranded);
    case TakeSent => TakeSentPlaced(s, stranded);
    case ReadOp(r, replies) => ReadOpPlaced(s, r, replies, stranded);
    case ReadErr(r) => ReadErrPlaced(s, r, stranded);
    case Timeout(o) => TimeoutPlaced(s, o, stranded);
    case Quit(r) => QuitPlaced(s, r, stranded);
    case _ => CallerStepPlaced(s, step, stranded);
  }

  lemma {:induction false} RunAccounted(states: seq<State>, steps: seq<Step>, k: nat)
    requires IsFailStopRun(states, steps) && k <= |steps|
    ensures Inv(states[k]) && Accounted(states[k], Stranded(states, steps, k))
  {
    RunKeeps(states, steps, k);
    if k > 0 {
      RunAccounted(states, steps, k - 1);
      StepPlaced(states[k - 1], steps[k - 1], Stranded(states, steps, k - 1));
    }
  }

  /** A reconnect leaves exactly the ids of the sender's request in the new table, and closes every
      other request of the old one, exactly once and with an error. */
  lemma ReconnectHandsOver(states: seq<State>, steps: seq<Step>, k: nat)
    requires IsFailStopRun(states, steps) && k < |steps| && steps[k].Reconnect?
    ensures var s, t, o := states[k], states[k + 1], steps[k].o;
            && o in s.ops && t.table.Keys == Elements(s.ops[o].ids)
            && (forall id :: id in t.table ==> t.table[id] == o)
            && t.ops[o] == s.ops[o] && Untouched(t.ops[o])
    ensures forall id :: id in states[k].table && states[k].table[id] != steps[k].o ==>
              var x := states[k].table[id];
              && x in states[k].ops && x in states[k + 1].ops && states[k].ops[x].closes == 0
              && states[k + 1].ops[x].closes == 1 && states[k + 1].ops[x].err == Some(ClientReconnected)
  {
    RunAccounted(states, steps, k);
    var s, t, o := states[k], states[k + 1], steps[k].o;
    assert s.lastOp == Some(o);
    forall id | id in s.table && s.table[id] != o
      ensures s.reading && EntryOk(s.ops, id, s.table[id])
    {
      assert EntryOk(s.ops, id, s.table[id]);
      assert !s.reading ==> SendersEntry(s, id);
    }
  }

  /** Exactly which written requests dispatch can still serve: all but the stranded ones. */
  lemma ServedUnlessStranded(states: seq<State>, steps: seq<Step>, k: nat, o: OpRef, id: Id)
    requires IsFailStopRun(states, steps) && k <= |steps|
    requires Unserved(states[k], o, id)
    ensures Registered(states[k], o, id) <==> o !in Stranded(states, steps, k)
  {
    RunAccounted(states, steps, k);
    assert Placed(states[k], Stranded(states, steps, k), o);
  }

  /** No step serves a request that has no entry and is not being written. */
  lemma MissedStays(s: State, step: Step, o: OpRef)
    requires Enabled(s, step) && o in s.ops && s.ops[o].Written()
    requires forall id :: id in s.table ==> s.table[id] != o
    ensures o in Apply(s, step).ops
    ensures Apply(s, step).ops[o].sent == s.ops[o].sent && Apply(s, step).ops[o].closes == s.ops[o].closes
  {
    match step
    case ReadOp(r, replies) => HandleRepliesMiss(s.Pend(), replies, o);
    case ReqInit(_) =>
    case ReadErr(_) =>
    case Reconnect(_, _) =>
    case TakeSent =>
    case Timeout(_) =>
    case Quit(_) =>
    case _ => MissedByCaller(s, step, o);
  }

  lemma MissedByCaller(s: State, step: Step, o: OpRef)
    requires Enabled(s, step) && IsCallerStep(step) && o in s.ops
    ensures o in Apply(s, step).ops
    ensures Apply(s, step).ops[o].sent == s.ops[o].sent && Apply(s, step).ops[o].closes == s.ops[o].closes
  {
    CallerStepFrame(s, step);
    CallerStepOp(s, step);
  }

  lemma {:induction false} HandleRepliesMiss(p: Pending, rs: seq<Reply>, o: OpRef)
    requires o in p.ops && forall id :: id in p.table ==> p.table[id] != o
    ensures o in HandleReplies(p, rs).ops && HandleReplies(p, rs).ops[o] == p.ops[o]
    ensures forall id :: id in HandleReplies(p, rs).table ==> HandleReplies(p, rs).table[id] != o
  {
    if rs != [] { HandleRepliesMiss(p, rs[..|rs| - 1], o); }
  }

  lemma StrandedStep(states: seq<State>, steps: seq<Step>, k: nat, o: OpRef)
    requires IsFailStopRun(states, steps) && k < |steps| && o in Stranded(states, steps, k)
    ensures o in Stranded(states, steps, k + 1) && o in states[k].ops && o in states[k + 1].ops
    ensures states[k + 1].ops[o].sent == states[k].ops[o].sent
    ensures states[k + 1].ops[o].closes == states[k].ops[o].closes
  {
    RunAccounted(states, steps, k);
    assert Placed(states[k], Stranded(states, steps, k), o);
    MissedStays(states[k], steps[k], o);
  }

  /** A stranded request gets nothing more, neither a reply nor a close, for the rest of the run. */
  lemma {:induction false} StrandedForever(states: seq<State>, steps: seq<Step>, k: nat, m: nat, o: OpRef)
    requires IsFailStopRun(states, steps) && k < m <= |steps|
    requires o in Stranded(states, steps, k)
    ensures o in Stranded(states, steps, m) && o in states[k].ops && o in states[m].ops
    ensures states[m].ops[o].sent == states[k].ops[o].sent && states[m].ops[o].closes == states[k].ops[o].closes
    decreases m - k
  {
    StrandedStep(states, steps, k, o);
    if k + 1 < m {
      StrandedForever(states, steps, k + 1, m, o);
    }
  }
}
