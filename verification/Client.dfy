/** The dispatcher's state changes as they are made in place: `dispatch` of util/rpc/client.go and
    the client half of `handler`. Each `On` method is one case of the select, and is proved to compute
    the step of the same name; `Dispatch` takes a whole run. */
module ClientEngine {
  import opened Common
  import opened RequestTable
  import opened Dispatch
  import opened DispatchInvariant
  import opened SubscriptionTable

  /** A part of the table is gone, and exactly its requests, but for the spared one, were dealt with. */
  ghost predicate Halfway(table: Table, rest: Table, spared: Option<OpRef>, closed: set<OpRef>) {
    && (forall id :: id in rest ==> id in table && rest[id] == table[id])
    && (forall o :: o in closed ==> spared != Some(o) && o in table.Values)
    && (forall id :: id in table && id !in rest ==> table[id] in closed || spared == Some(table[id]))
  }

  /** The loop's state: what is left of the table, and the requests closed so far. */
  ghost predicate Cancelling(p: Pending, q: Pending, e: Failure, spared: Option<OpRef>, closed: set<OpRef>) {
    && (forall id :: id in p.table ==> p.table[id] in p.ops)
    && Halfway(p.table, q.table, spared, closed) && q.ops == CloseAll(p.ops, closed, e)
  }

  lemma CancellingStarts(p: Pending, e: Failure, spared: Option<OpRef>)
    requires forall id :: id in p.table ==> p.table[id] in p.ops
    ensures Cancelling(p, p, e, spared, {})
  {
    assert CloseAll(p.ops, {}, e) == p.ops;
  }

  lemma CancellingSkip(p: Pending, q: Pending, e: Failure, spared: Option<OpRef>, closed: set<OpRef>, id: Id)
    requires Cancelling(p, q, e, spared, closed) && id in q.table
    requires q.table[id] in closed || spared == Some(q.table[id])
    ensures Cancelling(p, q.(table := q.table - {id}), e, spared, closed)
  {
  }

  lemma CancellingClose(p: Pending, q: Pending, e: Failure, spared: Option<OpRef>, closed: set<OpRef>, id: Id)
    requires Cancelling(p, q, e, spared, closed) && id in q.table
    requires q.table[id] !in closed && spared != Some(q.table[id])
    ensures var o := q.table[id];
            && o in q.ops
            && var q' := Pending(q.table - {id}, q.ops[o := q.ops[o].CloseWith(Some(e))]);
               Cancelling(p, q', e, spared, closed + {o})
  {
    CloseOneMore(p.ops, closed, e, q.table[id]);
  }

  lemma CancellingDone(p: Pending, q: Pending, e: Failure, spared: Option<OpRef>, closed: set<OpRef>)
    requires Cancelling(p, q, e, spared, closed) && q.table == map[]
    ensures q == CancelAll(p, e, spared)
  {
    assert closed == Victims(p.table, spared);
  }

  lemma RegisterOneMore(table: Table, ids: seq<Id>, i: nat, o: OpRef)
    requires i < |ids|
    ensures Register(table, ids[..i], o)[ids[i] := o] == Register(table, ids[..i + 1], o)
  {
    assert ids[..i + 1] == ids[..i] + [ids[i]];
  }

  lemma RegisterPoints(table: Table, ids: seq<Id>, o: OpRef, id: Id)
    requires id in Register(table, ids, o)
    ensures Register(table, ids, o)[id] == o || (id in table && Register(table, ids, o)[id] == table[id])
  {
  }

  lemma CloseOneMore(ops: Ops, closed: set<OpRef>, e: Failure, o: OpRef)
    requires o in ops && o !in closed
    ensures CloseAll(ops, closed, e)[o := ops[o].CloseWith(Some(e))] == CloseAll(ops, closed + {o}, e)
  {
  }

  lemma EntriesWithout(table: map<string, OpRef>, id: string)
    requires id in table
    ensures multiset(Entries(table)) == multiset(Entries(table - {id})) + multiset{(id, table[id])}
  {
    var rest := table - {id};
    assert rest[id := table[id]] == table;
    EntriesAfter(rest, id, table[id]);
  }

  /** The invariant of a run gives what the methods need. */
  lemma InvReady(s: State, step: Step)
    requires Inv(s) && Enabled(s, step)
    ensures forall id :: id in s.table ==> s.table[id] in s.ops
    ensures s.lastOp.Some? ==> s.lastOp.value in s.ops
    ensures step.Reconnect? || step.TakeSent? ==> s.lastOp.Some?
  {
    forall id | id in s.table
      ensures s.table[id] in s.ops
    {
      assert EntryOk(s.ops, id, s.table[id]);
    }
  }

  class Client {
    var drawn: seq<(OpRef, nat)>
    var ops: Ops
    var respWait: Table
    var lastOp: Option<OpRef>
    var locked: bool
    var conn: nat
    var nextConn: nat
    var reading: bool
    var readers: set<nat>
    var closedCodecs: set<nat>
    var writeConn: Option<nat>
    var reqSent: seq<bool>
    var handled: seq<(nat, nat)>
    var quit: bool
    var subs: Subs                     // clientSubs, with its history

    ghost function View(): State
      reads this
    {
      State(drawn, ops, respWait, lastOp, locked, conn, nextConn, reading, readers, closedCodecs,
            writeConn, reqSent, handled, quit, false)
    }

    /** Every entry points to a request. */
    ghost predicate Valid()
      reads this
    {
      && (forall id :: id in respWait ==> respWait[id] in ops)
      && (lastOp.Some? ==> lastOp.value in ops)
    }

    constructor ()
      ensures Valid() && View() == Init && subs == NoSubs
    {
      drawn, ops, respWait, lastOp, locked := [], map[], map[], None, false;
      conn, nextConn, reading, readers, closedCodecs := 0, 1, true, {0}, {};
      writeConn, reqSent, handled, quit := Some(0), [], [], false;
      subs := NoSubs;
    }

    /** addRequestOp */
    method AddRequestOp(o: OpRef)
      requires o in ops
      modifies this`respWait
      ensures respWait == Register(old(respWait), ops[o].ids, o)
      ensures old(Valid()) ==> Valid()
    {
      var ids := ops[o].ids;
      ghost var table := respWait;
      assert Register(respWait, ids[..0], o) == respWait;
      for i := 0 to |ids|
        invariant respWait == Register(table, ids[..i], o)
      {
        RegisterOneMore(table, ids, i, o);
        respWait := respWait[ids[i] := o];
      }
      assert ids[..|ids|] == ids;
      forall id | id in respWait && old(Valid())
        ensures respWait[id] in ops
      {
        RegisterPoints(table, ids, o, id);
      }
    }

    /** removeRequestOp */
    method RemoveRequestOp(o: OpRef)
      requires o in ops
      modifies this`respWait
      ensures respWait == Deregister(old(respWait), ops[o].ids)
    {
      var ids := ops[o].ids;
      assert Deregister(respWait, ids[..0]) == respWait;
      for i := 0 to |ids|
        invariant respWait == Deregister(old(respWait), ids[..i])
      {
        respWait := respWait - {ids[i]};
        assert Elements(ids[..i + 1]) == Elements(ids[..i]) + {ids[i]};
      }
      assert ids[..|ids|] == ids;
    }

    /** cancelAllRequests */
    method CancelAllRequests(e: Failure, inflight: Option<OpRef>)
      requires Valid()
      modifies this`respWait, this`ops, this`subs
      ensures Pending(respWait, ops) == CancelAll(old(Pending(respWait, ops)), e, inflight)
      ensures subs == CloseSubs(old(subs))
    {
      CancelRequests(e, inflight);
      CloseSubscriptions();
    }

    /** Its first loop. The table is ranged over in no particular order. */
    method CancelRequests(e: Failure, inflight: Option<OpRef>)
      requires Valid()
      modifies this`respWait, this`ops
      ensures Pending(respWait, ops) == CancelAll(old(Pending(respWait, ops)), e, inflight)
    {
      var didClose: set<OpRef> := if inflight.Some? then {inflight.value} else {};
      ghost var p, closing: set<OpRef>, first := Pending(respWait, ops), {}, didClose;
      CancellingStarts(p, e, inflight);
      while respWait != map[]
        invariant Cancelling(p, Pending(respWait, ops), e, inflight, closing)
        invariant didClose == closing + first
        decreases respWait.Keys
      {
        var id :| id in respWait;
        var o := respWait[id];
        if o in didClose {
          CancellingSkip(p, Pending(respWait, ops), e, inflight, closing, id);
          respWait := respWait - {id};
        } else {
          CancellingClose(p, Pending(respWait, ops), e, inflight, closing, id);
          respWait := respWait - {id};
          ops := ops[o := ops[o].CloseWith(Some(e))];
          didClose := didClose + {o};
          closing := closing + {o};
        }
      }
      CancellingDone(p, Pending(respWait, ops), e, inflight, closing);
    }

    /** Its second loop. */
    method CloseSubscriptions()
      modifies this`subs
      ensures subs == CloseSubs(old(subs))
    {
      ghost var u := subs;
      while subs.table != map[]
        invariant subs.started == u.started && subs.shadowed == u.shadowed
        invariant subs.closed + multiset(Entries(subs.table)) == u.closed + multiset(Entries(u.table))
        decreases subs.table.Keys
      {
        var id :| id in subs.table;
        EntriesWithout(subs.table, id);
        subs := subs.(table := subs.table - {id}, closed := subs.closed + multiset{(id, subs.table[id])});
      }
    }

    /** handleResponse, for each response of a batch in turn. */
    method HandleResponses(rs: seq<Reply>)
      requires Valid()
      modifies this`respWait, this`ops, this`subs
      ensures Valid()
      ensures Pending(respWait, ops) == HandleReplies(old(Pending(respWait, ops)), rs)
      ensures subs == TakeReplies(old(Pending(respWait, ops)), old(subs), rs)
    {
      ghost var p, u := Pending(respWait, ops), subs;
      assert rs[..0] == [];
      for i := 0 to |rs|
        invariant Valid()
        invariant Pending(respWait, ops) == HandleReplies(p, rs[..i])
        invariant subs == TakeReplies(p, u, rs[..i])
      {
        assert rs[..i + 1][..i] == rs[..i];
        HandleResponse(rs[i]);
      }
      assert rs[..|rs|] == rs;
    }

    /** handleResponse */
    method HandleResponse(r: Reply)
      requires Valid()
      modifies this`respWait, this`ops, this`subs
      ensures Valid()
      ensures Pending(respWait, ops) == HandleReply(old(Pending(respWait, ops)), r)
      ensures subs == TakeReply(old(Pending(respWait, ops)), old(subs), r)
    {
      if r.id !in respWait {
        return;
      }
      var o := respWait[r.id];
      respWait := respWait - {r.id};
      if ops[o].subscribe && r.error.None? && r.subId.Some? {
        subs := Launch(subs, r.subId.value, o);
      }
      ops := ops[o := Answer(ops[o], r)];
    }

    /** clientConn.close */
    method CloseConnection(e: Failure, inflight: Option<OpRef>)
      requires Valid()
      modifies this`respWait, this`ops, this`closedCodecs, this`subs
      ensures Valid() && View() == CloseConn(old(View()), e, inflight)
      ensures subs == CloseSubs(old(subs))
    {
      CancelAllRequests(e, inflight);
      closedCodecs := closedCodecs + {conn};
    }

    method OnReqInit(o: OpRef)
      requires Valid() && o in ops
      modifies this
      ensures Valid() && View() == ApplyReqInit(old(View()), o)
      ensures subs == old(subs)
    {
      AddRequestOp(o);
      assert Valid();
      locked, lastOp := true, Some(o);
      ops := ops[o := ops[o].(phase := Writing(false))];
    }

    method OnReqSent()
      requires Valid() && reqSent != [] && lastOp.Some?
      modifies this
      ensures Valid() && View() == ApplyTakeSent(old(View()))
      ensures subs == old(subs)
    {
      var ok := reqSent[0];
      reqSent := reqSent[1..];
      if !ok {
        RemoveRequestOp(lastOp.value);
      }
      locked := false;
      lastOp := None;
    }

    method OnReadOp(reader: nat, replies: seq<Reply>)
      requires Valid()
      modifies this
      ensures Valid() && View() == ApplyReadOp(old(View()), reader, replies)
      ensures subs == TakeReplies(old(Pending(respWait, ops)), old(subs), replies)
    {
      HandleResponses(replies);
      handled := handled + [(reader, conn)];
    }

    method OnReadErr(reader: nat)
      requires Valid()
      modifies this
      ensures Valid() && View() == ApplyReadErr(old(View()), reader)
      ensures subs == CloseSubs(old(subs))
    {
      readers := readers - {reader};
      CloseConnection(ReadFailed, lastOp);
      reading := false;
    }

    method OnReconnected(drained: nat)
      requires Valid() && lastOp.Some?
      modifies this
      ensures Valid() && View() == ApplyReconnect(old(View()), drained)
      ensures subs == (if old(reading) then CloseSubs(old(subs)) else old(subs)).(table := map[])
    {
      if reading {
        CloseConnection(ClientReconnected, lastOp);
        readers := readers - {drained};
      }
      NewConnection();
    }

    method RegisterAgain()
      requires Valid() && lastOp.Some?
      modifies this`respWait
      ensures Valid() && respWait == Register(map[], ops[lastOp.value].ids, lastOp.value)
    {
      respWait := map[];
      AddRequestOp(lastOp.value);
    }

    /** newClientConn and what follows it in the reconnected case. */
    method NewConnection()
      requires Valid() && lastOp.Some?
      modifies this`respWait, this`subs, this`readers, this`reading, this`conn, this`nextConn, this`writeConn
      ensures Valid()
      ensures View() == Adopt(old(View())) && subs == old(subs).(table := map[])
    {
      ghost var t := Adopt(View());
      RegisterAgain();
      subs := subs.(table := map[]);
      assert respWait == t.table;
      readers := readers + {nextConn};
      reading := true;
      conn := nextConn;
      nextConn := nextConn + 1;
      writeConn := Some(conn);
    }

    method OnReqTimeout(o: OpRef)
      requires Valid() && o in ops && !quit
      modifies this
      ensures Valid() && View() == ApplyTimeout(old(View()), o)
      ensures subs == old(subs)
    {
      RemoveRequestOp(o);
      ops := ops[o := ops[o].(phase := TimedOut)];
    }

    method OnClose(drained: nat)
      requires Valid()
      modifies this
      ensures Valid() && View() == ApplyQuit(old(View()), drained)
      ensures subs == if old(reading) then CloseSubs(old(subs)) else old(subs)
    {
      quit := true;
      if reading {
        CloseConnection(ClientQuit, None);
        readers := readers - {drained};
      }
    }

    /** A caller makes a request: nextID. */
    method Build(step: Step)
      requires (step.NewOp? || step.DrawId?) && Enabled(View(), step)
      modifies this`ops, this`drawn
      ensures View() == Apply(old(View()), step)
    {
      match step
      case NewOp(o, subscribe) => ops := ops[o := Op([], subscribe, Building, [], 0, 0, 0, None)];
      case DrawId(o) =>
        var op := ops[o];
        ops := ops[o := op.(ids := op.ids + [NextId(drawn)])];
        drawn := drawn + [(o, |op.ids|)];
    }

    /** A caller sends it and receives: send, write and wait. */
    method SendOrReceive(step: Step)
      requires IsCallerStep(step) && !step.NewOp? && !step.DrawId? && Enabled(View(), step)
      modifies this`ops, this`writeConn, this`reqSent
      ensures View() == Apply(old(View()), step)
    {
      var o := step.o;
      match step
      case WriteOk(_) => ops := ops[o := ops[o].(phase := Finished(true))];
      case WriteFail(_) =>
        ops := ops[o := ops[o].(phase := if ops[o].phase.retry then Finished(false) else Writing(true))];
        writeConn := None;
      case ReconnectFail(_) => ops := ops[o := ops[o].(phase := Finished(false))];
      case PutSent(_) =>
        reqSent := reqSent + [ops[o].phase.ok];
        ops := ops[o := ops[o].(phase := if ops[o].phase.ok then Waiting else Failed)];
      case Receive(_) => ops := ops[o := ops[o].(taken := ops[o].taken + 1)];
      case SeeClosed(_) => ops := ops[o := ops[o].(phase := Ended)];
    }

    /** A caller gives up after the client has quit: nobody hears it. */
    method GiveUp(o: OpRef)
      requires o in ops && quit
      modifies this`ops
      ensures View() == ApplyTimeout(old(View()), o)
    {
      ops := ops[o := ops[o].(phase := TimedOut)];
    }

    /** One case of dispatch's select. */
    method Select(step: Step)
      requires Valid() && Enabled(View(), step) && !IsCallerStep(step) && (step.Timeout? ==> !quit)
      requires step.Reconnect? || step.TakeSent? ==> lastOp.Some?
      modifies this
      ensures View() == Apply(old(View()), step)
      ensures subs == After(old(View()), step, old(subs))
    {
      match step
      case ReqInit(o) => OnReqInit(o);
      case Reconnect(_, r) => OnReconnected(r);
      case TakeSent => OnReqSent();
      case ReadOp(r, replies) => OnReadOp(r, replies);
      case ReadErr(r) => OnReadErr(r);
      case Timeout(o) => OnReqTimeout(o);
      case Quit(r) => OnClose(r);
    }

    /** One step of a run, by whoever takes it. */
    method Take(step: Step)
      requires Valid() && Enabled(View(), step)
      requires step.Reconnect? || step.TakeSent? ==> lastOp.Some?
      modifies this
      ensures View() == Apply(old(View()), step)
      ensures subs == After(old(View()), step, old(subs))
    {
      if step.NewOp? || step.DrawId? {
        Build(step);
      } else if IsCallerStep(step) {
        SendOrReceive(step);
      } else if step.Timeout? && quit {
        GiveUp(step.o);
      } else {
        Select(step);
      }
    }

    /** dispatch with its callers and readers, over any run: the fields end as the run does, and the
        invariant behind the theorems holds of them at every turn of the loop. */
    method Dispatch(steps: seq<Step>, ghost states: seq<State>)
      requires IsRun(states, steps) && View() == Init && subs == NoSubs
      modifies this
      ensures View() == states[|steps|] && Inv(View())
      ensures subs == SubsAt(states, steps, |steps|) && SubsOk(View(), subs)
    {
      for i := 0 to |steps|
        invariant View() == states[i]
        invariant subs == SubsAt(states, steps, i)
      {
        RunKeeps(states, steps, i);
        InvReady(states[i], steps[i]);
        Take(steps[i]);
      }
      RunKeeps(states, steps, |steps|);
      RunKeepsSubs(states, steps, |steps|);
    }
  }
}
