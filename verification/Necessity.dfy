/** Concrete runs that show why the environment assumptions are there, and that requests do get
    stranded. */
module Necessity {
  import opened Common
  import opened RequestTable
  import opened Dispatch
  import opened HandOver

  ghost predicate Reachable(s: State, failStop: bool) {
    exists states, steps :: RunTo(states, steps, s, failStop)
  }

  ghost predicate RunTo(states: seq<State>, steps: seq<Step>, s: State, failStop: bool) {
    IsRun(states, steps) && states[|steps|] == s && (failStop ==> IsFailStopRun(states, steps))
  }

  lemma Start()
    ensures Reachable(Init, true)
  {
    assert RunTo([Init], [], Init, true);
  }

  /** A reachable state takes any enabled step. */
  lemma Go(s: State, step: Step, failStop: bool)
    requires Reachable(s, failStop) && Enabled(s, step)
    requires failStop ==> WriteRespectsClose(s, step)
    ensures Reachable(Apply(s, step), failStop)
  {
    var states, steps :| RunTo(states, steps, s, failStop);
    assert RunTo(states + [Apply(s, step)], steps + [step], Apply(s, step), failStop);
  }

  /** A call with one id, as dispatch accepts it. */
  function Call(id: Id, phase: Phase): Op {
    Op([id], false, phase, [], 0, 0, 0, None)
  }

  /** Any idle client accepts a call. */
  lemma Accept(s: State, o: OpRef, failStop: bool) returns (t: State)
    requires Reachable(s, failStop) && o !in s.ops && !s.quit && !s.locked && CounterInRange(s)
    ensures Reachable(t, failStop)
    ensures var id := NextId(s.drawn);
            t == s.(drawn := s.drawn + [(o, 0)], ops := s.ops[o := Call(id, Writing(false))],
                    table := Register(s.table, [id], o), locked := true, lastOp := Some(o))
  {
    var id := NextId(s.drawn);
    Go(s, NewOp(o, false), failStop);
    var a := Apply(s, NewOp(o, false));
    Go(a, DrawId(o), failStop);
    var b := Apply(a, DrawId(o));
    assert b.ops[o].ids == [id];
    assert b.ops == s.ops[o := Call(id, Building)];
    Go(b, ReqInit(o), failStop);
    t := Apply(b, ReqInit(o));
    assert t.ops == s.ops[o := Call(id, Writing(false))];
  }

  const Accepted := Init.(drawn := [(0, 0)], ops := map[0 := Call(1, Writing(false))],
                          table := map[1 := 0], locked := true, lastOp := Some(0))

  lemma AcceptedReachable()
    ensures Reachable(Accepted, true)
  {
    Start();
    var t := Accept(Init, 0, true);
    assert NextId(Init.drawn) == 1;
    assert Register(map[], [1], 0) == map[1 := 0];
    assert t == Accepted;
  }

  /** A read error that falls between a successful write and its report strands the request: its
      caller waits, but dispatch has neither an entry nor a close for it. */
  lemma StrandingHappens() returns (s: State)
    ensures Reachable(s, true) && Unserved(s, 0, 1) && !Registered(s, 0, 1)
  {
    AcceptedReachable();
    Go(Accepted, WriteOk(0), true);
    s := Apply(Accepted, WriteOk(0));
    Go(s, ReadErr(0), true);
    s := Apply(s, ReadErr(0));
  }

  const Early := Reply(1, None, "0x1", None)

  /** The accepted call, answered before it was written. */
  const Answered0 := Accepted.(ops := map[0 := Call(1, Writing(false)).Send(Early)], table := map[],
                               handled := [(0, 0)])

  lemma AnsweredEarly()
    ensures Reachable(Answered0, true) && !AnswersOnlyWritten(Accepted, ReadOp(0, [Early]))
  {
    AcceptedReachable();
    Go(Accepted, ReadOp(0, [Early]), true);
    assert ReadOp(0, [Early]).replies[0].id in Accepted.table;
    HandleOne(Accepted.Pend(), Early);
    assert Accepted.table - {1} == map[];
    assert Accepted.ops[0 := Answer(Accepted.ops[0], Early)] == map[0 := Call(1, Writing(false)).Send(Early)];
    assert Apply(Accepted, ReadOp(0, [Early])) == Answered0;
  }

  /** Its write fails, it is registered again on the new connection, and written there. */
  const Failed0 := Answered0.(ops := map[0 := Call(1, Writing(true)).Send(Early)], writeConn := None)
  const Again0 := Failed0.(table := map[1 := 0], conn := 1, nextConn := 2, readers := {1}, closedCodecs := {0},
                           writeConn := Some(1))
  const Written0 := Again0.(ops := map[0 := Call(1, Finished(true)).Send(Early)])

  lemma FailedAfterAnswer()
    ensures Reachable(Failed0, true)
  {
    AnsweredEarly();
    Go(Answered0, WriteFail(0), true);
    assert Apply(Answered0, WriteFail(0)).ops == Failed0.ops;
    assert Apply(Answered0, WriteFail(0)) == Failed0;
  }

  lemma ReregisteredAfterAnswer()
    ensures Offered(Failed0, Reconnect(0, 0)) && Apply(Failed0, Reconnect(0, 0)) == Again0
    ensures Enabled(Again0, WriteOk(0)) && Apply(Again0, WriteOk(0)) == Written0
  {
    var t := ApplyReconnect(Failed0, 0);
    assert t.ops == Failed0.ops && t.table == map[1 := 0];
    assert t.readers == {1} && t.closedCodecs == {0};
    assert Apply(Again0, WriteOk(0)).ops == Written0.ops;
  }

  /** Without E2: a call is answered before its write fails. That is a run, but now the code registers
      the call again on the new connection, it is answered again, and its one-slot channel gets a
      second reply. */
  lemma EarlyAnswerOverflows() returns (t: State)
    ensures Reachable(Failed0, true) && !ReregistersUntouched(Failed0, Reconnect(0, 0))
    ensures Offered(Failed0, Reconnect(0, 0)) && Apply(Failed0, Reconnect(0, 0)) == Again0
    ensures Enabled(Again0, WriteOk(0)) && Apply(Again0, WriteOk(0)) == Written0
    ensures Enabled(Written0, ReadOp(1, [Early])) && t == Apply(Written0, ReadOp(1, [Early]))
    ensures 0 in t.ops && |t.ops[0].sent| == 2 && t.ops[0].Capacity() == 1
  {
    FailedAfterAnswer();
    ReregisteredAfterAnswer();
    HandleOne(Written0.Pend(), Early);
    t := Apply(Written0, ReadOp(1, [Early]));
  }

  lemma HandleOne(p: Pending, r: Reply)
    ensures HandleReplies(p, [r]) == HandleReply(p, r)
  {
    assert [r][..0] == [];
  }

  /** The client whose read goroutine has died, with a call written to the closed codec. */
  const Misled := Init.(drawn := [(0, 0)], ops := map[0 := Call(1, Waiting)], table := map[1 := 0],
                        reading := false, readers := {}, closedCodecs := {0})

  lemma DeadReachable() returns (s: State)
    ensures Reachable(s, false) && s == Init.(reading := false, readers := {}, closedCodecs := {0})
  {
    Start();
    Go(Init, ReadErr(0), true);
    s := Apply(Init, ReadErr(0));
    var states, steps :| RunTo(states, steps, s, true);
    assert RunTo(states, steps, s, false);
  }

  const DeadAccepted := Accepted.(reading := false, readers := {}, closedCodecs := {0})
  const DeadSent := DeadAccepted.(ops := map[0 := Call(1, Waiting)], reqSent := [true])

  lemma DeadAcceptedReachable()
    ensures Reachable(DeadAccepted, false)
  {
    var s := DeadReachable();
    var a := Accept(s, 0, false);
    assert NextId(s.drawn) == 1;
    assert a.table == map[1 := 0] && a.ops == map[0 := Call(1, Writing(false))];
    assert a == DeadAccepted;
  }

  lemma DeadSentReachable()
    ensures Reachable(DeadSent, false)
  {
    DeadAcceptedReachable();
    Go(DeadAccepted, WriteOk(0), false);
    var b := DeadAccepted.(ops := map[0 := Call(1, Finished(true))]);
    assert b == Apply(DeadAccepted, WriteOk(0));
    Go(b, PutSent(0), false);
    assert DeadSent == Apply(b, PutSent(0));
  }

  lemma MisledReachable()
    ensures Reachable(Misled, false)
  {
    DeadSentReachable();
    Go(DeadSent, TakeSent, false);
    assert Apply(DeadSent, TakeSent) == Misled;
  }

  /** Without E3: a write that succeeds on a closed codec leaves the call in a table that the next
      reconnect replaces, and nobody closes it. */
  lemma WriteAfterCloseLosesCall() returns (s: State)
    ensures Reachable(s, false) && Enabled(s, Reconnect(1, 0))
    ensures Registered(s, 0, 1)
    ensures Unserved(Apply(s, Reconnect(1, 0)), 0, 1) && !Registered(Apply(s, Reconnect(1, 0)), 0, 1)
  {
    MisledReachable();
    var a := Accept(Misled, 1, false);
    assert NextId(Misled.drawn) == 2;
    Go(a, WriteFail(1), false);
    s := Apply(a, WriteFail(1));
    var t := Apply(s, Reconnect(1, 0));
    assert t.ops[0] == Call(1, Waiting);
    assert 1 !in t.table;
  }
}
