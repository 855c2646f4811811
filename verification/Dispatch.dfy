/** The client's dispatch loop as a step system (util/rpc/client.go, `dispatch`, `send`, `write`,
    `reconnect`, `read`, `wait`). A step is one case of a `select`, or one action of a caller. */
module Dispatch {
  import opened Common
  import opened RequestTable

  const IdSpace: nat := 0x1_0000_0000

  datatype State = State(
    drawn: seq<(OpRef, nat)>,      // for each id drawn: which request, at which position
    ops: Ops,
    table: Table,                  // respWait of the current connection's handler
    lastOp: Option<OpRef>,
    locked: bool,                  // reqInitLock is nil
    conn: nat,                     // current connection
    nextConn: nat,                 // first connection number not yet used
    reading: bool,
    readers: set<nat>,             // connections with a live read goroutine
    closedCodecs: set<nat>,
    writeConn: Option<nat>,
    reqSent: seq<bool>,            // buffered write results, true for success
    handled: seq<(nat, nat)>,      // history: (reader's connection, handler's connection)
    quit: bool,
    panicked: bool)                // a nil lastOp was dereferenced
  {
    /** lastOp is a live pointer. */
    predicate HasLastOp() {
      lastOp.Some? && lastOp.value in ops
    }

    function Pend(): Pending {
      Pending(table, ops)
    }

    function With(p: Pending): State {
      this.(table := p.table, ops := p.ops)
    }

    function SetPhase(o: OpRef, ph: Phase): State
      requires o in ops
    {
      this.(ops := ops[o := ops[o].(phase := ph)])
    }

    ghost predicate InPhase(o: OpRef, ph: Phase) {
      o in ops && ops[o].phase == ph
    }

    ghost predicate IsWriting(o: OpRef) {
      o in ops && ops[o].phase.Writing?
    }
  }

  datatype Step =
    | NewOp(o: OpRef, subscribe: bool)
    | DrawId(o: OpRef)
    | ReqInit(o: OpRef)
    | WriteOk(o: OpRef)
    | WriteFail(o: OpRef)
    | ReconnectFail(o: OpRef)
    | Reconnect(o: OpRef, drained: nat)
    | PutSent(o: OpRef)
    | TakeSent
    | ReadOp(reader: nat, replies: seq<Reply>)
    | ReadErr(reader: nat)
    | Timeout(o: OpRef)
    | Receive(o: OpRef)
    | SeeClosed(o: OpRef)
    | Quit(drained: nat)

  function NextId(drawn: seq<(OpRef, nat)>): Id {
    (|drawn| + 1) % IdSpace
  }

  const Init := State([], map[], map[], None, false, 0, 1, true, {0}, {}, Some(0), [], [], false, false)

  /** E1: fewer than 2^32 ids are drawn. */
  predicate CounterInRange(s: State) {
    |s.drawn| + 1 < IdSpace
  }

  /** E2: when a request is registered again on a new connection, nothing has been put on its channel
      yet and it is open. */
  predicate ReregistersUntouched(s: State, step: Step) {
    step.Reconnect? && step.o in s.ops ==> s.ops[step.o].sent == [] && s.ops[step.o].closes == 0
  }

  /** A peer that answers a pending id only after that request was written. Runs with such a peer
      respect E2. */
  ghost predicate AnswersOnlyWritten(s: State, step: Step) {
    step.ReadOp? ==>
      forall k :: 0 <= k < |step.replies| && step.replies[k].id in s.table && s.table[step.replies[k].id] in s.ops ==>
        s.ops[s.table[step.replies[k].id]].Written()
  }

  /** E3: writing on a closed codec fails. */
  predicate WriteRespectsClose(s: State, step: Step) {
    step.WriteOk? && s.writeConn.Some? ==> s.writeConn.value !in s.closedCodecs
  }

  /** What the code can do in a state, under E1. */
  ghost predicate Offered(s: State, step: Step) {
    match step
    case NewOp(o, subscribe) => o !in s.ops
    case DrawId(o) => s.InPhase(o, Building) && CounterInRange(s) && (s.ops[o].subscribe ==> s.ops[o].ids == [])
    case ReqInit(o) => s.InPhase(o, Building) && !s.quit && !s.locked && (s.ops[o].subscribe ==> |s.ops[o].ids| == 1)
    case WriteOk(o) => s.IsWriting(o) && s.writeConn.Some?
    case WriteFail(o) => s.IsWriting(o) && s.writeConn.Some?
    case ReconnectFail(o) => s.IsWriting(o) && s.writeConn.None?
    case Reconnect(o, r) => s.IsWriting(o) && s.writeConn.None? && !s.quit && (s.reading ==> r in s.readers)
    case PutSent(o) => o in s.ops && s.ops[o].phase.Finished?
    case TakeSent => !s.quit && s.reqSent != []
    case ReadOp(r, replies) => !s.quit && r in s.readers
    case ReadErr(r) => !s.quit && r in s.readers
    case Timeout(o) => s.InPhase(o, Waiting)
    case Receive(o) => s.InPhase(o, Waiting) && s.ops[o].taken < |s.ops[o].sent|
    case SeeClosed(o) => s.InPhase(o, Waiting) && s.ops[o].closes > 0 && s.ops[o].taken == |s.ops[o].sent|
    case Quit(r) => !s.quit && (s.reading ==> r in s.readers)
  }

  ghost predicate Enabled(s: State, step: Step) {
    Offered(s, step) && ReregistersUntouched(s, step)
  }

  /** Closing the current connection: handler, then codec. */
  function CloseConn(s: State, e: Failure, spared: Option<OpRef>): State {
    s.With(CancelAll(s.Pend(), e, spared)).(closedCodecs := s.closedCodecs + {s.conn})
  }

  function ApplyDrawId(s: State, o: OpRef): State
    requires o in s.ops
  {
    var op := s.ops[o];
    s.(ops := s.ops[o := op.(ids := op.ids + [NextId(s.drawn)])], drawn := s.drawn + [(o, |op.ids|)])
  }

  function ApplyReqInit(s: State, o: OpRef): State
    requires o in s.ops
  {
    s.SetPhase(o, Writing(false)).(locked := true, lastOp := Some(o),
      table := Register(s.table, s.ops[o].ids, o))
  }

  function ApplyWriteFail(s: State, o: OpRef): State
    requires s.IsWriting(o)
  {
    s.SetPhase(o, if s.ops[o].phase.retry then Finished(false) else Writing(true)).(writeConn := None)
  }

  function ApplyReconnect(s: State, drained: nat): State {
    if !s.HasLastOp() then s.(panicked := true)
    else Adopt(if s.reading then CloseConn(s, ClientReconnected, s.lastOp).(readers := s.readers - {drained}) else s)
  }

  /** Switching to a new connection, where the sender's request is registered again. */
  function Adopt(t: State): State
    requires t.HasLastOp()
  {
    t.(readers := t.readers + {t.nextConn}, reading := true, conn := t.nextConn, nextConn := t.nextConn + 1,
       table := Register(map[], t.ops[t.lastOp.value].ids, t.lastOp.value), writeConn := Some(t.nextConn))
  }

  function ApplyPutSent(s: State, o: OpRef): State
    requires o in s.ops && s.ops[o].phase.Finished?
  {
    var ok := s.ops[o].phase.ok;
    s.SetPhase(o, if ok then Waiting else Failed).(reqSent := s.reqSent + [ok])
  }

  function ApplyTakeSent(s: State): State
    requires s.reqSent != []
  {
    if !s.reqSent[0] && !s.HasLastOp() then s.(panicked := true)
    else
      s.(table := if s.reqSent[0] then s.table else Deregister(s.table, s.ops[s.lastOp.value].ids),
         reqSent := s.reqSent[1..], locked := false, lastOp := None)
  }

  function ApplyReadOp(s: State, reader: nat, replies: seq<Reply>): State {
    s.With(HandleReplies(s.Pend(), replies)).(handled := s.handled + [(reader, s.conn)])
  }

  function ApplyReadErr(s: State, reader: nat): State {
    CloseConn(s, ReadFailed, s.lastOp).(readers := s.readers - {reader}, reading := false)
  }

  function ApplyTimeout(s: State, o: OpRef): State
    requires o in s.ops
  {
    var t := s.SetPhase(o, TimedOut);
    if s.quit then t else t.(table := Deregister(s.table, s.ops[o].ids))
  }

  function ApplyReceive(s: State, o: OpRef): State
    requires o in s.ops
  {
    s.(ops := s.ops[o := s.ops[o].(taken := s.ops[o].taken + 1)])
  }

  function ApplyQuit(s: State, drained: nat): State {
    if s.reading
    then CloseConn(s, ClientQuit, None).(readers := s.readers - {drained}, quit := true)
    else s.(quit := true)
  }

  ghost function Apply(s: State, step: Step): State
    requires Offered(s, step)
  {
    match step
    case NewOp(o, subscribe) => s.(ops := s.ops[o := Op([], subscribe, Building, [], 0, 0, 0, None)])
    case DrawId(o) => ApplyDrawId(s, o)
    case ReqInit(o) => ApplyReqInit(s, o)
    case WriteOk(o) => s.SetPhase(o, Finished(true))
    case WriteFail(o) => ApplyWriteFail(s, o)
    case ReconnectFail(o) => s.SetPhase(o, Finished(false))
    case Reconnect(o, r) => ApplyReconnect(s, r)
    case PutSent(o) => ApplyPutSent(s, o)
    case TakeSent => ApplyTakeSent(s)
    case ReadOp(r, replies) => ApplyReadOp(s, r, replies)
    case ReadErr(r) => ApplyReadErr(s, r)
    case Timeout(o) => ApplyTimeout(s, o)
    case Receive(o) => ApplyReceive(s, o)
    case SeeClosed(o) => s.SetPhase(o, Ended)
    case Quit(r) => ApplyQuit(s, r)
  }

  /** A run under E1 and E2, from a fresh client: `states[k]` takes `steps[k]` to `states[k + 1]`. */
  ghost predicate IsRun(states: seq<State>, steps: seq<Step>) {
    && |states| == |steps| + 1
    && states[0] == Init
    && forall k :: 0 <= k < |steps| ==>
         Enabled(states[k], steps[k]) && states[k + 1] == Apply(states[k], steps[k])
  }

  /** A run of the code with a peer that answers only what was written; nothing is asked of its steps
      beside that. */
  ghost predicate IsPoliteRun(states: seq<State>, steps: seq<Step>) {
    && |states| == |steps| + 1
    && states[0] == Init
    && forall k :: 0 <= k < |steps| ==>
         && Offered(states[k], steps[k]) && AnswersOnlyWritten(states[k], steps[k])
         && states[k + 1] == Apply(states[k], steps[k])
  }

  /** A run that also respects E3. */
  ghost predicate IsFailStopRun(states: seq<State>, steps: seq<Step>) {
    && IsRun(states, steps)
    && forall k :: 0 <= k < |steps| ==> WriteRespectsClose(states[k], steps[k])
  }
}
