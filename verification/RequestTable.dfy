/** The request table of a connection handler and the reply channels of its requests
    (util/rpc/handler.go, `respWait` and `requestOp`). */
module RequestTable {
  import opened Common

  type OpRef = nat
  type Id = nat

  /** Why a reply channel was closed: the values that `op.err` takes. */
  datatype Failure = ReadFailed | ClientReconnected | ClientQuit | ErrorReply(message: string) | UndecodableSubId

  /** A response message. `subId` is its result read as a subscription id. */
  datatype Reply = Reply(id: Id, error: Option<string>, result: string, subId: Option<string>)

  /** Where the goroutine that issued a request stands. */
  datatype Phase =
    | Building              // drawing ids, not yet offered to the dispatcher
    | Writing(retry: bool)  // holds the write lock
    | Finished(ok: bool)    // write returned, result not yet signalled
    | Waiting               // in wait
    | Ended                 // saw its channel closed, and returned with op.err
    | TimedOut              // gave up waiting
    | Failed                // send returned an error

  /** A request with its reply channel. `sent` lists everything ever put on the channel and
      `taken` counts what the caller received; `closes` counts the closings, `lateSends` the
      sends made on a closed channel. */
  datatype Op = Op(ids: seq<Id>, subscribe: bool, phase: Phase,
                   sent: seq<Reply>, taken: nat, closes: nat, lateSends: nat, err: Option<Failure>)
  {
    predicate Written() {
      phase == Finished(true) || phase == Waiting || phase == Ended || phase == TimedOut
    }

    predicate HoldsLock() {
      phase.Writing? || phase.Finished?
    }

    function Capacity(): nat {
      if subscribe then 0 else |ids|
    }

    function Send(r: Reply): Op {
      this.(sent := sent + [r], lateSends := if closes > 0 then lateSends + 1 else lateSends)
    }

    function CloseWith(e: Option<Failure>): Op {
      this.(closes := closes + 1, err := e)
    }
  }

  type Ops = map<OpRef, Op>
  type Table = map<Id, OpRef>

  /** The part of the state that message handling touches. */
  datatype Pending = Pending(table: Table, ops: Ops)

  function Register(table: Table, ids: seq<Id>, o: OpRef): Table {
    table + map id | id in ids :: o
  }

  function Deregister(table: Table, ids: seq<Id>): Table {
    table - Elements(ids)
  }

  /** What a response does to the request that it answers. */
  function Answer(op: Op, r: Reply): Op {
    if !op.subscribe then op.Send(r)
    else if r.error.Some? then op.CloseWith(Some(ErrorReply(r.error.value)))
    else if r.subId.None? then op.CloseWith(Some(UndecodableSubId))
    else op.CloseWith(None)
  }

  /** A response to an id that nobody waits for is dropped. */
  function HandleReply(p: Pending, r: Reply): Pending {
    if r.id !in p.table || p.table[r.id] !in p.ops then p
    else
      var o := p.table[r.id];
      Pending(p.table - {r.id}, p.ops[o := Answer(p.ops[o], r)])
  }

  function HandleReplies(p: Pending, rs: seq<Reply>): Pending {
    if rs == [] then p
    else HandleReply(HandleReplies(p, rs[..|rs| - 1]), rs[|rs| - 1])
  }

  /** Requests that closing the handler unblocks. */
  function Victims(table: Table, spared: Option<OpRef>): set<OpRef> {
    set o | o in table.Values && spared != Some(o)
  }

  function CloseAll(ops: Ops, victims: set<OpRef>, e: Failure): Ops {
    map o | o in ops :: if o in victims then ops[o].CloseWith(Some(e)) else ops[o]
  }

  function CancelAll(p: Pending, e: Failure, spared: Option<OpRef>): Pending {
    Pending(map[], CloseAll(p.ops, Victims(p.table, spared), e))
  }
}
