/** Collecting the responses of a batch (util/rpc/client.go, `BatchCallContext` and `wait`). */
module BatchCall {
  import opened Common
  import opened RequestTable
  import opened Dispatch
  import opened DispatchInvariant

  /** What a call to `wait` returns: a response, with op.err as it was then; or an error. */
  datatype WaitResult =
    | Got(reply: Reply, err: Option<Failure>)
    | ChannelClosed(cause: Failure)
    | ContextDone

  /** What a batch element records. */
  datatype Outcome = Unset | RpcError(message: string) | NoResult | Undecodable | Result(value: string)

  /** Decoding JSON text into the result of the i-th element, which has a type of its own. */
  type Decoder = (nat, string) -> Option<string>

  function OutcomeOf(decode: Decoder, i: nat, r: Reply): Outcome {
    if r.error.Some? then RpcError(r.error.value)
    else if r.result == "" then NoResult
    else if decode(i, r.result).None? then Undecodable
    else Result(decode(i, r.result).value)
  }

  /** The element with index `i` records what response `r` says: its error; or that it has no result; or
      that its result does not decode; or what it decodes to. */
  ghost predicate Records(decode: Decoder, i: nat, r: Reply, b: Outcome) {
    && b != Unset
    && (b.RpcError? <==> r.error.Some?) && (b.RpcError? ==> b.message == r.error.value)
    && (b.NoResult? <==> r.error.None? && |r.result| == 0)
    && (b.Undecodable? <==> r.error.None? && |r.result| > 0 && decode(i, r.result).None?)
    && (b.Result? ==> decode(i, r.result) == Some(b.value))
  }

  /** A channel is first in, first out: the n-th receive that yields a response yields the n-th sent. */
  ghost predicate Receives(waits: seq<WaitResult>, sent: seq<Reply>) {
    forall n :: 0 <= n < |waits| && waits[n].Got? ==> n < |sent| && waits[n].reply == sent[n]
  }

  /** Element `i` records the one response that carries its id. */
  ghost predicate MatchedById(decode: Decoder, ids: seq<Id>, sent: seq<Reply>, b: seq<Outcome>, i: nat)
    requires i < |ids| == |b|
  {
    exists j :: 0 <= j < |sent| && sent[j].id == ids[i] && Records(decode, i, sent[j], b[i])
                && forall j' :: 0 <= j' < |sent| && sent[j'].id == ids[i] ==> j' == j
  }

  /** Waits for a response to each of `ids`. `waits` is what the successive calls to `wait` return. */
  method Collect(decode: Decoder, ids: seq<Id>, ghost sent: seq<Reply>, waits: seq<WaitResult>)
    returns (b: seq<Outcome>, ok: bool)
    requires Distinct(ids) && OneReplyPerId(ids, sent)
    requires |waits| >= |ids| && Receives(waits, sent)
    ensures |b| == |ids|
    ensures ok <==> forall n :: 0 <= n < |ids| ==> waits[n].Got? && waits[n].err.None?
    ensures ok ==> |sent| == |ids| && forall i :: 0 <= i < |ids| ==> MatchedById(decode, ids, sent, b, i)
    ensures forall i :: 0 <= i < |ids| && b[i] != Unset ==> MatchedById(decode, ids, sent, b, i)
  {
    var byId := IndexById(ids);
    b := seq(|ids|, _ => Unset);
    ok := true;
    var n := 0;
    while n < |ids| && ok
      invariant 0 <= n <= |ids| == |b| && n <= |sent|
      invariant forall m :: 0 <= m < n ==> waits[m].Got? && waits[m].err.None?
      invariant !ok ==> n < |ids| && !(waits[n].Got? && waits[n].err.None?)
      invariant forall m :: 0 <= m < n ==>
                  sent[m].id in byId && b[byId[sent[m].id]] == OutcomeOf(decode, byId[sent[m].id], sent[m])
      invariant forall i :: 0 <= i < |ids| && b[i] != Unset ==>
                  exists m :: 0 <= m < n && sent[m].id == ids[i] && b[i] == OutcomeOf(decode, i, sent[m])
      decreases |ids| - n, ok
    {
      match waits[n]
      case Got(reply, err) =>
        if err.None? {
          assert reply == sent[n] && sent[n].id in ids;
          var at := if reply.id in byId then byId[reply.id] else 0;
          Placed(ids, sent, byId, n);
          b := b[at := OutcomeOf(decode, at, reply)];
          n := n + 1;
        } else {
          ok := false;
        }
      case ChannelClosed(cause) => ok := false;
      case ContextDone => ok := false;
    }
    if ok {
      AllAnswered(ids, sent, n);
    }
    forall i | 0 <= i < |ids| && (ok || b[i] != Unset)
      ensures MatchedById(decode, ids, sent, b, i)
    {
      assert ok ==> AnswerTo(ids[i], sent);
      var m :| 0 <= m < |sent| && m < n && sent[m].id == ids[i];
      Matched(decode, ids, sent, b, i, m);
    }
  }

  lemma Matched(decode: Decoder, ids: seq<Id>, sent: seq<Reply>, b: seq<Outcome>, i: nat, m: nat)
    requires OneReplyPerId(ids, sent) && i < |ids| == |b| && m < |sent|
    requires sent[m].id == ids[i] && b[i] == OutcomeOf(decode, i, sent[m])
    ensures MatchedById(decode, ids, sent, b, i)
  {
    assert Records(decode, i, sent[m], b[i]);
  }

  /** byID, filled in a loop over the elements. */
  method IndexById(ids: seq<Id>) returns (byId: map<Id, nat>)
    requires Distinct(ids)
    ensures forall i :: 0 <= i < |ids| ==> ids[i] in byId && byId[ids[i]] == i
    ensures forall id :: id in byId ==> byId[id] < |ids| && ids[byId[id]] == id
  {
    byId := map[];
    for i := 0 to |ids|
      invariant forall j :: 0 <= j < i ==> ids[j] in byId && byId[ids[j]] == j
      invariant forall id :: id in byId ==> byId[id] < i && ids[byId[id]] == id
    {
      byId := byId[ids[i] := i];
    }
  }

  /** The n-th response goes to an element that no earlier one went to. */
  lemma Placed(ids: seq<Id>, sent: seq<Reply>, byId: map<Id, nat>, n: nat)
    requires OneReplyPerId(ids, sent) && n < |sent|
    requires forall i :: 0 <= i < |ids| ==> ids[i] in byId && byId[ids[i]] == i
    requires forall id :: id in byId ==> byId[id] < |ids| && ids[byId[id]] == id
    ensures sent[n].id in byId && forall m :: 0 <= m < n ==> sent[m].id in byId && byId[sent[m].id] != byId[sent[n].id]
  {
    assert sent[n].id in ids;
    forall m | 0 <= m < n
      ensures sent[m].id in byId && byId[sent[m].id] != byId[sent[n].id]
    {
      assert sent[m].id in ids;
      assert ids[byId[sent[m].id]] == sent[m].id && ids[byId[sent[n].id]] == sent[n].id;
    }
  }

  ghost predicate EachAnswered(ids: seq<Id>, sent: seq<Reply>) {
    forall i :: 0 <= i < |ids| ==> AnswerTo(ids[i], sent)
  }

  ghost predicate AnswerTo(id: Id, sent: seq<Reply>) {
    exists m :: 0 <= m < |sent| && sent[m].id == id
  }

  /** As many responses as ids, no id twice: every id is answered, and there is nothing else. */
  lemma AllAnswered(ids: seq<Id>, sent: seq<Reply>, n: nat)
    requires OneReplyPerId(ids, sent) && n == |ids| <= |sent|
    ensures |sent| == n && EachAnswered(ids, sent)
  {
    var answered := seq(|sent|, j requires 0 <= j < |sent| => sent[j].id);
    Pigeonhole(answered, ids);
    forall i | 0 <= i < n
      ensures AnswerTo(ids[i], sent)
    {
      assert ids[i] in answered;
      var m :| 0 <= m < |answered| && answered[m] == ids[i];
      assert sent[m].id == ids[i];
    }
  }

  /** Over any run, a request's ids and replies are as `Collect` requires; and once its caller has
      received as many responses as it has ids, each id has exactly one. */
  lemma RunFeedsCollect(states: seq<State>, steps: seq<Step>, k: nat, o: OpRef)
    requires IsRun(states, steps) && k < |states| && o in states[k].ops
    ensures Distinct(states[k].ops[o].ids) && OneReplyPerId(states[k].ops[o].ids, states[k].ops[o].sent)
    ensures var op := states[k].ops[o];
            op.taken >= |op.ids| ==> |op.sent| == |op.ids| && EachAnswered(op.ids, op.sent)
  {
    RunKeeps(states, steps, k);
    var op := states[k].ops[o];
    assert OpOk(op) && IdsOwned(states[k].drawn, o, op.ids);
    if op.taken >= |op.ids| { AllAnswered(op.ids, op.sent, |op.ids|); }
  }
}
