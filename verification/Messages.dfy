/** JSON-RPC messages as records, and how a handler answers them (util/rpc/json.go,
    util/rpc/handler.go `handleBatch`, `handleMsg`, `handleImmediate`, `handleCallMsg`). */
module Messages {
  import opened Common

  /** Raw JSON text; None is Go's nil. */
  type Raw = string

  /** json.Marshal never yields empty text. */
  type Json = s: string | s != "" witness "null"

  datatype RpcError = RpcError(code: int, message: string, data: Option<string>)

  datatype Message = Message(id: Option<Raw>, name: string, params: Option<Raw>,
                             error: Option<RpcError>, result: Option<Raw>)

  const DefaultErrorCode := -32000
  const InvalidRequestCode := -32600
  const NotificationSuffix := "_subscription"
  const Null: Raw := "null"

  predicate HasValidId(m: Message) {
    m.id.Some? && |m.id.value| > 0 && m.id.value[0] != '{' && m.id.value[0] != '['
  }

  predicate IsNotification(m: Message) {
    m.id.None? && m.name != ""
  }

  predicate IsCall(m: Message) {
    HasValidId(m) && m.name != ""
  }

  predicate IsResponse(m: Message) {
    HasValidId(m) && m.name == "" && m.params.None? && (m.result.Some? || m.error.Some?)
  }

  predicate HasSuffix(s: string, suffix: string) {
    |suffix| <= |s| && s[|s| - |suffix|..] == suffix
  }

  /** handleImmediate returns true: the message is consumed without an answer. */
  predicate Immediate(m: Message) {
    if IsNotification(m) then HasSuffix(m.name, NotificationSuffix)
    else IsResponse(m)
  }

  /** A Go error, with the code and data it carries if it is one of the RPC kinds. */
  datatype Err = Err(code: Option<int>, message: string, data: Option<string>)

  function ErrorMessage(e: Err): Message {
    var code := if e.code.Some? then e.code.value else DefaultErrorCode;
    Message(Some(Null), "", None, Some(RpcError(code, e.message, e.data)), None)
  }

  function ErrorResponse(m: Message, e: Err): Message {
    ErrorMessage(e).(id := m.id)
  }

  /** What running the called method yields; a result that cannot be marshalled is a failure too. */
  datatype Outcome = Value(json: Json) | Fails(err: Err)

  function Response(m: Message, out: Outcome): Message {
    match out
    case Value(json) => Message(m.id, "", None, None, Some(json))
    case Fails(err) => ErrorResponse(m, err)
  }

  const InvalidRequest := Err(Some(InvalidRequestCode), "invalid request", None)
  const EmptyBatch := Err(Some(InvalidRequestCode), "empty batch", None)

  function HandleCallMsg(m: Message, out: Outcome): Option<Message> {
    if IsNotification(m) then None
    else if IsCall(m) then Some(Response(m, out))
    else if HasValidId(m) then Some(ErrorResponse(m, InvalidRequest))
    else Some(ErrorMessage(InvalidRequest))
  }

  /** What a handler writes in reaction to what it reads. */
  datatype Written = Nothing | Single(m: Message) | Array(ms: seq<Message>)

  /** handleMsg */
  function HandleMsg(m: Message, out: Outcome): Written {
    if Immediate(m) then Nothing
    else
      var answer := HandleCallMsg(m, out);
      if answer.None? then Nothing else Single(answer.value)
  }

  /** The answers to the calls of a batch, in their order. `outs[i]` is the outcome of message `i`. */
  function Answers(msgs: seq<Message>, outs: seq<Outcome>): seq<Message>
    requires |msgs| == |outs|
  {
    if msgs == [] then []
    else
      var n := |msgs| - 1;
      var rest := Answers(msgs[..n], outs[..n]);
      var answer := HandleCallMsg(msgs[n], outs[n]);
      if Immediate(msgs[n]) || answer.None? then rest else rest + [answer.value]
  }

  function BatchReply(msgs: seq<Message>, outs: seq<Outcome>): Written
    requires |msgs| == |outs|
  {
    if msgs == [] then Single(ErrorMessage(EmptyBatch))
    else
      var answers := Answers(msgs, outs);
      if answers == [] then Nothing else Array(answers)
  }

  /** handleBatch: non-calls first, then the calls on a goroutine of their own. */
  method HandleBatch(msgs: seq<Message>, outs: seq<Outcome>) returns (w: Written)
    requires |msgs| == |outs|
    ensures w == BatchReply(msgs, outs)
  {
    if |msgs| == 0 {
      return Single(ErrorMessage(EmptyBatch));
    }
    var calls: seq<nat> := [];
    for i := 0 to |msgs|
      invariant forall k :: 0 <= k < |calls| ==> calls[k] < i
      invariant calls == Calls(msgs[..i])
    {
      assert msgs[..i + 1][..i] == msgs[..i];
      if !Immediate(msgs[i]) {
        calls := calls + [i];
      }
    }
    assert msgs[..|msgs|] == msgs && outs[..|outs|] == outs;
    if |calls| == 0 {
      AnswersByCalls(msgs, outs);
      return Nothing;
    }
    var answers: seq<Message> := [];
    for j := 0 to |calls|
      invariant answers == AnswersTo(msgs, outs, calls[..j])
    {
      assert calls[..j + 1][..j] == calls[..j];
      var answer := HandleCallMsg(msgs[calls[j]], outs[calls[j]]);
      if answer.Some? {
        answers := answers + [answer.value];
      }
    }
    assert calls[..|calls|] == calls;
    AnswersByCalls(msgs, outs);
    w := if |answers| > 0 then Array(answers) else Nothing;
  }

  /** Positions of the messages that are not immediate. */
  ghost function Calls(msgs: seq<Message>): (cs: seq<nat>)
    ensures forall k :: 0 <= k < |cs| ==> cs[k] < |msgs|
  {
    if msgs == [] then []
    else
      var n := |msgs| - 1;
      Calls(msgs[..n]) + if Immediate(msgs[n]) then [] else [n]
  }

  ghost function AnswersTo(msgs: seq<Message>, outs: seq<Outcome>, cs: seq<nat>): seq<Message>
    requires |msgs| == |outs| && forall k :: 0 <= k < |cs| ==> cs[k] < |msgs|
  {
    if cs == [] then []
    else
      var c := cs[|cs| - 1];
      var rest := AnswersTo(msgs, outs, cs[..|cs| - 1]);
      var answer := HandleCallMsg(msgs[c], outs[c]);
      if answer.Some? then rest + [answer.value] else rest
  }

  lemma {:induction false} AnswersToPrefix(msgs: seq<Message>, outs: seq<Outcome>, cs: seq<nat>, n: nat)
    requires |msgs| == |outs| && n <= |msgs| && forall k :: 0 <= k < |cs| ==> cs[k] < n
    ensures AnswersTo(msgs[..n], outs[..n], cs) == AnswersTo(msgs, outs, cs)
  {
    if cs != [] { AnswersToPrefix(msgs, outs, cs[..|cs| - 1], n); }
  }

  lemma {:induction false} AnswersByCalls(msgs: seq<Message>, outs: seq<Outcome>)
    requires |msgs| == |outs|
    ensures Answers(msgs, outs) == AnswersTo(msgs, outs, Calls(msgs))
  {
    if msgs != [] {
      var n := |msgs| - 1;
      AnswersByCalls(msgs[..n], outs[..n]);
      AnswersToPrefix(msgs, outs, Calls(msgs[..n]), n);
      if !Immediate(msgs[n]) {
        assert Calls(msgs)[..|Calls(msgs)| - 1] == Calls(msgs[..n]);
      } else {
        assert Calls(msgs) == Calls(msgs[..n]);
      }
    }
  }

  /** An id is a JSON string, number or null: neither missing nor the text of an object or array. */
  ghost predicate ValidId(id: Option<Raw>) {
    id.Some? && |id.value| > 0 && id.value[0] !in {'{', '['}
  }

  /** Messages that section 6 of the JSON-RPC 2.0 Specification wants answered: all but notifications,
      which have a method and no id, and responses, which have an id and a result or an error. */
  ghost predicate WantsAnswer(m: Message) {
    && !(m.id.None? && m.name != "")
    && !(ValidId(m.id) && m.name == "" && m.params.None? && (m.result.Some? || m.error.Some?))
  }

  /** The called method is run: handleCallMsg comes to handleCall. */
  predicate Runs(m: Message) {
    !Immediate(m) && (IsNotification(m) || IsCall(m))
  }

  /** Methods are run for calls, and for notifications other than those of subscriptions. */
  lemma RunsIff(m: Message)
    ensures Runs(m) <==>
            && m.name != ""
            && (ValidId(m.id) || (m.id.None? && forall s :: m.name != s + "_subscription"))
  {
    var n := |m.name| - |NotificationSuffix|;
    if n >= 0 && m.name[n..] == NotificationSuffix {
      assert m.name == m.name[..n] + "_subscription";
    }
    forall s | m.name == s + "_subscription"
      ensures HasSuffix(m.name, NotificationSuffix)
    {
    }
  }

  /** Positions of the messages that want an answer, in order. */
  ghost function Wanted(msgs: seq<Message>): (ws: seq<nat>)
    ensures forall k :: 0 <= k < |ws| ==> ws[k] < |msgs| && WantsAnswer(msgs[ws[k]])
    ensures forall j, k :: 0 <= j < k < |ws| ==> ws[j] < ws[k]
    ensures forall i :: 0 <= i < |msgs| && WantsAnswer(msgs[i]) ==> i in ws
  {
    if msgs == [] then []
    else
      var n := |msgs| - 1;
      assert forall i :: 0 <= i < n ==> msgs[i] == msgs[..n][i];
      Wanted(msgs[..n]) + if WantsAnswer(msgs[n]) then [n] else []
  }

  /** A response object as in section 5 of the JSON-RPC 2.0 Specification: the request's id if valid and null
      otherwise, and exactly one of result and error. A call gets what it yielded, anything else the
      error "Invalid Request". */
  ghost predicate AnswersRequest(m: Message, out: Outcome, a: Message) {
    && a.id == (if ValidId(m.id) then m.id else Some("null"))
    && a.name == "" && a.params.None?
    && (a.result.Some? <==> a.error.None?)
    && (if !(ValidId(m.id) && m.name != "")
        then a.error.Some? && a.error.value.code == -32600 && a.error.value.message == "invalid request"
        else match out
          case Value(json) => a.result == Some(json)
          case Fails(err) => a.error.Some? && a.error.value.message == err.message && a.error.value.data == err.data
                             && a.error.value.code == (if err.code.Some? then err.code.value else -32000))
  }

  /** One answer per message that wants one, in the order of the batch, and no other. */
  ghost predicate AnswersBatch(msgs: seq<Message>, outs: seq<Outcome>, answers: seq<Message>)
    requires |msgs| == |outs|
  {
    && |answers| == |Wanted(msgs)|
    && forall k :: 0 <= k < |answers| ==> AnswersRequest(msgs[Wanted(msgs)[k]], outs[Wanted(msgs)[k]], answers[k])
  }

  lemma AnswerCase(m: Message, out: Outcome)
    ensures WantsAnswer(m) <==> !Immediate(m) && HandleCallMsg(m, out).Some?
    ensures WantsAnswer(m) ==> AnswersRequest(m, out, HandleCallMsg(m, out).value)
  {
  }

  /** Answers to a prefix of a batch answer the same messages of the batch. */
  lemma AnswersPrefix(msgs: seq<Message>, outs: seq<Outcome>, n: nat, answers: seq<Message>, k: nat)
    requires |msgs| == |outs| && n <= |msgs| && AnswersBatch(msgs[..n], outs[..n], answers) && k < |answers|
    ensures AnswersRequest(msgs[Wanted(msgs[..n])[k]], outs[Wanted(msgs[..n])[k]], answers[k])
  {
    var w := Wanted(msgs[..n])[k];
    assert msgs[..n][w] == msgs[w] && outs[..n][w] == outs[w];
  }

  lemma {:induction false} OneAnswerEach(msgs: seq<Message>, outs: seq<Outcome>)
    requires |msgs| == |outs|
    ensures AnswersBatch(msgs, outs, Answers(msgs, outs))
  {
    if msgs != [] {
      var n := |msgs| - 1;
      OneAnswerEach(msgs[..n], outs[..n]);
      AnswerCase(msgs[n], outs[n]);
      var rest, ws := Answers(msgs[..n], outs[..n]), Wanted(msgs);
      forall k | 0 <= k < |Answers(msgs, outs)|
        ensures AnswersRequest(msgs[ws[k]], outs[ws[k]], Answers(msgs, outs)[k])
      {
        if k < |rest| { AnswersPrefix(msgs, outs, n, rest, k); }
      }
    }
  }

  /** What is written for a batch: an error for an empty one, nothing if no message wants an answer,
      otherwise the array of answers. */
  lemma BatchAnswered(msgs: seq<Message>, outs: seq<Outcome>)
    requires |msgs| == |outs|
    ensures match BatchReply(msgs, outs)
            case Single(m) =>
              && msgs == [] && m.id == Some("null") && m.result.None? && m.error.Some?
              && m.error.value.code == -32600 && m.error.value.message == "empty batch"
            case Nothing => msgs != [] && forall i :: 0 <= i < |msgs| ==> !WantsAnswer(msgs[i])
            case Array(ms) => ms != [] && AnswersBatch(msgs, outs, ms)
  {
    OneAnswerEach(msgs, outs);
  }

  /** A single message is answered, by one message, exactly when it wants an answer. */
  lemma MessageAnswered(m: Message, out: Outcome)
    ensures match HandleMsg(m, out)
            case Nothing => !WantsAnswer(m)
            case Single(a) => WantsAnswer(m) && AnswersRequest(m, out, a)
            case Array(_) => false
  {
  }

  /** What a peer decodes: empty fields are omitted by the encoder, absent ones are nil. */
  function OverWire(m: Message): Message {
    Message(Present(m.id), m.name, Present(m.params), m.error, Present(m.result))
  }

  function Present(r: Option<Raw>): Option<Raw> {
    if r == Some("") then None else r
  }

  function ArrivesAs(ms: seq<Message>): seq<Message> {
    seq(|ms|, i requires 0 <= i < |ms| => OverWire(ms[i]))
  }

  /** A notification as Notifier.send writes it. */
  function SubscriptionMessage(namespace: string, params: Json): Message {
    Message(None, namespace + NotificationSuffix, Some(params), None, None)
  }

  lemma AnswerAbsorbed(m: Message, out: Outcome)
    requires HandleCallMsg(m, out).Some?
    ensures Immediate(OverWire(HandleCallMsg(m, out).value))
  {
  }

  lemma {:induction false} AnswersAbsorbed(msgs: seq<Message>, outs: seq<Outcome>)
    requires |msgs| == |outs|
    ensures forall k :: 0 <= k < |Answers(msgs, outs)| ==> Immediate(OverWire(Answers(msgs, outs)[k]))
  {
    if msgs != [] {
      var n := |msgs| - 1;
      AnswersAbsorbed(msgs[..n], outs[..n]);
      if HandleCallMsg(msgs[n], outs[n]).Some? { AnswerAbsorbed(msgs[n], outs[n]); }
    }
  }

  lemma {:induction false} ImmediateUnanswered(msgs: seq<Message>, outs: seq<Outcome>)
    requires |msgs| == |outs| && forall k :: 0 <= k < |msgs| ==> Immediate(msgs[k])
    ensures Answers(msgs, outs) == []
  {
    if msgs != [] { ImmediateUnanswered(msgs[..|msgs| - 1], outs[..|msgs| - 1]); }
  }

  /** How a peer reacts to something written to it; `outs` are the outcomes of any calls in it. */
  function Reaction(w: Written, outs: seq<Outcome>): Written
    requires w.Single? ==> |outs| == 1
    requires w.Array? ==> |outs| == |w.ms|
  {
    match w
    case Nothing => Nothing
    case Single(m) => HandleMsg(OverWire(m), outs[0])
    case Array(ms) => BatchReply(ArrivesAs(ms), outs)
  }

  /** No reply loops: whatever a handler reads, its peer writes nothing in reaction to what the
      handler writes. */
  lemma NoReplyToBatchReply(msgs: seq<Message>, outs: seq<Outcome>, outs': seq<Outcome>)
    requires |msgs| == |outs|
    requires var w := BatchReply(msgs, outs); (w.Single? ==> |outs'| == 1) && (w.Array? ==> |outs'| == |w.ms|)
    ensures Reaction(BatchReply(msgs, outs), outs') == Nothing
  {
    AnswersAbsorbed(msgs, outs);
    if BatchReply(msgs, outs).Array? {
      ImmediateUnanswered(ArrivesAs(Answers(msgs, outs)), outs');
    }
  }

  lemma NoReplyToReply(m: Message, out: Outcome, outs': seq<Outcome>)
    requires HandleMsg(m, out).Single? ==> |outs'| == 1
    ensures !HandleMsg(m, out).Array? && Reaction(HandleMsg(m, out), outs') == Nothing
  {
    if HandleCallMsg(m, out).Some? { AnswerAbsorbed(m, out); }
  }

  /** The same for subscription notifications and for the parse error that `read` reports. */
  lemma NoReplyToUnsolicited(namespace: string, params: Json, e: Err, outs': seq<Outcome>)
    requires |outs'| == 1
    ensures Reaction(Single(SubscriptionMessage(namespace, params)), outs') == Nothing
    ensures Reaction(Single(ErrorMessage(e)), outs') == Nothing
  {
    var m := SubscriptionMessage(namespace, params);
    assert m.name[|m.name| - |NotificationSuffix|..] == NotificationSuffix;
  }
}
