/** A client subscription: the forwarding goroutine, the user's Unsubscribe and the dispatcher
    (util/rpc/subscription.go, `ClientSubscription`). */
module ClientSubscription {
  import opened Common

  const MaxBuffer: nat := 20000

  datatype SubError = Unsubscribed | QueueOverflow | Undecodable | ClientQuit | ConnectionLost

  /** Where `run` stands. */
  datatype RunPc =
    | NotStarted
    | Forwarding
    | ClosingForwardDone(unsubscribe: bool, err: Option<SubError>)
    | Unsubscribing(err: Option<SubError>)
    | Reporting(err: Option<SubError>)
    | Exiting
    | Exited

  /** Where the one call of Unsubscribe that passes `errOnce` stands. */
  datatype UserPc = NotCalled | Selecting | AwaitingUnsubDone | ClosingErr | Returned

  /** Whether the dispatcher is inside `deliver` or `close` of this subscription. */
  datatype DispatcherPc = Idle | Delivering(note: Note) | Closing(err: Option<SubError>)

  datatype Sub = Sub(
    run: RunPc, user: UserPc, dispatcher: DispatcherPc,
    buffer: seq<Note>,
    out: seq<Note>,                  // values sent on the user's channel
    accepted: seq<Note>,             // values that forward put in its buffer
    offered: seq<Note>,              // values the dispatcher brought to deliver
    forwardDone: nat,                // number of closings
    unsubDone: nat,
    errSent: seq<Option<SubError>>,  // values put on sub.err
    errCloses: nat,
    errLate: nat)                    // values put on sub.err after it was closed

  const Fresh := Sub(NotStarted, NotCalled, Idle, [], [], [], [], 0, 0, [], 0, 0)

  datatype Step =
    | Start
    | TakeIn(decodes: bool)          // forward receives from the dispatcher
    | SendOut                        // the user's channel accepts the first queued value
    | TakeQuitFromDispatcher
    | TakeQuitFromUser
    | CloseForwardDone
    | UnsubscribeCallReturns
    | Report
    | CloseUnsubDone
    | UserCalls
    | UserSeesUnsubDone
    | UserClosesErr
    | BeginDeliver(note: Note)
    | BeginClose(err: Option<SubError>)
    | DispatcherSeesForwardDone

  ghost predicate Enabled(s: Sub, step: Step) {
    match step
    case Start => s.run.NotStarted?
    case TakeIn(_) => s.run.Forwarding? && s.dispatcher.Delivering?
    case SendOut => s.run.Forwarding? && s.buffer != []
    case TakeQuitFromDispatcher => s.run.Forwarding? && s.dispatcher.Closing?
    case TakeQuitFromUser => s.run.Forwarding? && s.user.Selecting?
    case CloseForwardDone => s.run.ClosingForwardDone?
    case UnsubscribeCallReturns => s.run.Unsubscribing?
    case Report => s.run.Reporting?
    case CloseUnsubDone => s.run.Exiting?
    case UserCalls => s.user.NotCalled?
    case UserSeesUnsubDone => (s.user.Selecting? || s.user.AwaitingUnsubDone?) && s.unsubDone > 0
    case UserClosesErr => s.user.ClosingErr?
    case BeginDeliver(_) => s.dispatcher.Idle?
    case BeginClose(err) => s.dispatcher.Idle? && (err.None? || err.value.ClientQuit? || err.value.ConnectionLost?)
    case DispatcherSeesForwardDone => !s.dispatcher.Idle? && s.forwardDone > 0
  }

  /** Case 1 of the forwarding loop. */
  function Take(s: Sub, note: Note, decodes: bool): Sub {
    if !decodes then s.(run := ClosingForwardDone(true, Some(Undecodable)))
    else if |s.buffer| == MaxBuffer then s.(run := ClosingForwardDone(true, Some(QueueOverflow)))
    else s.(buffer := s.buffer + [note], accepted := s.accepted + [note])
  }

  /** Case 2 of the forwarding loop. */
  function Forwarded(s: Sub): Sub
    requires s.buffer != []
  {
    s.(out := s.out + [s.buffer[0]], buffer := s.buffer[1..])
  }

  /** Case 0 of the forwarding loop. */
  function Quit(s: Sub, err: Option<SubError>): Sub {
    s.(run := if err == Some(Unsubscribed) then ClosingForwardDone(true, None) else ClosingForwardDone(false, err))
  }

  /** ErrClientQuit is reported as a nil error. */
  function Reported(e: SubError): Option<SubError> {
    if e.ClientQuit? then None else Some(e)
  }

  function SendErr(s: Sub, err: Option<SubError>): Sub {
    if err.None? then s
    else
      s.(errSent := s.errSent + [Reported(err.value)],
         errLate := if s.errCloses > 0 then s.errLate + 1 else s.errLate)
  }

  ghost function Apply(s: Sub, step: Step): Sub
    requires Enabled(s, step)
  {
    match step
    case Start => s.(run := Forwarding)
    case TakeIn(decodes) => Take(s, s.dispatcher.note, decodes).(dispatcher := Idle)
    case SendOut => Forwarded(s)
    case TakeQuitFromDispatcher => Quit(s, s.dispatcher.err).(dispatcher := Idle)
    case TakeQuitFromUser => Quit(s, Some(Unsubscribed)).(user := AwaitingUnsubDone)
    case CloseForwardDone =>
      s.(forwardDone := s.forwardDone + 1,
         run := if s.run.unsubscribe then Unsubscribing(s.run.err) else Reporting(s.run.err))
    case UnsubscribeCallReturns => s.(run := Reporting(s.run.err))
    case Report => SendErr(s, s.run.err).(run := Exiting)
    case CloseUnsubDone => s.(unsubDone := s.unsubDone + 1, run := Exited)
    case UserCalls => s.(user := Selecting)
    case UserSeesUnsubDone => s.(user := ClosingErr)
    case UserClosesErr => s.(errCloses := s.errCloses + 1, user := Returned)
    case BeginDeliver(note) => s.(dispatcher := Delivering(note), offered := s.offered + [note])
    case BeginClose(err) => s.(dispatcher := Closing(err))
    case DispatcherSeesForwardDone => s.(dispatcher := Idle)
  }

  ghost predicate IsRun(states: seq<Sub>, steps: seq<Step>) {
    && |states| == |steps| + 1
    && states[0] == Fresh
    && forall k :: 0 <= k < |steps| ==> Enabled(states[k], steps[k]) && states[k + 1] == Apply(states[k], steps[k])
  }

  /** What the dispatcher holds in its hands. */
  function InHand(d: DispatcherPc): seq<Note> {
    if d.Delivering? then [d.note] else []
  }

  ghost predicate StillForwarding(s: Sub) {
    s.run.NotStarted? || s.run.Forwarding?
  }

  ghost predicate PastForwarding(s: Sub) {
    s.run.Unsubscribing? || s.run.Reporting? || s.run.Exiting? || s.run.Exited?
  }

  /** The error that `run` carries to sub.err, or has put there. */
  ghost predicate Carries(s: Sub, e: SubError) {
    || ((s.run.ClosingForwardDone? || s.run.Unsubscribing? || s.run.Reporting?) && s.run.err == Some(e))
    || Some(e) in s.errSent
  }

  ghost predicate Inv(s: Sub) {
    && s.out + s.buffer == s.accepted && |s.buffer| <= MaxBuffer
    && s.accepted <= s.offered
    && (StillForwarding(s) ==> s.accepted + InHand(s.dispatcher) == s.offered)
    && s.forwardDone == (if PastForwarding(s) then 1 else 0)
    && s.unsubDone == (if s.run.Exited? then 1 else 0)
    && |s.errSent| <= (if s.run.Exiting? || s.run.Exited? then 1 else 0)
    && s.errLate == 0
    && s.errCloses == (if s.user.Returned? then 1 else 0)
    && (s.user.ClosingErr? || s.user.Returned? ==> s.run.Exited?)
    && (s.dispatcher.Closing? ==> s.dispatcher.err != Some(QueueOverflow))
    && (Carries(s, QueueOverflow) ==> |s.buffer| == MaxBuffer)
  }

  lemma StepKeeps(s: Sub, step: Step)
    requires Inv(s) && Enabled(s, step)
    ensures Inv(Apply(s, step))
  {
    match step
    case SendOut => assert s.out + s.buffer == s.out + [s.buffer[0]] + s.buffer[1..];
    case _ =>
  }

  lemma {:induction false} RunKeeps(states: seq<Sub>, steps: seq<Step>, k: nat)
    requires IsRun(states, steps) && k < |states|
    ensures Inv(states[k])
  {
    if k > 0 {
      RunKeeps(states, steps, k - 1);
      StepKeeps(states[k - 1], steps[k - 1]);
    }
  }

  /** Shutdown: each signal channel is closed at most once, sub.err gets at most one value and none
      after it was closed, and overflow means that 20000 values are queued. */
  lemma ShutdownSafe(states: seq<Sub>, steps: seq<Step>, k: nat)
    requires IsRun(states, steps) && k < |states|
    ensures states[k].forwardDone <= 1 && states[k].unsubDone <= 1 && states[k].errCloses <= 1
    ensures |states[k].errSent| <= 1 && states[k].errLate == 0
    ensures |states[k].buffer| <= 20000
    ensures Some(QueueOverflow) in states[k].errSent ==> |states[k].buffer| == 20000
    ensures states[k].out <= states[k].offered
    ensures states[k].errCloses == 1 <==> states[k].user.Returned?
    ensures states[k].user.Returned? ==> states[k].run.Exited? && states[k].unsubDone == 1
  {
    RunKeeps(states, steps, k);
  }

  // ---------- how a subscription ends ----------

  /** Why forwarding ended: whether the server is to be told, and the error for the user. */
  datatype Ending = Ending(tellServer: bool, err: Option<SubError>)

  /** What ends forwarding in a step: a value that does not decode, or that comes while 20000 are queued;
      the user's Unsubscribe; or the dispatcher, whose connection is gone. Only the last needs no call to
      the server. */
  ghost function EndsBy(s: Sub, step: Step): Option<Ending> {
    if !s.run.Forwarding? then None
    else match step
      case TakeIn(decodes) =>
        if !decodes then Some(Ending(true, Some(Undecodable)))
        else if |s.buffer| == 20000 then Some(Ending(true, Some(QueueOverflow)))
        else None
      case TakeQuitFromUser => Some(Ending(true, None))
      case TakeQuitFromDispatcher => if s.dispatcher.Closing? then Some(Ending(false, s.dispatcher.err)) else None
      case _ => None
  }

  /** Why forwarding had ended by state `k`. */
  ghost function EndOf(states: seq<Sub>, steps: seq<Step>, k: nat): Option<Ending>
    requires |states| == |steps| + 1 && k <= |steps|
  {
    if k == 0 then None
    else
      var e := EndOf(states, steps, k - 1);
      if e.Some? then e else EndsBy(states[k - 1], steps[k - 1])
  }

  /** How many calls to the server's unsubscribe method have returned. */
  ghost function ServerCalls(steps: seq<Step>, k: nat): nat
    requires k <= |steps|
  {
    if k == 0 then 0 else ServerCalls(steps, k - 1) + if steps[k - 1].UnsubscribeCallReturns? then 1 else 0
  }

  /** The error as the user sees it: a client that quits is no error. */
  ghost predicate Shown(err: Option<SubError>, sent: seq<Option<SubError>>) {
    if err.None? then sent == []
    else if err == Some(ClientQuit) then sent == [None]
    else sent == [err]
  }

  ghost predicate FollowsEnd(s: Sub, end: Option<Ending>, calls: nat) {
    && (s.dispatcher.Closing? ==> s.dispatcher.err != Some(Unsubscribed))
    && (match s.run
        case NotStarted => end.None? && calls == 0
        case Forwarding => end.None? && calls == 0
        case ClosingForwardDone(tell, err) => end == Some(Ending(tell, err)) && calls == 0
        case Unsubscribing(err) => end == Some(Ending(true, err)) && calls == 0
        case Reporting(err) => end.Some? && end.value.err == err && calls == if end.value.tellServer then 1 else 0
        case _ => end.Some? && calls == if end.value.tellServer then 1 else 0)
    && (if s.run.Exiting? || s.run.Exited? then end.Some? && Shown(end.value.err, s.errSent) else s.errSent == [])
  }

  lemma FollowsEndKept(s: Sub, step: Step, end: Option<Ending>, calls: nat)
    requires Enabled(s, step) && FollowsEnd(s, end, calls)
    ensures FollowsEnd(Apply(s, step), if end.Some? then end else EndsBy(s, step),
                       calls + if step.UnsubscribeCallReturns? then 1 else 0)
  {
  }

  lemma {:induction false} RunFollowsEnd(states: seq<Sub>, steps: seq<Step>, k: nat)
    requires IsRun(states, steps) && k < |states|
    ensures FollowsEnd(states[k], EndOf(states, steps, k), ServerCalls(steps, k))
  {
    if k > 0 {
      RunFollowsEnd(states, steps, k - 1);
      FollowsEndKept(states[k - 1], steps[k - 1], EndOf(states, steps, k - 1), ServerCalls(steps, k - 1));
    }
  }

  /** Once `run` is through, forwarding has ended for one of these reasons; the server was told, once, if
      and only if the reason was not the dispatcher's; and sub.err got exactly the error of that reason. */
  lemma EndsProperly(states: seq<Sub>, steps: seq<Step>, k: nat)
    requires IsRun(states, steps) && k < |states| && states[k].run.Exited?
    ensures var end := EndOf(states, steps, k);
            && end.Some? && ServerCalls(steps, k) == (if end.value.tellServer then 1 else 0)
            && Shown(end.value.err, states[k].errSent)
  {
    RunFollowsEnd(states, steps, k);
  }

  /** One of the two cases of the select in `deliver` or `close` can fire. */
  ghost predicate DispatcherReady(s: Sub) {
    || (s.dispatcher.Delivering? && s.run.Forwarding?)
    || (s.dispatcher.Closing? && s.run.Forwarding?)
    || s.forwardDone > 0
  }

  /** Whatever the user does with the channel, a dispatcher inside deliver or close can go on, now or
      after one step that `run` takes on its own. */
  lemma DispatcherNeverStuck(states: seq<Sub>, steps: seq<Step>, k: nat)
    requires IsRun(states, steps) && k < |states| && !states[k].dispatcher.Idle?
    ensures || DispatcherReady(states[k])
            || (Enabled(states[k], Start) && DispatcherReady(Apply(states[k], Start)))
            || (Enabled(states[k], CloseForwardDone) && DispatcherReady(Apply(states[k], CloseForwardDone)))
  {
    RunKeeps(states, steps, k);
  }

  /** While forwarding, each case of the select can be taken that its peer offers, and `run` goes on by
      itself afterwards. */
  lemma Offers(s: Sub)
    ensures s.run.Forwarding? && s.dispatcher.Delivering? ==> Enabled(s, TakeIn(true)) && Enabled(s, TakeIn(false))
    ensures s.run.Forwarding? && s.dispatcher.Closing? ==> Enabled(s, TakeQuitFromDispatcher)
    ensures s.run.Forwarding? && s.user.Selecting? ==> Enabled(s, TakeQuitFromUser)
    ensures s.run.Forwarding? && s.buffer != [] ==> Enabled(s, SendOut)
    ensures s.run.NotStarted? ==> Enabled(s, Start)
    ensures s.run.ClosingForwardDone? ==> Enabled(s, CloseForwardDone)
    ensures s.run.Unsubscribing? ==> Enabled(s, UnsubscribeCallReturns)
    ensures s.run.Reporting? ==> Enabled(s, Report)
    ensures s.run.Exiting? ==> Enabled(s, CloseUnsubDone)
    ensures s.user.NotCalled? ==> Enabled(s, UserCalls)
    ensures s.unsubDone > 0 && (s.user.Selecting? || s.user.AwaitingUnsubDone?) ==> Enabled(s, UserSeesUnsubDone)
    ensures s.user.ClosingErr? ==> Enabled(s, UserClosesErr)
  {
  }

  /** `forward` as it runs: one select per iteration, until a case returns. */
  datatype Choice = QuitCase(err: Option<SubError>) | InCase(note: Note, decodes: bool) | OutCase

  ghost function Forward(s: Sub, cs: seq<Choice>): Sub {
    if cs == [] then s
    else
      var t := Forward(s, cs[..|cs| - 1]);
      var c := cs[|cs| - 1];
      if !t.run.Forwarding? then t
      else match c
        case QuitCase(err) => Quit(t, err)
        case InCase(note, decodes) => Take(t, note, decodes)
        case OutCase => if t.buffer != [] then Forwarded(t) else t
  }

  /** The loop keeps only a queue; `sent` is what it put on the user's channel. The send case is not
      offered while the queue is empty. */
  method ForwardLoop(cs: seq<Choice>)
    returns (sent: seq<Note>, queued: seq<Note>, done: bool, unsubscribe: bool, err: Option<SubError>)
    ensures var t := Forward(Fresh.(run := Forwarding), cs);
            && sent == t.out && queued == t.buffer
            && (done <==> !t.run.Forwarding?)
            && (done ==> t.run == ClosingForwardDone(unsubscribe, err))
    ensures done <==> exists i :: 0 <= i < |cs| && Stops(cs, i)
    ensures done ==> exists i :: 0 <= i < |cs| && Stops(cs, i) && StopsWith(cs[i], unsubscribe, err)
  {
    sent, queued, done, unsubscribe, err := [], [], false, false, None;
    var i := 0;
    ghost var s := Fresh.(run := Forwarding);
    while i < |cs| && !done
      invariant 0 <= i <= |cs|
      invariant var t := Forward(s, cs[..i]);
                && sent == t.out && queued == t.buffer
                && (if done then t.run == ClosingForwardDone(unsubscribe, err) else t.run == Forwarding)
      decreases |cs| - i
    {
      assert cs[..i + 1][..i] == cs[..i];
      match cs[i] {
      case QuitCase(e) =>
        done, unsubscribe, err := true, e == Some(Unsubscribed), if e == Some(Unsubscribed) then None else e;
      case InCase(note, decodes) =>
        if !decodes {
          done, unsubscribe, err := true, true, Some(Undecodable);
        } else if |queued| == MaxBuffer {
          done, unsubscribe, err := true, true, Some(QueueOverflow);
        } else {
          queued := queued + [note];
        }
      case OutCase =>
        if queued != [] {
          sent, queued := sent + [queued[0]], queued[1..];
        }
      }
      i := i + 1;
    }
    ForwardStops(s, cs, i);
    assert cs[..|cs|] == cs;
    ForwardEnds(cs);
  }

  /** Before choice `i`, so many values are queued. */
  ghost function QueuedAt(cs: seq<Choice>, i: nat): nat
    requires i <= |cs|
  {
    |Forward(Fresh.(run := Forwarding), cs[..i]).buffer|
  }

  /** The loop is still running at choice `i`, and ends there: by a quit, by a value that does not decode,
      or by one that comes while 20000 are queued. */
  ghost predicate Stops(cs: seq<Choice>, i: nat)
    requires i < |cs|
  {
    && Forward(Fresh.(run := Forwarding), cs[..i]).run.Forwarding?
    && (cs[i].QuitCase? || (cs[i].InCase? && (!cs[i].decodes || QueuedAt(cs, i) == 20000)))
  }

  /** With what the loop returns: the server is to be told unless the dispatcher quit; the error is the
      dispatcher's, none for the user's own quit, or what was wrong with the value. */
  ghost predicate StopsWith(c: Choice, unsubscribe: bool, err: Option<SubError>) {
    && (unsubscribe <==> c.InCase? || c == QuitCase(Some(Unsubscribed)))
    && (c.QuitCase? ==> err == if c.err == Some(Unsubscribed) then None else c.err)
    && (c.InCase? ==> err == Some(if c.decodes then QueueOverflow else Undecodable))
  }

  lemma {:induction false} ForwardEnds(cs: seq<Choice>)
    ensures var t := Forward(Fresh.(run := Forwarding), cs);
            if t.run.Forwarding? then forall i :: 0 <= i < |cs| ==> !Stops(cs, i)
            else && t.run.ClosingForwardDone?
                 && exists i :: 0 <= i < |cs| && Stops(cs, i) && StopsWith(cs[i], t.run.unsubscribe, t.run.err)
  {
    if cs != [] {
      var n := |cs| - 1;
      ForwardEnds(cs[..n]);
      forall i | 0 <= i < n
        ensures Stops(cs, i) <==> Stops(cs[..n], i)
      {
        assert cs[..n][..i] == cs[..i];
      }
      var t := Forward(Fresh.(run := Forwarding), cs[..n]);
      if t.run.Forwarding? {
        assert Stops(cs, n) <==> !Forward(Fresh.(run := Forwarding), cs).run.Forwarding?;
      } else {
        var i :| 0 <= i < n && Stops(cs[..n], i) && StopsWith(cs[..n][i], t.run.unsubscribe, t.run.err);
        assert Stops(cs, i) && cs[i] == cs[..n][i];
      }
    }
  }

  lemma {:induction false} ForwardStops(s: Sub, cs: seq<Choice>, i: nat)
    requires i <= |cs| && (i < |cs| ==> !Forward(s, cs[..i]).run.Forwarding?)
    ensures Forward(s, cs) == Forward(s, cs[..i])
  {
    if i < |cs| {
      var n := |cs| - 1;
      assert cs[..n][..i] == cs[..i];
      if i < n { ForwardStops(s, cs[..n], i); }
    } else {
      assert cs[..i] == cs;
    }
  }

  /** The loop neither loses, repeats nor reorders: it sent and still holds what it took, in order. */
  lemma {:induction false} ForwardConserves(cs: seq<Choice>)
    ensures var t := Forward(Fresh.(run := Forwarding), cs);
            t.out + t.buffer == t.accepted && |t.buffer| <= MaxBuffer && t.accepted <= Taken(cs)
    ensures Forward(Fresh.(run := Forwarding), cs).run.Forwarding? ==>
              Forward(Fresh.(run := Forwarding), cs).accepted == Taken(cs)
  {
    if cs != [] {
      var n := |cs| - 1;
      ForwardConserves(cs[..n]);
      var t := Forward(Fresh.(run := Forwarding), cs[..n]);
      if cs[n].OutCase? && t.buffer != [] {
        assert t.out + t.buffer == t.out + [t.buffer[0]] + t.buffer[1..];
      }
    }
  }

  /** All values received on sub.in. */
  ghost function Taken(cs: seq<Choice>): seq<Note> {
    if cs == [] then []
    else Taken(cs[..|cs| - 1]) + if cs[|cs| - 1].InCase? then [cs[|cs| - 1].note] else []
  }
}
