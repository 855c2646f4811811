/** A subscription from Notify on the server to the user's channel on the client, over one FIFO
    connection shared with other traffic. Subscription ids are unique, so the rest of the traffic
    neither answers this subscribe call nor carries notifications for it. */
module EndToEnd {
  import opened Common
  import N = Notifications
  import C = ClientSubscription

  /** What the client's handler knows of the subscribe call. */
  datatype ClientPc =
    | AwaitingAnswer
    | Subscribed        // clientSubs holds the id
    | Refused           // the answer was an error
    | GivenUp           // the call timed out before its answer
    | Disconnected

  datatype Link = Link(
    server: N.Server,
    wire: seq<N.Item>,
    answerSeen: bool,          // the client has handled the answer
    arrived: seq<Note>,        // notifications the client has handled
    client: ClientPc,
    registered: bool,          // the client has been Subscribed
    sub: C.Sub)

  datatype Step =
    | ServerStep(n: N.Step)
    | OtherWrite
    | HandleNext
    | CallTimeout
    | Disconnect(err: Option<C.SubError>)
    | SubStep(c: C.Step)

  const Init := Link(N.NewServer, [], false, [], AwaitingAnswer, false, C.Fresh)

  ghost predicate Enabled(l: Link, step: Step) {
    match step
    case ServerStep(n) => N.Enabled(l.server, n)
    case OtherWrite => true
    case HandleNext => l.wire != [] && l.sub.dispatcher.Idle? && !l.client.Disconnected?
    case CallTimeout => l.client.AwaitingAnswer?
    case Disconnect(err) => !l.client.Disconnected? && C.Enabled(l.sub, C.BeginClose(err))
    case SubStep(c) => l.registered && !c.BeginDeliver? && !c.BeginClose? && C.Enabled(l.sub, c)
  }

  /** handleImmediate on the next message. */
  ghost function Handle(l: Link): Link
    requires l.wire != [] && l.sub.dispatcher.Idle?
  {
    var t := l.(wire := l.wire[1..]);
    match l.wire[0]
    case Other => t
    case Answer(accept) =>
      if !l.client.AwaitingAnswer? then t.(answerSeen := true)
      else if accept then t.(answerSeen := true, client := Subscribed, registered := true)
      else t.(answerSeen := true, client := Refused)
    case Notification(note) =>
      var u := t.(arrived := l.arrived + [note]);
      if l.client.Subscribed? then u.(sub := C.Apply(l.sub, C.BeginDeliver(note))) else u
  }

  ghost function Apply(l: Link, step: Step): Link
    requires Enabled(l, step)
  {
    match step
    case ServerStep(n) => l.(server := N.Apply(l.server, n), wire := l.wire + N.Output(l.server, n))
    case OtherWrite => l.(wire := l.wire + [N.Other])
    case HandleNext => Handle(l)
    case CallTimeout => l.(client := GivenUp)
    case Disconnect(err) =>
      l.(client := Disconnected, sub := if l.client.Subscribed? then C.Apply(l.sub, C.BeginClose(err)) else l.sub)
    case SubStep(c) => l.(sub := C.Apply(l.sub, c))
  }

  ghost predicate IsRun(links: seq<Link>, steps: seq<Step>) {
    && |links| == |steps| + 1
    && links[0] == Init
    && forall k :: 0 <= k < |steps| ==> Enabled(links[k], steps[k]) && links[k + 1] == Apply(links[k], steps[k])
  }

  /** The notifications among the messages in flight. */
  ghost function Notes(wire: seq<N.Item>): seq<Note> {
    if wire == [] then []
    else (if wire[0].Notification? then [wire[0].note] else []) + Notes(wire[1..])
  }

  lemma {:induction false} NotesAppend(wire: seq<N.Item>, item: N.Item)
    ensures Notes(wire + [item]) == Notes(wire) + if item.Notification? then [item.note] else []
  {
    if wire != [] {
      NotesAppend(wire[1..], item);
      assert (wire + [item])[1..] == wire[1..] + [item];
    }
  }

  /** The answer comes once, and no notification comes before it. `seen` says whether the client has
      it already, `answer` what the server wrote. */
  ghost predicate Ordered(wire: seq<N.Item>, seen: bool, answer: Option<bool>) {
    if wire == [] then seen == answer.Some?
    else match wire[0]
      case Other => Ordered(wire[1..], seen, answer)
      case Answer(accept) => !seen && answer == Some(accept) && Ordered(wire[1..], true, answer)
      case Notification(_) => seen && Ordered(wire[1..], seen, answer)
  }

  /** Appending more traffic; a notification only once the answer is out. */
  lemma {:induction false} OrderedAppend(wire: seq<N.Item>, seen: bool, answer: Option<bool>, item: N.Item)
    requires Ordered(wire, seen, answer) && !item.Answer?
    requires item.Notification? ==> answer.Some?
    ensures Ordered(wire + [item], seen, answer)
  {
    if wire != [] {
      OrderedAppend(wire[1..], seen || wire[0].Answer?, answer, item);
      assert (wire + [item])[1..] == wire[1..] + [item];
    }
  }

  lemma {:induction false} OrderedAnswer(wire: seq<N.Item>, seen: bool, accept: bool)
    requires Ordered(wire, seen, None)
    ensures Ordered(wire + [N.Answer(accept)], seen, Some(accept))
  {
    if wire != [] {
      assert (wire + [N.Answer(accept)])[1..] == wire[1..] + [N.Answer(accept)];
      OrderedAnswer(wire[1..], seen, accept);
    }
  }

  /** The write of the answer failed. */
  ghost predicate Lost(s: N.Server) {
    s.answer.None? && (s.pc.Activating? || s.pc.Active? || s.pc.Aborted?)
  }

  ghost predicate NoAnswer(wire: seq<N.Item>) {
    forall i :: 0 <= i < |wire| ==> !wire[i].Answer?
  }

  /** Before the answer is out, it is neither in flight nor seen. */
  lemma {:induction false} OrderedNone(wire: seq<N.Item>, seen: bool)
    requires Ordered(wire, seen, None)
    ensures !seen && NoAnswer(wire)
  {
    if wire != [] { OrderedNone(wire[1..], seen || wire[0].Answer?); }
  }

  /** The answer in flight: as it must be if it was written, and absent if its write failed. */
  ghost predicate AnswerOk(wire: seq<N.Item>, seen: bool, s: N.Server) {
    if Lost(s) then NoAnswer(wire) && !seen else Ordered(wire, seen, s.answer)
  }

  ghost predicate Inv(l: Link) {
    N.Inv(l.server) && C.Inv(l.sub) && LinkOk(l)
  }

  /** What joins the two ends. */
  ghost predicate LinkOk(l: Link) {
    && AnswerOk(l.wire, l.answerSeen, l.server)
    && l.arrived + Notes(l.wire) == l.server.written
    && (l.client.AwaitingAnswer? ==> !l.answerSeen)
    && (!l.answerSeen && !Lost(l.server) ==> l.arrived == [])
    && (l.client.Subscribed? ==> l.registered)
    && (l.registered ==> l.client.Subscribed? || l.client.Disconnected?)
    && (if l.registered then l.answerSeen && l.server.answer == Some(true) && l.sub.offered == l.arrived
        else l.sub == C.Fresh)
    && (l.client.Refused? ==> l.server.answer == Some(false))
  }

  /** A step of the server writes at most one message. */
  lemma WritesOne(s: N.Server, n: N.Step)
    requires N.Enabled(s, n)
    ensures N.Output(s, n) == [] || |N.Output(s, n)| == 1
    ensures N.Apply(s, n).written ==
            s.written + if N.Output(s, n) != [] && N.Output(s, n)[0].Notification? then [N.Output(s, n)[0].note] else []
  {
  }

  /** The answer is attempted when the call has returned, notifications come later. */
  lemma WritesWhen(s: N.Server, n: N.Step)
    requires N.Enabled(s, n) && (s.pc.InCallback? || s.pc.CallReturned? ==> s.answer.None?)
    ensures n.WriteAnswer? ==> !Lost(s) && s.answer.None?
    ensures !n.WriteAnswer? ==> N.Apply(s, n).answer == s.answer && (Lost(s) <==> Lost(N.Apply(s, n)))
    ensures N.Output(s, n) != [] && N.Output(s, n)[0].Notification? ==> s.answer.Some? || Lost(s)
    ensures N.Output(s, n) != [] && N.Output(s, n)[0].Answer? ==> n.WriteAnswer? && n.ok
  {
  }

  lemma WireNotes(s: N.Server, n: N.Step, wire: seq<N.Item>, arrived: seq<Note>)
    requires N.Enabled(s, n) && arrived + Notes(wire) == s.written
    ensures arrived + Notes(wire + N.Output(s, n)) == N.Apply(s, n).written
  {
    WritesOne(s, n);
    var o := N.Output(s, n);
    if o == [] {
      assert wire + o == wire;
    } else {
      assert o == [o[0]];
      NotesAppend(wire, o[0]);
    }
  }

  lemma WireAnswer(s: N.Server, n: N.Step, wire: seq<N.Item>, seen: bool)
    requires N.Enabled(s, n) && (s.pc.InCallback? || s.pc.CallReturned? ==> s.answer.None?)
    requires AnswerOk(wire, seen, s)
    ensures AnswerOk(wire + N.Output(s, n), seen, N.Apply(s, n))
  {
    WritesOne(s, n);
    WritesWhen(s, n);
    var o := N.Output(s, n);
    if n.WriteAnswer? {
      OrderedNone(wire, seen);
      if n.ok { OrderedAnswer(wire, seen, n.accept); } else { assert wire + o == wire; }
    } else if o == [] {
      assert wire + o == wire;
    } else if !Lost(s) {
      assert o == [o[0]];
      OrderedAppend(wire, seen, s.answer, o[0]);
    }
  }

  lemma ServerLink(l: Link, n: N.Step)
    requires LinkOk(l) && Enabled(l, ServerStep(n))
    requires l.server.pc.InCallback? || l.server.pc.CallReturned? ==> l.server.answer.None?
    ensures LinkOk(Apply(l, ServerStep(n)))
  {
    WritesWhen(l.server, n);
    WireNotes(l.server, n, l.wire, l.arrived);
    WireAnswer(l.server, n, l.wire, l.answerSeen);
  }

  lemma HandleLink(l: Link)
    requires LinkOk(l) && Enabled(l, HandleNext)
    ensures LinkOk(Apply(l, HandleNext))
  {
    if l.wire[0].Notification? {
      assert l.arrived + Notes(l.wire) == l.arrived + [l.wire[0].note] + Notes(l.wire[1..]);
    } else {
      assert Notes(l.wire) == Notes(l.wire[1..]);
    }
  }

  lemma OtherWriteLink(l: Link)
    requires LinkOk(l)
    ensures LinkOk(Apply(l, OtherWrite))
  {
    if !Lost(l.server) { OrderedAppend(l.wire, l.answerSeen, l.server.answer, N.Other); }
    NotesAppend(l.wire, N.Other);
  }

  lemma ClientLink(l: Link, step: Step)
    requires LinkOk(l) && Enabled(l, step) && (step.CallTimeout? || step.Disconnect? || step.SubStep?)
    ensures LinkOk(Apply(l, step))
  {
  }

  /** The subscription takes a step, or none. */
  lemma SubKept(l: Link, step: Step)
    requires C.Inv(l.sub) && Enabled(l, step)
    ensures C.Inv(Apply(l, step).sub)
  {
    match step
    case ServerStep(_) =>
    case OtherWrite =>
    case HandleNext => if l.wire[0].Notification? { C.StepKeeps(l.sub, C.BeginDeliver(l.wire[0].note)); }
    case CallTimeout =>
    case Disconnect(err) => C.StepKeeps(l.sub, C.BeginClose(err));
    case SubStep(c) => C.StepKeeps(l.sub, c);
  }

  lemma StepKeeps(l: Link, step: Step)
    requires Inv(l) && Enabled(l, step)
    ensures Inv(Apply(l, step))
  {
    SubKept(l, step);
    match step
    case ServerStep(n) =>
      N.StepKeeps(l.server, n);
      ServerLink(l, n);
    case OtherWrite => OtherWriteLink(l);
    case HandleNext => HandleLink(l);
    case CallTimeout => ClientLink(l, step);
    case Disconnect(err) => ClientLink(l, step);
    case SubStep(c) => ClientLink(l, step);
  }

  lemma {:induction false} RunKeeps(links: seq<Link>, steps: seq<Step>, k: nat)
    requires IsRun(links, steps) && k < |links|
    ensures Inv(links[k])
  {
    if k == 0 {
      InitOk();
    } else {
      RunKeeps(links, steps, k - 1);
      assert Enabled(links[k - 1], steps[k - 1]);
      StepKeeps(links[k - 1], steps[k - 1]);
    }
  }

  lemma InitOk()
    ensures Inv(Init)
  {
    N.RunKeeps([N.NewServer], [], 0);
    C.RunKeeps([C.Fresh], [], 0);
    InitLink();
  }

  lemma InitLink()
    ensures LinkOk(Init)
  {
    assert Ordered([], false, None);
    assert Notes([]) == [];
  }

  lemma OutAmongWritten(l: Link)
    requires Inv(l)
    ensures l.sub.out <= l.server.written
  {
    if l.registered {
      calc {
        l.sub.out;
      <=
        l.sub.accepted;
      <=
        l.sub.offered;
      <= { assert l.arrived <= l.arrived + Notes(l.wire); }
        l.server.written;
      }
    }
  }

  lemma Delivered(s: N.Server, out: seq<Note>)
    requires N.Inv(s) && out <= s.written
    ensures N.Ascending(out)
    ensures out <= s.notified <==> s.missed == [] || |out| <= s.missed[0].serial
    ensures !s.gap ==> out <= s.notified
  {
    N.WrittenAscends(s);
    N.PrefixAscends(out, s.written);
    N.FollowsIff(s, out);
    N.GapMeans(s);
  }

  /** In every interleaving, whatever writes fail, the user's channel gets a prefix of what the server
      wrote, in order and without repeats. It is a prefix of what the server passed to Notify, so
      without gaps, exactly when it does not reach past the first value that did not encode or whose
      direct write failed. */
  lemma DeliveredInOrder(links: seq<Link>, steps: seq<Step>, k: nat)
    requires IsRun(links, steps) && k < |links|
    ensures links[k].sub.out <= links[k].server.written && N.Ascending(links[k].sub.out)
    ensures var s := links[k].server;
            && (links[k].sub.out <= s.notified <==> s.missed == [] || |links[k].sub.out| <= s.missed[0].serial)
            && (!s.gap ==> links[k].sub.out <= s.notified)
  {
    RunKeeps(links, steps, k);
    OutAmongWritten(links[k]);
    Delivered(links[k].server, links[k].sub.out);
  }

  /** While the subscription runs, nothing is lost on the way: what the server wrote is, in order,
      what the user received, what is queued, what the dispatcher holds and what is in flight. Once
      active, the server has written everything exactly when every value encoded and no direct write
      failed. */
  lemma NothingLostOnTheWay(links: seq<Link>, steps: seq<Step>, k: nat)
    requires IsRun(links, steps) && k < |links|
    requires links[k].registered && C.StillForwarding(links[k].sub)
    ensures var l := links[k];
            && l.server.written == l.sub.out + l.sub.buffer + C.InHand(l.sub.dispatcher) + Notes(l.wire)
            && (l.server.pc.Active? ==> (l.server.written == l.server.notified <==> l.server.missed == []))
  {
    RunKeeps(links, steps, k);
    N.FollowsIff(links[k].server, links[k].server.written);
  }

  /** When the client handles a notification, it has handled the answer if and only if the server's
      write of the answer succeeded. If the answer carried the id and the caller has not given up,
      clientSubs holds the id; if the write failed, the notification is dropped. */
  lemma AnswerFirst(links: seq<Link>, steps: seq<Step>, k: nat)
    requires IsRun(links, steps) && k < |steps| && steps[k].HandleNext? && links[k].wire[0].Notification?
    ensures links[k].answerSeen <==> links[k].server.answer.Some?
    ensures links[k].answerSeen ==> !links[k].client.AwaitingAnswer?
    ensures links[k].server.answer == Some(true) && !links[k].client.GivenUp? ==> links[k].client.Subscribed?
    ensures links[k].server.answer.None? ==> links[k + 1].sub == C.Fresh
  {
    RunKeeps(links, steps, k);
    RunKeeps(links, steps, k + 1);
    assert links[k].server.written != [] by {
      assert Notes(links[k].wire) != [];
    }
  }

  /** Nothing reaches the user's channel unless clientSubs held the id, after the answer was handled. */
  lemma OnlyToSubscribers(links: seq<Link>, steps: seq<Step>, k: nat)
    requires IsRun(links, steps) && k < |links| && links[k].sub.offered != []
    ensures links[k].registered && links[k].answerSeen && links[k].server.answer == Some(true)
  {
    RunKeeps(links, steps, k);
  }

  /** A caller that gave up before the answer came gets no subscription any more. */
  lemma {:induction false} GivenUpStays(links: seq<Link>, steps: seq<Step>, j: nat, k: nat)
    requires IsRun(links, steps) && j < k < |links| && steps[j].CallTimeout?
    ensures !links[k].registered && (links[k].client.GivenUp? || links[k].client.Disconnected?)
  {
    if k == j + 1 {
      RunKeeps(links, steps, j);
    } else {
      GivenUpStays(links, steps, j, k - 1);
    }
  }

  /** What is in flight is handled while the connection lasts and the dispatcher is free; it can be lost
      at any such moment, and the call can be given up until it is answered. */
  lemma Offers(l: Link)
    requires l.sub.dispatcher.Idle? && !l.client.Disconnected?
    ensures l.wire != [] ==> Enabled(l, HandleNext)
    ensures Enabled(l, Disconnect(None)) && Enabled(l, Disconnect(Some(C.ConnectionLost)))
    ensures l.client.AwaitingAnswer? ==> Enabled(l, CallTimeout)
    ensures Enabled(l, OtherWrite) && Notes(Apply(l, OtherWrite).wire) == Notes(l.wire)
  {
    NotesAppend(l.wire, N.Other);
  }

  /** After the connection is lost, the dispatcher is telling the subscription, or it has been told or was
      over already; nothing is delivered any more. */
  ghost predicate Told(l: Link) {
    l.client.Disconnected? ==>
      && !l.sub.dispatcher.Delivering?
      && (l.registered && !l.sub.dispatcher.Closing? ==> !C.StillForwarding(l.sub))
  }

  lemma ToldKept(l: Link, step: Step)
    requires C.Inv(l.sub) && Enabled(l, step) && Told(l)
    requires l.client.Subscribed? ==> l.registered
    requires l.registered ==> l.client.Subscribed? || l.client.Disconnected?
    ensures Told(Apply(l, step))
  {
  }

  lemma {:induction false} RunTold(links: seq<Link>, steps: seq<Step>, k: nat)
    requires IsRun(links, steps) && k < |links|
    ensures Told(links[k])
  {
    if k > 0 {
      RunTold(links, steps, k - 1);
      RunKeeps(links, steps, k - 1);
      ToldKept(links[k - 1], steps[k - 1]);
    }
  }

  /** When the connection of a subscription is lost, the dispatcher goes to tell it, with the error; it
      leaves only when forwarding is over. */
  lemma DisconnectTells(links: seq<Link>, steps: seq<Step>, k: nat)
    requires IsRun(links, steps) && k < |links|
    ensures k < |steps| && steps[k].Disconnect? && links[k].client.Subscribed? ==>
              links[k + 1].sub.dispatcher == C.Closing(steps[k].err)
    ensures links[k].client.Disconnected? && links[k].registered && links[k].sub.dispatcher.Idle? ==>
              !C.StillForwarding(links[k].sub)
  {
    RunTold(links, steps, k);
  }

  lemma OneMore(links: seq<Link>, steps: seq<Step>, step: Step) returns (links': seq<Link>, steps': seq<Step>)
    requires IsRun(links, steps) && Enabled(links[|steps|], step)
    ensures IsRun(links', steps') && steps' == steps + [step]
    ensures links' == links + [Apply(links[|steps|], step)]
  {
    links', steps' := links + [Apply(links[|steps|], step)], steps + [step];
  }

  /** A subscription whose answer was attempted and that is active, with nothing notified yet. */
  lemma ActiveRun(ok: bool) returns (links: seq<Link>, steps: seq<Step>)
    ensures IsRun(links, steps)
    ensures links[|steps|].server ==
            N.NewServer.(created := true, pc := N.Active, answer := if ok then Some(true) else None)
    ensures links[|steps|] == Init.(server := links[|steps|].server, wire := if ok then [N.Answer(true)] else [])
  {
    links, steps := OneMore([Init], [], ServerStep(N.Create));
    links, steps := OneMore(links, steps, ServerStep(N.Return));
    links, steps := OneMore(links, steps, ServerStep(N.WriteAnswer(true, ok)));
    links, steps := OneMore(links, steps, ServerStep(N.ActivateDone));
  }

  /** The client handles a notification while it still waits for the answer, which never comes. */
  lemma NotificationWithoutAnswer() returns (links: seq<Link>, steps: seq<Step>)
    ensures IsRun(links, steps) && |steps| > 0 && steps[|steps| - 1].HandleNext?
    ensures links[|steps| - 1].wire[0].Notification? && links[|steps| - 1].client.AwaitingAnswer?
  {
    links, steps := ActiveRun(false);
    links, steps := OneMore(links, steps, ServerStep(N.Notify("a", true)));
    links, steps := OneMore(links, steps, HandleNext);
  }

  /** The client has subscribed, and forwards. */
  lemma ForwardingRun() returns (links: seq<Link>, steps: seq<Step>)
    ensures IsRun(links, steps)
    ensures links[|steps|].server == N.NewServer.(created := true, pc := N.Active, answer := Some(true))
    ensures links[|steps|].wire == [] && links[|steps|].client.Subscribed? && links[|steps|].registered
    ensures links[|steps|].sub == C.Fresh.(run := C.Forwarding)
  {
    links, steps := ActiveRun(true);
    links, steps := OneMore(links, steps, HandleNext);
    links, steps := OneMore(links, steps, SubStep(C.Start));
  }

  /** A value that was passed to Notify is skipped on the user's channel. */
  lemma GapReachesUser() returns (links: seq<Link>, steps: seq<Step>)
    ensures IsRun(links, steps)
    ensures links[|steps|].sub.out == [Note(1, "b")] && links[|steps|].server.notified == [Note(0, "a"), Note(1, "b")]
  {
    links, steps := ForwardingRun();
    links, steps := OneMore(links, steps, ServerStep(N.Notify("a", false)));
    links, steps := OneMore(links, steps, ServerStep(N.Notify("b", true)));
    var l := links[|steps|];
    assert l.wire == [N.Notification(Note(1, "b"))] && l.server.notified == [Note(0, "a"), Note(1, "b")];
    links, steps := ReachesUser(links, steps, Note(1, "b"));
  }

  lemma ReachesUser(links0: seq<Link>, steps0: seq<Step>, note: Note) returns (links: seq<Link>, steps: seq<Step>)
    requires IsRun(links0, steps0)
    requires var l := links0[|steps0|];
             && l.wire == [N.Notification(note)] && l.client.Subscribed? && l.registered
             && l.sub == C.Fresh.(run := C.Forwarding)
    ensures IsRun(links, steps)
    ensures links[|steps|].sub.out == [note] && links[|steps|].server == links0[|steps0|].server
  {
    links, steps := OneMore(links0, steps0, HandleNext);
    links, steps := OneMore(links, steps, SubStep(C.TakeIn(true)));
    links, steps := OneMore(links, steps, SubStep(C.SendOut));
  }
}
