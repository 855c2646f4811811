/** The server end of a subscription (util/rpc/subscription.go, `Notifier`; util/rpc/handler.go,
    `handleMsg`): values are buffered until the answer to the subscribe call is written, then sent. */
module Notifications {
  import opened Common

  /** Where the goroutine that serves the subscribe call stands. */
  datatype CallPc =
    | InCallback
    | CallReturned            // after takeSubscription
    | Activating(next: nat)   // answer attempted; the first `next` buffered values are sent
    | Active
    | Aborted(next: nat)      // a write of activate failed

  datatype Server = Server(
    pc: CallPc,
    created: bool,            // the notifier has a subscription
    notified: seq<Note>,      // values passed to Notify
    buffer: seq<Note>,
    written: seq<Note>,       // notifications written to the connection
    missed: seq<Note>,        // values that did not encode, or whose direct write failed
    gap: bool,                // a value was written that came after a missed one
    answer: Option<bool>)     // the answer, once written: true when it carries the subscription id

  const NewServer := Server(InCallback, false, [], [], [], [], false, None)

  datatype Step =
    | Create
    | Notify(payload: string, ok: bool)
    | Refuse(payload: string)    // Notify with a value that json.Marshal does not encode
    | Return
    | WriteAnswer(accept: bool, ok: bool)
    | ActivateNext(ok: bool)
    | ActivateDone

  predicate Enabled(s: Server, step: Step) {
    match step
    case Create => s.pc.InCallback? && !s.created
    case Notify(_, _) => s.created && !s.pc.Activating?    // activate holds the mutex
    case Refuse(_) => true                                 // before the mutex and the checks
    case Return => s.pc.InCallback?
    case WriteAnswer(accept, _) => s.pc.CallReturned? && (accept ==> s.created)
    case ActivateNext(_) => s.pc.Activating? && s.pc.next < |s.buffer|
    case ActivateDone => s.pc.Activating? && s.pc.next == |s.buffer|
  }

  function ApplyNotify(s: Server, payload: string, ok: bool): Server {
    var note := Note(|s.notified|, payload);
    var t := s.(notified := s.notified + [note]);
    if !s.pc.Active? then t.(buffer := s.buffer + [note])
    else if ok then t.(written := s.written + [note], gap := s.gap || Past(s, note))
    else t.(missed := s.missed + [note])
  }

  /** A value that came after one that was missed. */
  predicate Past(s: Server, note: Note) {
    s.missed != [] && s.missed[0].serial < note.serial
  }

  function ApplyRefuse(s: Server, payload: string): Server {
    var note := Note(|s.notified|, payload);
    s.(notified := s.notified + [note], missed := s.missed + [note])
  }

  function ApplyActivateNext(s: Server, ok: bool): Server
    requires s.pc.Activating? && s.pc.next < |s.buffer|
  {
    var note := s.buffer[s.pc.next];
    if ok then s.(written := s.written + [note], gap := s.gap || Past(s, note), pc := Activating(s.pc.next + 1))
    else s.(pc := Aborted(s.pc.next))
  }

  function Apply(s: Server, step: Step): Server
    requires Enabled(s, step)
  {
    match step
    case Create => s.(created := true)
    case Notify(payload, ok) => ApplyNotify(s, payload, ok)
    case Refuse(payload) => ApplyRefuse(s, payload)
    case Return => s.(pc := CallReturned)
    case WriteAnswer(accept, ok) => s.(pc := Activating(0), answer := if ok then Some(accept) else None)
    case ActivateNext(ok) => ApplyActivateNext(s, ok)
    case ActivateDone => s.(pc := Active)
  }

  /** What a step puts on the connection, if its write succeeds. */
  datatype Item = Answer(accept: bool) | Notification(note: Note) | Other

  function Output(s: Server, step: Step): seq<Item>
    requires Enabled(s, step)
  {
    match step
    case Notify(payload, ok) => if s.pc.Active? && ok then [Notification(Note(|s.notified|, payload))] else []
    case WriteAnswer(accept, ok) => if ok then [Answer(accept)] else []
    case ActivateNext(ok) => if ok then [Notification(s.buffer[s.pc.next])] else []
    case _ => []
  }

  ghost predicate Ascending(notes: seq<Note>) {
    forall i, j :: 0 <= i < j < |notes| ==> notes[i].serial < notes[j].serial
  }

  /** What was written once active; before, what is to be written. */
  ghost function Line(s: Server): seq<Note> {
    if s.pc.Active? then s.written else s.buffer
  }

  /** The first value missed is where the line leaves `notified`. */
  ghost predicate Parts(line: seq<Note>, missed: seq<Note>, notified: seq<Note>) {
    if missed == [] then line == notified
    else
      var f := missed[0].serial;
      && f <= |line| && f < |notified| && line[..f] == notified[..f]
      && (f < |line| ==> f < line[f].serial)
  }

  ghost predicate Numbered(notified: seq<Note>) {
    forall i :: 0 <= i < |notified| ==> notified[i].serial == i
  }

  /** The line is what was notified without what was missed, in order. */
  ghost predicate LineOk(line: seq<Note>, missed: seq<Note>, notified: seq<Note>) {
    && Numbered(notified) && Ascending(line) && Parts(line, missed, notified)
    && forall i :: 0 <= i < |line| ==> line[i].serial < |notified|
  }

  /** Every value is in the line or missed, and there are no others. */
  ghost predicate Accounted(s: Server) {
    Elements(s.notified) == Elements(Line(s)) + Elements(s.missed)
  }

  /** What was written is the beginning of the line. */
  ghost predicate Inv(s: Server) {
    && (match s.pc
        case Activating(n) => n <= |s.buffer| && s.written == s.buffer[..n]
        case Aborted(n) => n <= |s.buffer| && s.written == s.buffer[..n]
        case Active => true
        case _ => s.written == [] && s.answer.None?)
    && LineOk(Line(s), s.missed, s.notified)
    && (s.gap <==> s.missed != [] && s.missed[0].serial < |s.written|)
  }

  /** The newest value goes to the end of the line. */
  lemma LineGrows(line: seq<Note>, missed: seq<Note>, notified: seq<Note>, note: Note)
    requires LineOk(line, missed, notified) && note.serial == |notified|
    ensures LineOk(line + [note], missed, notified + [note])
    ensures missed != [] ==> missed[0].serial <= |line| && missed[0].serial < note.serial
  {
    if missed != [] {
      var f := missed[0].serial;
      assert (line + [note])[..f] == line[..f] && (notified + [note])[..f] == notified[..f];
    }
  }

  /** The newest value is missed. */
  lemma MissedGrows(line: seq<Note>, missed: seq<Note>, notified: seq<Note>, note: Note)
    requires LineOk(line, missed, notified) && note.serial == |notified|
    ensures LineOk(line, missed + [note], notified + [note])
    ensures if missed == [] then |line| == note.serial else (missed + [note])[0] == missed[0]
  {
    var f := (missed + [note])[0].serial;
    assert (notified + [note])[..f] == notified[..f];
  }

  lemma BufferedKeeps(s: Server, payload: string, ok: bool)
    requires Inv(s) && Enabled(s, Notify(payload, ok)) && !s.pc.Active?
    ensures Inv(ApplyNotify(s, payload, ok))
  {
    LineGrows(s.buffer, s.missed, s.notified, Note(|s.notified|, payload));
  }

  lemma SentKeeps(s: Server, payload: string)
    requires Inv(s) && s.pc.Active?
    ensures Inv(ApplyNotify(s, payload, true))
  {
    LineGrows(s.written, s.missed, s.notified, Note(|s.notified|, payload));
  }

  lemma MissedKeeps(s: Server, payload: string)
    requires Inv(s) && s.pc.Active?
    ensures Inv(ApplyNotify(s, payload, false))
  {
    MissedGrows(s.written, s.missed, s.notified, Note(|s.notified|, payload));
  }

  lemma RefuseKeeps(s: Server, payload: string)
    requires Inv(s)
    ensures Inv(ApplyRefuse(s, payload))
  {
    MissedGrows(Line(s), s.missed, s.notified, Note(|s.notified|, payload));
  }

  /** A value of the line came after the first one missed exactly from the place of that one on. */
  lemma LinePast(line: seq<Note>, missed: seq<Note>, notified: seq<Note>, n: nat)
    requires LineOk(line, missed, notified) && missed != [] && n < |line|
    ensures missed[0].serial < line[n].serial <==> missed[0].serial <= n
  {
    var f := missed[0].serial;
    if n < f {
      assert line[n] == line[..f][n] && notified[n] == notified[..f][n];
    } else if f < n {
      assert line[f].serial < line[n].serial;
    }
  }

  lemma ActivateNextKeeps(s: Server, ok: bool)
    requires Inv(s) && Enabled(s, ActivateNext(ok))
    ensures Inv(ApplyActivateNext(s, ok))
  {
    if s.missed != [] { LinePast(s.buffer, s.missed, s.notified, s.pc.next); }
    OneMoreSent(s.buffer, s.pc.next);
  }

  lemma OneMoreSent(buffer: seq<Note>, n: nat)
    requires n < |buffer|
    ensures buffer[..n] + [buffer[n]] == buffer[..n + 1]
  {
  }

  lemma StepKeeps(s: Server, step: Step)
    requires Inv(s) && Enabled(s, step)
    ensures Inv(Apply(s, step))
  {
    match step
    case Notify(payload, ok) =>
      if !s.pc.Active? { BufferedKeeps(s, payload, ok); } else { SentKeeps(s, payload); MissedKeeps(s, payload); }
    case Refuse(payload) => RefuseKeeps(s, payload);
    case ActivateNext(ok) => ActivateNextKeeps(s, ok);
    case _ =>
  }

  ghost predicate IsRun(states: seq<Server>, steps: seq<Step>) {
    && |states| == |steps| + 1
    && states[0] == NewServer
    && forall k :: 0 <= k < |steps| ==> Enabled(states[k], steps[k]) && states[k + 1] == Apply(states[k], steps[k])
  }

  lemma {:induction false} RunKeeps(states: seq<Server>, steps: seq<Step>, k: nat)
    requires IsRun(states, steps) && k < |states|
    ensures Inv(states[k])
  {
    if k > 0 {
      RunKeeps(states, steps, k - 1);
      StepKeeps(states[k - 1], steps[k - 1]);
    }
  }

  /** A beginning of what was written is a beginning of what was notified exactly when it does not go
      past the place of the first value missed. */
  lemma FollowsIff(s: Server, out: seq<Note>)
    requires Inv(s) && out <= s.written
    ensures out <= s.notified <==> s.missed == [] || |out| <= s.missed[0].serial
  {
    var line := Line(s);
    WrittenInLine(s);
    if s.missed != [] {
      var f := s.missed[0].serial;
      if |out| <= f {
        assert out == line[..f][..|out|] && line[..f] == s.notified[..f];
      } else {
        assert out[f] == line[f] && s.notified[f].serial == f;
      }
    }
  }

  /** What reaches the connection is in order and free of repeats in any case; it is free of gaps
      exactly when no value was written that came after a missed one. */
  lemma GapFreeIff(states: seq<Server>, steps: seq<Step>, k: nat)
    requires IsRun(states, steps) && k < |states|
    ensures states[k].written <= states[k].notified <==> !states[k].gap
    ensures Ascending(states[k].written)
  {
    RunKeeps(states, steps, k);
    FollowsIff(states[k], states[k].written);
    GapMeans(states[k]);
    WrittenAscends(states[k]);
  }

  lemma GapMeans(s: Server)
    requires Inv(s)
    ensures s.gap <==> s.missed != [] && s.missed[0].serial < |s.written|
  {
  }

  lemma WrittenInLine(s: Server)
    requires Inv(s)
    ensures s.written <= Line(s)
  {
  }

  lemma PrefixAscends(out: seq<Note>, notes: seq<Note>)
    requires out <= notes && Ascending(notes)
    ensures Ascending(out)
  {
  }

  lemma WrittenAscends(s: Server)
    requires Inv(s)
    ensures Ascending(s.written)
  {
    WrittenInLine(s);
    PrefixAscends(s.written, Line(s));
  }

  lemma Joined(line: seq<Note>, missed: seq<Note>, notified: seq<Note>, note: Note)
    requires Elements(notified) == Elements(line) + Elements(missed)
    ensures Elements(notified + [note]) == Elements(line + [note]) + Elements(missed)
    ensures Elements(notified + [note]) == Elements(line) + Elements(missed + [note])
  {
    assert Elements(notified + [note]) == Elements(notified) + {note};
    assert Elements(line + [note]) == Elements(line) + {note};
    assert Elements(missed + [note]) == Elements(missed) + {note};
  }

  lemma AccountedKept(s: Server, step: Step)
    requires Inv(s) && Enabled(s, step) && Accounted(s)
    ensures Accounted(Apply(s, step))
  {
    LineAfter(s, step);
    if step.Notify? || step.Refuse? {
      Joined(Line(s), s.missed, s.notified, Note(|s.notified|, step.payload));
    }
  }

  /** A new value joins the line or the missed ones; nothing else changes them. */
  lemma LineAfter(s: Server, step: Step)
    requires Inv(s) && Enabled(s, step)
    ensures var t := Apply(s, step);
            if step.Notify? || step.Refuse? then
              var note := Note(|s.notified|, step.payload);
              && t.notified == s.notified + [note]
              && ((Line(t) == Line(s) + [note] && t.missed == s.missed)
                  || (Line(t) == Line(s) && t.missed == s.missed + [note]))
            else t.notified == s.notified && t.missed == s.missed && Line(t) == Line(s)
  {
    if step.ActivateDone? { assert s.buffer[..|s.buffer|] == s.buffer; }
  }

  lemma {:induction false} RunAccounts(states: seq<Server>, steps: seq<Step>, k: nat)
    requires IsRun(states, steps) && k < |states|
    ensures Accounted(states[k])
  {
    if k > 0 {
      RunKeeps(states, steps, k - 1);
      RunAccounts(states, steps, k - 1);
      AccountedKept(states[k - 1], steps[k - 1]);
    }
  }

  /** The values passed to Notify in the first `k` steps. */
  ghost function Passed(steps: seq<Step>, k: nat): seq<string>
    requires k <= |steps|
  {
    if k == 0 then []
    else Passed(steps, k - 1) + if steps[k - 1].Notify? || steps[k - 1].Refuse? then [steps[k - 1].payload] else []
  }

  /** `notified` is exactly what was passed to Notify, in order and numbered. */
  lemma {:induction false} NotifiedIsPassed(states: seq<Server>, steps: seq<Step>, k: nat)
    requires IsRun(states, steps) && k < |states|
    ensures |states[k].notified| == |Passed(steps, k)|
    ensures forall i :: 0 <= i < |states[k].notified| ==> states[k].notified[i] == Note(i, Passed(steps, k)[i])
  {
    if k > 0 {
      NotifiedIsPassed(states, steps, k - 1);
      RunKeeps(states, steps, k - 1);
      LineAfter(states[k - 1], steps[k - 1]);
    }
  }

  /** Nothing is invented, and once active no value is unaccounted for: it was written, or did not
      encode, or its write failed. */
  lemma WrittenOrMissed(states: seq<Server>, steps: seq<Step>, k: nat)
    requires IsRun(states, steps) && k < |states|
    ensures Elements(states[k].written) + Elements(states[k].missed) <= Elements(states[k].notified)
    ensures states[k].pc.Active? ==>
              Elements(states[k].written) + Elements(states[k].missed) == Elements(states[k].notified)
  {
    RunKeeps(states, steps, k);
    RunAccounts(states, steps, k);
    WrittenInLine(states[k]);
    assert Elements(states[k].written) <= Elements(Line(states[k]));
  }

  lemma OneMore(states: seq<Server>, steps: seq<Step>, step: Step) returns (states': seq<Server>, steps': seq<Step>)
    requires IsRun(states, steps) && Enabled(states[|steps|], step)
    ensures IsRun(states', steps') && steps' == steps + [step]
    ensures states' == states + [Apply(states[|steps|], step)]
  {
    states', steps' := states + [Apply(states[|steps|], step)], steps + [step];
  }

  /** A subscription that was created and answered, with nothing notified yet, is active. */
  lemma ActiveRun(ok: bool) returns (states: seq<Server>, steps: seq<Step>)
    ensures IsRun(states, steps)
    ensures states[|steps|] == NewServer.(created := true, pc := Active, answer := if ok then Some(true) else None)
  {
    states, steps := OneMore([NewServer], [], Create);
    states, steps := OneMore(states, steps, Return);
    states, steps := OneMore(states, steps, WriteAnswer(true, ok));
    states, steps := OneMore(states, steps, ActivateDone);
  }

  /** A failed Notify followed by one that succeeds leaves a gap on the connection. */
  lemma GapHappens() returns (states: seq<Server>, steps: seq<Step>)
    ensures IsRun(states, steps)
    ensures states[|steps|].gap && !(states[|steps|].written <= states[|steps|].notified)
  {
    states, steps := ActiveRun(true);
    states, steps := OneMore(states, steps, Notify("a", false));
    states, steps := OneMore(states, steps, Notify("b", true));
    assert states[|steps|].notified[0] != states[|steps|].written[0];
  }

  /** A value that does not encode is skipped although no write failed. */
  lemma RefusalGaps() returns (states: seq<Server>, steps: seq<Step>)
    ensures IsRun(states, steps)
    ensures states[|steps|].written == [Note(1, "b")] && states[|steps|].notified == [Note(0, "a"), Note(1, "b")]
  {
    states, steps := ActiveRun(true);
    states, steps := OneMore(states, steps, Refuse("a"));
    states, steps := OneMore(states, steps, Notify("b", true));
  }

  /** The write of the answer fails, yet a notification is written. */
  lemma AnswerLostHappens() returns (states: seq<Server>, steps: seq<Step>)
    ensures IsRun(states, steps) && states[|steps|].answer.None? && |states[|steps|].written| == 1
  {
    states, steps := ActiveRun(false);
    states, steps := OneMore(states, steps, Notify("a", true));
  }

  /** `activate` to its end: `failAt` is the index of the buffered value whose write fails, if any. */
  function ActivateAll(s: Server, failAt: Option<nat>): Server
    requires s.pc.Activating? && s.pc.next <= |s.buffer|
    decreases |s.buffer| - s.pc.next
  {
    if s.pc.next == |s.buffer| then s.(pc := Active)
    else if failAt == Some(s.pc.next) then ApplyActivateNext(s, false)
    else ActivateAll(ApplyActivateNext(s, true), failAt)
  }

  /** Where it stops: at the value whose write fails, or at the end of the buffer. */
  ghost function StopAt(n: nat, size: nat, failAt: Option<nat>): nat {
    if failAt.Some? && n <= failAt.value < size then failAt.value else size
  }

  lemma OneMoreTaken(written: seq<Note>, buffer: seq<Note>, n: nat, stop: nat)
    requires n < stop <= |buffer|
    ensures written + [buffer[n]] + buffer[n + 1..stop] == written + buffer[n..stop]
  {
  }

  /** It sends the buffered values from where it stands, in order, up to the one whose write fails, and
      activates exactly when none fails. */
  lemma {:induction false} ActivateAllMeans(s: Server, failAt: Option<nat>)
    requires s.pc.Activating? && s.pc.next <= |s.buffer|
    ensures var t, n := ActivateAll(s, failAt), s.pc.next;
            var stop := StopAt(n, |s.buffer|, failAt);
            && n <= stop <= |s.buffer| && t.written == s.written + s.buffer[n..stop]
            && t.pc == (if stop < |s.buffer| then Aborted(stop) else Active)
            && t.buffer == s.buffer && t.notified == s.notified && t.missed == s.missed && t.answer == s.answer
    decreases |s.buffer| - s.pc.next
  {
    var n, stop := s.pc.next, StopAt(s.pc.next, |s.buffer|, failAt);
    if n == stop {
      assert s.buffer[n..stop] == [];
    } else {
      ActivateAllMeans(ApplyActivateNext(s, true), failAt);
      OneMoreTaken(s.written, s.buffer, n, stop);
    }
  }

  /** What the server's goroutine and Notify can do is not ruled out, whatever the writes do. */
  lemma Offers(s: Server, payload: string, ok: bool)
    ensures s.created && !s.pc.Activating? ==> Enabled(s, Notify(payload, ok))
    ensures Enabled(s, Refuse(payload))
    ensures s.pc.InCallback? ==> Enabled(s, Return) && (Enabled(s, Create) <==> !s.created)
    ensures s.pc.CallReturned? ==> Enabled(s, WriteAnswer(false, ok))
    ensures s.pc.CallReturned? && s.created ==> Enabled(s, WriteAnswer(true, ok))
    ensures s.pc.Activating? && s.pc.next <= |s.buffer| ==>
              Enabled(s, ActivateDone) || (Enabled(s, ActivateNext(true)) && Enabled(s, ActivateNext(false)))
  {
  }

  /** The notifier's fields as its methods change them; `log` is what it wrote to the connection. */
  class Notifier {
    var created: bool
    var callReturned: bool
    var activated: bool
    var buffer: seq<Note>
    var count: nat              // values notified so far
    var log: seq<Note>

    ghost predicate Shows(s: Server)
      reads this
    {
      && created == s.created && callReturned == !s.pc.InCallback? && activated == s.pc.Active?
      && buffer == s.buffer && count == |s.notified| && log == s.written
    }

    constructor ()
      ensures Shows(NewServer)
    {
      created, callReturned, activated, buffer, log, count := false, false, false, [], [], 0;
    }

    /** Both panics of the source are failures of this method. */
    method CreateSubscription(ghost s: Server) returns (ok: bool)
      requires Shows(s)
      modifies this
      ensures ok <==> Enabled(s, Create)
      ensures Shows(if ok then Apply(s, Create) else s)
    {
      ok := !created && !callReturned;
      if ok { created := true; }
    }

    method TakeSubscription(ghost s: Server) returns (present: bool)
      requires Shows(s) && s.pc.InCallback?
      modifies this
      ensures Shows(Apply(s, Return)) && present == s.created
    {
      callReturned := true;
      present := created;
    }

    method Notify(payload: string, encodes: bool, writeOk: bool, ghost s: Server) returns (ok: bool)
      requires Shows(s) && (encodes ==> s.created && !s.pc.Activating?)
      modifies this
      ensures Shows(Apply(s, if encodes then Step.Notify(payload, writeOk) else Refuse(payload)))
      ensures ok <==> encodes && (s.pc.Active? ==> writeOk)
    {
      var note := Note(count, payload);
      count := count + 1;
      if !encodes {
        return false;
      }
      ok := true;
      if activated {
        if writeOk { log := log + [note]; }
        ok := writeOk;
      } else {
        buffer := buffer + [note];
      }
    }

    method Activate(failAt: Option<nat>, ghost s: Server) returns (ok: bool)
      requires Shows(s) && s.pc == Activating(0)
      modifies this
      ensures Shows(ActivateAll(s, failAt))
      ensures ok <==> ActivateAll(s, failAt).pc.Active?
    {
      ghost var t := s;
      for i := 0 to |buffer|
        invariant Shows(t) && t.pc == Activating(i) && t.buffer == s.buffer
        invariant ActivateAll(t, failAt) == ActivateAll(s, failAt)
      {
        if failAt == Some(i) {
          return false;
        }
        log := log + [buffer[i]];
        t := ApplyActivateNext(t, true);
      }
      activated := true;
      ok := true;
    }
  }
}
