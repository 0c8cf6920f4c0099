/** One session's outbound side: any number of senders, the write loop and any
    number of closers, interleaved at every lock and channel operation. The
    socket is the trace of the writes begun on it. */
module OutboundPipeline {

  type Message = string

  datatype Frame = Data(message: Message) | Ping

  /** The guard of Close, as its callers see it. */
  datatype Guard = Idle | Guarded | Marked | Finished

  datatype Writer =
    | AtCheck              // about to poll `done`
    | AtSelect             // about to choose among `done`, the queue and the ticker
    | Took(frame: Frame)   // holds a frame; the write deadline is not set yet
    | InWrite(frame: Frame)
    | Leaving              // calls Close before it returns
    | Exited

  datatype Pipe = Pipe(
    queue: seq<Message>,
    closed: bool,            // set together with closing `done`
    guard: Guard,
    writer: Writer,
    accepted: seq<Message>,  // every message that Send accepted, in order
    begun: seq<Frame>,       // every socket write begun, in order
    lost: seq<Message>       // taken off the queue, but no write was begun
  )

  datatype Action =
    | Send(message: Message)
    | BeginClose
    | MarkClosed
    | EndClose
    | PollDone
    | SelectDone
    | SelectMessage
    | SelectPing
    | DeadlineFails
    | BeginWrite
    | WriteSucceeds
    | WriteFails
    | CloseReturns

  function Step(capacity: nat, p: Pipe, a: Action): Pipe {
    match a
    case Send(m) =>
      if p.closed || |p.queue| >= capacity then p
      else p.(queue := p.queue + [m], accepted := p.accepted + [m])
    case BeginClose => if p.guard.Idle? then p.(guard := Guarded) else p
    case MarkClosed => if p.guard.Guarded? then p.(guard := Marked, closed := true) else p
    case EndClose => if p.guard.Marked? then p.(guard := Finished) else p
    case PollDone => if p.writer.AtCheck? then p.(writer := if p.closed then Exited else AtSelect) else p
    case SelectDone => if p.writer.AtSelect? && p.closed then p.(writer := Exited) else p
    case SelectMessage =>
      if p.writer.AtSelect? && p.queue != [] then p.(writer := Took(Data(p.queue[0])), queue := p.queue[1..]) else p
    case SelectPing => if p.writer.AtSelect? then p.(writer := Took(Ping)) else p
    case DeadlineFails =>
      if p.writer.Took? then p.(writer := Leaving, lost := p.lost + DataOf([p.writer.frame])) else p
    case BeginWrite =>
      if p.writer.Took? then p.(writer := InWrite(p.writer.frame), begun := p.begun + [p.writer.frame]) else p
    case WriteSucceeds => if p.writer.InWrite? then p.(writer := AtCheck) else p
    case WriteFails => if p.writer.InWrite? then p.(writer := Leaving) else p
    case CloseReturns => if p.writer.Leaving? && p.guard.Finished? then p.(writer := Exited) else p
  }

  function Start(): Pipe {
    Pipe([], false, Idle, AtCheck, [], [], [])
  }

  /** The state that a schedule reaches from `p`. */
  function RunFrom(capacity: nat, p: Pipe, schedule: seq<Action>): Pipe {
    if schedule == [] then p
    else Step(capacity, RunFrom(capacity, p, schedule[..|schedule| - 1]), schedule[|schedule| - 1])
  }

  function Run(capacity: nat, schedule: seq<Action>): Pipe {
    RunFrom(capacity, Start(), schedule)
  }

  /** The messages of those Sends in a schedule that found the session open and
      its queue with space. */
  function AcceptedIn(capacity: nat, schedule: seq<Action>): seq<Message> {
    if schedule == [] then []
    else
      var n := |schedule| - 1;
      var p := Run(capacity, schedule[..n]);
      AcceptedIn(capacity, schedule[..n])
        + if schedule[n].Send? && !p.closed && |p.queue| < capacity then [schedule[n].message] else []
  }

  /** The messages among some frames. */
  function DataOf(frames: seq<Frame>): seq<Message> {
    if frames == [] then []
    else
      var n := |frames| - 1;
      DataOf(frames[..n]) + match frames[n] case Data(m) => [m] case Ping => []
  }

  /** The message between queue and socket, if any. */
  function InHand(w: Writer): seq<Message> {
    match w
    case Took(f) => DataOf([f])
    case _ => []
  }

  ghost predicate Conserved(p: Pipe) {
    p.accepted == DataOf(p.begun) + p.lost + InHand(p.writer) + p.queue
  }

  ghost predicate Bounded(capacity: nat, p: Pipe) {
    && (p.lost != [] ==> p.writer.Leaving? || p.writer.Exited?)
    && |p.lost| <= 1
    && |p.queue| <= capacity
    && (p.closed <==> p.guard.Marked? || p.guard.Finished?)
    && (p.writer.Exited? ==> p.closed)
  }

  ghost predicate Inv(capacity: nat, p: Pipe) {
    Conserved(p) && Bounded(capacity, p)
  }

  lemma DataOfAppend(frames: seq<Frame>, f: Frame)
    ensures DataOf(frames + [f]) == DataOf(frames) + DataOf([f])
  {
    assert (frames + [f])[..|frames|] == frames;
    assert [f][..0] == [];
  }

  lemma OneFrame(f: Frame)
    ensures DataOf([f]) == match f case Data(m) => [m] case Ping => []
  {
    assert [f][..0] == [];
  }

  /** Moving a message from the head of the queue into the writer's hand. */
  lemma TakeConserves(w: seq<Message>, q: seq<Message>)
    requires q != []
    ensures w + [] + [] + q == w + [] + [q[0]] + q[1..]
  {}

  /** Moving what is in the writer's hand to the socket, or dropping it. */
  lemma PutConserves(w: seq<Message>, h: seq<Message>, q: seq<Message>)
    ensures w + [] + h + q == (w + h) + [] + [] + q
    ensures w + [] + h + q == w + ([] + h) + [] + q
  {}

  lemma SendConserves(capacity: nat, p: Pipe, m: Message)
    requires Conserved(p)
    ensures Conserved(Step(capacity, p, Send(m)))
  {
    var front := DataOf(p.begun) + p.lost + InHand(p.writer);
    assert front + (p.queue + [m]) == front + p.queue + [m];
  }

  lemma SelectConserves(capacity: nat, p: Pipe)
    requires Inv(capacity, p) && p.writer.AtSelect? && p.queue != []
    ensures Conserved(Step(capacity, p, SelectMessage))
  {
    OneFrame(Data(p.queue[0]));
    TakeConserves(DataOf(p.begun), p.queue);
  }

  lemma WriteConserves(capacity: nat, p: Pipe)
    requires Inv(capacity, p) && p.writer.Took?
    ensures Conserved(Step(capacity, p, BeginWrite)) && Conserved(Step(capacity, p, DeadlineFails))
  {
    DataOfAppend(p.begun, p.writer.frame);
    PutConserves(DataOf(p.begun), InHand(p.writer), p.queue);
  }

  lemma StepConserves(capacity: nat, p: Pipe, a: Action)
    requires Inv(capacity, p)
    ensures Conserved(Step(capacity, p, a))
  {
    if a.Send? {
      SendConserves(capacity, p, a.message);
    } else if a.SelectMessage? && p.writer.AtSelect? && p.queue != [] {
      SelectConserves(capacity, p);
    } else if (a.BeginWrite? || a.DeadlineFails?) && p.writer.Took? {
      WriteConserves(capacity, p);
    } else if a.SelectPing? {
      OneFrame(Ping);
    }
  }

  lemma StepBounded(capacity: nat, p: Pipe, a: Action)
    requires Bounded(capacity, p)
    ensures Bounded(capacity, Step(capacity, p, a))
  {
    if a.DeadlineFails? && p.writer.Took? {
      OneFrame(p.writer.frame);
    }
  }

  lemma {:induction false} EveryScheduleKeepsInv(capacity: nat, schedule: seq<Action>)
    ensures Inv(capacity, Run(capacity, schedule))
  {
    if schedule != [] {
      EveryScheduleKeepsInv(capacity, schedule[..|schedule| - 1]);
      StepConserves(capacity, Run(capacity, schedule[..|schedule| - 1]), schedule[|schedule| - 1]);
      StepBounded(capacity, Run(capacity, schedule[..|schedule| - 1]), schedule[|schedule| - 1]);
    }
  }

  lemma {:induction false} AcceptedAreSent(capacity: nat, schedule: seq<Action>)
    ensures Run(capacity, schedule).accepted == AcceptedIn(capacity, schedule)
  {
    if schedule != [] {
      AcceptedAreSent(capacity, schedule[..|schedule| - 1]);
    }
  }

  /** No message is refused without cause, duplicated, reordered or dropped
      silently: what was sent to the open session with space is what was written,
      then at most one message that a failed deadline discarded, then the one in
      the writer's hand, then the queue. */
  lemma AcceptedMessagesAreConserved(capacity: nat, schedule: seq<Action>)
    ensures var p := Run(capacity, schedule);
            && p.accepted == AcceptedIn(capacity, schedule)
            && p.accepted == DataOf(p.begun) + p.lost + InHand(p.writer) + p.queue
            && DataOf(p.begun) <= p.accepted
            && |p.lost| <= 1
            && |p.queue| <= capacity
  {
    AcceptedAreSent(capacity, schedule);
    EveryScheduleKeepsInv(capacity, schedule);
  }

  lemma RunFromAppend(capacity: nat, p: Pipe, schedule: seq<Action>, a: Action)
    ensures RunFrom(capacity, p, schedule + [a]) == Step(capacity, RunFrom(capacity, p, schedule), a)
  {
    assert (schedule + [a])[..|schedule|] == schedule;
  }

  lemma {:induction false} RunSplits(capacity: nat, schedule: seq<Action>, more: seq<Action>)
    ensures Run(capacity, schedule + more) == RunFrom(capacity, Run(capacity, schedule), more)
  {
    if more == [] {
      assert schedule + more == schedule;
    } else {
      var m := |more| - 1;
      RunSplits(capacity, schedule, more[..m]);
      assert schedule + more == (schedule + more[..m]) + [more[m]];
      RunFromAppend(capacity, Start(), schedule + more[..m], more[m]);
    }
  }

  /** Whether the writer is past its poll of `done` and may still begin a write. */
  function Potential(w: Writer): nat {
    if w.AtSelect? || w.Took? then 1 else 0
  }

  lemma {:induction false} AfterClose(capacity: nat, p: Pipe, more: seq<Action>)
    requires p.closed && (p.guard.Marked? || p.guard.Finished?)
    ensures var q := RunFrom(capacity, p, more);
            && q.closed && (q.guard.Marked? || q.guard.Finished?)
            && q.accepted == p.accepted
            && p.begun <= q.begun
            && |q.begun| + Potential(q.writer) <= |p.begun| + Potential(p.writer)
  {
    if more != [] {
      AfterClose(capacity, p, more[..|more| - 1]);
    }
  }

  /** Once `closed` is set nothing more is accepted, and at most one more
      socket write, data or ping, begins, whatever happens next. */
  lemma AtMostOneWriteAfterClose(capacity: nat, schedule: seq<Action>, more: seq<Action>)
    requires Run(capacity, schedule).closed
    ensures var before, after := Run(capacity, schedule), Run(capacity, schedule + more);
            && after.closed
            && after.accepted == before.accepted
            && before.begun <= after.begun
            && |after.begun| <= |before.begun| + 1
  {
    EveryScheduleKeepsInv(capacity, schedule);
    RunSplits(capacity, schedule, more);
    AfterClose(capacity, Run(capacity, schedule), more);
  }

  /** The bound is tight: a select that raced with Close writes one more frame. */
  lemma OneWriteAfterCloseHappens() returns (schedule: seq<Action>, more: seq<Action>)
    ensures Run(1, schedule).closed
    ensures |Run(1, schedule + more).begun| == |Run(1, schedule).begun| + 1
  {
    schedule := [PollDone, BeginClose, MarkClosed];
    more := [SelectPing, BeginWrite];
    RunSplits(1, schedule, more);
    assert schedule[..2] == [PollDone, BeginClose];
    assert [PollDone, BeginClose][..1] == [PollDone] && [PollDone][..0] == [];
    assert Run(1, [PollDone]).writer == AtSelect;
    assert Run(1, [PollDone, BeginClose]).guard == Guarded;
    assert Run(1, schedule).closed && Run(1, schedule).writer == AtSelect;
    assert more[..1] == [SelectPing] && [SelectPing][..0] == [];
    assert RunFrom(1, Run(1, schedule), [SelectPing]).writer == Took(Ping);
  }

  // ---------- What was accepted can be written ----------

  /** From every moment at which the session is open and its writer is about to
      poll, the writer alone can write everything that is queued, in order, and
      is then back at its poll. */
  lemma {:induction false} QueueCanBeWritten(capacity: nat, schedule: seq<Action>) returns (more: seq<Action>)
    requires var p := Run(capacity, schedule); !p.closed && p.writer.AtCheck?
    ensures forall a :: a in more ==> a in {PollDone, SelectMessage, BeginWrite, WriteSucceeds}
    ensures var p, q := Run(capacity, schedule), Run(capacity, schedule + more);
            && q.queue == [] && !q.closed && q.writer.AtCheck? && q.accepted == p.accepted
            && DataOf(q.begun) == DataOf(p.begun) + p.queue
    decreases |Run(capacity, schedule).queue|
  {
    var p := Run(capacity, schedule);
    if p.queue == [] {
      more := [];
      assert schedule + more == schedule;
    } else {
      var first := WriteOne(capacity, schedule);
      var rest := QueueCanBeWritten(capacity, schedule + first);
      more := first + rest;
      assert schedule + more == (schedule + first) + rest;
      assert DataOf(p.begun) + p.queue == (DataOf(p.begun) + [p.queue[0]]) + p.queue[1..];
    }
  }

  lemma TakeOne(capacity: nat, schedule: seq<Action>) returns (more: seq<Action>)
    requires var p := Run(capacity, schedule); !p.closed && p.writer.AtCheck? && p.queue != []
    ensures more == [PollDone, SelectMessage]
    ensures var p := Run(capacity, schedule);
            Run(capacity, schedule + more) == p.(queue := p.queue[1..], writer := Took(Data(p.queue[0])))
  {
    RunFromAppend(capacity, Start(), schedule, PollDone);
    RunFromAppend(capacity, Start(), schedule + [PollDone], SelectMessage);
    more := [PollDone, SelectMessage];
    assert (schedule + [PollDone]) + [SelectMessage] == schedule + more;
  }

  lemma PutOne(capacity: nat, schedule: seq<Action>) returns (more: seq<Action>)
    requires Run(capacity, schedule).writer.Took?
    ensures more == [BeginWrite, WriteSucceeds]
    ensures var p := Run(capacity, schedule);
            Run(capacity, schedule + more) == p.(begun := p.begun + [p.writer.frame], writer := AtCheck)
  {
    RunFromAppend(capacity, Start(), schedule, BeginWrite);
    RunFromAppend(capacity, Start(), schedule + [BeginWrite], WriteSucceeds);
    more := [BeginWrite, WriteSucceeds];
    assert (schedule + [BeginWrite]) + [WriteSucceeds] == schedule + more;
  }

  lemma WriteOne(capacity: nat, schedule: seq<Action>) returns (more: seq<Action>)
    requires var p := Run(capacity, schedule); !p.closed && p.writer.AtCheck? && p.queue != []
    ensures more == [PollDone, SelectMessage, BeginWrite, WriteSucceeds]
    ensures var p, q := Run(capacity, schedule), Run(capacity, schedule + more);
            && q == p.(queue := p.queue[1..], begun := p.begun + [Data(p.queue[0])])
            && DataOf(q.begun) == DataOf(p.begun) + [p.queue[0]]
  {
    var p := Run(capacity, schedule);
    var take := TakeOne(capacity, schedule);
    var put := PutOne(capacity, schedule + take);
    more := take + put;
    assert schedule + more == (schedule + take) + put;
    DataOfAppend(p.begun, Data(p.queue[0]));
    OneFrame(Data(p.queue[0]));
  }

  /** A writer that is past its poll, but has not failed, can get back to it. */
  lemma WriterCanPoll(capacity: nat, schedule: seq<Action>) returns (more: seq<Action>)
    requires var p := Run(capacity, schedule); !p.closed && !p.writer.Leaving? && !p.writer.Exited?
    ensures var p, q := Run(capacity, schedule), Run(capacity, schedule + more);
            !q.closed && q.writer.AtCheck? && q.accepted == p.accepted
  {
    var p := Run(capacity, schedule);
    if p.writer.AtCheck? {
      more := [];
      assert schedule + more == schedule;
    } else if p.writer.InWrite? {
      more := [WriteSucceeds];
      RunFromAppend(capacity, Start(), schedule, WriteSucceeds);
    } else {
      var s0 := if p.writer.AtSelect? then schedule + [SelectPing] else schedule;
      RunFromAppend(capacity, Start(), schedule, SelectPing);
      RunFromAppend(capacity, Start(), s0, BeginWrite);
      RunFromAppend(capacity, Start(), s0 + [BeginWrite], WriteSucceeds);
      more := (if p.writer.AtSelect? then [SelectPing] else []) + [BeginWrite, WriteSucceeds];
      assert schedule + more == (s0 + [BeginWrite]) + [WriteSucceeds];
    }
  }

  /** From every moment of every run at which the session is open and its writer
      has not failed, everything accepted so far can be written. */
  lemma AcceptedCanBeWritten(capacity: nat, schedule: seq<Action>) returns (more: seq<Action>)
    requires var p := Run(capacity, schedule); !p.closed && !p.writer.Leaving? && !p.writer.Exited?
    ensures DataOf(Run(capacity, schedule + more).begun) == Run(capacity, schedule).accepted
  {
    var back := WriterCanPoll(capacity, schedule);
    var rest := QueueCanBeWritten(capacity, schedule + back);
    more := back + rest;
    assert schedule + more == (schedule + back) + rest;
    EveryScheduleKeepsInv(capacity, schedule + more);
  }
}
