/** The process-wide counters of inbound frames. Any number of read loops count
    their frames concurrently, with one step per atomic increment. */
module InboundCounters {
  import opened Common
  import opened Protocol

  /** The five type counters. */
  datatype Tag = JoinTag | LeaveTag | BroadcastTag | PrivateTag | UnknownTag

  /** The counter that a message type goes to. */
  function TagOf(kind: string): Tag {
    if kind == ROOM_JOIN then JoinTag
    else if kind == ROOM_LEAVE then LeaveTag
    else if kind == ROOM_BROADCAST then BroadcastTag
    else if kind == PRIVATE_SEND then PrivateTag
    else UnknownTag
  }

  /** How far a read loop has come with its frame. */
  datatype Loop =
    | Waiting                          // inside ReadMessage
    | Received                         // the frame is counted as received
    | Answering                        // the deadline was refreshed
    | Timed(kind: string, ok: bool)    // the latency is counted
    | Typed(kind: string, ok: bool)    // the type is counted
    | Ended

  /** Counters by label: `types` holds the five type counters and `results` the
      two result counters. `finished` and `dropped` are history: the frames that
      were counted to the end, and how many never got past their deadline. */
  datatype State = State(
    received: nat,
    latencies: nat,
    types: multiset<Tag>,
    results: multiset<bool>,
    loops: map<nat, Loop>,
    finished: multiset<(Tag, bool)>,
    dropped: nat
  )

  datatype Action =
    | Open(loop: nat)
    | ReadFrame(loop: nat)
    | ReadFails(loop: nat)
    | DeadlineFails(loop: nat)
    | DeadlineSet(loop: nat)
    | CountLatency(loop: nat, kind: string, ok: bool)  // the frame was answered
    | CountType(loop: nat)
    | CountResult(loop: nat, stop: bool)

  function Step(s: State, a: Action): State {
    if a.Open? then
      if a.loop in s.loops then s else s.(loops := s.loops[a.loop := Waiting])
    else if a.loop !in s.loops then s
    else
      var k, l := a.loop, s.loops[a.loop];
      match a
      case ReadFrame(_) =>
        if l.Waiting? then s.(loops := s.loops[k := Received], received := s.received + 1) else s
      case ReadFails(_) =>
        if l.Waiting? then s.(loops := s.loops[k := Ended]) else s
      case DeadlineFails(_) =>
        if l.Received? then s.(loops := s.loops[k := Ended], dropped := s.dropped + 1) else s
      case DeadlineSet(_) =>
        if l.Received? then s.(loops := s.loops[k := Answering]) else s
      case CountLatency(_, kind, ok) =>
        if l.Answering? then s.(loops := s.loops[k := Timed(kind, ok)], latencies := s.latencies + 1) else s
      case CountType(_) =>
        if l.Timed? then
          s.(loops := s.loops[k := Typed(l.kind, l.ok)], types := s.types + multiset{TagOf(l.kind)})
        else s
      case CountResult(_, stop) =>
        if l.Typed? then
          s.(loops := s.loops[k := if stop then Ended else Waiting],
             results := s.results + multiset{l.ok},
             finished := s.finished + multiset{(TagOf(l.kind), l.ok)})
        else s
  }

  function Start(): State {
    State(0, 0, multiset{}, multiset{}, map[], multiset{}, 0)
  }

  function Run(schedule: seq<Action>): State {
    if schedule == [] then Start()
    else Step(Run(schedule[..|schedule| - 1]), schedule[|schedule| - 1])
  }

  // ---------- Totals ----------

  function TypeTotal(s: State): nat {
    s.types[JoinTag] + s.types[LeaveTag] + s.types[BroadcastTag] + s.types[PrivateTag] + s.types[UnknownTag]
  }

  function ResultTotal(s: State): nat {
    s.results[true] + s.results[false]
  }

  /** The finished frames with this label, and with this result. */
  function FinishedAs(s: State, tag: Tag): nat {
    s.finished[(tag, true)] + s.finished[(tag, false)]
  }

  function FinishedWith(s: State, ok: bool): nat {
    s.finished[(JoinTag, ok)] + s.finished[(LeaveTag, ok)] + s.finished[(BroadcastTag, ok)]
      + s.finished[(PrivateTag, ok)] + s.finished[(UnknownTag, ok)]
  }

  // ---------- Which loops are in between ----------

  predicate IsUntyped(l: Loop) {
    l.Received? || l.Answering? || l.Timed?
  }

  predicate IsTimed(l: Loop) {
    l.Timed?
  }

  predicate IsTyped(l: Loop) {
    l.Typed?
  }

  function IsTypedAs(tag: Tag): Loop -> bool {
    (l: Loop) => l.Typed? && TagOf(l.kind) == tag
  }

  // ---------- The invariant ----------

  ghost predicate Balanced(s: State) {
    && s.received == TypeTotal(s) + |Having(s.loops, IsUntyped)| + s.dropped
    && s.latencies == TypeTotal(s) + |Having(s.loops, IsTimed)|
    && TypeTotal(s) == ResultTotal(s) + |Having(s.loops, IsTyped)|
  }

  ghost predicate TypeBalanced(s: State, tag: Tag) {
    s.types[tag] == FinishedAs(s, tag) + |Having(s.loops, IsTypedAs(tag))|
  }

  ghost predicate ResultBalanced(s: State, ok: bool) {
    s.results[ok] == FinishedWith(s, ok)
  }

  lemma StepKeepsBalance(s: State, a: Action)
    requires Balanced(s)
    ensures Balanced(Step(s, a))
  {
    var s' := Step(s, a);
    if s' != s {
      HavingUpdate(s.loops, a.loop, s'.loops[a.loop], IsUntyped);
      HavingUpdate(s.loops, a.loop, s'.loops[a.loop], IsTimed);
      HavingUpdate(s.loops, a.loop, s'.loops[a.loop], IsTyped);
    }
  }

  lemma StepKeepsType(s: State, a: Action, tag: Tag)
    requires TypeBalanced(s, tag)
    ensures TypeBalanced(Step(s, a), tag)
  {
    var s' := Step(s, a);
    if s' != s {
      HavingUpdate(s.loops, a.loop, s'.loops[a.loop], IsTypedAs(tag));
    }
  }

  lemma StepKeepsResult(s: State, a: Action, ok: bool)
    requires ResultBalanced(s, ok)
    ensures ResultBalanced(Step(s, a), ok)
  {}

  lemma {:induction false} EveryScheduleKeepsBalance(schedule: seq<Action>)
    ensures Balanced(Run(schedule))
  {
    if schedule != [] {
      EveryScheduleKeepsBalance(schedule[..|schedule| - 1]);
      StepKeepsBalance(Run(schedule[..|schedule| - 1]), schedule[|schedule| - 1]);
    }
  }

  // ---------- Conservation in every schedule ----------

  /** The type totals lead the result totals by the loops that are between their
      two increments, so they agree exactly if there is none. */
  lemma TypesLeadResults(schedule: seq<Action>)
    ensures var s := Run(schedule);
            && TypeTotal(s) == ResultTotal(s) + |Having(s.loops, IsTyped)|
            && (TypeTotal(s) == ResultTotal(s) <==> forall k :: k in s.loops ==> !s.loops[k].Typed?)
  {
    EveryScheduleKeepsBalance(schedule);
    var s := Run(schedule);
    if k :| k in s.loops && s.loops[k].Typed? {
      assert k in Having(s.loops, IsTyped);
    } else {
      assert Having(s.loops, IsTyped) == {};
    }
  }

  /** A frame that was received was counted by type, is on its way to that, or
      was dropped because its deadline could not be set; latencies are counted
      just before types. */
  lemma ReceivedFramesAreConserved(schedule: seq<Action>)
    ensures var s := Run(schedule);
            && s.received == TypeTotal(s) + |Having(s.loops, IsUntyped)| + s.dropped
            && s.latencies == TypeTotal(s) + |Having(s.loops, IsTimed)|
  {
    EveryScheduleKeepsBalance(schedule);
  }

  /** Each counter holds the frames of its own label: a type counter those that
      finished and those whose result is still to come, a result counter exactly
      those that finished with it. */
  lemma {:induction false} EachCounterCountsItsOwn(schedule: seq<Action>, tag: Tag, ok: bool)
    ensures var s := Run(schedule);
            && s.types[tag] == FinishedAs(s, tag) + |Having(s.loops, IsTypedAs(tag))|
            && s.results[ok] == FinishedWith(s, ok)
  {
    if schedule != [] {
      EachCounterCountsItsOwn(schedule[..|schedule| - 1], tag, ok);
      StepKeepsType(Run(schedule[..|schedule| - 1]), schedule[|schedule| - 1], tag);
      StepKeepsResult(Run(schedule[..|schedule| - 1]), schedule[|schedule| - 1], ok);
    }
  }

  // ---------- A frame from its arrival to its end ----------

  /** The four commands have a counter each, and everything else shares one. */
  lemma TagsOfKinds(kind: string)
    ensures TagOf("room.join") == JoinTag && TagOf("room.leave") == LeaveTag
    ensures TagOf("room.broadcast") == BroadcastTag && TagOf("private.send") == PrivateTag
    ensures kind !in {"room.join", "room.leave", "room.broadcast", "private.send"} <==> TagOf(kind) == UnknownTag
  {}

  lemma OneMore(schedule: seq<Action>, a: Action)
    ensures Run(schedule + [a]) == Step(Run(schedule), a)
  {
    assert (schedule + [a])[..|schedule|] == schedule;
  }

  lemma TwoUpdates(loops: map<nat, Loop>, k: nat, a: Loop, b: Loop)
    ensures loops[k := a][k := b] == loops[k := b]
  {}

  /** The three steps up to the latency, and the two that record the frame. */
  lemma AnswerSteps(s: State, k: nat, kind: string, ok: bool)
    requires k in s.loops && s.loops[k].Waiting?
    ensures Step(Step(Step(s, ReadFrame(k)), DeadlineSet(k)), CountLatency(k, kind, ok)) ==
            s.(received := s.received + 1, latencies := s.latencies + 1, loops := s.loops[k := Timed(kind, ok)])
  {
    var s1 := s.(received := s.received + 1, loops := s.loops[k := Received]);
    assert Step(s, ReadFrame(k)) == s1;
    TwoUpdates(s.loops, k, Received, Answering);
    var s2 := s1.(loops := s.loops[k := Answering]);
    assert Step(s1, DeadlineSet(k)) == s2;
    TwoUpdates(s.loops, k, Answering, Timed(kind, ok));
  }

  lemma RecordSteps(s: State, k: nat, kind: string, ok: bool, stop: bool)
    requires k in s.loops && s.loops[k] == Timed(kind, ok)
    ensures Step(Step(s, CountType(k)), CountResult(k, stop)) ==
            s.(types := s.types + multiset{TagOf(kind)}, results := s.results + multiset{ok},
               loops := s.loops[k := if stop then Ended else Waiting],
               finished := s.finished + multiset{(TagOf(kind), ok)})
  {
    var s1 := s.(types := s.types + multiset{TagOf(kind)}, loops := s.loops[k := Typed(kind, ok)]);
    assert Step(s, CountType(k)) == s1;
    TwoUpdates(s.loops, k, Typed(kind, ok), if stop then Ended else Waiting);
  }

  /** The state after some more actions. */
  function Apply(s: State, more: seq<Action>): State {
    if more == [] then s else Step(Apply(s, more[..|more| - 1]), more[|more| - 1])
  }

  lemma {:induction false} RunApplies(schedule: seq<Action>, more: seq<Action>)
    ensures Run(schedule + more) == Apply(Run(schedule), more)
  {
    if more == [] {
      assert schedule + more == schedule;
    } else {
      var m := |more| - 1;
      RunApplies(schedule, more[..m]);
      assert schedule + more == (schedule + more[..m]) + [more[m]];
      OneMore(schedule + more[..m], more[m]);
    }
  }

  /** A frame in one go: what its five steps do. */
  lemma FrameSteps(s: State, k: nat, kind: string, ok: bool, stop: bool) returns (s': State, more: seq<Action>)
    requires k in s.loops && s.loops[k].Waiting?
    ensures forall a :: a in more ==> a.loop == k
    ensures s' == Apply(s, more)
    ensures s' == s.(received := s.received + 1, latencies := s.latencies + 1,
                     types := s.types + multiset{TagOf(kind)}, results := s.results + multiset{ok},
                     loops := s.loops[k := if stop then Ended else Waiting],
                     finished := s.finished + multiset{(TagOf(kind), ok)})
  {
    var read, deadline, latency := ReadFrame(k), DeadlineSet(k), CountLatency(k, kind, ok);
    var kinds, result := CountType(k), CountResult(k, stop);
    var s1 := Step(s, read);
    var s2 := Step(s1, deadline);
    var s3 := Step(s2, latency);
    var s4 := Step(s3, kinds);
    s' := Step(s4, result);
    AnswerSteps(s, k, kind, ok);
    RecordSteps(s3, k, kind, ok, stop);
    TwoUpdates(s.loops, k, Timed(kind, ok), if stop then Ended else Waiting);
    more := [read, deadline, latency, kinds, result];
    FiveSteps(s, read, deadline, latency, kinds, result);
  }

  lemma FiveSteps(s: State, a: Action, b: Action, c: Action, d: Action, e: Action)
    ensures Apply(s, [a, b, c, d, e]) == Step(Step(Step(Step(Step(s, a), b), c), d), e)
  {
    assert [a, b, c, d, e][..4] == [a, b, c, d] && [a, b, c, d][..3] == [a, b, c];
    assert [a, b, c][..2] == [a, b] && [a, b][..1] == [a] && [a][..0] == [];
    assert Apply(s, [a]) == Step(s, a);
    assert Apply(s, [a, b]) == Step(Step(s, a), b);
    assert Apply(s, [a, b, c]) == Step(Step(Step(s, a), b), c);
    assert Apply(s, [a, b, c, d]) == Step(Step(Step(Step(s, a), b), c), d);
  }

  /** From every moment of every run, a read loop that waits can take a frame and
      answer it; that counts the frame once in every total, under its type and
      its result, and the loop waits again or has ended. */
  lemma FrameIsCountedOnce(schedule: seq<Action>, k: nat, kind: string, ok: bool, stop: bool)
    returns (s': State, more: seq<Action>)
    requires k in Run(schedule).loops && Run(schedule).loops[k].Waiting?
    ensures forall a :: a in more ==> a.loop == k
    ensures s' == Run(schedule + more)
    ensures var s := Run(schedule);
            && s'.received == s.received + 1 && s'.latencies == s.latencies + 1
            && s'.types == s.types + multiset{TagOf(kind)} && s'.results == s.results + multiset{ok}
            && s'.loops == s.loops[k := if stop then Ended else Waiting]
  {
    s', more := FrameSteps(Run(schedule), k, kind, ok, stop);
    RunApplies(schedule, more);
  }
}
