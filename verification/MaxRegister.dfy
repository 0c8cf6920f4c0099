/** The lock-free maximum of queue depths: any number of calls that load, compare
    and swap, interleaved at every atomic operation. */
module MaxRegister {

  // ---------- One call, with other threads in between ----------

  class Gauge {
    var maxQueueDepth: int

    constructor ()
      ensures maxQueueDepth == 0
    {
      maxQueueDepth := 0;
    }

    /** The retry loop. `rises` is how much other calls raise the register
        between this call's load and its swap, retry by retry; after that the
        call is alone. Every failed swap is paid for by a rise. */
    method UpdateMaxQueueDepth(depth: int, rises: seq<nat>) returns (failures: nat)
      modifies this
      ensures maxQueueDepth >= depth && maxQueueDepth >= old(maxQueueDepth)
      ensures depth <= old(maxQueueDepth) ==> maxQueueDepth == old(maxQueueDepth)
      ensures failures <= maxQueueDepth - old(maxQueueDepth)
      ensures rises == [] ==>
                && failures == 0
                && maxQueueDepth == if depth > old(maxQueueDepth) then depth else old(maxQueueDepth)
    {
      failures := 0;
      var retry := 0;
      while true
        invariant 0 <= retry <= |rises|
        invariant maxQueueDepth >= old(maxQueueDepth) + failures
        invariant failures == 0 ==> maxQueueDepth == old(maxQueueDepth)
        invariant failures > 0 ==> depth > old(maxQueueDepth) && rises != []
        decreases |rises| - retry
      {
        var current := maxQueueDepth;
        if depth <= current {
          break;
        }
        if retry < |rises| {
          maxQueueDepth := maxQueueDepth + rises[retry];
          retry := retry + 1;
        }
        if maxQueueDepth == current {
          maxQueueDepth := depth;
          break;
        }
        failures := failures + 1;
      }
    }
  }

  // ---------- Any number of calls ----------

  datatype Stage = Loading | Comparing(current: int) | Finished

  /** One call, and how often its swap has failed. */
  datatype Call = Call(depth: int, stage: Stage, failures: nat)

  datatype State = State(value: int, calls: map<nat, Call>)

  datatype Action = Begin(call: nat, depth: int) | Load(call: nat) | Swap(call: nat)

  function Step(s: State, a: Action): State {
    match a
    case Begin(k, depth) => if k in s.calls then s else s.(calls := s.calls[k := Call(depth, Loading, 0)])
    case Load(k) =>
      if k in s.calls && s.calls[k].stage.Loading? then
        var c := s.calls[k];
        s.(calls := s.calls[k := c.(stage := if c.depth <= s.value then Finished else Comparing(s.value))])
      else s
    case Swap(k) =>
      if k in s.calls && s.calls[k].stage.Comparing? then
        var c := s.calls[k];
        if s.value == c.stage.current then State(c.depth, s.calls[k := c.(stage := Finished)])
        else s.(calls := s.calls[k := c.(stage := Loading, failures := c.failures + 1)])
      else s
  }

  function Start(): State {
    State(0, map[])
  }

  function Run(schedule: seq<Action>): State {
    if schedule == [] then Start()
    else Step(Run(schedule[..|schedule| - 1]), schedule[|schedule| - 1])
  }

  ghost predicate CallSound(value: int, c: Call) {
    && (c.stage.Finished? ==> c.depth <= value)
    && (c.stage.Loading? ==> c.failures <= value)
    && (c.stage.Comparing? ==> c.failures <= c.stage.current <= value && c.stage.current < c.depth)
    && c.failures <= value
  }

  ghost predicate Inv(s: State) {
    && s.value >= 0
    && (s.value == 0 || exists k :: k in s.calls && s.calls[k].depth == s.value)
    && (forall k :: k in s.calls ==> CallSound(s.value, s.calls[k]))
  }

  lemma StepKeepsInv(s: State, a: Action)
    requires Inv(s)
    ensures Inv(Step(s, a)) && s.value <= Step(s, a).value
    ensures forall k :: k in s.calls ==> k in Step(s, a).calls && Step(s, a).calls[k].depth == s.calls[k].depth
  {
    var s' := Step(s, a);
    assert forall k :: k in s.calls ==> k in s'.calls && s'.calls[k].depth == s.calls[k].depth;
    if s.value != 0 && s'.value == s.value {
      var k :| k in s.calls && s.calls[k].depth == s.value;
      assert s'.calls[k].depth == s'.value;
    } else if s'.value != s.value {
      assert s'.calls[a.call].depth == s'.value;
    }
  }

  lemma {:induction false} EveryScheduleKeepsInv(schedule: seq<Action>)
    ensures Inv(Run(schedule))
  {
    if schedule != [] {
      EveryScheduleKeepsInv(schedule[..|schedule| - 1]);
      StepKeepsInv(Run(schedule[..|schedule| - 1]), schedule[|schedule| - 1]);
    }
  }

  /** The register never goes down, whatever is scheduled next. */
  lemma {:induction false} RegisterNeverFalls(schedule: seq<Action>, more: seq<Action>)
    ensures Run(schedule).value <= Run(schedule + more).value
  {
    if more == [] {
      assert schedule + more == schedule;
    } else {
      var m := |more| - 1;
      RegisterNeverFalls(schedule, more[..m]);
      assert (schedule + more)[..|schedule + more| - 1] == schedule + more[..m];
      EveryScheduleKeepsInv(schedule + more[..m]);
      StepKeepsInv(Run(schedule + more[..m]), more[m]);
    }
  }

  /** When every call has finished, the register is the maximum of their depths
      (zero if there was none above it): it is at least each of them and is one
      of them. No reading ever exceeds the largest depth begun. */
  lemma RegisterIsMaximum(schedule: seq<Action>, bound: int)
    requires bound >= 0
    ensures var s := Run(schedule);
            && (forall k :: k in s.calls && s.calls[k].stage.Finished? ==> s.calls[k].depth <= s.value)
            && (s.value == 0 || exists k :: k in s.calls && s.calls[k].depth == s.value)
            && ((forall k :: k in s.calls ==> s.calls[k].depth <= bound) ==> s.value <= bound)
  {
    EveryScheduleKeepsInv(schedule);
  }

  /** A swap fails only if the register rose since the load, so a call retries
      at most as often as the register has units to rise. */
  lemma RetriesAreBounded(schedule: seq<Action>, k: nat)
    ensures var s := Run(schedule);
            k in s.calls ==> s.calls[k].failures <= s.value
    ensures var s := Run(schedule);
            k in s.calls && s.calls[k].stage.Comparing? && s.value != s.calls[k].stage.current ==>
              s.value > s.calls[k].stage.current
  {
    EveryScheduleKeepsInv(schedule);
  }

  lemma OneMore(schedule: seq<Action>, a: Action)
    ensures Run(schedule + [a]) == Step(Run(schedule), a)
  {
    assert (schedule + [a])[..|schedule|] == schedule;
  }

  /** From every moment of every run, a call that goes on alone is finished after
      three steps at most, and the register is then the maximum of its depth and
      what it was. */
  lemma LoneCallFinishes(schedule: seq<Action>, k: nat) returns (more: seq<Action>)
    requires k in Run(schedule).calls
    ensures |more| <= 3 && forall a :: a in more ==> (a.Load? || a.Swap?) && a.call == k
    ensures var s, s' := Run(schedule), Run(schedule + more);
            && k in s'.calls && s'.calls[k].stage.Finished?
            && (s.calls[k].stage.Finished? ==> s'.value == s.value)
            && (!s.calls[k].stage.Finished? ==>
                  s'.value == if s.calls[k].depth > s.value then s.calls[k].depth else s.value)
  {
    EveryScheduleKeepsInv(schedule);
    var s := Run(schedule);
    if s.calls[k].stage.Finished? {
      more := [];
      assert schedule + more == schedule;
    } else if s.calls[k].stage.Loading? {
      more := FinishFromLoad(schedule, k);
    } else {
      assert CallSound(s.value, s.calls[k]);
      OneMore(schedule, Swap(k));
      if s.value == s.calls[k].stage.current {
        more := [Swap(k)];
      } else {
        var rest := FinishFromLoad(schedule + [Swap(k)], k);
        more := [Swap(k)] + rest;
        assert schedule + more == (schedule + [Swap(k)]) + rest;
      }
    }
  }

  lemma FinishFromLoad(schedule: seq<Action>, k: nat) returns (more: seq<Action>)
    requires k in Run(schedule).calls && Run(schedule).calls[k].stage.Loading?
    ensures |more| <= 2 && forall a :: a in more ==> (a.Load? || a.Swap?) && a.call == k
    ensures var s, s' := Run(schedule), Run(schedule + more);
            && k in s'.calls && s'.calls[k].stage.Finished?
            && s'.value == if s.calls[k].depth > s.value then s.calls[k].depth else s.value
  {
    var s := Run(schedule);
    OneMore(schedule, Load(k));
    if s.calls[k].depth <= s.value {
      more := [Load(k)];
    } else {
      OneMore(schedule + [Load(k)], Swap(k));
      more := [Load(k)] + [Swap(k)];
      assert schedule + more == (schedule + [Load(k)]) + [Swap(k)];
    }
  }
}
