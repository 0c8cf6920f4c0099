/** The process-local bus, once as an object used by one caller at a time and
    once as a step system of concurrent calls. A handler call is recorded as
    the ID of its subscription. */
module MemoryBroker {
  import opened Common
  import opened Subjects

  function Matches(subscribers: map<nat, string>, subject: string): set<nat> {
    set id | id in subscribers && MatchSubject(subscribers[id], subject)
  }

  /** Which subscriptions match, token by token. */
  lemma MatchesByTokens(subscribers: map<nat, string>, id: nat, pattern: seq<string>, subject: seq<string>)
    requires id in subscribers && subscribers[id] == JoinDots(pattern) && IsPattern(pattern) && IsSubject(subject)
    ensures id in Matches(subscribers, JoinDots(subject)) <==> TokensMatch(pattern, subject)
  {
    MatchSubjectIsTokenMatch(pattern, subject);
  }

  /** The server's subscription matches whatever the hubs publish. */
  lemma ServerIsMatched(subscribers: map<nat, string>, id: nat, name: string)
    requires id in subscribers && subscribers[id] == "blockforge.>"
    ensures id in Matches(subscribers, RoomSubject(name)) && id in Matches(subscribers, UserSubject(name))
  {
    HubSubjectsReachTheSubscription(name);
  }

  // ---------- One caller at a time ----------

  class Broker {
    var subscribers: map<nat, string>
    var nextID: nat
    var closed: bool
    var calls: seq<(nat, string)>  // handler invocations: subscription, subject

    ghost predicate Valid()
      reads this
    {
      forall id :: id in subscribers ==> id < nextID
    }

    constructor ()
      ensures Valid() && subscribers == map[] && !closed && calls == []
    {
      subscribers, nextID, closed, calls := map[], 0, false, [];
    }

    /** Calls each matching handler once, in whatever order the map yields them. */
    method Publish(subject: string) returns (ok: bool)
      requires Valid()
      modifies this`calls
      ensures ok <==> !closed
      ensures old(calls) <= calls
      ensures var made := calls[|old(calls)|..];
              && Distinct(made)
              && forall call :: call in made <==>
                   && ok && call.1 == subject
                   && call.0 in subscribers && MatchSubject(subscribers[call.0], subject)
    {
      if closed {
        return false;
      }
      var matches: seq<nat> := [];
      var pending := subscribers.Keys;
      while pending != {}
        invariant pending <= subscribers.Keys
        invariant Distinct(matches)
        invariant forall id :: id in matches <==> id in Matches(subscribers, subject) && id !in pending
      {
        var id :| id in pending;
        pending := pending - {id};
        if MatchSubject(subscribers[id], subject) {
          matches := matches + [id];
        }
      }
      for i := 0 to |matches|
        invariant |calls| == |old(calls)| + i && old(calls) <= calls
        invariant forall k :: 0 <= k < i ==> calls[|old(calls)| + k] == (matches[k], subject)
      {
        calls := calls + [(matches[i], subject)];
      }
      ghost var made := calls[|old(calls)|..];
      assert |made| == |matches| && forall k :: 0 <= k < |made| ==> made[k] == (matches[k], subject);
      forall id | id in matches ensures (id, subject) in made {
        var k :| 0 <= k < |matches| && matches[k] == id;
        assert made[k] == (id, subject);
      }
      return true;
    }

    method Subscribe(pattern: string) returns (id: Option<nat>)
      requires Valid()
      modifies this
      ensures Valid() && closed == old(closed) && calls == old(calls)
      ensures id.None? <==> closed
      ensures id.None? ==> subscribers == old(subscribers) && nextID == old(nextID)
      ensures id.Some? ==> id.value !in old(subscribers) && subscribers == old(subscribers)[id.value := pattern]
                           && old(nextID) <= id.value < nextID
    {
      if closed {
        return None;
      }
      id := Some(nextID);
      subscribers := subscribers[nextID := pattern];
      nextID := nextID + 1;
    }

    method Cancel(id: nat)
      requires Valid()
      modifies this`subscribers
      ensures Valid() && subscribers == old(subscribers) - {id}
    {
      subscribers := subscribers - {id};
    }

    method Close()
      modifies this`subscribers, this`closed
      ensures Valid() && closed && subscribers == map[]
    {
      closed := true;
      subscribers := map[];
    }
  }

  // ---------- Concurrent calls ----------

  /** One Publish call. `dead` and `afterClose` record what had already
      happened when the call began. */
  datatype Publication = Publication(
    subject: string,
    dead: set<nat>,       // subscriptions whose cancel had returned
    afterClose: bool,     // Close had stored its flag
    stage: PublishStage,
    seen: map<nat, string>, // the subscribers under the read lock
    todo: set<nat>,
    calls: seq<nat>
  )

  datatype PublishStage = Failed | Passed | Calling

  datatype Grant = Waiting(pattern: string) | Refused | Granted(id: nat)

  datatype Bus = Bus(
    subscribers: map<nat, string>,
    nextID: nat,
    closed: bool,
    cancelled: set<nat>,
    publications: map<nat, Publication>,
    grants: map<nat, Grant>  // Subscribe calls
  )

  datatype Action =
    | StartPublish(call: nat, subject: string)
    | TakeSnapshot(call: nat)
    | CallHandler(call: nat, id: nat)
    | StartSubscribe(call: nat, pattern: string)
    | FinishSubscribe(call: nat)
    | Cancel(call: nat)
    | StoreClosed
    | ClearSubscribers

  function Step(b: Bus, a: Action): Bus {
    match a
    case StartPublish(k, subject) =>
      if k in b.publications then b
      else b.(publications := b.publications[k :=
        Publication(subject, b.cancelled, b.closed, if b.closed then Failed else Passed, map[], {}, [])])
    case TakeSnapshot(k) =>
      if k in b.publications && b.publications[k].stage.Passed? then
        var p := b.publications[k];
        b.(publications := b.publications[k :=
          p.(stage := Calling, seen := b.subscribers, todo := Matches(b.subscribers, p.subject))])
      else b
    case CallHandler(k, id) =>
      if k in b.publications && id in b.publications[k].todo then
        var p := b.publications[k];
        b.(publications := b.publications[k := p.(todo := p.todo - {id}, calls := p.calls + [id])])
      else b
    case StartSubscribe(k, pattern) =>
      if k in b.grants then b
      else b.(grants := b.grants[k := if b.closed then Refused else Waiting(pattern)])
    case FinishSubscribe(k) =>
      if k in b.grants && b.grants[k].Waiting? then
        b.(subscribers := b.subscribers[b.nextID := b.grants[k].pattern],
           grants := b.grants[k := Granted(b.nextID)],
           nextID := b.nextID + 1)
      else b
    case Cancel(k) =>
      if k in b.grants && b.grants[k].Granted? then
        b.(subscribers := b.subscribers - {b.grants[k].id}, cancelled := b.cancelled + {b.grants[k].id})
      else b
    case StoreClosed => b.(closed := true)
    case ClearSubscribers => if b.closed then b.(subscribers := map[]) else b
  }

  function Start(): Bus {
    Bus(map[], 0, false, {}, map[], map[])
  }

  function Run(schedule: seq<Action>): Bus {
    if schedule == [] then Start()
    else Step(Run(schedule[..|schedule| - 1]), schedule[|schedule| - 1])
  }

  ghost predicate IdsFresh(b: Bus) {
    && (forall id :: id in b.subscribers ==> id < b.nextID && id !in b.cancelled)
    && (forall id :: id in b.cancelled ==> id < b.nextID)
    && (forall k :: k in b.grants && b.grants[k].Granted? ==> b.grants[k].id < b.nextID)
    && (forall k, l :: k in b.grants && l in b.grants && b.grants[k].Granted? && b.grants[k] == b.grants[l] ==> k == l)
  }

  ghost predicate PublicationSound(p: Publication) {
    && (p.stage.Failed? <==> p.afterClose)
    && (!p.stage.Calling? ==> p.todo == {} && p.calls == [] && p.seen == map[])
    && Distinct(p.calls)
    && (forall id :: id in Matches(p.seen, p.subject) <==> id in p.todo || id in p.calls)
    && (forall id :: id in p.todo ==> id !in p.calls)
    && (forall id :: id in p.seen ==> id !in p.dead)
  }

  ghost predicate PublicationsSound(b: Bus) {
    forall k :: k in b.publications ==>
      && PublicationSound(b.publications[k])
      && b.publications[k].dead <= b.cancelled
      && (b.publications[k].afterClose ==> b.closed)
  }

  ghost predicate Inv(b: Bus) {
    IdsFresh(b) && PublicationsSound(b)
  }

  lemma StepIds(b: Bus, a: Action)
    requires IdsFresh(b)
    ensures IdsFresh(Step(b, a))
  {}

  lemma SnapshotSound(p: Publication, subscribers: map<nat, string>)
    requires PublicationSound(p) && p.stage.Passed?
    requires forall id :: id in subscribers ==> id !in p.dead
    ensures PublicationSound(p.(stage := Calling, seen := subscribers, todo := Matches(subscribers, p.subject)))
  {}

  lemma CallSound(p: Publication, id: nat)
    requires PublicationSound(p) && id in p.todo
    ensures PublicationSound(p.(todo := p.todo - {id}, calls := p.calls + [id]))
  {
    assert forall x :: x in p.calls + [id] <==> x in p.calls || x == id;
  }

  /** Replacing one sound publication by another keeps all of them sound. */
  lemma UpdateSound(b: Bus, k: nat, p: Publication)
    requires PublicationsSound(b) && PublicationSound(p) && p.dead <= b.cancelled && (p.afterClose ==> b.closed)
    ensures PublicationsSound(b.(publications := b.publications[k := p]))
  {}

  lemma StepPublications(b: Bus, a: Action)
    requires Inv(b)
    ensures PublicationsSound(Step(b, a))
  {
    match a
    case StartPublish(k, subject) =>
      var stage := if b.closed then Failed else Passed;
      UpdateSound(b, k, Publication(subject, b.cancelled, b.closed, stage, map[], {}, []));
    case TakeSnapshot(k) =>
      if k in b.publications && b.publications[k].stage.Passed? {
        var p := b.publications[k];
        SnapshotSound(p, b.subscribers);
        UpdateSound(b, k, p.(stage := Calling, seen := b.subscribers, todo := Matches(b.subscribers, p.subject)));
      }
    case CallHandler(k, id) =>
      if k in b.publications && id in b.publications[k].todo {
        var p := b.publications[k];
        CallSound(p, id);
        UpdateSound(b, k, p.(todo := p.todo - {id}, calls := p.calls + [id]));
      }
    case _ =>
  }

  lemma {:induction false} EveryScheduleKeepsInv(schedule: seq<Action>)
    ensures Inv(Run(schedule))
  {
    if schedule != [] {
      EveryScheduleKeepsInv(schedule[..|schedule| - 1]);
      StepIds(Run(schedule[..|schedule| - 1]), schedule[|schedule| - 1]);
      StepPublications(Run(schedule[..|schedule| - 1]), schedule[|schedule| - 1]);
    }
  }

  /** Two Subscribe calls never share an ID, also after cancels and closes. */
  lemma SubscriptionIdsAreNeverReused(schedule: seq<Action>, k: nat, l: nat)
    ensures var g := Run(schedule).grants;
            k in g && l in g && g[k].Granted? && g[l].Granted? && k != l ==> g[k].id != g[l].id
  {
    EveryScheduleKeepsInv(schedule);
  }

  lemma OneMore(schedule: seq<Action>, a: Action)
    ensures Run(schedule + [a]) == Step(Run(schedule), a)
  {
    assert (schedule + [a])[..|schedule|] == schedule;
  }

  // ---------- One Publish call from its start ----------

  /** What call `k`, started after `pre`, has come to in `schedule`: its snapshot
      is the map of subscribers when its TakeSnapshot ran, and a handler that it
      has still to call has not been scheduled since. */
  ghost predicate CallTold(pre: seq<Action>, schedule: seq<Action>, k: nat, subject: string, p: Publication) {
    && p.subject == subject && p.dead == Run(pre).cancelled && p.afterClose == Run(pre).closed
    && (p.stage.Passed? ==> forall i :: |pre| < i < |schedule| ==> schedule[i] != TakeSnapshot(k))
    && (p.stage.Calling? ==> exists q: nat :: |pre| < q && SnapshotAt(schedule, q, k, p))
  }

  ghost predicate SnapshotAt(schedule: seq<Action>, q: nat, k: nat, p: Publication) {
    && q < |schedule| && schedule[q] == TakeSnapshot(k)
    && p.seen == Run(schedule[..q]).subscribers
    && (forall i :: q < i < |schedule| && schedule[i].CallHandler? && schedule[i].call == k ==>
          schedule[i].id !in p.todo)
  }

  lemma CallTakesSnapshot(pre: seq<Action>, schedule: seq<Action>, k: nat, subject: string)
    requires |pre| < |schedule| && k in Run(schedule).publications
    requires var p := Run(schedule).publications[k]; CallTold(pre, schedule, k, subject, p) && p.stage.Passed?
    ensures var s' := schedule + [TakeSnapshot(k)];
            k in Run(s').publications && CallTold(pre, s', k, subject, Run(s').publications[k])
  {
    var s' := schedule + [TakeSnapshot(k)];
    OneMore(schedule, TakeSnapshot(k));
    assert s'[..|schedule|] == schedule;
    assert SnapshotAt(s', |schedule|, k, Run(s').publications[k]);
  }

  /** Apart from its snapshot, a step only takes handlers off a call's list. */
  ghost predicate Continues(p: Publication, p': Publication, k: nat, a: Action) {
    && p' == p.(todo := p'.todo, calls := p'.calls) && p'.todo <= p.todo
    && (a.CallHandler? && a.call == k ==> a.id !in p'.todo)
  }

  lemma StepContinues(b: Bus, k: nat, a: Action)
    requires k in b.publications && !(a == TakeSnapshot(k) && b.publications[k].stage.Passed?)
    ensures k in Step(b, a).publications && Continues(b.publications[k], Step(b, a).publications[k], k, a)
  {}

  lemma SnapshotLasts(schedule: seq<Action>, q: nat, k: nat, p: Publication, a: Action, p': Publication)
    requires SnapshotAt(schedule, q, k, p) && Continues(p, p', k, a)
    ensures SnapshotAt(schedule + [a], q, k, p')
  {
    assert (schedule + [a])[..q] == schedule[..q];
  }

  lemma CallGoesOn(pre: seq<Action>, schedule: seq<Action>, k: nat, subject: string, a: Action)
    requires |pre| < |schedule| && k in Run(schedule).publications
    requires CallTold(pre, schedule, k, subject, Run(schedule).publications[k])
    requires a == TakeSnapshot(k) ==> !Run(schedule).publications[k].stage.Passed?
    ensures var s' := schedule + [a];
            k in Run(s').publications && CallTold(pre, s', k, subject, Run(s').publications[k])
  {
    var s' := schedule + [a];
    OneMore(schedule, a);
    StepContinues(Run(schedule), k, a);
    var p, p' := Run(schedule).publications[k], Run(s').publications[k];
    if p.stage.Calling? {
      var q: nat :| |pre| < q && SnapshotAt(schedule, q, k, p);
      SnapshotLasts(schedule, q, k, p, a, p');
    }
  }

  lemma {:induction false} EveryCallIsTold(pre: seq<Action>, k: nat, subject: string, more: seq<Action>)
    requires k !in Run(pre).publications
    ensures var schedule := pre + [StartPublish(k, subject)] + more;
            k in Run(schedule).publications && CallTold(pre, schedule, k, subject, Run(schedule).publications[k])
  {
    if more == [] {
      OneMore(pre, StartPublish(k, subject));
      assert pre + [StartPublish(k, subject)] + more == pre + [StartPublish(k, subject)];
    } else {
      var m := |more| - 1;
      EveryCallIsTold(pre, k, subject, more[..m]);
      var before := pre + [StartPublish(k, subject)] + more[..m];
      assert pre + [StartPublish(k, subject)] + more == before + [more[m]];
      if more[m] == TakeSnapshot(k) && Run(before).publications[k].stage.Passed? {
        CallTakesSnapshot(pre, before, k, subject);
      } else {
        CallGoesOn(pre, before, k, subject, more[m]);
      }
    }
  }

  /** The handlers called and those still to be called are, without repetition,
      the subscriptions that matched when the snapshot was taken at `q`; one that
      is still to be called has not been scheduled since. */
  ghost predicate CallsMatchesAt(schedule: seq<Action>, q: nat, k: nat, subject: string, p: Publication) {
    && q < |schedule| && schedule[q] == TakeSnapshot(k)
    && (var subscribers := Run(schedule[..q]).subscribers;
        forall id :: id in p.calls || id in p.todo <==> id in subscribers && MatchSubject(subscribers[id], subject))
    && (forall id :: id in p.todo ==> id !in p.calls && CallHandler(k, id) !in schedule[q..])
  }

  lemma SnapshotIsCalled(schedule: seq<Action>, q: nat, k: nat, subject: string, p: Publication)
    requires SnapshotAt(schedule, q, k, p) && PublicationSound(p) && p.subject == subject
    ensures CallsMatchesAt(schedule, q, k, subject, p)
  {
    forall id | id in p.todo ensures CallHandler(k, id) !in schedule[q..] {
      assert forall i :: q < i < |schedule| ==> schedule[i] != CallHandler(k, id);
    }
  }

  /** A publish, from its start to any later moment: it fails if the broker was
      closed before; otherwise it calls nobody before its snapshot, and then each
      subscription that matched in the map of that moment exactly once: never
      twice while it runs, all of them when nothing is left to call. */
  lemma EachMatchIsCalledOnce(pre: seq<Action>, k: nat, subject: string, more: seq<Action>)
    requires k !in Run(pre).publications
    ensures var schedule := pre + [StartPublish(k, subject)] + more;
            k in Run(schedule).publications &&
              var p := Run(schedule).publications[k];
              && Distinct(p.calls)
              && (p.stage.Failed? <==> Run(pre).closed)
              && (p.stage.Passed? ==> TakeSnapshot(k) !in more)
              && (if p.stage.Calling? then exists q: nat :: |pre| < q && CallsMatchesAt(schedule, q, k, subject, p)
                  else p.calls == [])
  {
    var schedule := pre + [StartPublish(k, subject)] + more;
    EveryCallIsTold(pre, k, subject, more);
    EveryScheduleKeepsInv(schedule);
    assert forall i :: 0 <= i < |more| ==> more[i] == schedule[|pre| + 1 + i];
    ToldMeansCalled(pre, schedule, k, subject, Run(schedule).publications[k]);
  }

  lemma ToldMeansCalled(pre: seq<Action>, schedule: seq<Action>, k: nat, subject: string, p: Publication)
    requires CallTold(pre, schedule, k, subject, p) && PublicationSound(p)
    ensures Distinct(p.calls) && (p.stage.Failed? <==> Run(pre).closed)
    ensures p.stage.Calling? ==> exists q: nat :: |pre| < q && CallsMatchesAt(schedule, q, k, subject, p)
    ensures !p.stage.Calling? ==> p.calls == []
  {
    if p.stage.Calling? {
      var q: nat :| |pre| < q && SnapshotAt(schedule, q, k, p);
      SnapshotIsCalled(schedule, q, k, subject, p);
    }
  }

  // ---------- From Subscribe to the call ----------

  lemma {:induction false} SubscribeWaits(pre: seq<Action>, l: nat, pattern: string, mid: seq<Action>)
    requires l !in Run(pre).grants && !Run(pre).closed && FinishSubscribe(l) !in mid
    ensures var b := Run(pre + [StartSubscribe(l, pattern)] + mid); l in b.grants && b.grants[l] == Waiting(pattern)
  {
    if mid == [] {
      OneMore(pre, StartSubscribe(l, pattern));
      assert pre + [StartSubscribe(l, pattern)] + mid == pre + [StartSubscribe(l, pattern)];
    } else {
      var m := |mid| - 1;
      SubscribeWaits(pre, l, pattern, mid[..m]);
      var before := pre + [StartSubscribe(l, pattern)] + mid[..m];
      assert pre + [StartSubscribe(l, pattern)] + mid == before + [mid[m]];
      OneMore(before, mid[m]);
      assert mid[m] in mid;
      StepKeepsWaiting(Run(before), l, mid[m]);
    }
  }

  lemma StepKeepsWaiting(b: Bus, l: nat, a: Action)
    requires l in b.grants && b.grants[l].Waiting? && a != FinishSubscribe(l)
    ensures l in Step(b, a).grants && Step(b, a).grants[l] == b.grants[l]
  {}

  /** A Subscribe that begins before the broker is closed adds its pattern when it
      takes the lock, whatever runs in between. */
  lemma SubscribeAddsItsPattern(pre: seq<Action>, l: nat, pattern: string, mid: seq<Action>)
    requires l !in Run(pre).grants && !Run(pre).closed && FinishSubscribe(l) !in mid
    ensures var b := Run(pre + [StartSubscribe(l, pattern)] + mid + [FinishSubscribe(l)]);
            && l in b.grants && b.grants[l].Granted?
            && b.grants[l].id in b.subscribers && b.subscribers[b.grants[l].id] == pattern
  {
    SubscribeWaits(pre, l, pattern, mid);
    OneMore(pre + [StartSubscribe(l, pattern)] + mid, FinishSubscribe(l));
  }

  lemma {:induction false} DueCallIsMade(schedule: seq<Action>, k: nat, id: nat, more: seq<Action>)
    requires k in Run(schedule).publications && id in Run(schedule).publications[k].todo
    requires Run(schedule).publications[k].stage.Calling?
    ensures var b := Run(schedule + more);
            && k in b.publications && b.publications[k].stage.Calling?
            && (id in b.publications[k].calls || (id in b.publications[k].todo && CallHandler(k, id) !in more))
  {
    if more == [] {
      assert schedule + more == schedule;
    } else {
      var m := |more| - 1;
      DueCallIsMade(schedule, k, id, more[..m]);
      assert schedule + more == (schedule + more[..m]) + [more[m]];
      OneMore(schedule + more[..m], more[m]);
      StepMakesDueCall(Run(schedule + more[..m]), k, id, more[m]);
    }
  }

  lemma StepMakesDueCall(b: Bus, k: nat, id: nat, a: Action)
    requires k in b.publications && b.publications[k].stage.Calling?
    ensures k in Step(b, a).publications && Step(b, a).publications[k].stage.Calling?
    ensures id in b.publications[k].calls ==> id in Step(b, a).publications[k].calls
    ensures id in b.publications[k].todo ==>
              var p := Step(b, a).publications[k]; id in p.calls || (id in p.todo && a != CallHandler(k, id))
  {}

  /** A subscription that matches and is there when a publish on an open broker
      takes its snapshot is called as soon as its turn comes. */
  lemma LiveSubscriptionIsCalled(pre: seq<Action>, k: nat, subject: string, mid: seq<Action>,
                                 id: nat, more: seq<Action>)
    requires k !in Run(pre).publications && !Run(pre).closed && TakeSnapshot(k) !in mid
    requires var b := Run(pre + [StartPublish(k, subject)] + mid);
             id in b.subscribers && MatchSubject(b.subscribers[id], subject)
    requires CallHandler(k, id) in more
    ensures var b := Run(pre + [StartPublish(k, subject)] + mid + [TakeSnapshot(k)] + more);
            k in b.publications && id in b.publications[k].calls
  {
    var before := pre + [StartPublish(k, subject)] + mid;
    EachMatchIsCalledOnce(pre, k, subject, mid);
    EveryCallIsTold(pre, k, subject, mid);
    assert forall q :: |pre| < q < |before| ==> before[q] == mid[q - |pre| - 1];
    OneMore(before, TakeSnapshot(k));
    DueCallIsMade(before + [TakeSnapshot(k)], k, id, more);
  }

  lemma StepKeepsCancelAndClose(b: Bus, a: Action)
    ensures b.cancelled <= Step(b, a).cancelled && (b.closed ==> Step(b, a).closed)
  {}

  lemma {:induction false} CancelAndCloseLast(schedule: seq<Action>, more: seq<Action>)
    ensures Run(schedule).cancelled <= Run(schedule + more).cancelled
    ensures Run(schedule).closed ==> Run(schedule + more).closed
  {
    if more == [] {
      assert schedule + more == schedule;
    } else {
      var m := |more| - 1;
      CancelAndCloseLast(schedule, more[..m]);
      assert schedule + more == (schedule + more[..m]) + [more[m]];
      OneMore(schedule + more[..m], more[m]);
      StepKeepsCancelAndClose(Run(schedule + more[..m]), more[m]);
    }
  }

  /** A publish that begins after the cancel of a subscription has returned never
      calls its handler. */
  lemma NoCallAfterCancel(pre: seq<Action>, l: nat, id: nat, mid: seq<Action>,
                          k: nat, subject: string, more: seq<Action>)
    requires l in Run(pre).grants && Run(pre).grants[l] == Granted(id)
    requires k !in Run(pre + [Cancel(l)] + mid).publications
    ensures var schedule := pre + [Cancel(l)] + mid + [StartPublish(k, subject)] + more;
            k in Run(schedule).publications && id !in Run(schedule).publications[k].calls
  {
    var begin := pre + [Cancel(l)] + mid;
    OneMore(pre, Cancel(l));
    CancelAndCloseLast(pre + [Cancel(l)], mid);
    EveryCallIsTold(begin, k, subject, more);
    CalledIsNotDead(begin + [StartPublish(k, subject)] + more, k, id);
  }

  lemma CalledIsNotDead(schedule: seq<Action>, k: nat, id: nat)
    requires k in Run(schedule).publications && id in Run(schedule).publications[k].dead
    ensures id !in Run(schedule).publications[k].calls
  {
    EveryScheduleKeepsInv(schedule);
    var p := Run(schedule).publications[k];
    assert PublicationSound(p);
    assert id in p.calls ==> id in Matches(p.seen, p.subject);
  }

  /** A publish that begins after Close has stored its flag fails and calls
      nobody. */
  lemma NoCallAfterClose(pre: seq<Action>, mid: seq<Action>, k: nat, subject: string, more: seq<Action>)
    requires k !in Run(pre + [StoreClosed] + mid).publications
    ensures var schedule := pre + [StoreClosed] + mid + [StartPublish(k, subject)] + more;
            && k in Run(schedule).publications
            && Run(schedule).publications[k].stage.Failed? && Run(schedule).publications[k].calls == []
  {
    OneMore(pre, StoreClosed);
    CancelAndCloseLast(pre + [StoreClosed], mid);
    EachMatchIsCalledOnce(pre + [StoreClosed] + mid, k, subject, more);
  }

  // ---------- What a closed broker still holds ----------

  /** Subscribe call `k` had passed its test of the flag and not yet taken the
      lock in `cleared`; by now it has added `id`, which nobody cancelled. */
  predicate LateGrant(cleared: Bus, b: Bus, k: nat, id: nat) {
    && k in cleared.grants && cleared.grants[k].Waiting?
    && k in b.grants && b.grants[k] == Granted(id) && id !in b.cancelled
  }

  ghost predicate OnlyLateGrants(cleared: Bus, b: Bus) {
    && b.closed
    && (forall k :: k in b.grants && b.grants[k].Waiting? ==> k in cleared.grants && cleared.grants[k].Waiting?)
    && (forall id :: id in b.subscribers <==> exists k :: LateGrant(cleared, b, k, id))
  }

  lemma ClearLeavesNobody(b: Bus)
    requires b.closed
    ensures OnlyLateGrants(b, Step(b, ClearSubscribers))
  {
    var b' := Step(b, ClearSubscribers);
    forall k, id ensures !LateGrant(b, b', k, id) {}
  }

  lemma FinishKeepsLateGrants(cleared: Bus, b: Bus, k: nat)
    requires IdsFresh(b) && OnlyLateGrants(cleared, b) && k in b.grants && b.grants[k].Waiting?
    ensures OnlyLateGrants(cleared, Step(b, FinishSubscribe(k)))
  {
    var b' := Step(b, FinishSubscribe(k));
    assert LateGrant(cleared, b', k, b.nextID);
    forall l, id | l != k ensures LateGrant(cleared, b', l, id) <==> LateGrant(cleared, b, l, id) {}
    forall id ensures !LateGrant(cleared, b, k, id) && (LateGrant(cleared, b', k, id) <==> id == b.nextID) {}
    forall id ensures id in b'.subscribers <==> exists l :: LateGrant(cleared, b', l, id) {
      if l :| LateGrant(cleared, b, l, id) {
        assert LateGrant(cleared, b', l, id);
      }
    }
  }

  lemma CancelKeepsLateGrants(cleared: Bus, b: Bus, k: nat)
    requires IdsFresh(b) && OnlyLateGrants(cleared, b) && k in b.grants && b.grants[k].Granted?
    ensures OnlyLateGrants(cleared, Step(b, Cancel(k)))
  {
    var b' := Step(b, Cancel(k));
    forall l, id ensures LateGrant(cleared, b', l, id) <==> LateGrant(cleared, b, l, id) && id != b.grants[k].id {}
    forall id ensures id in b'.subscribers <==> exists l :: LateGrant(cleared, b', l, id) {
      if l :| LateGrant(cleared, b, l, id) && id != b.grants[k].id {
        assert LateGrant(cleared, b', l, id);
      }
    }
  }

  /** Steps that touch neither the map nor a grant that was made or awaited. */
  lemma OthersKeepLateGrants(cleared: Bus, b: Bus, b': Bus)
    requires OnlyLateGrants(cleared, b)
    requires b'.closed && b'.subscribers == b.subscribers && b'.cancelled == b.cancelled
    requires forall k :: k in b.grants ==> k in b'.grants && b'.grants[k] == b.grants[k]
    requires forall k :: k in b'.grants && k !in b.grants ==> b'.grants[k].Refused?
    ensures OnlyLateGrants(cleared, b')
  {
    forall k, id ensures LateGrant(cleared, b', k, id) <==> LateGrant(cleared, b, k, id) {}
  }

  lemma StepKeepsLateGrants(cleared: Bus, b: Bus, a: Action)
    requires IdsFresh(b) && OnlyLateGrants(cleared, b) && !a.ClearSubscribers?
    ensures OnlyLateGrants(cleared, Step(b, a))
  {
    if a.FinishSubscribe? && a.call in b.grants && b.grants[a.call].Waiting? {
      FinishKeepsLateGrants(cleared, b, a.call);
    } else if a.Cancel? && a.call in b.grants && b.grants[a.call].Granted? {
      CancelKeepsLateGrants(cleared, b, a.call);
    } else {
      OthersKeepLateGrants(cleared, b, Step(b, a));
    }
  }

  /** Once Close has cleared the map, the broker holds exactly the subscriptions
      of those Subscribe calls that were past their test of the flag when the
      map was cleared, have finished since and were not cancelled. */
  lemma ClosedBrokerHoldsLateGrants(pre: seq<Action>, more: seq<Action>, id: nat)
    requires Run(pre).closed && ClearSubscribers !in more
    ensures var b := Run(pre + [ClearSubscribers] + more);
            id in b.subscribers <==> exists k :: LateGrant(Run(pre), b, k, id)
  {
    EveryContinuationKeepsLateGrants(pre, more);
  }

  lemma {:induction false} EveryContinuationKeepsLateGrants(pre: seq<Action>, more: seq<Action>)
    requires Run(pre).closed && ClearSubscribers !in more
    ensures OnlyLateGrants(Run(pre), Run(pre + [ClearSubscribers] + more))
  {
    if more == [] {
      OneMore(pre, ClearSubscribers);
      assert pre + [ClearSubscribers] + more == pre + [ClearSubscribers];
      ClearLeavesNobody(Run(pre));
    } else {
      var m := |more| - 1;
      EveryContinuationKeepsLateGrants(pre, more[..m]);
      var before := pre + [ClearSubscribers] + more[..m];
      assert pre + [ClearSubscribers] + more == before + [more[m]];
      OneMore(before, more[m]);
      EveryScheduleKeepsInv(before);
      StepKeepsLateGrants(Run(pre), Run(before), more[m]);
    }
  }

  /** Closed, empty, and no Subscribe call past its test of the flag. */
  ghost predicate Quiet(b: Bus) {
    b.closed && b.subscribers == map[] && forall k :: k in b.grants ==> !b.grants[k].Waiting?
  }

  lemma StepKeepsQuiet(b: Bus, a: Action)
    requires Quiet(b)
    ensures Quiet(Step(b, a))
  {}

  /** If no Subscribe call is past its test of the flag when Close clears the
      map, the broker stays empty for good. */
  lemma {:induction false} QuietCloseIsFinal(pre: seq<Action>, more: seq<Action>)
    requires Run(pre).closed && forall k :: k in Run(pre).grants ==> !Run(pre).grants[k].Waiting?
    ensures Quiet(Run(pre + [ClearSubscribers] + more))
  {
    if more == [] {
      OneMore(pre, ClearSubscribers);
      assert pre + [ClearSubscribers] + more == pre + [ClearSubscribers];
    } else {
      var m := |more| - 1;
      QuietCloseIsFinal(pre, more[..m]);
      var before := pre + [ClearSubscribers] + more[..m];
      assert pre + [ClearSubscribers] + more == before + [more[m]];
      OneMore(before, more[m]);
      StepKeepsQuiet(Run(before), more[m]);
    }
  }

  /** The condition is needed: every Subscribe call that is past its test of the
      flag when the map is cleared can still add its subscriber. */
  lemma LateSubscribeFillsClosedBroker(pre: seq<Action>, k: nat)
    requires Run(pre).closed && k in Run(pre).grants && Run(pre).grants[k].Waiting?
    ensures var b := Run(pre + [ClearSubscribers] + [FinishSubscribe(k)]);
            b.closed && b.subscribers == map[Run(pre).nextID := Run(pre).grants[k].pattern]
  {
    OneMore(pre, ClearSubscribers);
    OneMore(pre + [ClearSubscribers], FinishSubscribe(k));
  }

  /** Subscribe tests the flag before it takes the lock, so a closed broker can
      hold a subscriber. */
  lemma ClosedBrokerMayHoldSubscriber() returns (schedule: seq<Action>)
    ensures Run(schedule).closed && Run(schedule).subscribers != map[]
  {
    var pre := [StartSubscribe(0, ">")] + [StoreClosed];
    OneMore([], StartSubscribe(0, ">"));
    OneMore([StartSubscribe(0, ">")], StoreClosed);
    assert [] + [StartSubscribe(0, ">")] == [StartSubscribe(0, ">")];
    assert Run(pre).grants == map[0 := Waiting(">")] && Run(pre).nextID == 0;
    LateSubscribeFillsClosedBroker(pre, 0);
    schedule := pre + [ClearSubscribers] + [FinishSubscribe(0)];
    assert 0 in Run(schedule).subscribers;
  }
}
