/** The locks of the nodes on one memory broker, and why their threads never wait
    in a circle. Every operation is given as the locks it takes and releases, in
    program order with the calls it makes inlined. All of them keep one
    discipline: a thread that holds a lock takes no other, and only the once
    guard of a Close may be held while a lock is taken. */
module LockOrder {
  import opened Common

  /** A session and the node that it is connected to. */
  datatype Client = Client(node: string, conn: string)

  datatype Lock = HubLock(node: string) | StateLock(client: Client) | LimiterLock(client: Client) | BrokerLock

  datatype Mode = Read | Write

  /** Enter and Exit are the ends of a once guard. */
  datatype Instr =
    | Acquire(lock: Lock, mode: Mode)
    | Release(lock: Lock, mode: Mode)
    | Enter(client: Client)
    | Exit(client: Client)

  // ---------- What the operations lock ----------

  function Under(lock: Lock, mode: Mode): seq<Instr> {
    [Acquire(lock, mode), Release(lock, mode)]
  }

  /** Close holds its guard while it marks the session and unregisters it. */
  function CloseTrace(c: Client): seq<Instr> {
    [Enter(c)] + Under(StateLock(c), Write) + Under(HubLock(c.node), Write) + [Exit(c)]
  }

  /** One session that is sent to, and whether its queue is full. */
  datatype Recipient = Recipient(client: Client, full: bool)

  function SendTrace(r: Recipient): seq<Instr> {
    Under(StateLock(r.client), Write) + if r.full then CloseTrace(r.client) else []
  }

  function SendAll(recipients: seq<Recipient>): seq<Instr> {
    if recipients == [] then [] else SendTrace(recipients[0]) + SendAll(recipients[1..])
  }

  function CloseEach(clients: seq<Client>): seq<Instr> {
    if clients == [] then [] else CloseTrace(clients[0]) + CloseEach(clients[1..])
  }

  /** The handler of one node: it reads its node ID and drops the event, or goes
      on to snapshot the recipients and send. */
  datatype Handling = Dropped(node: string) | Served(node: string, recipients: seq<Recipient>)

  function HandleTrace(h: Handling): seq<Instr> {
    match h
    case Dropped(node) => Under(HubLock(node), Read)
    case Served(node, recipients) => Under(HubLock(node), Read) + (Under(HubLock(node), Read) + SendAll(recipients))
  }

  function HandleAll(handlers: seq<Handling>): seq<Instr> {
    if handlers == [] then [] else HandleTrace(handlers[0]) + HandleAll(handlers[1..])
  }

  /** A publication on the memory broker runs the handlers on this thread. */
  function PublishTrace(handlers: Option<seq<Handling>>): seq<Instr> {
    match handlers
    case None => []
    case Some(hs) => Under(BrokerLock, Read) + HandleAll(hs)
  }

  /** `local` are the sessions that an operation sends to on its own node;
      `handlers` is what the broker's subscribers do with the event, if there is
      a broker and it is not closed. */
  datatype Operation =
    | Register(node: string, replaced: Option<Client>)
    | Unregister(client: Client)
    | Join(node: string)
    | Leave(node: string)
    | AuthorizeBroadcast(node: string)
    | SetBroker(node: string)
    | Look(node: string)  // Lookup, Count and Snapshot
    | Allow(client: Client)
    | Send(recipient: Recipient)
    | Close(client: Client)
    | CloseAll(node: string, clients: seq<Client>)
    | BroadcastDraining(node: string, local: seq<Recipient>)
    | Broadcast(node: string, local: seq<Recipient>, handlers: Option<seq<Handling>>)
    | SendPrivate(node: string, local: seq<Recipient>, handlers: Option<seq<Handling>>)
    | HandleBrokerEvent(handling: Handling)
    | Subscribe
    | Cancel
    | CloseBroker

  function Trace(op: Operation): seq<Instr> {
    match op
    case Register(node, replaced) =>
      Under(HubLock(node), Write) + if replaced.Some? then CloseTrace(replaced.value) else []
    case Unregister(c) => Under(HubLock(c.node), Write)
    case Join(node) => Under(HubLock(node), Write)
    case Leave(node) => Under(HubLock(node), Write)
    case AuthorizeBroadcast(node) => Under(HubLock(node), Read)
    case SetBroker(node) => Under(HubLock(node), Write)
    case Look(node) => Under(HubLock(node), Read)
    case Allow(c) => Under(LimiterLock(c), Write)
    case Send(r) => SendTrace(r)
    case Close(c) => CloseTrace(c)
    case CloseAll(node, clients) => Under(HubLock(node), Read) + CloseEach(clients)
    case BroadcastDraining(node, local) => Under(HubLock(node), Read) + SendAll(local)
    case Broadcast(node, local, handlers) =>
      Under(HubLock(node), Read) + (SendAll(local) + (Under(HubLock(node), Read) + PublishTrace(handlers)))
    case SendPrivate(node, local, handlers) =>
      Under(HubLock(node), Read) + (SendAll(local) + PublishTrace(handlers))
    case HandleBrokerEvent(h) => HandleTrace(h)
    case Subscribe => Under(BrokerLock, Write)
    case Cancel => Under(BrokerLock, Write)
    case CloseBroker => Under(BrokerLock, Write)
  }

  function Program(ops: seq<Operation>): seq<Instr> {
    if ops == [] then [] else Trace(ops[0]) + Program(ops[1..])
  }

  // ---------- Which locks each operation takes ----------

  /** The code takes the lock in this mode. */
  predicate Takes(code: seq<Instr>, l: Lock, m: Mode) {
    Acquire(l, m) in code
  }

  /** The code runs the Close of `c`: it marks the session and cleans up its hub. */
  predicate Closes(code: seq<Instr>, c: Client) {
    Enter(c) in code && Takes(code, StateLock(c), Write) && Takes(code, HubLock(c.node), Write)
  }

  /** The code sends to each of `recipients` and closes the full ones. */
  ghost predicate Sends(code: seq<Instr>, recipients: seq<Recipient>) {
    forall r :: r in recipients ==> Takes(code, StateLock(r.client), Write) && (r.full ==> Closes(code, r.client))
  }

  /** The code lets each handler read its node and serve its recipients. */
  ghost predicate Handles(code: seq<Instr>, handlers: seq<Handling>) {
    forall h :: h in handlers ==>
      Takes(code, HubLock(h.node), Read) && (h.Served? ==> Sends(code, h.recipients))
  }

  lemma {:induction false} SendAllSends(recipients: seq<Recipient>)
    ensures Sends(SendAll(recipients), recipients)
  {
    if recipients != [] {
      SendAllSends(recipients[1..]);
      var first, rest := SendTrace(recipients[0]), SendAll(recipients[1..]);
      assert recipients[0].full ==> Closes(first, recipients[0].client);
      assert forall i :: i in first || i in rest ==> i in SendAll(recipients);
      assert Acquire(StateLock(recipients[0].client), Write) in first;
    }
  }

  lemma {:induction false} CloseEachCloses(clients: seq<Client>)
    ensures forall c :: c in clients ==> Closes(CloseEach(clients), c)
  {
    if clients != [] {
      CloseEachCloses(clients[1..]);
      var first, rest := CloseTrace(clients[0]), CloseEach(clients[1..]);
      assert Closes(first, clients[0]);
      forall c | c in clients ensures Closes(CloseEach(clients), c) {
        assert c == clients[0] || c in clients[1..];
        ClosesInside(first, rest, c);
      }
    }
  }

  lemma ClosesInside(a: seq<Instr>, b: seq<Instr>, c: Client)
    requires Closes(a, c) || Closes(b, c)
    ensures Closes(a + b, c)
  {}

  lemma HandlerHandles(h: Handling)
    ensures Takes(HandleTrace(h), HubLock(h.node), Read)
    ensures h.Served? ==> Sends(HandleTrace(h), h.recipients)
  {
    if h.Served? {
      SendAllSends(h.recipients);
      assert forall i :: i in SendAll(h.recipients) ==> i in HandleTrace(h);
    }
  }

  lemma {:induction false} HandleAllHandles(handlers: seq<Handling>)
    ensures Handles(HandleAll(handlers), handlers)
  {
    if handlers != [] {
      HandlerHandles(handlers[0]);
      HandleAllHandles(handlers[1..]);
      assert forall i :: i in HandleTrace(handlers[0]) || i in HandleAll(handlers[1..]) ==> i in HandleAll(handlers);
    }
  }

  /** Every change of a hub takes its lock for writing, every look at one takes it
      for reading, every send takes the session's lock, every close goes through
      the session's guard, and every use of the broker's map takes its lock. */
  lemma OperationsTakeTheirLocks(op: Operation)
    ensures var code := Trace(op);
            match op
            case Register(node, replaced) =>
              Takes(code, HubLock(node), Write) && (replaced.Some? ==> Closes(code, replaced.value))
            case Unregister(c) => Takes(code, HubLock(c.node), Write)
            case Join(node) => Takes(code, HubLock(node), Write)
            case Leave(node) => Takes(code, HubLock(node), Write)
            case AuthorizeBroadcast(node) => Takes(code, HubLock(node), Read)
            case SetBroker(node) => Takes(code, HubLock(node), Write)
            case Look(node) => Takes(code, HubLock(node), Read)
            case Allow(c) => Takes(code, LimiterLock(c), Write)
            case Send(r) => Sends(code, [r])
            case Close(c) => Closes(code, c)
            case CloseAll(node, clients) =>
              Takes(code, HubLock(node), Read) && forall c :: c in clients ==> Closes(code, c)
            case BroadcastDraining(node, local) => Takes(code, HubLock(node), Read) && Sends(code, local)
            case Broadcast(node, local, handlers) =>
              && Takes(code, HubLock(node), Read) && Sends(code, local)
              && (handlers.Some? ==> Takes(code, BrokerLock, Read) && Handles(code, handlers.value))
            case SendPrivate(node, local, handlers) =>
              && Takes(code, HubLock(node), Read) && Sends(code, local)
              && (handlers.Some? ==> Takes(code, BrokerLock, Read) && Handles(code, handlers.value))
            case HandleBrokerEvent(h) => Handles(code, [h])
            case Subscribe => Takes(code, BrokerLock, Write)
            case Cancel => Takes(code, BrokerLock, Write)
            case CloseBroker => Takes(code, BrokerLock, Write)
  {
    match op
    case CloseAll(_, clients) =>
      CloseEachCloses(clients);
      assert forall i :: i in CloseEach(clients) ==> i in Trace(op);
    case BroadcastDraining(_, local) => LocalSends(op, local);
    case Broadcast(_, local, handlers) =>
      LocalSends(op, local);
      HandlersRun(op, handlers);
    case SendPrivate(_, local, handlers) =>
      LocalSends(op, local);
      HandlersRun(op, handlers);
    case HandleBrokerEvent(h) => HandlerHandles(h);
    case _ =>
  }

  lemma LocalSends(op: Operation, local: seq<Recipient>)
    requires (op.BroadcastDraining? || op.Broadcast? || op.SendPrivate?) && local == op.local
    ensures Sends(Trace(op), local)
  {
    SendAllSends(local);
    assert forall i :: i in SendAll(local) ==> i in Trace(op);
  }

  lemma HandlersRun(op: Operation, handlers: Option<seq<Handling>>)
    requires (op.Broadcast? || op.SendPrivate?) && handlers == op.handlers
    ensures handlers.Some? ==> Takes(Trace(op), BrokerLock, Read) && Handles(Trace(op), handlers.value)
  {
    if handlers.Some? {
      HandleAllHandles(handlers.value);
      var code := PublishTrace(handlers);
      assert Acquire(BrokerLock, Read) in code;
      assert forall i :: i in HandleAll(handlers.value) ==> i in code;
      assert forall i :: i in code ==> i in Trace(op);
    }
  }

  // ---------- The discipline ----------

  /** Code that a thread may run while it holds `held` inside the guard `inside`. */
  predicate Disciplined(code: seq<Instr>, held: Option<(Lock, Mode)>, inside: Option<Client>)
    decreases |code|
  {
    if code == [] then held.None? && inside.None?
    else
      match code[0]
      case Acquire(l, m) => held.None? && Disciplined(code[1..], Some((l, m)), inside)
      case Release(l, m) => held == Some((l, m)) && Disciplined(code[1..], None, inside)
      case Enter(c) => held.None? && inside.None? && Disciplined(code[1..], None, Some(c))
      case Exit(c) => held.None? && inside == Some(c) && Disciplined(code[1..], None, None)
  }

  /** Disciplined code composes: it starts and ends with nothing held. */
  lemma {:induction false} DisciplineComposes(a: seq<Instr>, b: seq<Instr>,
                                              held: Option<(Lock, Mode)>, inside: Option<Client>)
    requires Disciplined(a, held, inside) && Disciplined(b, None, None)
    ensures Disciplined(a + b, held, inside)
    decreases |a|
  {
    if a == [] {
      assert a + b == b;
    } else {
      assert (a + b)[0] == a[0] && (a + b)[1..] == a[1..] + b;
      match a[0]
      case Acquire(l, m) => DisciplineComposes(a[1..], b, Some((l, m)), inside);
      case Release(l, m) => DisciplineComposes(a[1..], b, None, inside);
      case Enter(c) => DisciplineComposes(a[1..], b, None, Some(c));
      case Exit(c) => DisciplineComposes(a[1..], b, None, None);
    }
  }

  lemma UnderIsDisciplined(l: Lock, m: Mode)
    ensures Disciplined(Under(l, m), None, None)
  {
    var code := Under(l, m);
    assert code[1..] == [Release(l, m)] && code[1..][1..] == [];
  }

  lemma CloseIsDisciplined(c: Client)
    ensures Disciplined(CloseTrace(c), None, None)
  {
    var s, h := StateLock(c), HubLock(c.node);
    var t5 := [Exit(c)];
    var t4 := [Release(h, Write)] + t5;
    var t3 := [Acquire(h, Write)] + t4;
    var t2 := [Release(s, Write)] + t3;
    var t1 := [Acquire(s, Write)] + t2;
    assert t5[1..] == [] && Disciplined(t5, None, Some(c));
    assert t4[1..] == t5 && Disciplined(t4, Some((h, Write)), Some(c));
    assert t3[1..] == t4 && Disciplined(t3, None, Some(c));
    assert t2[1..] == t3 && Disciplined(t2, Some((s, Write)), Some(c));
    assert t1[1..] == t2 && Disciplined(t1, None, Some(c));
    assert CloseTrace(c)[1..] == t1;
  }

  /** One short section in front of disciplined code. */
  lemma SectionThen(l: Lock, m: Mode, code: seq<Instr>)
    requires Disciplined(code, None, None)
    ensures Disciplined(Under(l, m) + code, None, None)
  {
    UnderIsDisciplined(l, m);
    DisciplineComposes(Under(l, m), code, None, None);
  }

  lemma SendIsDisciplined(r: Recipient)
    ensures Disciplined(SendTrace(r), None, None)
  {
    CloseIsDisciplined(r.client);
    SectionThen(StateLock(r.client), Write, if r.full then CloseTrace(r.client) else []);
  }

  lemma {:induction false} SendsAreDisciplined(recipients: seq<Recipient>)
    ensures Disciplined(SendAll(recipients), None, None)
  {
    if recipients != [] {
      SendIsDisciplined(recipients[0]);
      SendsAreDisciplined(recipients[1..]);
      DisciplineComposes(SendTrace(recipients[0]), SendAll(recipients[1..]), None, None);
    }
  }

  lemma {:induction false} ClosesAreDisciplined(clients: seq<Client>)
    ensures Disciplined(CloseEach(clients), None, None)
  {
    if clients != [] {
      CloseIsDisciplined(clients[0]);
      ClosesAreDisciplined(clients[1..]);
      DisciplineComposes(CloseTrace(clients[0]), CloseEach(clients[1..]), None, None);
    }
  }

  lemma HandlerIsDisciplined(h: Handling)
    ensures Disciplined(HandleTrace(h), None, None)
  {
    match h
    case Dropped(node) => UnderIsDisciplined(HubLock(node), Read);
    case Served(node, recipients) =>
      SendsAreDisciplined(recipients);
      SectionThen(HubLock(node), Read, SendAll(recipients));
      SectionThen(HubLock(node), Read, Under(HubLock(node), Read) + SendAll(recipients));
  }

  lemma {:induction false} HandlersAreDisciplined(handlers: seq<Handling>)
    ensures Disciplined(HandleAll(handlers), None, None)
  {
    if handlers != [] {
      HandlerIsDisciplined(handlers[0]);
      HandlersAreDisciplined(handlers[1..]);
      DisciplineComposes(HandleTrace(handlers[0]), HandleAll(handlers[1..]), None, None);
    }
  }

  lemma PublishIsDisciplined(handlers: Option<seq<Handling>>)
    ensures Disciplined(PublishTrace(handlers), None, None)
  {
    if handlers.Some? {
      HandlersAreDisciplined(handlers.value);
      SectionThen(BrokerLock, Read, HandleAll(handlers.value));
    }
  }

  lemma SendsThen(local: seq<Recipient>, code: seq<Instr>)
    requires Disciplined(code, None, None)
    ensures Disciplined(SendAll(local) + code, None, None)
  {
    SendsAreDisciplined(local);
    DisciplineComposes(SendAll(local), code, None, None);
  }

  lemma BroadcastIsDisciplined(node: string, local: seq<Recipient>, handlers: Option<seq<Handling>>)
    ensures Disciplined(Trace(Broadcast(node, local, handlers)), None, None)
    ensures Disciplined(Trace(SendPrivate(node, local, handlers)), None, None)
  {
    var hub, publish := Under(HubLock(node), Read), PublishTrace(handlers);
    PublishIsDisciplined(handlers);
    SectionThen(HubLock(node), Read, publish);
    SendsThen(local, hub + publish);
    SendsThen(local, publish);
    SectionThen(HubLock(node), Read, SendAll(local) + (hub + publish));
    SectionThen(HubLock(node), Read, SendAll(local) + publish);
  }

  /** Every operation keeps the discipline: no lock is taken while another lock
      is held, and no close guard while anything is held. */
  lemma OperationsAreDisciplined(op: Operation)
    ensures Disciplined(Trace(op), None, None)
  {
    match op
    case Register(node, replaced) =>
      if replaced.Some? {
        CloseIsDisciplined(replaced.value);
      }
      SectionThen(HubLock(node), Write, if replaced.Some? then CloseTrace(replaced.value) else []);
    case Unregister(c) => UnderIsDisciplined(HubLock(c.node), Write);
    case Join(node) => UnderIsDisciplined(HubLock(node), Write);
    case Leave(node) => UnderIsDisciplined(HubLock(node), Write);
    case AuthorizeBroadcast(node) => UnderIsDisciplined(HubLock(node), Read);
    case SetBroker(node) => UnderIsDisciplined(HubLock(node), Write);
    case Look(node) => UnderIsDisciplined(HubLock(node), Read);
    case Allow(c) => UnderIsDisciplined(LimiterLock(c), Write);
    case Send(r) => SendIsDisciplined(r);
    case Close(c) => CloseIsDisciplined(c);
    case CloseAll(node, clients) =>
      ClosesAreDisciplined(clients);
      SectionThen(HubLock(node), Read, CloseEach(clients));
    case BroadcastDraining(node, local) =>
      SendsAreDisciplined(local);
      SectionThen(HubLock(node), Read, SendAll(local));
    case Broadcast(node, local, handlers) => BroadcastIsDisciplined(node, local, handlers);
    case SendPrivate(node, local, handlers) => BroadcastIsDisciplined(node, local, handlers);
    case HandleBrokerEvent(h) => HandlerIsDisciplined(h);
    case Subscribe => UnderIsDisciplined(BrokerLock, Write);
    case Cancel => UnderIsDisciplined(BrokerLock, Write);
    case CloseBroker => UnderIsDisciplined(BrokerLock, Write);
  }

  lemma {:induction false} ProgramsAreDisciplined(ops: seq<Operation>)
    ensures Disciplined(Program(ops), None, None)
  {
    if ops != [] {
      OperationsAreDisciplined(ops[0]);
      ProgramsAreDisciplined(ops[1..]);
      DisciplineComposes(Trace(ops[0]), Program(ops[1..]), None, None);
    }
  }

  // ---------- Threads ----------

  /** `asking`: the thread has called the Acquire that is next in its code. */
  datatype Thread = Thread(code: seq<Instr>, held: Option<(Lock, Mode)>, inside: Option<Client>, asking: bool)

  /** `closed` holds the sessions whose once guard has been released for good. */
  datatype State = State(threads: seq<Thread>, closed: set<Client>)

  predicate Finished(t: Thread) {
    t.code == []
  }

  predicate Holds(t: Thread, l: Lock, m: Mode) {
    t.held == Some((l, m))
  }

  predicate Asks(t: Thread, l: Lock, m: Mode) {
    t.asking && t.code != [] && t.code[0] == Acquire(l, m)
  }

  predicate AtGuard(t: Thread, c: Client) {
    t.code != [] && t.code[0] == Enter(c)
  }

  predicate Inside(t: Thread, c: Client) {
    t.inside == Some(c)
  }

  /** Thread i cannot go on before thread j has: j holds the lock in a mode that
      excludes i's, or is a writer ahead of reader i, or is inside the Close
      that i has called and that has not ended. */
  ghost predicate WaitsFor(s: State, i: nat, j: nat)
    requires i < |s.threads| && j < |s.threads|
  {
    var a, b := s.threads[i], s.threads[j];
    && i != j
    && ((exists l :: Asks(a, l, Write) && (Holds(b, l, Read) || Holds(b, l, Write)))
        || (exists l :: Asks(a, l, Read) && (Holds(b, l, Write) || Asks(b, l, Write)))
        || (exists c :: AtGuard(a, c) && c !in s.closed && Inside(b, c)))
  }

  ghost predicate Enabled(s: State, i: nat)
    requires i < |s.threads|
  {
    !Finished(s.threads[i]) && forall j: nat :: j < |s.threads| ==> !WaitsFor(s, i, j)
  }

  /** The code after the Exit that ends the guard of `c`. */
  function AfterExit(code: seq<Instr>, c: Client): (rest: seq<Instr>)
    ensures |rest| <= |code|
  {
    if code == [] then [] else if code[0] == Exit(c) then code[1..] else AfterExit(code[1..], c)
  }

  /** The next state of a thread. A Close that has already run is skipped. */
  function Move(t: Thread, closed: set<Client>): (Thread, set<Client>)
    requires !Finished(t)
  {
    var rest := t.code[1..];
    match t.code[0]
    case Acquire(l, m) =>
      if t.asking then (Thread(rest, Some((l, m)), t.inside, false), closed) else (t.(asking := true), closed)
    case Release(l, m) => (Thread(rest, None, t.inside, false), closed)
    case Enter(c) =>
      if c in closed then (Thread(AfterExit(rest, c), None, None, false), closed)
      else (Thread(rest, None, Some(c), false), closed)
    case Exit(c) => (Thread(rest, None, None, false), closed + {c})
  }

  ghost function Step(s: State, i: nat): State {
    if i < |s.threads| && Enabled(s, i) then
      var (t, closed) := Move(s.threads[i], s.closed);
      State(s.threads[i := t], closed)
    else s
  }

  function Start(programs: seq<seq<Operation>>): State {
    State(seq(|programs|, (i: int) requires 0 <= i < |programs| => Thread(Program(programs[i]), None, None, false)), {})
  }

  ghost function Run(programs: seq<seq<Operation>>, schedule: seq<nat>): State {
    if schedule == [] then Start(programs)
    else Step(Run(programs, schedule[..|schedule| - 1]), schedule[|schedule| - 1])
  }

  // ---------- Threads stay disciplined ----------

  predicate ThreadDisciplined(t: Thread) {
    && Disciplined(t.code, t.held, t.inside)
    && (t.asking ==> t.code != [] && t.code[0].Acquire?)
  }

  ghost predicate AllDisciplined(s: State) {
    forall i :: 0 <= i < |s.threads| ==> ThreadDisciplined(s.threads[i])
  }

  lemma {:induction false} SkipIsDisciplined(code: seq<Instr>, held: Option<(Lock, Mode)>, c: Client)
    requires Disciplined(code, held, Some(c))
    ensures Disciplined(AfterExit(code, c), None, None)
    decreases |code|
  {
    match code[0]
    case Acquire(l, m) => SkipIsDisciplined(code[1..], Some((l, m)), c);
    case Release(l, m) => SkipIsDisciplined(code[1..], None, c);
    case Exit(d) =>
  }

  lemma MoveIsDisciplined(t: Thread, closed: set<Client>)
    requires ThreadDisciplined(t) && !Finished(t)
    ensures ThreadDisciplined(Move(t, closed).0)
  {
    if t.code[0].Enter? && t.code[0].client in closed {
      SkipIsDisciplined(t.code[1..], None, t.code[0].client);
    }
  }

  lemma {:induction false} EveryThreadIsDisciplined(programs: seq<seq<Operation>>, schedule: seq<nat>)
    ensures AllDisciplined(Run(programs, schedule))
  {
    if schedule == [] {
      forall i | 0 <= i < |programs| ensures ThreadDisciplined(Start(programs).threads[i]) {
        ProgramsAreDisciplined(programs[i]);
      }
    } else {
      EveryThreadIsDisciplined(programs, schedule[..|schedule| - 1]);
      var s, i := Run(programs, schedule[..|schedule| - 1]), schedule[|schedule| - 1];
      if i < |s.threads| && Enabled(s, i) {
        MoveIsDisciplined(s.threads[i], s.closed);
      }
    }
  }

  // ---------- No circle of waiting threads ----------

  /** Whoever waits has a higher rank than whom it waits for. */
  function Rank(t: Thread): nat {
    if t.held.Some? || t.code == [] then 0
    else
      match t.code[0]
      case Acquire(_, m) => if !t.asking then 0 else if m.Read? then 2 else 1
      case Release(_, _) => 0
      case Enter(_) => 3
      case Exit(_) => 0
  }

  lemma WaitingDescends(s: State, i: nat, j: nat)
    requires AllDisciplined(s) && i < |s.threads| && j < |s.threads| && WaitsFor(s, i, j)
    ensures Rank(s.threads[i]) > Rank(s.threads[j])
  {
    var a, b := s.threads[i], s.threads[j];
    assert ThreadDisciplined(a) && ThreadDisciplined(b);
  }

  ghost predicate WaitPath(s: State, path: seq<nat>) {
    && (forall k :: 0 <= k < |path| ==> path[k] < |s.threads|)
    && (forall k :: 0 <= k < |path| - 1 ==> WaitsFor(s, path[k], path[k + 1]))
  }

  lemma {:induction false} PathDescends(s: State, path: seq<nat>)
    requires AllDisciplined(s) && |path| >= 2 && WaitPath(s, path)
    ensures Rank(s.threads[path[0]]) > Rank(s.threads[path[|path| - 1]])
  {
    WaitingDescends(s, path[0], path[1]);
    if |path| > 2 {
      forall k | 0 <= k < |path[1..]| - 1 ensures WaitsFor(s, path[1..][k], path[1..][k + 1]) {
        assert WaitsFor(s, path[k + 1], path[(k + 1) + 1]);
      }
      PathDescends(s, path[1..]);
    }
  }

  /** In no reachable state do threads wait for each other in a circle. */
  lemma NoWaitCycle(programs: seq<seq<Operation>>, schedule: seq<nat>, path: seq<nat>)
    requires |path| >= 2 && WaitPath(Run(programs, schedule), path)
    ensures path[0] != path[|path| - 1]
  {
    EveryThreadIsDisciplined(programs, schedule);
    PathDescends(Run(programs, schedule), path);
  }

  /** Following the waits from any unfinished thread ends at one that can go on. */
  lemma {:induction false} SomeoneCanGoOn(s: State, i: nat) returns (j: nat)
    requires AllDisciplined(s) && i < |s.threads| && !Finished(s.threads[i])
    ensures j < |s.threads| && Enabled(s, j)
    decreases Rank(s.threads[i])
  {
    if Enabled(s, i) {
      j := i;
    } else {
      var k: nat :| k < |s.threads| && WaitsFor(s, i, k);
      WaitingDescends(s, i, k);
      assert ThreadDisciplined(s.threads[k]);
      j := SomeoneCanGoOn(s, k);
    }
  }

  /** Nobody can go on. */
  ghost predicate Stuck(s: State) {
    forall j: nat :: j < |s.threads| ==> !Enabled(s, j)
  }

  lemma StuckMeansFinished(s: State)
    requires AllDisciplined(s) && Stuck(s)
    ensures forall i :: 0 <= i < |s.threads| ==> Finished(s.threads[i])
  {
    forall i | 0 <= i < |s.threads| ensures Finished(s.threads[i]) {
      if !Finished(s.threads[i]) {
        var j := SomeoneCanGoOn(s, i);
        assert false;
      }
    }
  }

  /** A reachable state in which nobody can go on is one in which everybody has
      finished. */
  lemma NoDeadlock(programs: seq<seq<Operation>>, schedule: seq<nat>)
    requires Stuck(Run(programs, schedule))
    ensures var s := Run(programs, schedule);
            forall i :: 0 <= i < |s.threads| ==> Finished(s.threads[i])
  {
    EveryThreadIsDisciplined(programs, schedule);
    StuckMeansFinished(Run(programs, schedule));
  }

  // ---------- The locks exclude, and Close runs once ----------

  ghost predicate Exclusive(s: State) {
    && (forall i, j, l, m :: 0 <= i < |s.threads| && 0 <= j < |s.threads| && i != j && Holds(s.threads[i], l, Write) ==>
          !Holds(s.threads[j], l, m))
    && (forall i, j, c :: 0 <= i < |s.threads| && 0 <= j < |s.threads| && i != j && Inside(s.threads[i], c) ==>
          !Inside(s.threads[j], c))
    && (forall i, c :: 0 <= i < |s.threads| && Inside(s.threads[i], c) ==> c !in s.closed)
  }

  /** What a thread newly holds it had asked for, and nobody it waits for holds. */
  lemma MoveExcludes(s: State, i: nat, j: nat, l: Lock, m: Mode)
    requires i < |s.threads| && j < |s.threads| && i != j && Enabled(s, i) && ThreadDisciplined(s.threads[i])
    ensures var t', u := Move(s.threads[i], s.closed).0, s.threads[j];
            && (Holds(t', l, m) ==> !Holds(u, l, Write))
            && (Holds(t', l, Write) ==> !Holds(u, l, m))
  {
    var t := s.threads[i];
    var t' := Move(t, s.closed).0;
    assert Holds(t', l, m) ==> Asks(t, l, m);
    assert Holds(t', l, Write) ==> Asks(t, l, Write);
    assert !WaitsFor(s, i, j);
  }

  lemma MoveEntersAlone(s: State, i: nat, j: nat, c: Client)
    requires i < |s.threads| && j < |s.threads| && i != j && Enabled(s, i)
    ensures var t' := Move(s.threads[i], s.closed).0;
            Inside(t', c) && !Inside(s.threads[i], c) ==> !Inside(s.threads[j], c) && c !in s.closed
  {
    var t' := Move(s.threads[i], s.closed).0;
    assert Inside(t', c) && !Inside(s.threads[i], c) ==> AtGuard(s.threads[i], c) && c !in s.closed;
    assert !WaitsFor(s, i, j);
  }

  lemma StepKeepsExclusive(s: State, i: nat)
    requires Exclusive(s) && AllDisciplined(s) && i < |s.threads| && Enabled(s, i)
    ensures Exclusive(Step(s, i))
  {
    var threads := Step(s, i).threads;
    assert ThreadDisciplined(s.threads[i]);
    forall x, y, l, m | 0 <= x < |threads| && 0 <= y < |threads| && x != y && Holds(threads[x], l, Write)
      ensures !Holds(threads[y], l, m)
    {
      if x == i {
        MoveExcludes(s, i, y, l, m);
      } else if y == i {
        MoveExcludes(s, i, x, l, m);
      } else {
        assert threads[x] == s.threads[x] && threads[y] == s.threads[y];
      }
    }
    forall j: nat, c | j < |s.threads| && i != j
      ensures Inside(threads[i], c) ==> !Inside(s.threads[j], c)
    {
      MoveEntersAlone(s, i, j, c);
    }
    forall x, c | 0 <= x < |threads| && Inside(threads[x], c) ensures c !in Step(s, i).closed {
      assert s.threads[i].code[0].Exit? ==> Inside(s.threads[i], s.threads[i].code[0].client);
    }
  }

  /** In every run a lock held for writing is held by nobody else, at most one
      thread is inside the Close of a session, and none is once it has ended. */
  lemma {:induction false} LocksExclude(programs: seq<seq<Operation>>, schedule: seq<nat>)
    ensures Exclusive(Run(programs, schedule))
  {
    if schedule != [] {
      var before := schedule[..|schedule| - 1];
      LocksExclude(programs, before);
      EveryThreadIsDisciplined(programs, before);
      var s, i := Run(programs, before), schedule[|schedule| - 1];
      if i < |s.threads| && Enabled(s, i) {
        StepKeepsExclusive(s, i);
      }
    }
  }

  // ---------- Every run ends ----------

  /** The moves that a thread still has to make, at most. */
  function Work(t: Thread): int {
    2 * |t.code| - if t.asking then 1 else 0
  }

  function TotalWork(threads: seq<Thread>): int {
    if threads == [] then 0 else TotalWork(threads[..|threads| - 1]) + Work(threads[|threads| - 1])
  }

  lemma {:induction false} TotalOfUpdate(threads: seq<Thread>, i: nat, t: Thread)
    requires i < |threads|
    ensures TotalWork(threads[i := t]) == TotalWork(threads) - Work(threads[i]) + Work(t)
  {
    var n := |threads| - 1;
    if i < n {
      TotalOfUpdate(threads[..n], i, t);
      assert threads[i := t][..n] == threads[..n][i := t];
    } else {
      assert threads[i := t][..n] == threads[..n];
    }
  }

  lemma {:induction false} WorkIsNatural(s: State, n: nat)
    requires AllDisciplined(s) && n <= |s.threads|
    ensures TotalWork(s.threads[..n]) >= 0
  {
    if n > 0 {
      WorkIsNatural(s, n - 1);
      assert s.threads[..n][..n - 1] == s.threads[..n - 1];
      assert ThreadDisciplined(s.threads[n - 1]);
    }
  }

  /** The moves that a schedule really makes. */
  ghost function Moves(programs: seq<seq<Operation>>, schedule: seq<nat>): nat {
    if schedule == [] then 0
    else
      var before := Run(programs, schedule[..|schedule| - 1]);
      var i := schedule[|schedule| - 1];
      Moves(programs, schedule[..|schedule| - 1]) + if i < |before.threads| && Enabled(before, i) then 1 else 0
  }

  lemma {:induction false} MovesUseUpWork(programs: seq<seq<Operation>>, schedule: seq<nat>)
    ensures Moves(programs, schedule) + TotalWork(Run(programs, schedule).threads) <= TotalWork(Start(programs).threads)
  {
    if schedule != [] {
      var before := schedule[..|schedule| - 1];
      MovesUseUpWork(programs, before);
      EveryThreadIsDisciplined(programs, before);
      var s, i := Run(programs, before), schedule[|schedule| - 1];
      if i < |s.threads| && Enabled(s, i) {
        TotalOfUpdate(s.threads, i, Move(s.threads[i], s.closed).0);
        assert ThreadDisciplined(s.threads[i]);
      }
    }
  }

  /** No run makes more moves than its programs hold work; with NoDeadlock,
      every run that keeps moving ends with every thread finished. */
  lemma RunsAreBounded(programs: seq<seq<Operation>>, schedule: seq<nat>)
    ensures Moves(programs, schedule) <= TotalWork(Start(programs).threads)
  {
    MovesUseUpWork(programs, schedule);
    EveryThreadIsDisciplined(programs, schedule);
    var s := Run(programs, schedule);
    WorkIsNatural(s, |s.threads|);
    assert s.threads[..|s.threads|] == s.threads;
  }
}
