/**
 The briefed callers a bot holds across their media sockets: sockets come and go, transfer requests
 settle late, notes wait for the caller, and a timer lets an abandoned caller go. A cancelled timer
 never runs its code, and arming one cancels the last, so one flag says whether it is running.
 */
module CallerSessions {
  import opened Sequences

  type Token = string
  type Worker = nat
  type TaskId = nat

  datatype Timer = Idle | Armed

  datatype Caller<N> = Caller(token: Token, worker: Option<Worker>, greeted: bool, transfer: Option<TaskId>,
                              note: Option<N>, expiry: Timer)

  function NewCaller<N>(token: Token): Caller<N> {
    Caller(token, None, false, None, None, Armed)
  }

  /** Restart the clock, unless a transfer in flight keeps the caller held. */
  function Abandoned<N>(c: Caller<N>): Caller<N> {
    c.(expiry := if c.transfer.Some? then Idle else Armed)
  }

  function Attached<N>(c: Caller<N>, worker: Worker): Caller<N> {
    c.(expiry := Idle, worker := Some(worker), greeted := true, note := None)
  }

  function Detached<N>(c: Caller<N>, worker: Option<Worker>): Caller<N> {
    if worker.Some? && c.worker == worker then Abandoned(c.(worker := None)) else c
  }

  function Told<N>(c: Caller<N>, note: N): Caller<N> {
    if c.worker.Some? then c else c.(note := Some(note))
  }

  function Transferring<N>(c: Caller<N>, task: TaskId): Caller<N> {
    c.(transfer := Some(task), expiry := Idle)
  }

  function Settled<N>(c: Caller<N>, task: TaskId, registered: bool): Caller<N> {
    var settled := if c.transfer == Some(task) then c.(transfer := None) else c;
    if settled.worker.None? && registered then Abandoned(settled) else settled
  }

  /** Whether a timer that fires lets the caller go. */
  predicate LetsGo<N>(c: Caller<N>) {
    c.worker.None? && c.transfer.None?
  }

  class HeldSession {
    const owner: Registry
    const token: Token
    var worker: Option<Worker>
    var greeted: bool
    var transfer: Option<TaskId>
    var note: Option<string>
    var expiry: Timer

    ghost function View(): Caller<string>
      reads this
    {
      Caller(token, worker, greeted, transfer, note, expiry)
    }

    constructor (owner: Registry, token: Token)
      ensures this.owner == owner && this.token == token
      ensures View() == NewCaller<string>(token).(expiry := Idle)
    {
      this.owner, this.token := owner, token;
      worker, greeted, transfer, note, expiry := None, false, None, None, Idle;
    }
  }

  class Registry {
    var held: map<Token, HeldSession>

    constructor ()
      ensures held == map[]
    {
      held := map[];
    }

    method ExpireWhenAbandoned(caller: HeldSession)
      modifies caller
      ensures caller.View() == Abandoned(old(caller.View()))
    {
      caller.expiry := Idle;
      if caller.transfer.Some? {
        return;
      }
      caller.expiry := Armed;
    }

    method Hold(token: Token) returns (caller: HeldSession)
      modifies this
      ensures fresh(caller) && caller.owner == this && caller.View() == NewCaller(token)
      ensures held == old(held)[token := caller]
    {
      caller := new HeldSession(this, token);
      held := held[token := caller];
      ExpireWhenAbandoned(caller);
    }

    method Release(caller: HeldSession)
      modifies this, caller
      ensures caller.View() == old(caller.View()).(expiry := Idle)
      ensures held == if caller.token in old(held) && old(held)[caller.token] == caller
                      then old(held) - {caller.token} else old(held)
    {
      caller.expiry := Idle;
      if caller.token in held && held[caller.token] == caller {
        held := held - {caller.token};
      }
    }

    /** Answers whether this is the caller's first socket, and the note that was waiting for one. */
    method Attach(caller: HeldSession, worker: Worker) returns (first: bool, delivered: Option<string>)
      modifies caller
      ensures caller.View() == Attached(old(caller.View()), worker)
      ensures first == !old(caller.greeted) && delivered == old(caller.note)
    {
      caller.expiry := Idle;
      caller.worker := Some(worker);
      first := !caller.greeted;
      caller.greeted := true;
      delivered := None;
      if caller.note.Some? {
        delivered, caller.note := caller.note, None;
      }
    }

    method Detach(caller: HeldSession, worker: Option<Worker>)
      modifies caller
      ensures caller.View() == Detached(old(caller.View()), worker)
    {
      if worker.Some? && caller.worker == worker {
        caller.worker := None;
        ExpireWhenAbandoned(caller);
      }
    }

    method Tell(caller: HeldSession, note: string) returns (delivered: Option<string>)
      modifies caller
      ensures caller.View() == Told(old(caller.View()), note)
      ensures delivered == if old(caller.worker).Some? then Some(note) else None
    {
      if caller.worker.Some? {
        return Some(note);
      }
      caller.note := Some(note);
      return None;
    }

    method RunTransfer(caller: HeldSession, task: TaskId)
      modifies caller
      ensures caller.View() == Transferring(old(caller.View()), task)
    {
      caller.transfer := Some(task);
      caller.expiry := Idle;
    }

    /** The done callback of a transfer request. */
    method Settle(caller: HeldSession, task: TaskId)
      modifies caller
      ensures caller.View() == Settled(old(caller.View()), task, caller.token in held && held[caller.token] == caller)
    {
      if caller.transfer == Some(task) {
        caller.transfer := None;
      }
      if caller.worker.None? && caller.token in held && held[caller.token] == caller {
        ExpireWhenAbandoned(caller);
      }
    }

    /** The timer runs out. */
    method Expire(caller: HeldSession)
      requires caller.expiry == Armed
      modifies this, caller
      ensures caller.View() == old(caller.View()).(expiry := Idle)
      ensures held == if LetsGo(old(caller.View())) && caller.token in old(held) && old(held)[caller.token] == caller
                      then old(held) - {caller.token} else old(held)
    {
      if caller.worker.None? && caller.transfer.None? {
        Release(caller);
      }
      caller.expiry := Idle;
    }
  }

  // Every interleaving of the steps above, over any number of callers.

  type Id = nat

  /** What a caller's past holds: greetings given, notes numbered as told, delivered, or replaced unheard. */
  datatype Past = Past(firsts: nat, attaches: nat, told: nat, delivered: seq<nat>, replaced: set<nat>)

  datatype Entry = Entry(now: Caller<nat>, past: Past)

  datatype System = System(callers: map<Id, Entry>, registry: map<Token, Id>, running: map<TaskId, Id>)

  datatype Event =
    | Hold(id: Id, token: Token)
    | Release(id: Id)
    | Attach(id: Id, worker: Worker)
    | Detach(id: Id, closed: Option<Worker>)
    | Tell(id: Id)
    | RunTransfer(id: Id, task: TaskId)
    | Settle(id: Id, task: TaskId)
    | Expire(id: Id)

  predicate Registered(y: System, id: Id) {
    id in y.callers && y.callers[id].now.token in y.registry && y.registry[y.callers[id].now.token] == id
  }

  predicate Enabled(y: System, e: Event) {
    match e
    case Hold(id, _) => id !in y.callers
    case RunTransfer(id, task) => id in y.callers && task !in y.running
    case Settle(id, task) => id in y.callers && task in y.running && y.running[task] == id
    case Expire(id) => id in y.callers && y.callers[id].now.expiry == Armed
    case _ => e.id in y.callers
  }

  /** What an event does to the caller it names. */
  function EntryAfter(y: System, e: Event): Entry
    requires Enabled(y, e) && !e.Hold?
  {
    var n := y.callers[e.id];
    match e
    case Release(_) => n.(now := n.now.(expiry := Idle))
    case Attach(_, worker) =>
      Entry(Attached(n.now, worker),
            n.past.(attaches := n.past.attaches + 1,
                    firsts := n.past.firsts + (if n.now.greeted then 0 else 1),
                    delivered := n.past.delivered + (if n.now.note.Some? then [n.now.note.value] else [])))
    case Detach(_, closed) => n.(now := Detached(n.now, closed))
    case Tell(_) =>
      Entry(Told(n.now, n.past.told),
            n.past.(told := n.past.told + 1,
                    delivered := n.past.delivered + (if n.now.worker.Some? then [n.past.told] else []),
                    replaced := n.past.replaced
                                + (if n.now.worker.None? && n.now.note.Some? then {n.now.note.value} else {})))
    case RunTransfer(_, task) => n.(now := Transferring(n.now, task))
    case Settle(_, task) => n.(now := Settled(n.now, task, Registered(y, e.id)))
    case Expire(_) => n.(now := n.now.(expiry := Idle))
  }

  function RegistryAfter(y: System, e: Event): map<Token, Id>
    requires Enabled(y, e)
  {
    if e.Hold? then y.registry[e.token := e.id]
    else
      var now := y.callers[e.id].now;
      if Registered(y, e.id) && (e.Release? || (e.Expire? && LetsGo(now)))
      then y.registry - {now.token} else y.registry
  }

  function Step(y: System, e: Event): System
    requires Enabled(y, e)
  {
    System(y.callers[e.id := if e.Hold? then Entry(NewCaller(e.token), Past(0, 0, 0, [], {})) else EntryAfter(y, e)],
           RegistryAfter(y, e),
           if e.RunTransfer? then y.running[e.task := e.id] else if e.Settle? then y.running - {e.task} else y.running)
  }

  predicate Feasible(y: System, events: seq<Event>)
    decreases events
  {
    events == [] || (Enabled(y, events[0]) && Feasible(Step(y, events[0]), events[1..]))
  }

  function After(y: System, events: seq<Event>): System
    requires Feasible(y, events)
    decreases events
  {
    if events == [] then y else After(Step(y, events[0]), events[1..])
  }

  predicate Increasing(s: seq<nat>) {
    forall i, j :: 0 <= i < j < |s| ==> s[i] < s[j]
  }

  /** The timer runs only for a caller who is away with no transfer; a note waits only for one who is away. */
  ghost predicate CallerInv(n: Entry) {
    && (n.now.expiry == Armed ==> LetsGo(n.now))
    && (n.now.note.Some? ==> n.now.worker.None?)
    && n.past.firsts == (if n.past.attaches > 0 then 1 else 0)
    && (n.now.greeted <==> n.past.attaches > 0)
    && NotesAccountedFor(n.past, n.now.note)
  }

  /** Every note told was delivered once and in order, or is the one waiting, or was replaced by a later one. */
  ghost predicate NotesAccountedFor(past: Past, waiting: Option<nat>) {
    && Increasing(past.delivered)
    && (forall k :: k in past.delivered ==> k < past.told && k !in past.replaced)
    && (forall k :: k in past.replaced ==> k < past.told)
    && (waiting.Some? ==> waiting.value < past.told && waiting.value !in past.replaced
                          && forall k :: k in past.delivered ==> k < waiting.value)
    && (forall k :: 0 <= k < past.told ==> k in past.delivered || k in past.replaced || waiting == Some(k))
    && (forall k :: k in past.replaced ==> k + 1 < past.told)
  }

  ghost predicate Consistent(y: System) {
    forall token :: token in y.registry ==>
      y.registry[token] in y.callers && y.callers[y.registry[token]].now.token == token
  }

  /** A transfer a caller waits for is still running, so its done callback is still to come. */
  ghost predicate WillSettle(y: System) {
    forall id :: id in y.callers && y.callers[id].now.transfer.Some? ==>
      y.callers[id].now.transfer.value in y.running && y.running[y.callers[id].now.transfer.value] == id
  }

  ghost predicate AllKept(y: System) {
    forall id :: Registered(y, id) ==> Kept(y.callers[id].now)
  }

  ghost predicate Inv(y: System) {
    && (forall id :: id in y.callers ==> CallerInv(y.callers[id]))
    && Consistent(y) && WillSettle(y) && AllKept(y)
  }

  /** A caller the process still waits on: connected, being transferred, or on the clock. */
  predicate Kept<N>(c: Caller<N>) {
    c.worker.Some? || c.transfer.Some? || c.expiry == Armed
  }

  lemma IncreasingSnoc(s: seq<nat>, last: nat)
    requires Increasing(s) && forall k :: k in s ==> k < last
    ensures Increasing(s + [last])
  {
    forall i, j | 0 <= i < j < |s + [last]| ensures (s + [last])[i] < (s + [last])[j] {
      assert s[i] in s;
    }
  }

  lemma DeliveredGrows(past: Past, waiting: Option<nat>)
    requires NotesAccountedFor(past, waiting) && waiting.Some?
    ensures NotesAccountedFor(past.(delivered := past.delivered + [waiting.value]), None)
  {
    var delivered := past.delivered + [waiting.value];
    IncreasingSnoc(past.delivered, waiting.value);
    assert forall k :: k in delivered <==> k in past.delivered || k == waiting.value;
  }

  lemma ToldGrows(past: Past, waiting: Option<nat>, connected: bool)
    requires NotesAccountedFor(past, waiting) && (connected ==> waiting.None?)
    ensures connected ==> NotesAccountedFor(past.(told := past.told + 1, delivered := past.delivered + [past.told]), None)
    ensures !connected ==> NotesAccountedFor(past.(told := past.told + 1,
                             replaced := past.replaced + (if waiting.Some? then {waiting.value} else {})), Some(past.told))
  {
    var delivered := past.delivered + [past.told];
    IncreasingSnoc(past.delivered, past.told);
    assert forall k :: k in delivered <==> k in past.delivered || k == past.told;
  }

  lemma EntryKeepsInv(y: System, e: Event)
    requires Inv(y) && Enabled(y, e) && !e.Hold?
    ensures CallerInv(EntryAfter(y, e))
  {
    var n := y.callers[e.id];
    if e.Attach? {
      if n.now.note.Some? {
        DeliveredGrows(n.past, n.now.note);
      } else {
        assert n.past.delivered + [] == n.past.delivered;
      }
    } else if e.Tell? {
      ToldGrows(n.past, n.now.note, n.now.worker.Some?);
      assert n.past.delivered + [] == n.past.delivered;
    }
  }

  lemma TokensStay(y: System, e: Event, id: Id)
    requires Enabled(y, e) && id in y.callers
    ensures id in Step(y, e).callers && Step(y, e).callers[id].now.token == y.callers[id].now.token
  {
  }

  lemma RegistryStep(y: System, e: Event)
    requires Inv(y) && Enabled(y, e)
    ensures Consistent(Step(y, e))
    ensures forall id :: Registered(Step(y, e), id) ==> (e.Hold? && e.id == id) || Registered(y, id)
  {
    var next := Step(y, e);
    forall token | token in next.registry
      ensures next.registry[token] in next.callers && next.callers[next.registry[token]].now.token == token
    {
      if !(e.Hold? && e.token == token) {
        assert token in y.registry && next.registry[token] == y.registry[token];
        TokensStay(y, e, y.registry[token]);
      }
    }
    forall id | Registered(next, id) && !(e.Hold? && e.id == id) ensures Registered(y, id) {
      assert id in y.callers;
      TokensStay(y, e, id);
    }
  }

  lemma TransferStep(y: System, e: Event)
    requires Inv(y) && Enabled(y, e)
    ensures WillSettle(Step(y, e))
  {
    var next := Step(y, e);
    forall id | id in next.callers && next.callers[id].now.transfer.Some?
      ensures next.callers[id].now.transfer.value in next.running && next.running[next.callers[id].now.transfer.value] == id
    {
      if e.id == id && e.RunTransfer? {
        assert next.callers[id].now.transfer == Some(e.task);
      } else {
        assert id in y.callers && next.callers[id].now.transfer == y.callers[id].now.transfer;
      }
    }
  }

  lemma KeptStep(y: System, e: Event)
    requires Inv(y) && Enabled(y, e)
    ensures AllKept(Step(y, e))
  {
    RegistryStep(y, e);
    var next := Step(y, e);
    forall id | Registered(next, id) ensures Kept(next.callers[id].now) {
      if id == e.id && !e.Hold? {
        assert Registered(y, id) && next.callers[id] == EntryAfter(y, e);
        assert CallerInv(y.callers[id]) && Kept(y.callers[id].now);
      }
    }
  }

  lemma StepKeepsInv(y: System, e: Event)
    requires Inv(y) && Enabled(y, e)
    ensures Inv(Step(y, e))
  {
    RegistryStep(y, e);
    TransferStep(y, e);
    KeptStep(y, e);
    var next := Step(y, e);
    forall id | id in next.callers ensures CallerInv(next.callers[id]) {
      if id == e.id && !e.Hold? {
        EntryKeepsInv(y, e);
      } else if id == e.id {
        assert next.callers[id] == Entry(NewCaller(e.token), Past(0, 0, 0, [], {}));
      }
    }
  }

  lemma {:induction false} RunKeepsInv(y: System, events: seq<Event>)
    requires Inv(y) && Feasible(y, events)
    ensures Inv(After(y, events))
    decreases events
  {
    if events != [] {
      StepKeepsInv(y, events[0]);
      RunKeepsInv(Step(y, events[0]), events[1..]);
    }
  }

  const NOBODY := System(map[], map[], map[])

  /**
   In every reachable state: each caller in the registry is connected, being transferred, or on the clock;
   a transfer in flight will still settle; the first socket is the only one greeted; and each note told
   was delivered once and in order, waits for the next socket, or was replaced by a later note.
   */
  lemma EveryoneIsKept(events: seq<Event>, id: Id)
    requires Feasible(NOBODY, events)
    ensures var y := After(NOBODY, events);
            && (Registered(y, id) ==> Kept(y.callers[id].now))
            && (id in y.callers && y.callers[id].now.transfer.Some? ==>
                  Enabled(y, Settle(id, y.callers[id].now.transfer.value)))
            && (id in y.callers ==> y.callers[id].past.firsts == if y.callers[id].past.attaches > 0 then 1 else 0)
            && (id in y.callers ==> NotesAccountedFor(y.callers[id].past, y.callers[id].now.note))
  {
    RunKeepsInv(NOBODY, events);
  }

  /** A caller leaves the registry exactly by a release, by their own timer, or to a newer hold of their token. */
  lemma WhoLetsACallerGo(y: System, e: Event, id: Id)
    requires Inv(y) && Enabled(y, e) && Registered(y, id)
    ensures !Registered(Step(y, e), id) <==> e == Release(id) || e == Expire(id) || (e.Hold? && e.token == y.callers[id].now.token)
    ensures e == Expire(id) ==> y.callers[id].now.worker.None? && y.callers[id].now.transfer.None?
  {
    TokensStay(y, e, id);
    assert CallerInv(y.callers[id]);
    RegistryDrops(y, e, id, y.callers[id].now);
  }

  lemma RegistryDrops(y: System, e: Event, id: Id, now: Caller<nat>)
    requires Enabled(y, e) && Registered(y, id) && now == y.callers[id].now
    ensures now.token in RegistryAfter(y, e) && RegistryAfter(y, e)[now.token] == id
       <==> !(e == Release(id) || (e == Expire(id) && LetsGo(now)) || (e.Hold? && e.token == now.token))
  {
    if Registered(y, e.id) && e.id != id {
      assert y.callers[e.id].now.token != now.token;
    }
  }

  /** Whatever else happens, a connected caller stays on that socket until it closes or a newer one attaches. */
  lemma {:induction false} OnlyItsOwnCloseDropsASocket(y: System, events: seq<Event>, id: Id, worker: Worker)
    requires Feasible(y, events) && id in y.callers && y.callers[id].now.worker == Some(worker)
    requires forall i :: 0 <= i < |events| && events[i].id == id ==>
               !events[i].Attach? && events[i] != Detach(id, Some(worker))
    ensures id in After(y, events).callers && After(y, events).callers[id].now.worker == Some(worker)
    decreases events
  {
    if events != [] {
      assert Step(y, events[0]).callers[id].now.worker == Some(worker);
      OnlyItsOwnCloseDropsASocket(Step(y, events[0]), events[1..], id, worker);
    }
  }

  /** A note kept while the caller is away is put to the model on their next socket, whatever comes between. */
  lemma {:induction false} KeptNoteReachesTheNextSocket(y: System, events: seq<Event>, id: Id, worker: Worker)
    requires Inv(y) && Feasible(y, events) && id in y.callers && y.callers[id].now.note.Some?
    requires forall i :: 0 <= i < |events| && events[i].id == id ==> !events[i].Attach? && !events[i].Tell?
    ensures var before := After(y, events);
            && id in before.callers
            && before.callers[id].past.delivered == y.callers[id].past.delivered
            && var after := Step(before, Attach(id, worker)).callers[id];
            && after.past.delivered == y.callers[id].past.delivered + [y.callers[id].now.note.value]
            && after.now.note == None && after.now.worker == Some(worker)
    decreases events
  {
    if events != [] {
      var next := Step(y, events[0]);
      StepKeepsInv(y, events[0]);
      assert next.callers[id].now.note == y.callers[id].now.note;
      assert next.callers[id].past.delivered == y.callers[id].past.delivered;
      KeptNoteReachesTheNextSocket(next, events[1..], id, worker);
    }
  }

  /** A caller nobody hears from again is let go: once no transfer of theirs is running, one timer does it. */
  lemma AbandonedCallersAreLetGo(events: seq<Event>, id: Id)
    requires Feasible(NOBODY, events) && Registered(After(NOBODY, events), id)
    requires LetsGo(After(NOBODY, events).callers[id].now)
    ensures Enabled(After(NOBODY, events), Expire(id))
    ensures !Registered(Step(After(NOBODY, events), Expire(id)), id)
  {
    RunKeepsInv(NOBODY, events);
  }

  // A caller's socket and transfer, read from the events alone.

  lemma {:induction false} OneMoreEvent(y: System, events: seq<Event>, e: Event)
    requires Feasible(y, events + [e])
    ensures Feasible(y, events) && Enabled(After(y, events), e)
    ensures After(y, events + [e]) == Step(After(y, events), e)
    decreases events
  {
    var more := events + [e];
    if events == [] {
      assert more[0] == e && more[1..] == [];
    } else {
      assert more[0] == events[0] && more[1..] == events[1..] + [e];
      OneMoreEvent(Step(y, events[0]), events[1..], e);
    }
  }

  /** The task of the caller's last transfer. */
  function LastTask(events: seq<Event>, id: Id): Option<TaskId> {
    if events == [] then None
    else
      var e := events[|events| - 1];
      if e.RunTransfer? && e.id == id then Some(e.task) else LastTask(events[..|events| - 1], id)
  }

  /** The caller's last transfer, if its request is still out. */
  function StillOut(running: map<TaskId, Id>, last: Option<TaskId>, id: Id): Option<TaskId> {
    if last.Some? && last.value in running && running[last.value] == id then last else None
  }

  lemma LastTaskSnoc(events: seq<Event>, e: Event, id: Id)
    ensures LastTask(events + [e], id) == if e.RunTransfer? && e.id == id then Some(e.task) else LastTask(events, id)
  {
    assert (events + [e])[..|events|] == events;
  }

  ghost predicate TransfersTold(y: System, events: seq<Event>) {
    forall id :: if id in y.callers then y.callers[id].now.transfer == StillOut(y.running, LastTask(events, id), id)
                 else LastTask(events, id) == None
  }

  lemma TransfersToldStep(y: System, events: seq<Event>, e: Event)
    requires TransfersTold(y, events) && Enabled(y, e)
    ensures TransfersTold(Step(y, e), events + [e])
  {
    var next := Step(y, e);
    forall id ensures if id in next.callers
                      then next.callers[id].now.transfer == StillOut(next.running, LastTask(events + [e], id), id)
                      else LastTask(events + [e], id) == None
    {
      LastTaskSnoc(events, e, id);
    }
  }

  /**
   Over every run: the transfer a caller is held for is that of their last request, for as long as it is out, and none
   otherwise.
   */
  lemma {:induction false} TransferIsTheLast(events: seq<Event>)
    requires Feasible(NOBODY, events)
    ensures TransfersTold(After(NOBODY, events), events)
    decreases |events|
  {
    if events != [] {
      var before, e := events[..|events| - 1], events[|events| - 1];
      assert before + [e] == events;
      OneMoreEvent(NOBODY, before, e);
      TransferIsTheLast(before);
      TransfersToldStep(After(NOBODY, before), before, e);
    }
  }

  predicate LetsGoOf(y: System, e: Event, id: Id) {
    Enabled(y, e) && Registered(y, id) && !Registered(Step(y, e), id)
  }

  /** So while a caller's latest request is out no timer of theirs can run out, and none takes them off the registry. */
  lemma NoTimerWhileARequestIsOut(events: seq<Event>, id: Id, task: TaskId)
    requires Feasible(NOBODY, events) && LastTask(events, id) == Some(task)
    requires var running := After(NOBODY, events).running; task in running && running[task] == id
    ensures id in After(NOBODY, events).callers && !Enabled(After(NOBODY, events), Expire(id))
    ensures forall e :: LetsGoOf(After(NOBODY, events), e, id) ==> e.Release? || e.Hold?
  {
    var y := After(NOBODY, events);
    TransferIsTheLast(events);
    RunKeepsInv(NOBODY, events);
    assert CallerInv(y.callers[id]);
    forall e | LetsGoOf(y, e, id) ensures e.Release? || e.Hold? {
      WhoLetsACallerGo(y, e, id);
    }
  }

  /** The caller attached this socket, and since then neither another nor this one's close has come. */
  ghost predicate OnSocket(events: seq<Event>, id: Id, worker: Worker) {
    exists i :: 0 <= i < |events| && events[i] == Attach(id, worker) && Untouched(events, id, worker, i)
  }

  predicate Untouched(events: seq<Event>, id: Id, worker: Worker, i: nat) {
    forall j :: i < j < |events| && events[j].id == id ==> !events[j].Attach? && events[j] != Detach(id, Some(worker))
  }

  lemma OnSocketSnoc(events: seq<Event>, e: Event, id: Id, worker: Worker)
    ensures OnSocket(events + [e], id, worker)
       <==> e == Attach(id, worker)
            || (OnSocket(events, id, worker) && !(e.id == id && (e.Attach? || e == Detach(id, Some(worker)))))
  {
    var more := events + [e];
    if e == Attach(id, worker) {
      assert more[|events|] == e && Untouched(more, id, worker, |events|);
    }
    if OnSocket(events, id, worker) && !(e.id == id && (e.Attach? || e == Detach(id, Some(worker)))) {
      var i :| 0 <= i < |events| && events[i] == Attach(id, worker) && Untouched(events, id, worker, i);
      assert more[i] == events[i] && Untouched(more, id, worker, i);
    }
    if OnSocket(more, id, worker) && e != Attach(id, worker) {
      var i :| 0 <= i < |more| && more[i] == Attach(id, worker) && Untouched(more, id, worker, i);
      assert events[i] == more[i] && forall j :: i < j < |events| ==> more[j] == events[j];
      assert Untouched(events, id, worker, i) && more[|events|] == e;
    }
  }

  ghost predicate SocketsTold(y: System, events: seq<Event>) {
    forall id, worker: Worker :: OnSocket(events, id, worker) <==> id in y.callers && y.callers[id].now.worker == Some(worker)
  }

  /** Over every run: the socket a caller is on is the one they attached last, until its own close. */
  lemma {:induction false} SocketIsTheLast(events: seq<Event>)
    requires Feasible(NOBODY, events)
    ensures SocketsTold(After(NOBODY, events), events)
    decreases |events|
  {
    if events != [] {
      var before, e := events[..|events| - 1], events[|events| - 1];
      assert before + [e] == events;
      OneMoreEvent(NOBODY, before, e);
      SocketIsTheLast(before);
      SocketsToldStep(After(NOBODY, before), before, e);
    }
  }

  lemma SocketsToldStep(y: System, events: seq<Event>, e: Event)
    requires SocketsTold(y, events) && Enabled(y, e)
    ensures SocketsTold(Step(y, e), events + [e])
  {
    var next := Step(y, e);
    forall id, worker: Worker ensures OnSocket(events + [e], id, worker)
                         <==> id in next.callers && next.callers[id].now.worker == Some(worker)
    {
      OnSocketSnoc(events, e, id, worker);
    }
  }

  /**
   When a caller's clock runs: it starts anew when they are held, when their own socket closes with no transfer in
   flight, and when a transfer's end leaves one who is still held with neither; attaching, a transfer, a release and
   its running out stop it, and so does a close or an end with a transfer in flight; nothing else touches it.
   */
  lemma WhatTheClockDoes(y: System, e: Event, id: Id)
    requires Inv(y) && Enabled(y, e) && id in Step(y, e).callers
    ensures var clock := Step(y, e).callers[id].now.expiry;
      if e.id != id then clock == y.callers[id].now.expiry
      else match e
           case Hold(_, _) => clock == Armed
           case Detach(_, closed) =>
             var now := y.callers[id].now;
             clock == if closed.None? || now.worker != closed then now.expiry else if now.transfer.Some? then Idle else Armed
           case Settle(_, task) =>
             var now := y.callers[id].now;
             clock == if now.worker.Some? || !Registered(y, id) then now.expiry
                      else if now.transfer.None? || now.transfer == Some(task) then Armed else Idle
           case Tell(_) => clock == y.callers[id].now.expiry
           case _ => clock == Idle
  {
  }
}
