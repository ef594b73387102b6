/**
 Transfers over the control plane: verdicts wait in one slot per call, a tool call waits for its own,
 and a verdict that comes after the wait is watched in case the caller left after all.
 */
module TransferControl {
  import opened Sequences

  type CallId = string
  type WaiterId = nat

  datatype Ending = Completed | Failed | CallEnded

  datatype Verdict = Verdict(ending: Ending, stage: string)

  const CALL_ENDED := Verdict(CallEnded, "call_ended")

  predicate Leaves(v: Verdict) {
    v.ending != Failed
  }

  datatype State = Pending | Settled(verdict: Verdict) | Cancelled

  /** Who waits for the verdict on which call's transfer, and what became of the wait. */
  datatype Waiter = Waiter(call: CallId, state: State)

  datatype Plane = Plane(calls: set<CallId>, slots: map<CallId, WaiterId>, waiters: map<WaiterId, Waiter>)

  predicate Waiting(p: Plane, w: WaiterId) {
    w in p.waiters && p.waiters[w].state == Pending
  }

  /** A future is written once: settling or cancelling one that is done changes nothing. */
  function Written(p: Plane, w: WaiterId, state: State): Plane {
    if Waiting(p, w) then p.(waiters := p.waiters[w := p.waiters[w].(state := state)]) else p
  }

  function Expecting(p: Plane, call: CallId, w: WaiterId): Plane {
    var freed := if call in p.slots then Written(p, p.slots[call], Cancelled) else p;
    freed.(slots := freed.slots[call := w], waiters := freed.waiters[w := Waiter(call, Pending)])
  }

  function Delivered(p: Plane, call: CallId, verdict: Verdict): Plane {
    if call in p.slots then Written(p, p.slots[call], Settled(verdict)).(slots := p.slots - {call}) else p
  }

  function Forgotten(p: Plane, call: CallId): Plane {
    Delivered(p.(calls := p.calls - {call}), call, CALL_ENDED)
  }

  class ControlPlane {
    var calls: set<CallId>
    var slots: map<CallId, WaiterId>
    var waiters: map<WaiterId, Waiter>

    ghost function View(): Plane
      reads this
    {
      Plane(calls, slots, waiters)
    }

    constructor ()
      ensures View() == Plane({}, map[], map[])
    {
      calls, slots, waiters := {}, map[], map[];
    }

    /** The waiter for the next verdict on a call, in place of any earlier transfer's. */
    method ExpectTransferVerdict(call: CallId, w: WaiterId)
      requires w !in waiters
      modifies this
      ensures View() == Expecting(old(View()), call, w)
    {
      if call in slots {
        Write(slots[call], Cancelled);
      }
      slots := slots[call := w];
      waiters := waiters[w := Waiter(call, Pending)];
    }

    method Write(w: WaiterId, state: State)
      modifies this`waiters
      ensures View() == Written(old(View()), w, state)
    {
      if w in waiters && waiters[w].state == Pending {
        waiters := waiters[w := waiters[w].(state := state)];
      }
    }

    method DeliverTransferVerdict(call: CallId, verdict: Verdict)
      modifies this
      ensures View() == Delivered(old(View()), call, verdict)
    {
      if call in slots {
        Write(slots[call], Settled(verdict));
        slots := slots - {call};
      }
    }

    /** The call is over: whoever still waits on its transfer is told so. */
    method Forget(call: CallId)
      modifies this
      ensures View() == Forgotten(old(View()), call)
    {
      calls := calls - {call};
      DeliverTransferVerdict(call, CALL_ENDED);
    }
  }

  /** Where the tool call in progress stands: at each of its suspensions, or nowhere. */
  datatype Pc = Idle | Announcing | Sending(w: WaiterId) | Awaiting(w: WaiterId) | Telling

  /** One bot leg: whether a transfer is pending, whether the caller is held, and the verdicts watched late. */
  datatype Leg = Leg(pending: bool, holding: bool, pc: Pc, late: set<WaiterId>)

  /** `finally`: the hold is released and the next transfer may be asked for. */
  function Over(l: Leg): Leg {
    l.(pending := false, holding := false, pc := Idle)
  }

  class CallResources {
    const control: ControlPlane
    const call: CallId
    var pending: bool
    var holding: bool
    var pc: Pc
    var late: set<WaiterId>

    ghost function View(): Leg
      reads this
    {
      Leg(pending, holding, pc, late)
    }

    constructor (control: ControlPlane, call: CallId)
      ensures this.control == control && this.call == call && View() == Leg(false, false, Idle, {})
    {
      this.control, this.call := control, call;
      pending, holding, pc, late := false, false, Idle, {};
    }

    /** The tool's checks: refused for a call not held, or while another transfer is pending. */
    method Begin() returns (accepted: bool)
      modifies this
      ensures accepted == (call in control.calls && !old(pending))
      ensures View() == if accepted then old(View()).(pending := true, pc := Announcing) else old(View())
    {
      if call !in control.calls || pending {
        return false;
      }
      pending, pc := true, Announcing;
      return true;
    }

    /** The handover line has played: listen for the verdict before the transfer goes out. */
    method Launch(w: WaiterId)
      requires pc == Announcing && w !in control.waiters
      modifies this, control
      ensures control.View() == Expecting(old(control.View()), call, w)
      ensures View() == old(View()).(holding := true, pc := Sending(w))
    {
      control.ExpectTransferVerdict(call, w);
      holding := true;
      pc := Sending(w);
    }

    method Sent()
      requires pc.Sending?
      modifies this
      ensures View() == old(View()).(pc := Awaiting(old(pc).w))
    {
      pc := Awaiting(pc.w);
    }

    method SendRefused()
      requires pc.Sending?
      modifies this, control
      ensures control.View() == Written(old(control.View()), old(pc).w, Cancelled)
      ensures View() == old(View()).(pc := Telling)
    {
      control.Write(pc.w, Cancelled);
      pc := Telling;
    }

    /** The wait resumes with its waiter done: the verdict the caller left with, if they did. */
    method Resume() returns (left: Option<Verdict>)
      requires pc.Awaiting? && pc.w in control.waiters && control.waiters[pc.w].state.Settled?
      modifies this
      ensures var verdict := control.waiters[old(pc).w].state.verdict;
              && left == (if Leaves(verdict) then Some(verdict) else None)
              && View() == if Leaves(verdict) then Over(old(View())) else old(View()).(pc := Telling)
    {
      var verdict := control.waiters[pc.w].state.verdict;
      if verdict.ending != Failed {
        pending, holding, pc := false, false, Idle;
        return Some(verdict);
      }
      pc := Telling;
      return None;
    }

    method TimeOut()
      requires pc.Awaiting?
      modifies this
      ensures View() == old(View()).(pc := Telling, late := old(late) + {old(pc).w})
    {
      late := late + {pc.w};
      pc := Telling;
    }

    method Finish()
      modifies this
      ensures View() == Over(old(View()))
    {
      pending, holding, pc := false, false, Idle;
    }
  }

  // Every interleaving of one leg's tool calls with the control plane's events.

  datatype Outcome = LegLetGo | ModelTold | Aborted

  /** What was done about a tool call's transfer, or about a verdict watched late. */
  datatype Effect =
    | LetGo(tool: nat, w: WaiterId, verdict: Verdict)
    | ToldModel(tool: nat)
    | LateLetGo(w: WaiterId, verdict: Verdict)

  datatype System = System(plane: Plane, leg: Leg, outcomes: seq<Outcome>, effects: seq<Effect>)

  datatype Event =
    | HandedOver(call: CallId)
    | Forget(call: CallId)
    | VerdictFor(call: CallId, verdict: Verdict)
    | OtherTransfer(call: CallId, w: WaiterId)
    | Begin
    | Launch(w: WaiterId)
    | Sent
    | SendRefused
    | Resume
    | TimeOut
    | FinishTelling
    | Abort
    | LateWakes(w: WaiterId)

  predicate Done(p: Plane, w: WaiterId) {
    w in p.waiters && p.waiters[w].state != Pending
  }

  predicate Enabled(mine: CallId, y: System, e: Event) {
    match e
    case HandedOver(_) => true
    case Forget(_) => true
    case VerdictFor(_, _) => true
    case OtherTransfer(_, w) => w !in y.plane.waiters
    case Begin => true
    case Launch(w) => y.leg.pc == Announcing && w !in y.plane.waiters
    case Sent => y.leg.pc.Sending?
    case SendRefused => y.leg.pc.Sending?
    case Resume => y.leg.pc.Awaiting? && Done(y.plane, y.leg.pc.w)
    case TimeOut => y.leg.pc.Awaiting?
    case FinishTelling => y.leg.pc == Telling
    case Abort => y.leg.pc != Idle
    case LateWakes(w) => w in y.leg.late && Done(y.plane, w)
  }

  /** A tool call's number is how many ended before it. */
  function Current(y: System): nat {
    |y.outcomes|
  }

  function Ended(y: System, outcome: Outcome): System {
    y.(leg := Over(y.leg), outcomes := y.outcomes + [outcome])
  }

  function ToTelling(y: System): System {
    y.(leg := y.leg.(pc := Telling), effects := y.effects + [ToldModel(Current(y))])
  }

  function Resumed(mine: CallId, y: System): System
    requires Enabled(mine, y, Resume)
  {
    var state := y.plane.waiters[y.leg.pc.w].state;
    if state == Cancelled then Ended(y, Aborted)
    else if Leaves(state.verdict)
    then Ended(y, LegLetGo).(effects := y.effects + [LetGo(Current(y), y.leg.pc.w, state.verdict)])
    else ToTelling(y)
  }

  function Step(mine: CallId, y: System, e: Event): System
    requires Enabled(mine, y, e)
  {
    match e
    case HandedOver(call) => y.(plane := y.plane.(calls := y.plane.calls + {call}))
    case Forget(call) => y.(plane := Forgotten(y.plane, call))
    case VerdictFor(call, verdict) => y.(plane := Delivered(y.plane, call, verdict))
    case OtherTransfer(call, w) => y.(plane := Expecting(y.plane, call, w))
    case Begin =>
      if mine in y.plane.calls && !y.leg.pending then y.(leg := y.leg.(pending := true, pc := Announcing)) else y
    case Launch(w) => y.(plane := Expecting(y.plane, mine, w), leg := y.leg.(holding := true, pc := Sending(w)))
    case Sent => y.(leg := y.leg.(pc := Awaiting(y.leg.pc.w)))
    case SendRefused => ToTelling(y.(plane := Written(y.plane, y.leg.pc.w, Cancelled)))
    case Resume => Resumed(mine, y)
    case TimeOut => ToTelling(y.(leg := y.leg.(late := y.leg.late + {y.leg.pc.w})))
    case FinishTelling => Ended(y, ModelTold)
    case Abort => Ended(y, Aborted)
    case LateWakes(w) =>
      var woken := y.(leg := y.leg.(late := y.leg.late - {w}));
      var state := y.plane.waiters[w].state;
      if state.Settled? && Leaves(state.verdict)
      then woken.(effects := y.effects + [LateLetGo(w, state.verdict)]) else woken
  }

  predicate Feasible(mine: CallId, y: System, events: seq<Event>)
    decreases events
  {
    events == [] || (Enabled(mine, y, events[0]) && Feasible(mine, Step(mine, y, events[0]), events[1..]))
  }

  function After(mine: CallId, y: System, events: seq<Event>): System
    requires Feasible(mine, y, events)
    decreases events
  {
    if events == [] then y else After(mine, Step(mine, y, events[0]), events[1..])
  }

  const START := System(Plane({}, map[], map[]), Leg(false, false, Idle, {}), [], [])

  /** Only a call's slot holds a live waiter, so a call has at most one. */
  ghost predicate PlaneInv(p: Plane) {
    && (forall w :: Waiting(p, w) ==> p.waiters[w].call in p.slots && p.slots[p.waiters[w].call] == w)
    && (forall call :: call in p.slots ==> p.slots[call] in p.waiters && p.waiters[p.slots[call]].call == call)
  }

  ghost predicate LegInv(mine: CallId, p: Plane, l: Leg) {
    && (l.pending <==> l.pc != Idle)
    && (l.holding <==> l.pc.Sending? || l.pc.Awaiting? || l.pc == Telling)
    && (l.pc.Sending? || l.pc.Awaiting? ==> l.pc.w in p.waiters && p.waiters[l.pc.w].call == mine && l.pc.w !in l.late)
    && (forall w :: w in l.late ==> w in p.waiters && p.waiters[w].call == mine)
  }

  /** Waiters are only added, and what a settled or cancelled one holds never changes. */
  ghost predicate Keeps(p: Plane, q: Plane) {
    forall w :: w in p.waiters ==> w in q.waiters && q.waiters[w].call == p.waiters[w].call
                                   && (p.waiters[w].state != Pending ==> q.waiters[w] == p.waiters[w])
  }

  lemma ExpectingKeeps(p: Plane, call: CallId, w: WaiterId)
    requires PlaneInv(p) && w !in p.waiters
    ensures PlaneInv(Expecting(p, call, w)) && Keeps(p, Expecting(p, call, w))
  {
  }

  lemma DeliveredKeeps(p: Plane, call: CallId, verdict: Verdict)
    requires PlaneInv(p)
    ensures PlaneInv(Delivered(p, call, verdict)) && Keeps(p, Delivered(p, call, verdict))
  {
  }

  lemma CancelledKeeps(p: Plane, w: WaiterId)
    requires PlaneInv(p)
    ensures PlaneInv(Written(p, w, Cancelled)) && Keeps(p, Written(p, w, Cancelled))
  {
  }

  lemma PlaneStep(mine: CallId, y: System, e: Event)
    requires PlaneInv(y.plane) && Enabled(mine, y, e)
    ensures PlaneInv(Step(mine, y, e).plane) && Keeps(y.plane, Step(mine, y, e).plane)
  {
    match e
    case OtherTransfer(call, w) => ExpectingKeeps(y.plane, call, w);
    case Launch(w) => ExpectingKeeps(y.plane, mine, w);
    case VerdictFor(call, verdict) => DeliveredKeeps(y.plane, call, verdict);
    case Forget(call) => DeliveredKeeps(y.plane.(calls := y.plane.calls - {call}), call, CALL_ENDED);
    case SendRefused => CancelledKeeps(y.plane, y.leg.pc.w);
    case _ => assert Step(mine, y, e).plane.waiters == y.plane.waiters && Step(mine, y, e).plane.slots == y.plane.slots;
  }

  lemma LegStep(mine: CallId, y: System, e: Event)
    requires PlaneInv(y.plane) && LegInv(mine, y.plane, y.leg) && Enabled(mine, y, e)
    ensures LegInv(mine, Step(mine, y, e).plane, Step(mine, y, e).leg)
  {
    PlaneStep(mine, y, e);
  }

  function ToolOf(effect: Effect): Option<nat> {
    match effect
    case LetGo(tool, _, _) => Some(tool)
    case ToldModel(tool) => Some(tool)
    case LateLetGo(_, _) => None
  }

  /** Everything done about one tool call, in order. */
  function DoneAbout(effects: seq<Effect>, tool: nat): seq<Effect> {
    if effects == [] then []
    else DoneAbout(effects[..|effects| - 1], tool)
         + if ToolOf(effects[|effects| - 1]) == Some(tool) then [effects[|effects| - 1]] else []
  }

  lemma DoneAboutSnoc(effects: seq<Effect>, effect: Effect, tool: nat)
    ensures DoneAbout(effects + [effect], tool)
         == DoneAbout(effects, tool) + if ToolOf(effect) == Some(tool) then [effect] else []
  {
    assert (effects + [effect])[..|effects|] == effects;
  }

  /** A tool call ends in exactly one of its leg let go and the model told, unless it was cut short. */
  predicate Accounts(outcome: Outcome, done: seq<Effect>) {
    match outcome
    case LegLetGo => |done| == 1 && done[0].LetGo?
    case ModelTold => |done| == 1 && done[0].ToldModel?
    case Aborted => done == [] || (|done| == 1 && done[0].ToldModel?)
  }

  ghost predicate OutcomesInv(y: System) {
    && (forall tool :: 0 <= tool < |y.outcomes| ==> Accounts(y.outcomes[tool], DoneAbout(y.effects, tool)))
    && DoneAbout(y.effects, Current(y)) == (if y.leg.pc == Telling then [ToldModel(Current(y))] else [])
    && (forall tool :: tool > Current(y) ==> DoneAbout(y.effects, tool) == [])
  }

  lemma EffectAdded(y: System, next: System, effect: Effect)
    requires OutcomesInv(y) && next.effects == y.effects + [effect] && next.outcomes == y.outcomes
    requires ToolOf(effect).Some? ==> effect == ToldModel(Current(y)) && y.leg.pc != Telling
    requires next.leg.pc == Telling <==> (y.leg.pc == Telling || ToolOf(effect).Some?)
    ensures OutcomesInv(next)
  {
    forall tool: nat | tool != Current(y) ensures DoneAbout(next.effects, tool) == DoneAbout(y.effects, tool) {
      DoneAboutSnoc(y.effects, effect, tool);
    }
    DoneAboutSnoc(y.effects, effect, Current(y));
    forall tool | 0 <= tool < |next.outcomes| ensures Accounts(next.outcomes[tool], DoneAbout(next.effects, tool)) {
      assert Accounts(y.outcomes[tool], DoneAbout(y.effects, tool));
    }
  }

  lemma ToolEnded(y: System, outcome: Outcome)
    requires OutcomesInv(y) && Accounts(outcome, DoneAbout(y.effects, Current(y)))
    ensures OutcomesInv(Ended(y, outcome))
  {
  }

  lemma LegWasLetGo(y: System, w: WaiterId, verdict: Verdict)
    requires OutcomesInv(y) && y.leg.pc != Telling
    ensures OutcomesInv(Ended(y, LegLetGo).(effects := y.effects + [LetGo(Current(y), w, verdict)]))
  {
    var next := Ended(y, LegLetGo).(effects := y.effects + [LetGo(Current(y), w, verdict)]);
    forall tool: nat ensures DoneAbout(next.effects, tool)
      == DoneAbout(y.effects, tool) + if tool == Current(y) then [LetGo(Current(y), w, verdict)] else []
    {
      DoneAboutSnoc(y.effects, LetGo(Current(y), w, verdict), tool);
    }
  }

  lemma OutcomesStep(mine: CallId, y: System, e: Event)
    requires LegInv(mine, y.plane, y.leg) && OutcomesInv(y) && Enabled(mine, y, e)
    ensures OutcomesInv(Step(mine, y, e))
  {
    var next := Step(mine, y, e);
    if e.FinishTelling? {
      ToolEnded(y, ModelTold);
    } else if e.Abort? {
      ToolEnded(y, Aborted);
    } else if e.Resume? && y.plane.waiters[y.leg.pc.w].state == Cancelled {
      ToolEnded(y, Aborted);
    } else if e.Resume? && next.outcomes != y.outcomes {
      LegWasLetGo(y, y.leg.pc.w, y.plane.waiters[y.leg.pc.w].state.verdict);
    } else if next.effects != y.effects {
      EffectAdded(y, next, next.effects[|y.effects|]);
    } else {
      assert next.outcomes == y.outcomes && (next.leg.pc == Telling <==> y.leg.pc == Telling);
    }
  }

  /** Whoever was let go had left: the verdict they were let go on is what a waiter of this leg's own call holds. */
  predicate Justified(mine: CallId, p: Plane, effect: Effect) {
    effect.ToldModel? ||
    (Leaves(effect.verdict) && effect.w in p.waiters && p.waiters[effect.w] == Waiter(mine, Settled(effect.verdict)))
  }

  ghost predicate EffectsInv(mine: CallId, y: System) {
    && (forall i :: 0 <= i < |y.effects| ==> Justified(mine, y.plane, y.effects[i]))
    && (forall i :: 0 <= i < |y.effects| && y.effects[i].LateLetGo? ==> Retired(y.leg, y.effects[i].w))
    && (forall i, j :: 0 <= i < j < |y.effects| && y.effects[i].LateLetGo? && y.effects[j].LateLetGo? ==>
          y.effects[i].w != y.effects[j].w)
  }

  /** No longer awaited or watched. */
  predicate Retired(l: Leg, w: WaiterId) {
    w !in l.late && (l.pc.Sending? || l.pc.Awaiting? ==> l.pc.w != w)
  }

  /** What is retired stays so: a launch waits on a new waiter, and nothing is watched twice. */
  lemma StillRetired(mine: CallId, y: System, e: Event, w: WaiterId)
    requires Enabled(mine, y, e) && w in y.plane.waiters && Retired(y.leg, w)
    ensures Retired(Step(mine, y, e).leg, w)
  {
  }

  /** The one effect a step may add is justified, and a late one retires its waiter. */
  lemma NewEffect(mine: CallId, y: System, e: Event)
    requires PlaneInv(y.plane) && LegInv(mine, y.plane, y.leg) && Enabled(mine, y, e)
    ensures var next := Step(mine, y, e);
            next.effects == y.effects || (next.effects == y.effects + [next.effects[|y.effects|]]
              && Justified(mine, next.plane, next.effects[|y.effects|])
              && (next.effects[|y.effects|].LateLetGo? ==>
                    e == LateWakes(next.effects[|y.effects|].w) && Retired(next.leg, next.effects[|y.effects|].w)))
  {
  }

  lemma EffectsStep(mine: CallId, y: System, e: Event)
    requires PlaneInv(y.plane) && LegInv(mine, y.plane, y.leg) && EffectsInv(mine, y) && Enabled(mine, y, e)
    ensures EffectsInv(mine, Step(mine, y, e))
  {
    PlaneStep(mine, y, e);
    NewEffect(mine, y, e);
    var next := Step(mine, y, e);
    forall i | 0 <= i < |y.effects| ensures Justified(mine, next.plane, y.effects[i]) {
      assert Justified(mine, y.plane, y.effects[i]);
    }
    forall i | 0 <= i < |y.effects| && y.effects[i].LateLetGo? ensures Retired(next.leg, y.effects[i].w) {
      assert Retired(y.leg, y.effects[i].w) && Justified(mine, y.plane, y.effects[i]);
      StillRetired(mine, y, e, y.effects[i].w);
    }
  }

  ghost predicate Inv(mine: CallId, y: System) {
    PlaneInv(y.plane) && LegInv(mine, y.plane, y.leg) && OutcomesInv(y) && EffectsInv(mine, y)
  }

  lemma {:induction false} RunKeepsInv(mine: CallId, y: System, events: seq<Event>)
    requires Inv(mine, y) && Feasible(mine, y, events)
    ensures Inv(mine, After(mine, y, events)) && Keeps(y.plane, After(mine, y, events).plane)
    decreases events
  {
    if events != [] {
      PlaneStep(mine, y, events[0]);
      LegStep(mine, y, events[0]);
      OutcomesStep(mine, y, events[0]);
      EffectsStep(mine, y, events[0]);
      RunKeepsInv(mine, Step(mine, y, events[0]), events[1..]);
    }
  }

  /**
   Over every interleaving: each tool call that got past the checks ended in exactly one of the leg let go
   and the model told it failed, unless it was cut short; the hold is on only while one is pending; nobody
   was let go without a verdict that they had left; and no late verdict let the leg go twice.
   */
  lemma EveryTransferIsAnswered(mine: CallId, events: seq<Event>)
    requires Feasible(mine, START, events)
    ensures var y := After(mine, START, events);
            && (forall tool :: 0 <= tool < |y.outcomes| ==> Accounts(y.outcomes[tool], DoneAbout(y.effects, tool)))
            && (y.leg.holding ==> y.leg.pending) && (y.leg.pending <==> y.leg.pc != Idle)
            && (forall i :: 0 <= i < |y.effects| ==> Justified(mine, y.plane, y.effects[i]))
            && (forall i, j :: 0 <= i < j < |y.effects| && y.effects[i].LateLetGo? && y.effects[j].LateLetGo? ==>
                  y.effects[i].w != y.effects[j].w)
  {
    RunKeepsInv(mine, START, events);
  }

  /** At most one live waiter per call, and none once the call is forgotten, whenever they were registered. */
  lemma ForgettingSettlesEveryWaiter(mine: CallId, events: seq<Event>, call: CallId)
    requires Feasible(mine, START, events)
    ensures var p := After(mine, START, events).plane;
            && (forall v, w :: Waiting(p, v) && Waiting(p, w) && p.waiters[v].call == p.waiters[w].call ==> v == w)
            && (forall w :: Waiting(Forgotten(p, call), w) ==> Forgotten(p, call).waiters[w].call != call)
  {
    RunKeepsInv(mine, START, events);
    var p := After(mine, START, events).plane;
    assert PlaneInv(p);
    forall w | Waiting(Forgotten(p, call), w) ensures Forgotten(p, call).waiters[w].call != call {
      assert Waiting(p, w);
    }
  }

  /** A waiter is written once: what it was settled or cancelled with is what it holds from then on. */
  lemma WaitersAreWrittenOnce(mine: CallId, before: seq<Event>, later: seq<Event>, w: WaiterId)
    requires Feasible(mine, START, before) && Feasible(mine, After(mine, START, before), later)
    requires Done(After(mine, START, before).plane, w)
    ensures var now := After(mine, After(mine, START, before), later).plane;
            w in now.waiters && now.waiters[w] == After(mine, START, before).plane.waiters[w]
  {
    RunKeepsInv(mine, START, before);
    RunKeepsInv(mine, After(mine, START, before), later);
  }

  /** The tool call in progress waits on a verdict that has not come. */
  predicate OwnWaits(y: System) {
    (y.leg.pc.Sending? || y.leg.pc.Awaiting?) && Waiting(y.plane, y.leg.pc.w)
  }

  /** Only cancelling the tool call, or another leg's transfer of the same call while it waits, cuts one short. */
  predicate Disturbs(mine: CallId, y: System, e: Event) {
    e == Abort || (e.OtherTransfer? && e.call == mine && OwnWaits(y))
  }

  /** Nothing disturbs tool call `tool` while it is the one in progress, whatever becomes of the others. */
  predicate Undisturbed(mine: CallId, y: System, events: seq<Event>, tool: nat)
    requires Feasible(mine, y, events)
    decreases events
  {
    events == []
    || ((Current(y) == tool ==> !Disturbs(mine, y, events[0])) && Undisturbed(mine, Step(mine, y, events[0]), events[1..], tool))
  }

  /** Tool call `tool`, in progress or ended, has not been cut short. */
  predicate Uncut(y: System, tool: nat) {
    && (Current(y) == tool && (y.leg.pc.Sending? || y.leg.pc.Awaiting?) && y.leg.pc.w in y.plane.waiters ==>
          y.plane.waiters[y.leg.pc.w].state != Cancelled)
    && (Current(y) > tool ==> y.outcomes[tool] != Aborted)
  }

  lemma UncutStep(mine: CallId, y: System, e: Event, tool: nat)
    requires PlaneInv(y.plane) && LegInv(mine, y.plane, y.leg) && Uncut(y, tool) && Enabled(mine, y, e)
    requires Current(y) == tool ==> !Disturbs(mine, y, e)
    ensures Uncut(Step(mine, y, e), tool)
  {
  }

  /** From any state in which it has not been cut short, one that nothing disturbs is not. */
  lemma {:induction false} UndisturbedStaysUncut(mine: CallId, y: System, events: seq<Event>, tool: nat)
    requires PlaneInv(y.plane) && LegInv(mine, y.plane, y.leg) && Uncut(y, tool)
    requires Feasible(mine, y, events) && Undisturbed(mine, y, events, tool)
    ensures Uncut(After(mine, y, events), tool)
    decreases events
  {
    if events != [] {
      PlaneStep(mine, y, events[0]);
      LegStep(mine, y, events[0]);
      UncutStep(mine, y, events[0], tool);
      UndisturbedStaysUncut(mine, Step(mine, y, events[0]), events[1..], tool);
    }
  }

  /**
   So each tool call that nothing cuts short lets the leg go or tells the model, one of them, once: whatever was cut
   short before it or after it, and whatever other legs transfer while it is not waiting.
   */
  lemma UndisturbedTransfersEndOnce(mine: CallId, events: seq<Event>, tool: nat)
    requires Feasible(mine, START, events) && Undisturbed(mine, START, events, tool)
    requires tool < |After(mine, START, events).outcomes|
    ensures var y := After(mine, START, events);
            var done := DoneAbout(y.effects, tool);
            |done| == 1 && (if y.outcomes[tool] == LegLetGo then done[0].LetGo? else done[0].ToldModel?)
  {
    RunKeepsInv(mine, START, events);
    UndisturbedStaysUncut(mine, START, events, tool);
    assert After(mine, START, events).outcomes[tool] != Aborted;
  }

  // What became of each wait, read from the events alone.

  /** The call an event makes a new waiter for. */
  function WaitsOn(mine: CallId, e: Event): Option<CallId> {
    match e
    case Launch(_) => Some(mine)
    case OtherTransfer(call, _) => Some(call)
    case _ => None
  }

  /** What an event has to say to whoever waits on this call's transfer. */
  function Answers(e: Event, call: CallId): Option<Verdict> {
    match e
    case VerdictFor(c, verdict) => if c == call then Some(verdict) else None
    case Forget(c) => if c == call then Some(Verdict(CallEnded, "call_ended")) else None
    case _ => None
  }

  /** What one event decides about a wait on `call`, begun by this leg or by another. */
  function Decides(mine: CallId, e: Event, call: CallId, own: bool): State {
    if Answers(e, call).Some? then Settled(Answers(e, call).value)
    else if WaitsOn(mine, e) == Some(call) || (own && e == SendRefused) then Cancelled
    else Pending
  }

  /** The first event that decides anything about a wait decides it. */
  function Fate(mine: CallId, later: seq<Event>, call: CallId, own: bool): State {
    if later == [] then Pending
    else if Decides(mine, later[0], call, own) != Pending then Decides(mine, later[0], call, own)
    else Fate(mine, later[1..], call, own)
  }

  lemma {:induction false} FateSnoc(mine: CallId, later: seq<Event>, e: Event, call: CallId, own: bool)
    ensures Fate(mine, later + [e], call, own)
         == if Fate(mine, later, call, own) != Pending then Fate(mine, later, call, own) else Decides(mine, e, call, own)
  {
    var more := later + [e];
    if later == [] {
      assert more[0] == e && more[1..] == [];
    } else {
      assert more[0] == later[0] && more[1..] == later[1..] + [e];
      FateSnoc(mine, later[1..], e, call, own);
    }
  }

  /** What decided a wait is among the events after it. */
  lemma {:induction false} SettledByAnEvent(mine: CallId, later: seq<Event>, call: CallId, own: bool)
    requires Fate(mine, later, call, own).Settled?
    ensures exists e :: e in later && Answers(e, call) == Some(Fate(mine, later, call, own).verdict)
  {
    var e := later[0];
    if Decides(mine, e, call, own) == Pending {
      SettledByAnEvent(mine, later[1..], call, own);
      var d :| d in later[1..] && Answers(d, call) == Some(Fate(mine, later, call, own).verdict);
      assert d in later;
    } else {
      assert e in later && Answers(e, call) == Some(Fate(mine, later, call, own).verdict);
    }
  }

  predicate Registers(events: seq<Event>, i: nat, w: WaiterId) {
    i < |events| && (events[i] == Launch(w) || (events[i].OtherTransfer? && events[i].w == w))
  }

  function WaiterAt(mine: CallId, events: seq<Event>, i: nat): Waiter
    requires i < |events| && WaitsOn(mine, events[i]).Some?
  {
    var call := WaitsOn(mine, events[i]).value;
    Waiter(call, Fate(mine, events[i + 1..], call, events[i].Launch?))
  }

  /** Every waiter is as the events after the one that made it say. */
  ghost predicate WaitersTold(mine: CallId, p: Plane, events: seq<Event>) {
    && (forall i: nat, j: nat, w :: Registers(events, i, w) && Registers(events, j, w) ==> i == j)
    && (forall i: nat, w :: Registers(events, i, w) ==> w in p.waiters && p.waiters[w] == WaiterAt(mine, events, i))
  }

  /** The waiter the tool call in progress made is that of the last launch. */
  function LastLaunch(events: seq<Event>): Option<WaiterId> {
    if events == [] then None
    else if events[|events| - 1].Launch? then Some(events[|events| - 1].w)
    else LastLaunch(events[..|events| - 1])
  }

  lemma LastLaunchSnoc(events: seq<Event>, e: Event)
    ensures LastLaunch(events + [e]) == if e.Launch? then Some(e.w) else LastLaunch(events)
  {
    assert (events + [e])[..|events|] == events;
  }

  ghost predicate OwnIsLast(y: System, events: seq<Event>) {
    y.leg.pc.Sending? || y.leg.pc.Awaiting? ==> LastLaunch(events) == Some(y.leg.pc.w)
  }

  lemma {:induction false} OneMoreEvent(mine: CallId, y: System, events: seq<Event>, e: Event)
    requires Feasible(mine, y, events + [e])
    ensures Feasible(mine, y, events) && Enabled(mine, After(mine, y, events), e)
    ensures After(mine, y, events + [e]) == Step(mine, After(mine, y, events), e)
    decreases events
  {
    var more := events + [e];
    if events == [] {
      assert more[0] == e && more[1..] == [];
    } else {
      assert more[0] == events[0] && more[1..] == events[1..] + [e];
      OneMoreEvent(mine, Step(mine, y, events[0]), events[1..], e);
    }
  }

  /** One step moves a waiter that is not done as its event decides, and no other. */
  lemma WaiterMoves(mine: CallId, y: System, e: Event, w: WaiterId, own: bool)
    requires PlaneInv(y.plane) && Enabled(mine, y, e) && w in y.plane.waiters
    requires e == SendRefused && Waiting(y.plane, w) ==> (own <==> w == y.leg.pc.w)
    ensures var q, was := Step(mine, y, e).plane, y.plane.waiters[w];
      && w in q.waiters
      && q.waiters[w] == was.(state := if was.state != Pending then was.state else Decides(mine, e, was.call, own))
  {
    PlaneStep(mine, y, e);
  }

  /** While this leg's own wait has not been decided no later launch has come. */
  lemma {:induction false} LastIsOwn(mine: CallId, events: seq<Event>, i: nat, w: WaiterId)
    requires i < |events| && events[i] == Launch(w) && Fate(mine, events[i + 1..], mine, true) == Pending
    ensures LastLaunch(events) == Some(w)
    decreases |events|
  {
    var n := |events| - 1;
    if i < n {
      assert events[i + 1..] == events[..n][i + 1..] + [events[n]];
      FateSnoc(mine, events[..n][i + 1..], events[n], mine, true);
      LastIsOwn(mine, events[..n], i, w);
    }
  }

  lemma WaitersToldStep(mine: CallId, y: System, events: seq<Event>, e: Event, i: nat, w: WaiterId)
    requires PlaneInv(y.plane) && WaitersTold(mine, y.plane, events) && OwnIsLast(y, events) && Enabled(mine, y, e)
    requires Registers(events + [e], i, w)
    ensures var q := Step(mine, y, e).plane; w in q.waiters && q.waiters[w] == WaiterAt(mine, events + [e], i)
  {
    var more := events + [e];
    if i < |events| {
      var call, own := WaitsOn(mine, events[i]).value, events[i].Launch?;
      assert more[i] == events[i] && Registers(events, i, w) && more[i + 1..] == events[i + 1..] + [e];
      FateSnoc(mine, events[i + 1..], e, call, own);
      if e == SendRefused && Waiting(y.plane, w) {
        OwnWait(mine, y, events, i, w);
      }
      WaiterMoves(mine, y, e, w, own);
    } else {
      assert more[i] == e && more[i + 1..] == [];
    }
  }

  /** A wait still undecided when the request is refused is this leg's own exactly when it is the one it waits on. */
  lemma OwnWait(mine: CallId, y: System, events: seq<Event>, i: nat, w: WaiterId)
    requires WaitersTold(mine, y.plane, events) && OwnIsLast(y, events) && Enabled(mine, y, SendRefused)
    requires Registers(events, i, w) && Waiting(y.plane, w)
    ensures events[i].Launch? <==> w == y.leg.pc.w
  {
    if events[i].Launch? {
      LastIsOwn(mine, events, i, w);
    } else if w == y.leg.pc.w {
      LastWasLaunched(events, w);
      var j: nat :| j < |events| && events[j] == Launch(w);
      assert Registers(events, j, w);
    }
  }

  lemma {:induction false} LastWasLaunched(events: seq<Event>, w: WaiterId)
    requires LastLaunch(events) == Some(w)
    ensures exists j: nat :: j < |events| && events[j] == Launch(w)
  {
    var n := |events| - 1;
    if events[n].Launch? {
      assert events[n] == Launch(w);
    } else {
      LastWasLaunched(events[..n], w);
      var j: nat :| j < n && events[..n][j] == Launch(w);
      assert events[j] == Launch(w);
    }
  }

  lemma WaitersStayTold(mine: CallId, y: System, events: seq<Event>, e: Event)
    requires PlaneInv(y.plane) && WaitersTold(mine, y.plane, events) && OwnIsLast(y, events) && Enabled(mine, y, e)
    ensures WaitersTold(mine, Step(mine, y, e).plane, events + [e])
  {
    var more := events + [e];
    forall i: nat, w | Registers(more, i, w)
      ensures var q := Step(mine, y, e).plane; w in q.waiters && q.waiters[w] == WaiterAt(mine, more, i)
    {
      WaitersToldStep(mine, y, events, e, i, w);
    }
    forall i: nat, j: nat, w | Registers(more, i, w) && Registers(more, j, w) ensures i == j {
      assert i < |events| ==> Registers(events, i, w);
      assert j < |events| ==> Registers(events, j, w);
    }
  }

  ghost predicate Launched(events: seq<Event>, w: WaiterId) {
    exists i: nat :: i < |events| && events[i] == Launch(w)
  }

  lemma LaunchedStays(events: seq<Event>, e: Event, w: WaiterId)
    requires Launched(events, w) || e == Launch(w)
    ensures Launched(events + [e], w)
  {
    var more := events + [e];
    if Launched(events, w) {
      var i: nat :| i < |events| && events[i] == Launch(w);
      assert more[i] == Launch(w);
    } else {
      assert more[|events|] == Launch(w);
    }
  }

  /** The wait on `w` ran out on event `k`, and no wake-up for it has come since. */
  predicate RanOut(events: seq<Event>, k: nat, w: WaiterId) {
    k < |events| && events[k] == TimeOut && LastLaunch(events[..k]) == Some(w)
  }

  ghost predicate Watched(events: seq<Event>, w: WaiterId) {
    exists k: nat :: RanOut(events, k, w) && LateWakes(w) !in events[k..]
  }

  lemma WatchedSnoc(events: seq<Event>, e: Event, w: WaiterId)
    ensures Watched(events + [e], w)
       <==> (e == TimeOut && LastLaunch(events) == Some(w)) || (Watched(events, w) && e != LateWakes(w))
  {
    var more, n := events + [e], |events|;
    forall k: nat | k < n ensures RanOut(more, k, w) <==> RanOut(events, k, w) {
      assert more[..k] == events[..k];
    }
    forall k: nat | k < n ensures LateWakes(w) in more[k..] <==> LateWakes(w) in events[k..] || e == LateWakes(w) {
      assert more[k..] == events[k..] + [e];
    }
    assert more[..n] == events && more[n..] == [e];
    if e == TimeOut && LastLaunch(events) == Some(w) {
      assert RanOut(more, n, w) && LateWakes(w) !in more[n..];
    } else if Watched(events, w) && e != LateWakes(w) {
      var k: nat :| RanOut(events, k, w) && LateWakes(w) !in events[k..];
      assert RanOut(more, k, w) && LateWakes(w) !in more[k..];
    }
  }

  /** What the leg waits on and watches, and whom it let go over which wait, are this leg's own. */
  ghost predicate LegTold(y: System, events: seq<Event>) {
    && OwnIsLast(y, events)
    && (forall w :: w in y.leg.late <==> Watched(events, w))
    && (forall w :: w in y.leg.late ==> Launched(events, w))
    && (forall i :: 0 <= i < |y.effects| && !y.effects[i].ToldModel? ==> Launched(events, y.effects[i].w))
  }

  lemma LegStaysTold(mine: CallId, y: System, events: seq<Event>, e: Event)
    requires LegInv(mine, y.plane, y.leg) && LegTold(y, events) && Enabled(mine, y, e)
    ensures LegTold(Step(mine, y, e), events + [e])
  {
    var next := Step(mine, y, e);
    LastLaunchSnoc(events, e);
    forall w ensures w in next.leg.late <==> Watched(events + [e], w) {
      WatchedSnoc(events, e, w);
    }
    forall w | Launched(events, w) ensures Launched(events + [e], w) {
      LaunchedStays(events, e, w);
    }
    if y.leg.pc.Sending? || y.leg.pc.Awaiting? {
      LastWasLaunched(events, y.leg.pc.w);
      assert Launched(events, y.leg.pc.w);
    }
  }

  ghost predicate Told(mine: CallId, y: System, events: seq<Event>) {
    WaitersTold(mine, y.plane, events) && LegTold(y, events)
  }

  lemma {:induction false} RunIsTold(mine: CallId, events: seq<Event>)
    requires Feasible(mine, START, events)
    ensures Inv(mine, After(mine, START, events)) && Told(mine, After(mine, START, events), events)
    decreases |events|
  {
    RunKeepsInv(mine, START, events);
    if events != [] {
      var before, e := events[..|events| - 1], events[|events| - 1];
      assert before + [e] == events;
      OneMoreEvent(mine, START, before, e);
      RunIsTold(mine, before);
      WaitersStayTold(mine, After(mine, START, before), before, e);
      LegStaysTold(mine, After(mine, START, before), before, e);
    }
  }

  /**
   Over every run: each waiter is as the first event after the one that made it decides, of the verdicts on its call,
   the call's ending, a later transfer of the call and, for this leg's own, a refused request.
   */
  lemma WaitersHoldTheFirstVerdict(mine: CallId, events: seq<Event>, i: nat)
    requires Feasible(mine, START, events) && i < |events| && WaitsOn(mine, events[i]).Some?
    ensures var p, call := After(mine, START, events).plane, WaitsOn(mine, events[i]).value;
      && events[i].w in p.waiters
      && p.waiters[events[i].w] == Waiter(call, Fate(mine, events[i + 1..], call, events[i].Launch?))
  {
    RunIsTold(mine, events);
    assert Registers(events, i, events[i].w);
  }

  /** This leg launched `w`, and then this verdict on its call came first: the caller has left by it. */
  ghost predicate LeftBy(mine: CallId, events: seq<Event>, w: WaiterId, verdict: Verdict) {
    && (verdict.ending == Completed || verdict.ending == CallEnded)
    && exists i: nat :: i < |events| && events[i] == Launch(w) && Fate(mine, events[i + 1..], mine, true) == Settled(verdict)
  }

  /** Over every run: whoever was let go had left by the first verdict after this leg launched the transfer. */
  lemma LetGoOnAVerdict(mine: CallId, events: seq<Event>, k: nat)
    requires Feasible(mine, START, events)
    requires k < |After(mine, START, events).effects| && !After(mine, START, events).effects[k].ToldModel?
    ensures var effect := After(mine, START, events).effects[k]; LeftBy(mine, events, effect.w, effect.verdict)
  {
    var y := After(mine, START, events);
    var effect := y.effects[k];
    RunIsTold(mine, events);
    assert Justified(mine, y.plane, effect) && Launched(events, effect.w);
    var i: nat :| i < |events| && events[i] == Launch(effect.w);
    assert Registers(events, i, effect.w);
  }

  /** With no verdict but failures on the call, and the call not over, nobody is ever let go. */
  lemma FailuresKeepTheCaller(mine: CallId, events: seq<Event>)
    requires Feasible(mine, START, events) && Forget(mine) !in events
    requires forall e :: e in events && e.VerdictFor? && e.call == mine ==> e.verdict.ending == Failed
    ensures var y := After(mine, START, events);
      (forall k :: 0 <= k < |y.effects| ==> y.effects[k].ToldModel?) && LegLetGo !in y.outcomes
  {
    var y := After(mine, START, events);
    forall k | 0 <= k < |y.effects| ensures y.effects[k].ToldModel? {
      if !y.effects[k].ToldModel? {
        NotLeftByFailures(mine, events, k);
      }
    }
    RunKeepsInv(mine, START, events);
    forall tool | 0 <= tool < |y.outcomes| ensures y.outcomes[tool] != LegLetGo {
      AllTold(y.effects, tool);
      assert Accounts(y.outcomes[tool], DoneAbout(y.effects, tool));
    }
  }

  lemma NotLeftByFailures(mine: CallId, events: seq<Event>, k: nat)
    requires Feasible(mine, START, events)
    requires k < |After(mine, START, events).effects| && !After(mine, START, events).effects[k].ToldModel?
    ensures Forget(mine) in events || exists e :: e in events && e.VerdictFor? && e.call == mine && e.verdict.ending != Failed
  {
    var effect := After(mine, START, events).effects[k];
    LetGoOnAVerdict(mine, events, k);
    var i: nat :| i < |events| && events[i] == Launch(effect.w) && Fate(mine, events[i + 1..], mine, true) == Settled(effect.verdict);
    LeftByAnEvent(mine, events, i, effect.verdict);
  }

  lemma LeftByAnEvent(mine: CallId, events: seq<Event>, i: nat, verdict: Verdict)
    requires i < |events| && Fate(mine, events[i + 1..], mine, true) == Settled(verdict) && verdict.ending != Failed
    ensures Forget(mine) in events || exists e :: e in events && e.VerdictFor? && e.call == mine && e.verdict.ending != Failed
  {
    SettledByAnEvent(mine, events[i + 1..], mine, true);
    var e :| e in events[i + 1..] && Answers(e, mine) == Some(verdict);
    assert e in events;
  }

  lemma {:induction false} AllTold(effects: seq<Effect>, tool: nat)
    requires forall k :: 0 <= k < |effects| ==> effects[k].ToldModel?
    ensures forall k :: 0 <= k < |DoneAbout(effects, tool)| ==> DoneAbout(effects, tool)[k].ToldModel?
  {
    if effects != [] {
      AllTold(effects[..|effects| - 1], tool);
    }
  }

  /** What the wait on `w`, launched by event `i`, came to. */
  ghost predicate CameTo(mine: CallId, events: seq<Event>, w: WaiterId, fate: State) {
    exists i: nat :: i < |events| && events[i] == Launch(w) && Fate(mine, events[i + 1..], mine, true) == fate
  }

  /** A wait that resumes acts on what it came to: gone, still here and told so, or cut short. */
  lemma ResumeActsOnTheVerdict(mine: CallId, events: seq<Event>)
    requires Feasible(mine, START, events) && Enabled(mine, After(mine, START, events), Resume)
    ensures var y := After(mine, START, events);
      var next, tool, w := Step(mine, y, Resume), |y.outcomes|, y.leg.pc.w;
      && y.plane.waiters[w].state != Pending && CameTo(mine, events, w, y.plane.waiters[w].state)
      && match y.plane.waiters[w].state
         case Settled(v) =>
           if v.ending == Failed
           then next.outcomes == y.outcomes && next.effects == y.effects + [ToldModel(tool)] && next.leg.pc == Telling
           else next.outcomes == y.outcomes + [LegLetGo] && next.effects == y.effects + [LetGo(tool, w, v)]
         case _ => next.outcomes == y.outcomes + [Aborted] && next.effects == y.effects
  {
    var y := After(mine, START, events);
    RunIsTold(mine, events);
    LastWasLaunched(events, y.leg.pc.w);
    var i: nat :| i < |events| && events[i] == Launch(y.leg.pc.w);
    assert Registers(events, i, y.leg.pc.w);
  }

  /** Waking up once a watched wait has come to `state`: let go, if by it the caller has left. */
  predicate Wakes(y: System, next: System, w: WaiterId, state: State) {
    && next.outcomes == y.outcomes && next.leg == y.leg.(late := y.leg.late - {w})
    && next.effects == y.effects + match state
                                   case Settled(v) => if v.ending == Failed then [] else [LateLetGo(w, v)]
                                   case _ => []
  }

  lemma LateStep(mine: CallId, y: System, w: WaiterId)
    requires Enabled(mine, y, LateWakes(w))
    ensures Wakes(y, Step(mine, y, LateWakes(w)), w, y.plane.waiters[w].state)
  {
    assert y.effects + [] == y.effects;
  }

  lemma WatchedCameTo(mine: CallId, events: seq<Event>, w: WaiterId)
    requires Feasible(mine, START, events) && Watched(events, w)
    ensures var y := After(mine, START, events);
      w in y.leg.late && w in y.plane.waiters && CameTo(mine, events, w, y.plane.waiters[w].state)
  {
    RunIsTold(mine, events);
    assert w in After(mine, START, events).leg.late;
    var i: nat :| i < |events| && events[i] == Launch(w);
    assert Registers(events, i, w);
  }

  /**
   A wait that has run out is watched until it comes to something, and then the caller is let go exactly if they have
   left.
   */
  lemma LateVerdictsAreActedOn(mine: CallId, events: seq<Event>, w: WaiterId)
    requires Feasible(mine, START, events) && Watched(events, w)
    ensures var y := After(mine, START, events);
      && w in y.plane.waiters && CameTo(mine, events, w, y.plane.waiters[w].state)
      && (Enabled(mine, y, LateWakes(w)) <==> y.plane.waiters[w].state != Pending)
      && (Enabled(mine, y, LateWakes(w)) ==> Wakes(y, Step(mine, y, LateWakes(w)), w, y.plane.waiters[w].state))
  {
    WatchedCameTo(mine, events, w);
    if Enabled(mine, After(mine, START, events), LateWakes(w)) {
      LateStep(mine, After(mine, START, events), w);
    }
  }

  /** The call was handed over, and has not been forgotten since. */
  ghost predicate HandedAndKept(events: seq<Event>, call: CallId) {
    exists i: nat :: i < |events| && events[i] == HandedOver(call) && Forget(call) !in events[i..]
  }

  lemma HandedSnoc(events: seq<Event>, e: Event, call: CallId)
    ensures HandedAndKept(events + [e], call)
       <==> e == HandedOver(call) || (HandedAndKept(events, call) && e != Forget(call))
  {
    var more, n := events + [e], |events|;
    forall i: nat | i < n ensures Forget(call) in more[i..] <==> Forget(call) in events[i..] || e == Forget(call) {
      assert more[i..] == events[i..] + [e];
    }
    assert more[n..] == [e] && more[n] == e;
    if HandedAndKept(events, call) && e != Forget(call) {
      var i: nat :| i < n && events[i] == HandedOver(call) && Forget(call) !in events[i..];
      assert more[i] == HandedOver(call);
    }
    if HandedAndKept(more, call) && e != HandedOver(call) {
      var i: nat :| i <= n && more[i] == HandedOver(call) && Forget(call) !in more[i..];
      assert events[i] == HandedOver(call);
    }
  }

  lemma CallsStep(mine: CallId, y: System, e: Event, call: CallId)
    requires Enabled(mine, y, e)
    ensures call in Step(mine, y, e).plane.calls <==> e == HandedOver(call) || (call in y.plane.calls && e != Forget(call))
  {
  }

  lemma {:induction false} CallsAreThoseHanded(mine: CallId, events: seq<Event>, call: CallId)
    requires Feasible(mine, START, events)
    ensures call in After(mine, START, events).plane.calls <==> HandedAndKept(events, call)
    decreases |events|
  {
    if events != [] {
      var before, e := events[..|events| - 1], events[|events| - 1];
      assert before + [e] == events;
      OneMoreEvent(mine, START, before, e);
      CallsAreThoseHanded(mine, before, call);
      CallsStep(mine, After(mine, START, before), e, call);
      HandedSnoc(before, e, call);
    }
  }

  /** A tool call gets past the checks exactly when the bot holds the call and no transfer of this leg is in progress. */
  lemma BeginsExactlyOnAHeldCall(mine: CallId, events: seq<Event>)
    requires Feasible(mine, START, events)
    ensures var y := After(mine, START, events);
      if HandedAndKept(events, mine) && y.leg.pc == Idle
      then Step(mine, y, Begin) == y.(leg := y.leg.(pending := true, pc := Announcing))
      else Step(mine, y, Begin) == y
  {
    RunKeepsInv(mine, START, events);
    CallsAreThoseHanded(mine, events, mine);
  }
}
