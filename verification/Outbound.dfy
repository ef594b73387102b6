/**
 Placed calls: the control-event pump, the ring guard, the dial-in guard and the engine's dial-in race to
 settle each call's answer and ending. A guard suspends at its timer and at its hang-up; a cancelled one
 runs none of its code again, so cancelling stops it there and then.
 */
module Outbound {
  import opened Sequences

  type Channel = string

  datatype Kind = Answered | Rejected | TimedOut | Failed | Ended

  datatype Outcome = Outcome(kind: Kind, code: Option<int>, reason: string)

  const NO_OUTCOME := Outcome(TimedOut, None, "siphon reported no outcome")
  const NEVER_DIALLED := Outcome(Failed, None, "answered, but the engine never dialled the bot")
  const STREAM_CLOSED := Outcome(Failed, None, "the control stream closed before the call ended")

  datatype Guard = Unset | Sleeping | HangingUp | Stopped

  predicate Live(g: Guard) {
    g.Sleeping? || g.HangingUp?
  }

  function Cancelled(g: Guard): Guard {
    if g.Unset? then Unset else Stopped
  }

  datatype Pump = Unstarted | Reading | Done

  datatype Call = Call(answered: Option<Outcome>, ended: Option<Outcome>, dialledIn: bool,
                       ringGuard: Guard, dialInGuard: Guard, pump: Pump)

  const NEW_CALL := Call(None, None, false, Unset, Unset, Unstarted)

  function CallDialledIn(c: Call): Call {
    c.(dialledIn := true, dialInGuard := Cancelled(c.dialInGuard))
  }

  function CallStarted(c: Call): Call {
    c.(pump := Reading, ringGuard := Sleeping)
  }

  function CallAnswered(c: Call, outcome: Outcome): Call {
    if c.answered.Some? then c
    else c.(answered := Some(outcome),
            ringGuard := Cancelled(c.ringGuard),
            dialInGuard := if c.dialledIn then c.dialInGuard else Sleeping)
  }

  /** Both guards are over after a finish: the one that ran it returns, and the other is cancelled. */
  function CallFinished(c: Call, outcome: Outcome): Call {
    if c.ended.Some? then c
    else c.(answered := if c.answered.Some? then c.answered else Some(outcome),
            ended := Some(outcome),
            ringGuard := Cancelled(c.ringGuard),
            dialInGuard := Cancelled(c.dialInGuard))
  }

  class PlacedCall {
    const channel: Channel
    const registry: PlacedCalls
    var answered: Option<Outcome>
    var ended: Option<Outcome>
    var dialledIn: bool
    var ringGuard: Guard
    var dialInGuard: Guard
    var pump: Pump

    ghost function View(): Call
      reads this
    {
      Call(answered, ended, dialledIn, ringGuard, dialInGuard, pump)
    }

    constructor (channel: Channel, registry: PlacedCalls)
      ensures this.channel == channel && this.registry == registry && View() == NEW_CALL
    {
      this.channel, this.registry := channel, registry;
      answered, ended, dialledIn := None, None, false;
      ringGuard, dialInGuard, pump := Unset, Unset, Unstarted;
    }

    method MarkDialledIn()
      modifies this
      ensures View() == CallDialledIn(old(View()))
    {
      dialledIn := true;
      if dialInGuard != Unset {
        dialInGuard := Stopped;
      }
    }

    method Start()
      modifies this
      ensures View() == CallStarted(old(View()))
    {
      pump := Reading;
      ringGuard := Sleeping;
    }

    method OnAnswered(outcome: Outcome)
      modifies this
      ensures View() == CallAnswered(old(View()), outcome)
    {
      if answered.Some? {
        return;
      }
      answered := Some(outcome);
      if ringGuard != Unset {
        ringGuard := Stopped;
      }
      if !dialledIn {
        dialInGuard := Sleeping;
      }
    }

    /** Ends the call once; the first ending also drops it from its registry. */
    method Finish(outcome: Outcome)
      modifies this, registry
      ensures View() == CallFinished(old(View()), outcome)
      ensures registry.pending == if old(ended).Some? then old(registry.pending) else old(registry.pending) - {channel}
    {
      if ended.Some? {
        return;
      }
      if answered.None? {
        answered := Some(outcome);
      }
      ended := Some(outcome);
      if ringGuard != Unset {
        ringGuard := Stopped;
      }
      if dialInGuard != Unset {
        dialInGuard := Stopped;
      }
      registry.Release(channel);
    }

    /** One guard's timer runs out: it either has nothing left to guard, or hangs the call up. */
    method RingTimerFires()
      requires ringGuard == Sleeping
      modifies this
      ensures View() == old(View()).(ringGuard := if old(answered).Some? then Stopped else HangingUp)
    {
      if answered.Some? {
        ringGuard := Stopped;
        return;
      }
      ringGuard := HangingUp;
    }

    method DialInTimerFires()
      requires dialInGuard == Sleeping
      modifies this
      ensures View() == old(View()).(dialInGuard := if old(dialledIn || ended.Some?) then Stopped else HangingUp)
    {
      if dialledIn || ended.Some? {
        dialInGuard := Stopped;
        return;
      }
      dialInGuard := HangingUp;
    }

    /** The hang-up returned, or raised; either way the guard reports the ending itself. */
    method RingHangUpReturns()
      requires ringGuard == HangingUp
      modifies this, registry
      ensures View() == CallFinished(old(View()), NO_OUTCOME).(ringGuard := Stopped)
      ensures registry.pending == if old(ended).Some? then old(registry.pending) else old(registry.pending) - {channel}
    {
      Finish(NO_OUTCOME);
      ringGuard := Stopped;
    }

    method DialInHangUpReturns()
      requires dialInGuard == HangingUp
      modifies this, registry
      ensures View() == CallFinished(old(View()), NEVER_DIALLED).(dialInGuard := Stopped)
      ensures registry.pending == if old(ended).Some? then old(registry.pending) else old(registry.pending) - {channel}
    {
      Finish(NEVER_DIALLED);
      dialInGuard := Stopped;
    }
  }

  class PlacedCalls {
    var pending: map<Channel, PlacedCall>

    constructor ()
      ensures pending == map[]
    {
      pending := map[];
    }

    /** Reserve a call before its INVITE goes out, so that an instant dial-in finds it. */
    method Reserve(channel: Channel) returns (placed: PlacedCall)
      modifies this
      ensures fresh(placed) && placed.channel == channel && placed.registry == this && placed.View() == NEW_CALL
      ensures pending == old(pending)[channel := placed]
    {
      placed := new PlacedCall(channel, this);
      pending := pending[channel := placed];
    }

    /** Match a dial-in to the call it names, once. */
    method Claim(channel: Option<Channel>) returns (placed: Option<PlacedCall>)
      modifies this, pending.Values
      ensures placed == if channel.Some? && channel.value in old(pending) then Some(old(pending)[channel.value]) else None
      ensures pending == if placed.Some? then old(pending) - {channel.value} else old(pending)
      ensures placed.Some? ==> placed.value.View() == CallDialledIn(old(placed.value.View()))
    {
      if channel.None? || channel.value !in pending {
        return None;
      }
      var call := pending[channel.value];
      pending := pending - {channel.value};
      call.MarkDialledIn();
      return Some(call);
    }

    method Release(channel: Channel)
      modifies this
      ensures pending == old(pending) - {channel}
    {
      pending := pending - {channel};
    }
  }

  // The race, over every order its steps can come in.

  datatype Phase = Originating | Placed | Refused

  datatype Finisher = ByPump | ByRingGuard | ByDialInGuard

  /** One placed call with its registry entry, and what is worth remembering about the past. */
  datatype Entry = Entry(call: Call, phase: Phase, pending: bool, claims: nat, finisher: Option<Finisher>)

  const RESERVED := Entry(NEW_CALL, Originating, true, 0, None)

  datatype Event =
    | OriginateReturns
    | OriginateFails
    | DialIn
    | AnswerEvent(outcome: Outcome)
    | EndEvent(outcome: Outcome)
    | StreamCloses
    | StreamFails(reason: string)
    | RingTimer
    | RingHangUpDone
    | DialInTimer
    | DialInHangUpDone

  predicate GuardEvent(e: Event) {
    e.RingTimer? || e.RingHangUpDone? || e.DialInTimer? || e.DialInHangUpDone?
  }

  predicate Enabled(n: Entry, e: Event) {
    match e
    case OriginateReturns => n.phase == Originating
    case OriginateFails => n.phase == Originating
    case DialIn => true
    case AnswerEvent(outcome) => n.call.pump == Reading && outcome.kind == Answered
    case EndEvent(outcome) => n.call.pump == Reading && outcome.kind != Answered
    case StreamCloses => n.call.pump == Reading
    case StreamFails(_) => n.call.pump == Reading
    case RingTimer => n.call.ringGuard == Sleeping
    case RingHangUpDone => n.call.ringGuard == HangingUp
    case DialInTimer => n.call.dialInGuard == Sleeping
    case DialInHangUpDone => n.call.dialInGuard == HangingUp
  }

  function Finished(n: Entry, outcome: Outcome, who: Finisher): Entry {
    if n.call.ended.Some? then n
    else n.(call := CallFinished(n.call, outcome), pending := false, finisher := Some(who))
  }

  function PumpFinished(n: Entry, outcome: Outcome): Entry {
    var done := Finished(n, outcome, ByPump);
    done.(call := done.call.(pump := Done))
  }

  function Step(n: Entry, e: Event): Entry
    requires Enabled(n, e)
  {
    match e
    case OriginateReturns => n.(phase := Placed, call := CallStarted(n.call))
    case OriginateFails => n.(phase := Refused, pending := false)
    case DialIn =>
      if n.pending then n.(pending := false, claims := n.claims + 1, call := CallDialledIn(n.call)) else n
    case AnswerEvent(outcome) => n.(call := CallAnswered(n.call, outcome))
    case EndEvent(outcome) => PumpFinished(n, outcome)
    case StreamCloses => PumpFinished(n, STREAM_CLOSED)
    case StreamFails(reason) => PumpFinished(n, Outcome(Failed, None, reason))
    case RingTimer => n.(call := n.call.(ringGuard := if n.call.answered.Some? then Stopped else HangingUp))
    case DialInTimer =>
      n.(call := n.call.(dialInGuard := if n.call.dialledIn || n.call.ended.Some? then Stopped else HangingUp))
    case RingHangUpDone =>
      var done := Finished(n, NO_OUTCOME, ByRingGuard);
      done.(call := done.call.(ringGuard := Stopped))
    case DialInHangUpDone =>
      var done := Finished(n, NEVER_DIALLED, ByDialInGuard);
      done.(call := done.call.(dialInGuard := Stopped))
  }

  predicate Feasible(n: Entry, events: seq<Event>)
    decreases events
  {
    events == [] || (Enabled(n, events[0]) && Feasible(Step(n, events[0]), events[1..]))
  }

  function After(n: Entry, events: seq<Event>): Entry
    requires Feasible(n, events)
    decreases events
  {
    if events == [] then n else After(Step(n, events[0]), events[1..])
  }

  /** A call nobody has to settle any more: over, or answered and with the bot. */
  predicate Settled(c: Call) {
    c.ended.Some? || (c.answered.Some? && c.dialledIn)
  }

  /** An unsettled call is watched by exactly the guard its answer calls for. */
  predicate Guarded(c: Call) {
    && (Settled(c) ==> !Live(c.ringGuard) && !Live(c.dialInGuard))
    && (!Settled(c) && c.answered.None? ==> Live(c.ringGuard) && c.dialInGuard == Unset)
    && (!Settled(c) && c.answered.Some? ==> c.ringGuard == Stopped && Live(c.dialInGuard))
  }

  predicate Outcomes(c: Call) {
    && (c.ended.Some? ==> c.ended.value.kind != Answered && c.answered.Some?)
    && (c.answered.Some? ==> c.answered.value.kind == Answered || c.answered == c.ended)
  }

  predicate Inv(n: Entry) {
    && Outcomes(n.call)
    && n.claims <= 1 && (n.call.dialledIn <==> n.claims == 1)
    && (n.pending <==> n.claims == 0 && n.call.ended.None? && n.phase != Refused)
    && (n.phase != Placed ==> n.call == NEW_CALL.(dialledIn := n.call.dialledIn))
    && (n.phase == Placed ==> Guarded(n.call) && (n.call.pump == Reading || n.call.ended.Some?) && n.call.pump != Unstarted)
    && (n.finisher.Some? <==> n.call.ended.Some?)
    && (n.finisher == Some(ByDialInGuard) ==> n.claims == 0 && n.call.ended == Some(NEVER_DIALLED))
    && (n.finisher == Some(ByRingGuard) ==> n.call.answered == n.call.ended == Some(NO_OUTCOME))
  }

  lemma StepKeepsInv(n: Entry, e: Event)
    requires Inv(n) && Enabled(n, e)
    ensures Inv(Step(n, e))
    ensures n.call.answered.Some? ==> Step(n, e).call.answered == n.call.answered
    ensures n.call.ended.Some? ==> Step(n, e).call.ended == n.call.ended && Step(n, e).finisher == n.finisher
    ensures n.phase == Placed ==> Step(n, e).phase == Placed
  {
  }

  /** Over every run: the answer and the ending are each written once, and everything in `Inv` holds. */
  lemma {:induction false} RunKeepsInv(n: Entry, events: seq<Event>)
    requires Inv(n) && Feasible(n, events)
    ensures Inv(After(n, events))
    ensures n.call.answered.Some? ==> After(n, events).call.answered == n.call.answered
    ensures n.call.ended.Some? ==> After(n, events).call.ended == n.call.ended && After(n, events).finisher == n.finisher
    ensures n.phase == Placed ==> After(n, events).phase == Placed
    decreases events
  {
    if events != [] {
      StepKeepsInv(n, events[0]);
      RunKeepsInv(Step(n, events[0]), events[1..]);
    }
  }

  /** How many guard steps a call can still see. */
  function GuardWork(n: Entry): nat {
    if n.phase == Refused || Settled(n.call) then 0
    else if n.phase == Originating then 4
    else if n.call.answered.None? then (if n.call.ringGuard == Sleeping then 4 else 3)
    else if n.call.dialInGuard == Sleeping then 2 else 1
  }

  function GuardSteps(events: seq<Event>): nat {
    if events == [] then 0 else (if GuardEvent(events[0]) then 1 else 0) + GuardSteps(events[1..])
  }

  /** Guards step at most four times in all, so firing timers and returning hang-ups run out. */
  lemma {:induction false} GuardsRunOut(n: Entry, events: seq<Event>)
    requires Inv(n) && Feasible(n, events)
    ensures GuardSteps(events) + GuardWork(After(n, events)) <= GuardWork(n) <= 4
    decreases events
  {
    if events != [] {
      StepKeepsInv(n, events[0]);
      GuardsRunOut(Step(n, events[0]), events[1..]);
    }
  }

  /**
   No callee stays on a silent line: once no timer is running and no hang-up is open, a placed call is over,
   or answered and with the bot; and until it is over its control events are still being read.
   */
  lemma NobodyLeftOnASilentLine(events: seq<Event>)
    requires Feasible(RESERVED, events)
    ensures var n := After(RESERVED, events);
            n.phase == Placed ==>
              && (Settled(n.call) <==> forall e :: GuardEvent(e) ==> !Enabled(n, e))
              && (n.call.ended.None? ==> n.call.pump == Reading)
    ensures GuardSteps(events) <= 4
  {
    RunKeepsInv(RESERVED, events);
    GuardsRunOut(RESERVED, events);
    var n := After(RESERVED, events);
    assert Enabled(n, RingTimer) <==> n.call.ringGuard == Sleeping;
    assert Enabled(n, RingHangUpDone) <==> n.call.ringGuard == HangingUp;
    assert Enabled(n, DialInTimer) <==> n.call.dialInGuard == Sleeping;
    assert Enabled(n, DialInHangUpDone) <==> n.call.dialInGuard == HangingUp;
  }

  /** A call the dial-in guard finishes was never claimed, and never will be. */
  lemma DialInGuardSparesClaimedCalls(before: seq<Event>, later: seq<Event>)
    requires Feasible(RESERVED, before) && Feasible(After(RESERVED, before), later)
    requires After(RESERVED, before).finisher == Some(ByDialInGuard)
    ensures After(After(RESERVED, before), later).claims == 0
  {
    RunKeepsInv(RESERVED, before);
    RunKeepsInv(After(RESERVED, before), later);
  }

  /** A refused originate leaves nothing pending, and its call can never be answered or over. */
  lemma {:induction false} RefusedCallsStaySilent(n: Entry, events: seq<Event>)
    requires Inv(n) && n.phase == Refused && Feasible(n, events)
    ensures After(n, events) == n && !n.pending
    decreases events
  {
    if events != [] {
      assert events[0] == DialIn;
      RefusedCallsStaySilent(n, events[1..]);
    }
  }

  /**
   So a dial-in that overtakes the originate's reply can be given a call that never resolves: it holds the
   call, and nothing will ever end it.
   */
  lemma ClaimedThenRefused(later: seq<Event>)
    requires Feasible(After(RESERVED, [DialIn, OriginateFails]), later)
    ensures var n := After(After(RESERVED, [DialIn, OriginateFails]), later);
            n.claims == 1 && n.call.ended == None && n.call.answered == None
  {
    var claimed := Step(RESERVED, DialIn);
    assert [DialIn, OriginateFails][1..] == [OriginateFails];
    assert [OriginateFails][1..] == [];
    assert After(RESERVED, [DialIn, OriginateFails]) == Step(claimed, OriginateFails);
    RefusedCallsStaySilent(Step(claimed, OriginateFails), later);
  }

  /**
   Which calls resolve, once the originate is decided and no guard has anything left to do: a placed call has been
   answered or has failed to be, a refused one never is, claimed or not.
   */
  lemma ResolvedIffPlaced(events: seq<Event>)
    requires Feasible(RESERVED, events)
    ensures var n := After(RESERVED, events);
            n.phase != Originating && (forall e :: GuardEvent(e) ==> !Enabled(n, e)) ==>
              && (n.call.answered.Some? <==> n.phase == Placed)
              && (n.phase == Placed ==> n.call.ended.Some? || n.call.dialledIn)
  {
    RunKeepsInv(RESERVED, events);
    NobodyLeftOnASilentLine(events);
  }

  // What a call came to, read from its events alone.

  /** How an event ends a call, if none has before. */
  function EndsWith(e: Event): Option<Outcome> {
    match e
    case EndEvent(outcome) => Some(outcome)
    case StreamCloses => Some(Outcome(Failed, None, "the control stream closed before the call ended"))
    case StreamFails(reason) => Some(Outcome(Failed, None, reason))
    case RingHangUpDone => Some(Outcome(TimedOut, None, "siphon reported no outcome"))
    case DialInHangUpDone => Some(Outcome(Failed, None, "answered, but the engine never dialled the bot"))
    case _ => None
  }

  /** How it resolves the answer: by one, or by an ending without one. */
  function AnswersWith(e: Event): Option<Outcome> {
    if e.AnswerEvent? then Some(e.outcome) else EndsWith(e)
  }

  /** What the first event of a kind says. */
  function First<A>(events: seq<Event>, says: Event -> Option<A>): Option<A> {
    if events == [] then None
    else if First(events[..|events| - 1], says).Some? then First(events[..|events| - 1], says)
    else says(events[|events| - 1])
  }

  lemma FirstSnoc<A>(events: seq<Event>, e: Event, says: Event -> Option<A>)
    ensures First(events + [e], says) == if First(events, says).Some? then First(events, says) else says(e)
  {
    assert (events + [e])[..|events|] == events;
  }

  lemma {:induction false} FirstIsFirst<A>(events: seq<Event>, says: Event -> Option<A>)
    ensures First(events, says).None? ==> forall i :: 0 <= i < |events| ==> says(events[i]).None?
    ensures First(events, says).Some? ==> exists i :: 0 <= i < |events| && says(events[i]) == First(events, says)
                                                       && forall j :: 0 <= j < i ==> says(events[j]).None?
  {
    if events != [] {
      var n := |events| - 1;
      FirstIsFirst(events[..n], says);
      if First(events[..n], says).Some? {
        var i :| 0 <= i < n && says(events[..n][i]) == First(events, says) && forall j :: 0 <= j < i ==> says(events[..n][j]).None?;
        assert says(events[i]) == First(events, says);
        assert forall j :: 0 <= j < i ==> events[j] == events[..n][j];
      } else if says(events[n]).Some? {
        assert says(events[n]) == First(events, says);
        assert forall j :: 0 <= j < n ==> events[j] == events[..n][j];
      }
    }
  }

  /** Who has a call first: a dial-in, or whatever takes it off the pending ones. */
  function Takes(e: Event): Option<bool> {
    if e == DialIn then Some(true) else if e == OriginateFails || EndsWith(e).Some? then Some(false) else None
  }

  predicate Closes(e: Event) {
    e.EndEvent? || e.StreamCloses? || e.StreamFails?
  }

  lemma {:induction false} OneMoreEvent(n: Entry, events: seq<Event>, e: Event)
    requires Feasible(n, events + [e])
    ensures Feasible(n, events) && Enabled(After(n, events), e)
    ensures After(n, events + [e]) == Step(After(n, events), e)
    decreases events
  {
    var more := events + [e];
    if events == [] {
      assert more[0] == e && more[1..] == [];
    } else {
      assert more[0] == events[0] && more[1..] == events[1..] + [e];
      OneMoreEvent(Step(n, events[0]), events[1..], e);
    }
  }

  /** The call's fields are what its events say. */
  ghost predicate Told(n: Entry, events: seq<Event>) {
    && n.call.ended == First(events, EndsWith)
    && n.call.answered == First(events, AnswersWith)
    && (n.call.dialledIn <==> First(events, Takes) == Some(true))
    && (n.pending <==> First(events, Takes) == None)
    && (n.phase == Placed <==> OriginateReturns in events) && (n.phase == Refused <==> OriginateFails in events)
    && (n.call.pump == Done <==> exists e :: e in events && Closes(e))
    && (n.call.pump != Unstarted <==> OriginateReturns in events)
  }

  lemma ToldStep(n: Entry, events: seq<Event>, e: Event)
    requires Inv(n) && Told(n, events) && Enabled(n, e)
    ensures Told(Step(n, e), events + [e])
  {
    var more := events + [e];
    FirstSnoc(events, e, EndsWith);
    FirstSnoc(events, e, AnswersWith);
    FirstSnoc(events, e, Takes);
    assert forall d :: d in more <==> d in events || d == e;
    assert (exists d :: d in more && Closes(d)) <==> (exists d :: d in events && Closes(d)) || Closes(e);
  }

  /**
   Over every run: a call ends as the first event that ends it says, and is answered as the first that answers or
   ends it does; it is the bot's exactly when a dial-in comes before it is over or refused; and its events are read
   until one of them closes them.
   */
  lemma {:induction false} CallIsAsToldFirst(events: seq<Event>)
    requires Feasible(RESERVED, events)
    ensures Told(After(RESERVED, events), events)
    decreases |events|
  {
    if events != [] {
      var before, e := events[..|events| - 1], events[|events| - 1];
      assert before + [e] == events;
      OneMoreEvent(RESERVED, before, e);
      RunKeepsInv(RESERVED, before);
      CallIsAsToldFirst(before);
      ToldStep(After(RESERVED, before), before, e);
    }
  }

  /** The bot's calls: reserved under fresh channels, each stepping on its own. */
  datatype Move = Place(channel: Channel) | On(channel: Channel, event: Event)

  predicate Possible(calls: map<Channel, Entry>, m: Move) {
    if m.Place? then m.channel !in calls else m.channel in calls && Enabled(calls[m.channel], m.event)
  }

  function Moved(calls: map<Channel, Entry>, m: Move): map<Channel, Entry>
    requires Possible(calls, m)
  {
    calls[m.channel := if m.Place? then RESERVED else Step(calls[m.channel], m.event)]
  }

  predicate PossibleRun(calls: map<Channel, Entry>, moves: seq<Move>)
    decreases moves
  {
    moves == [] || (Possible(calls, moves[0]) && PossibleRun(Moved(calls, moves[0]), moves[1..]))
  }

  function AfterMoves(calls: map<Channel, Entry>, moves: seq<Move>): map<Channel, Entry>
    requires PossibleRun(calls, moves)
    decreases moves
  {
    if moves == [] then calls else AfterMoves(Moved(calls, moves[0]), moves[1..])
  }

  function Pending(calls: map<Channel, Entry>): set<Channel> {
    set channel | channel in calls && calls[channel].pending
  }

  /** With any number of calls: pending means unclaimed and not over, and no channel is claimed twice. */
  lemma {:induction false} RegistryKeepsInv(calls: map<Channel, Entry>, moves: seq<Move>)
    requires forall channel :: channel in calls ==> Inv(calls[channel])
    requires PossibleRun(calls, moves)
    ensures var now := AfterMoves(calls, moves);
            && (forall channel :: channel in now ==> Inv(now[channel]))
            && (forall channel :: channel in Pending(now) ==> now[channel].claims == 0 && now[channel].call.ended.None?)
    decreases moves
  {
    if moves != [] {
      var next := Moved(calls, moves[0]);
      forall channel | channel in next ensures Inv(next[channel]) {
        if moves[0].On? {
          StepKeepsInv(calls[moves[0].channel], moves[0].event);
        }
      }
      RegistryKeepsInv(next, moves[1..]);
      assert AfterMoves(calls, moves) == AfterMoves(next, moves[1..]);
    }
  }
}
