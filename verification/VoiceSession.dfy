/**
 One call's session with the PBX: whatever order its tool calls run in, one report or one completed
 transfer ends it. A report's request goes out after the lock is let go, a transfer's under it.
 */
module VoiceSession {
  import opened Sequences

  type TaskId = nat

  datatype Kind = Call | Consult

  datatype Report = Chose(option: string) | Finished | Failed(reason: string) | Accept | Decline(reason: string)

  datatype Asked = Asked(destination: Option<string>, number: Option<string>)

  /** A transfer's verdict as the bot reads it; every way it can go wrong is a `completed` of false. */
  datatype Result = Result(completed: bool, reason: string)

  datatype Session = Session(kind: Kind, reported: Option<Report>, transferred: bool, lock: Option<TaskId>)

  predicate Over(s: Session) {
    s.transferred || s.reported.Some?
  }

  predicate NamesOne(asked: Asked) {
    asked.destination.None? != asked.number.None?
  }

  /** A report that gets the lock: reserved, and about to be sent, unless the session is over. */
  function EnterReport(s: Session, report: Report): Session {
    if Over(s) then s else s.(reported := Some(report))
  }

  predicate Requests(s: Session, asked: Asked) {
    s.kind == Call && !Over(s) && NamesOne(asked)
  }

  /** A transfer that gets the lock keeps it for as long as its request is open. */
  function EnterTransfer(s: Session, asked: Asked, id: TaskId): Session {
    if Requests(s, asked) then s.(lock := Some(id)) else s
  }

  function LeaveTransfer(s: Session, completed: bool): Session {
    s.(lock := None, transferred := s.transferred || completed)
  }

  class Held {
    const kind: Kind
    var reported: Option<Report>
    var transferred: bool
    var lock: Option<TaskId>

    ghost function View(): Session
      reads this
    {
      Session(kind, reported, transferred, lock)
    }

    constructor (kind: Kind)
      ensures View() == Session(kind, None, false, None)
    {
      this.kind := kind;
      reported, transferred, lock := None, false, None;
    }

    /** `report` from its lock to its request: true when the request is to be sent. */
    method ReportLocked(report: Report) returns (send: bool)
      requires lock == None
      modifies this
      ensures View() == EnterReport(old(View()), report)
      ensures send == !Over(old(View()))
    {
      if transferred {
        return false;
      }
      if reported.Some? {
        return false;
      }
      reported := Some(report);
      return true;
    }

    /** `transfer` from its lock to its request, or to the answer it gives without one. */
    method TransferLocked(asked: Asked, id: TaskId) returns (answer: Option<Result>)
      requires lock == None
      modifies this
      ensures View() == EnterTransfer(old(View()), asked, id)
      ensures answer == None <==> Requests(old(View()), asked)
      ensures answer.Some? ==> !answer.value.completed
    {
      if kind != Call {
        return Some(Result(false, "a consult cannot transfer anyone"));
      }
      if transferred || reported.Some? {
        return Some(Result(false, "this call has already been passed on"));
      }
      if asked.destination.None? == asked.number.None? {
        return Some(Result(false, "the request named neither or both of destination and number"));
      }
      lock := Some(id);
      return None;
    }

    /** The request's answer, with which the lock is let go. */
    method TransferAnswered(result: Result)
      requires lock.Some?
      modifies this
      ensures View() == LeaveTransfer(old(View()), result.completed)
    {
      if result.completed {
        transferred := true;
      }
      lock := None;
    }
  }

  datatype Entry = ReportSent(id: TaskId) | TransferSent(id: TaskId) | TransferClosed(id: TaskId, completed: bool)

  /** Where one tool call's coroutine stands. */
  datatype Pc =
    | ReportQueued(report: Report)
    | ReportOpen(report: Report)
    | TransferQueued(asked: Asked)
    | TransferOpen(asked: Asked)
    | Returned

  datatype System = System(session: Session, tasks: map<TaskId, Pc>, log: seq<Entry>)

  /** What may happen next: a new tool call, one getting the lock, an answer, or a cancellation. */
  datatype Event =
    | CallReport(id: TaskId, report: Report)
    | CallTransfer(id: TaskId, asked: Asked)
    | Acquire(id: TaskId)
    | ReportReply(id: TaskId)
    | TransferReply(id: TaskId, completed: bool)
    | Cancel(id: TaskId)

  predicate Enabled(y: System, e: Event) {
    match e
    case CallReport(id, _) => id !in y.tasks
    case CallTransfer(id, _) => id !in y.tasks
    case Acquire(id) =>
      y.session.lock == None && id in y.tasks && (y.tasks[id].ReportQueued? || y.tasks[id].TransferQueued?)
    case ReportReply(id) => id in y.tasks && y.tasks[id].ReportOpen?
    case TransferReply(id, _) => id in y.tasks && y.tasks[id].TransferOpen?
    case Cancel(id) => id in y.tasks && y.tasks[id] != Returned
  }

  function Acquired(y: System, id: TaskId): System
    requires Enabled(y, Acquire(id))
  {
    match y.tasks[id]
    case ReportQueued(report) =>
      if Over(y.session) then y.(tasks := y.tasks[id := Returned])
      else System(EnterReport(y.session, report), y.tasks[id := ReportOpen(report)], y.log + [ReportSent(id)])
    case TransferQueued(asked) =>
      if Requests(y.session, asked)
      then System(EnterTransfer(y.session, asked, id), y.tasks[id := TransferOpen(asked)], y.log + [TransferSent(id)])
      else y.(tasks := y.tasks[id := Returned])
  }

  /** A transfer's request ends: answered, or abandoned with the tool call that asked. */
  function Closed(y: System, id: TaskId, completed: bool): System {
    System(LeaveTransfer(y.session, completed), y.tasks[id := Returned], y.log + [TransferClosed(id, completed)])
  }

  function Step(y: System, e: Event): System
    requires Enabled(y, e)
  {
    match e
    case CallReport(id, report) => y.(tasks := y.tasks[id := ReportQueued(report)])
    case CallTransfer(id, asked) => y.(tasks := y.tasks[id := TransferQueued(asked)])
    case Acquire(id) => Acquired(y, id)
    case ReportReply(id) => y.(tasks := y.tasks[id := Returned])
    case TransferReply(id, completed) => Closed(y, id, completed)
    case Cancel(id) =>
      if y.tasks[id].TransferOpen? then Closed(y, id, false) else y.(tasks := y.tasks[id := Returned])
  }

  /** Each event of the run is possible when it happens. */
  predicate Feasible(y: System, events: seq<Event>)
    decreases events
  {
    events == [] || (Enabled(y, events[0]) && Feasible(Step(y, events[0]), events[1..]))
  }

  function After(y: System, events: seq<Event>): System
    requires Feasible(y, events)
    decreases events
  {
    if events == [] then y else After(Step(y, events[0]), events[1..])
  }

  function Opened(kind: Kind): System {
    System(Session(kind, None, false, None), map[], [])
  }

  // What the log says, read on its own.

  predicate Reported(log: seq<Entry>) {
    exists i :: 0 <= i < |log| && log[i].ReportSent?
  }

  predicate Completed(log: seq<Entry>) {
    exists i :: 0 <= i < |log| && log[i].TransferClosed? && log[i].completed
  }

  /** The transfers whose request is open after `log`. */
  function Open(log: seq<Entry>): set<TaskId> {
    if log == [] then {} else OpenAfter(Open(log[..|log| - 1]), log[|log| - 1])
  }

  function OpenAfter(before: set<TaskId>, entry: Entry): set<TaskId> {
    match entry
    case ReportSent(_) => before
    case TransferSent(id) => before + {id}
    case TransferClosed(id, _) => before - {id}
  }

  /**
   Nothing happens after a report or a completed transfer; before that, a request of either kind goes out
   only with no transfer open, and what closes is open.
   */
  predicate Fits(log: seq<Entry>, entry: Entry) {
    && !Completed(log) && !Reported(log)
    && if entry.TransferClosed? then entry.id in Open(log) else Open(log) == {}
  }

  ghost predicate Orderly(log: seq<Entry>) {
    forall i :: 0 <= i < |log| ==> Fits(log[..i], log[i])
  }

  ghost predicate Inv(y: System) {
    && Orderly(y.log)
    && (y.session.reported.Some? <==> Reported(y.log))
    && (y.session.transferred <==> Completed(y.log))
    && !(y.session.reported.Some? && y.session.transferred)
    && Open(y.log) == (if y.session.lock.Some? then {y.session.lock.value} else {})
    && (y.session.lock.Some? ==> !Over(y.session))
    && (forall id :: id in y.tasks && y.tasks[id].TransferOpen? <==> y.session.lock == Some(id))
    && (y.session.kind == Consult ==> forall i :: 0 <= i < |y.log| ==> !y.log[i].TransferSent?)
  }

  lemma LogGrows(log: seq<Entry>, entry: Entry)
    requires Orderly(log) && Fits(log, entry)
    ensures Orderly(log + [entry])
    ensures Reported(log + [entry]) <==> entry.ReportSent?
    ensures Completed(log + [entry]) <==> entry.TransferClosed? && entry.completed
    ensures Open(log + [entry]) == OpenAfter(Open(log), entry)
  {
    var grown := log + [entry];
    assert grown[..|log|] == log && grown[|log|] == entry;
    forall i | 0 <= i < |grown| ensures Fits(grown[..i], grown[i]) {
      if i < |log| {
        assert grown[..i] == log[..i] && log[i] == grown[i];
      }
    }
    forall i | 0 <= i < |log| ensures !Ends(grown[i]) {
      assert grown[i] == log[i];
    }
  }

  lemma ReportSentKeepsInv(y: System, id: TaskId, report: Report)
    requires Inv(y) && id in y.tasks && !y.tasks[id].TransferOpen? && y.session.lock == None && !Over(y.session)
    ensures Inv(System(EnterReport(y.session, report), y.tasks[id := ReportOpen(report)], y.log + [ReportSent(id)]))
  {
    LogGrows(y.log, ReportSent(id));
  }

  lemma TransferSentKeepsInv(y: System, id: TaskId, asked: Asked)
    requires Inv(y) && id in y.tasks && y.session.lock == None && Requests(y.session, asked)
    ensures Inv(System(EnterTransfer(y.session, asked, id), y.tasks[id := TransferOpen(asked)], y.log + [TransferSent(id)]))
  {
    LogGrows(y.log, TransferSent(id));
  }

  lemma AcquireKeepsInv(y: System, id: TaskId)
    requires Inv(y) && Enabled(y, Acquire(id))
    ensures Inv(Acquired(y, id))
  {
    match y.tasks[id] {
      case ReportQueued(report) =>
        if !Over(y.session) {
          ReportSentKeepsInv(y, id, report);
        }
      case TransferQueued(asked) =>
        if Requests(y.session, asked) {
          TransferSentKeepsInv(y, id, asked);
        }
    }
  }

  lemma CloseKeepsInv(y: System, id: TaskId, completed: bool)
    requires Inv(y) && id in y.tasks && y.tasks[id].TransferOpen?
    ensures Inv(Closed(y, id, completed))
  {
    assert y.session.lock == Some(id) && Open(y.log) == {id};
    LogGrows(y.log, TransferClosed(id, completed));
    assert Open(Closed(y, id, completed).log) == {};
  }

  lemma StepKeepsInv(y: System, e: Event)
    requires Inv(y) && Enabled(y, e)
    ensures Inv(Step(y, e)) && Step(y, e).session.kind == y.session.kind
  {
    if e.Acquire? {
      AcquireKeepsInv(y, e.id);
    } else if e.TransferReply? {
      CloseKeepsInv(y, e.id, e.completed);
    } else if e.Cancel? && y.tasks[e.id].TransferOpen? {
      CloseKeepsInv(y, e.id, false);
    } else {
      assert Step(y, e).log == y.log && Step(y, e).session == y.session;
    }
  }

  lemma {:induction false} RunKeepsInv(y: System, events: seq<Event>)
    requires Inv(y) && Feasible(y, events)
    ensures Inv(After(y, events)) && After(y, events).session.kind == y.session.kind
    decreases events
  {
    if events != [] {
      StepKeepsInv(y, events[0]);
      RunKeepsInv(Step(y, events[0]), events[1..]);
    }
  }

  /**
   Over every interleaving of tool calls, answers and cancellations: at most one report is sent, and after
   it nothing is; transfer requests never overlap; at most one completes, and after it nothing is sent;
   and the session is never both reported on and transferred.
   */
  lemma OneEnding(kind: Kind, events: seq<Event>)
    requires Feasible(Opened(kind), events)
    ensures var y := After(Opened(kind), events);
            && Orderly(y.log) && |Open(y.log)| <= 1
            && !(y.session.reported.Some? && y.session.transferred)
            && (y.session.reported.Some? <==> Reported(y.log))
            && (y.session.transferred <==> Completed(y.log))
            && (kind == Consult ==> forall i :: 0 <= i < |y.log| ==> !y.log[i].TransferSent?)
    ensures var log := After(Opened(kind), events).log;
            forall i :: 0 <= i < |log| && Ends(log[i]) ==> i == |log| - 1
  {
    RunKeepsInv(Opened(kind), events);
    var log := After(Opened(kind), events).log;
    forall i | 0 <= i < |log| - 1 ensures !Ends(log[i]) {
      assert log[..i + 1][i] == log[i];
      assert Fits(log[..i + 1], log[i + 1]);
    }
  }

  /** The entries that end a session: a report sent, or a transfer completed. */
  predicate Ends(entry: Entry) {
    entry.ReportSent? || (entry.TransferClosed? && entry.completed)
  }

  // What goes out, read from the tool calls and the log alone.

  lemma {:induction false} OneMoreEvent(y: System, events: seq<Event>, e: Event)
    requires Feasible(y, events + [e])
    ensures Feasible(y, events) && Enabled(After(y, events), e)
    ensures After(y, events + [e]) == Step(After(y, events), e)
    decreases events
  {
    var more := events + [e];
    if events == [] {
      assert more[0] == e && more[1..] == [];
    } else {
      assert more[0] == events[0] && more[1..] == events[1..] + [e];
      OneMoreEvent(Step(y, events[0]), events[1..], e);
    }
  }

  function CallOf(e: Event, id: TaskId): Option<Event> {
    if (e.CallReport? || e.CallTransfer?) && e.id == id then Some(e) else None
  }

  /** What tool call `id` was made to do. */
  function MadeBy(events: seq<Event>, id: TaskId): Option<Event> {
    if events == [] then None
    else if MadeBy(events[..|events| - 1], id).Some? then MadeBy(events[..|events| - 1], id)
    else CallOf(events[|events| - 1], id)
  }

  lemma MadeSnoc(events: seq<Event>, e: Event, id: TaskId)
    ensures MadeBy(events + [e], id) == if MadeBy(events, id).Some? then MadeBy(events, id) else CallOf(e, id)
  {
    assert (events + [e])[..|events|] == events;
  }

  /** A tool call that is not over does what it was made to. */
  predicate Doing(pc: Pc, made: Option<Event>, id: TaskId) {
    match pc
    case ReportQueued(report) => made == Some(CallReport(id, report))
    case ReportOpen(report) => made == Some(CallReport(id, report))
    case TransferQueued(asked) => made == Some(CallTransfer(id, asked))
    case TransferOpen(asked) => made == Some(CallTransfer(id, asked))
    case Returned => made.Some?
  }

  /** The report that went out, if one did. */
  function SentReport(log: seq<Entry>, events: seq<Event>): Option<Report> {
    if log == [] then None
    else
      var last := log[|log| - 1];
      if last.ReportSent? && MadeBy(events, last.id).Some? && MadeBy(events, last.id).value.CallReport?
      then Some(MadeBy(events, last.id).value.report) else SentReport(log[..|log| - 1], events)
  }

  ghost predicate Told(y: System, events: seq<Event>) {
    && (forall id :: if id in y.tasks then Doing(y.tasks[id], MadeBy(events, id), id) else MadeBy(events, id).None?)
    && y.session.reported == SentReport(y.log, events)
    && (forall i :: 0 <= i < |y.log| ==> y.log[i].id in y.tasks)
  }

  lemma {:induction false} SentReportStays(log: seq<Entry>, events: seq<Event>, e: Event)
    requires forall i :: 0 <= i < |log| ==> MadeBy(events, log[i].id).Some?
    ensures SentReport(log, events + [e]) == SentReport(log, events)
  {
    if log != [] {
      var n := |log| - 1;
      MadeSnoc(events, e, log[n].id);
      SentReportStays(log[..n], events, e);
    }
  }

  /** Exactly one of a destination and a number. */
  predicate OneTarget(asked: Asked) {
    (asked.destination.Some? && asked.number.None?) || (asked.destination.None? && asked.number.Some?)
  }

  /** What a tool call that gets the lock sends: nothing once a report is out or a transfer has completed. */
  function Sends(kind: Kind, log: seq<Entry>, made: Event): seq<Entry>
    requires made.CallReport? || made.CallTransfer?
  {
    if exists i :: 0 <= i < |log| && Ends(log[i]) then []
    else if made.CallReport? then [ReportSent(made.id)]
    else if kind == Call && OneTarget(made.asked) then [TransferSent(made.id)] else []
  }

  lemma EndedIff(y: System)
    requires Inv(y)
    ensures Over(y.session) <==> exists i :: 0 <= i < |y.log| && Ends(y.log[i])
  {
    if Reported(y.log) {
      var i :| 0 <= i < |y.log| && y.log[i].ReportSent?;
      assert Ends(y.log[i]);
    }
    if Completed(y.log) {
      var i :| 0 <= i < |y.log| && y.log[i].TransferClosed? && y.log[i].completed;
      assert Ends(y.log[i]);
    }
  }

  lemma AcquireSends(y: System, events: seq<Event>, id: TaskId)
    requires Inv(y) && Told(y, events) && Enabled(y, Acquire(id))
    ensures var made := MadeBy(events, id);
      && made.Some? && made.value.id == id && (made.value.CallReport? || made.value.CallTransfer?)
      && Step(y, Acquire(id)).log == y.log + Sends(y.session.kind, y.log, made.value)
  {
    EndedIff(y);
    assert Doing(y.tasks[id], MadeBy(events, id), id);
    assert y.log + [] == y.log;
  }

  lemma DoingStep(y: System, events: seq<Event>, e: Event, id: TaskId)
    requires Told(y, events) && Enabled(y, e)
    ensures var tasks, made := Step(y, e).tasks, MadeBy(events + [e], id);
      if id in tasks then Doing(tasks[id], made, id) else made.None?
  {
    MadeSnoc(events, e, id);
    if id in y.tasks {
      assert Doing(y.tasks[id], MadeBy(events, id), id);
    }
  }

  /** The log grows by one entry at most, of the tool call the event is about. */
  lemma LogStep(y: System, e: Event)
    requires Enabled(y, e)
    ensures var log := Step(y, e).log; log == y.log || (log == y.log + [log[|y.log|]] && log[|y.log|].id == e.id && e.id in y.tasks)
  {
  }

  lemma SentSnoc(log: seq<Entry>, last: Entry, events: seq<Event>)
    ensures SentReport(log + [last], events)
         == if last.ReportSent? && MadeBy(events, last.id).Some? && MadeBy(events, last.id).value.CallReport?
            then Some(MadeBy(events, last.id).value.report) else SentReport(log, events)
  {
    assert (log + [last])[..|log|] == log;
  }

  /** The session's report changes only with one that is sent. */
  lemma ReportMoves(y: System, e: Event)
    requires Enabled(y, e)
    ensures var next := Step(y, e);
      if next.log != y.log && next.log[|y.log|].ReportSent?
      then y.tasks[e.id].ReportQueued? && next.session.reported == Some(y.tasks[e.id].report)
      else next.session.reported == y.session.reported
  {
  }

  lemma ReportStep(y: System, events: seq<Event>, e: Event)
    requires Told(y, events) && Enabled(y, e)
    ensures Step(y, e).session.reported == SentReport(Step(y, e).log, events + [e])
  {
    forall i | 0 <= i < |y.log| ensures MadeBy(events, y.log[i].id).Some? {
      assert Doing(y.tasks[y.log[i].id], MadeBy(events, y.log[i].id), y.log[i].id);
    }
    SentReportStays(y.log, events, e);
    LogStep(y, e);
    ReportMoves(y, e);
    var next := Step(y, e);
    if next.log != y.log {
      var last := next.log[|y.log|];
      assert Doing(y.tasks[e.id], MadeBy(events, e.id), e.id);
      MadeSnoc(events, e, e.id);
      SentSnoc(y.log, last, events + [e]);
    }
  }

  lemma ToldStep(y: System, events: seq<Event>, e: Event)
    requires Inv(y) && Told(y, events) && Enabled(y, e)
    ensures Told(Step(y, e), events + [e])
  {
    var next, more := Step(y, e), events + [e];
    forall id ensures if id in next.tasks then Doing(next.tasks[id], MadeBy(more, id), id) else MadeBy(more, id).None? {
      DoingStep(y, events, e, id);
    }
    ReportStep(y, events, e);
    LogStep(y, e);
  }

  lemma {:induction false} RunIsTold(kind: Kind, events: seq<Event>)
    requires Feasible(Opened(kind), events)
    ensures var y := After(Opened(kind), events); Inv(y) && Told(y, events) && y.session.kind == kind
    decreases |events|
  {
    RunKeepsInv(Opened(kind), events);
    if events != [] {
      var before, e := events[..|events| - 1], events[|events| - 1];
      assert before + [e] == events;
      OneMoreEvent(Opened(kind), before, e);
      RunIsTold(kind, before);
      ToldStep(After(Opened(kind), before), before, e);
    }
  }

  /**
   Over every run: a tool call that gets the lock sends its request exactly when nothing has ended the session, and a
   transfer's only from a call and to one target; and the report the session holds is the one that was sent.
   */
  lemma WhatGoesOut(kind: Kind, events: seq<Event>, id: TaskId)
    requires Feasible(Opened(kind), events)
    ensures var y := After(Opened(kind), events);
      && y.session.reported == SentReport(y.log, events)
      && (Enabled(y, Acquire(id)) ==>
            var made := MadeBy(events, id);
            && made.Some? && made.value.id == id && (made.value.CallReport? || made.value.CallTransfer?)
            && Step(y, Acquire(id)).log == y.log + Sends(kind, y.log, made.value))
  {
    RunIsTold(kind, events);
    if Enabled(After(Opened(kind), events), Acquire(id)) {
      AcquireSends(After(Opened(kind), events), events, id);
    }
  }

  /** A transfer's request closes as it is answered, and as not completed if its tool call is cut short. */
  lemma WhatIsClosed(kind: Kind, events: seq<Event>, e: Event)
    requires Feasible(Opened(kind), events) && Enabled(After(Opened(kind), events), e) && !e.Acquire?
    ensures var y := After(Opened(kind), events);
      Step(y, e).log == y.log + if e.TransferReply? then [TransferClosed(e.id, e.completed)]
                                else if e.Cancel? && e.id in Open(y.log) then [TransferClosed(e.id, false)] else []
  {
    var y := After(Opened(kind), events);
    RunKeepsInv(Opened(kind), events);
    assert y.log + [] == y.log;
    if e.Cancel? {
      assert y.tasks[e.id].TransferOpen? <==> y.session.lock == Some(e.id);
    }
  }
}
