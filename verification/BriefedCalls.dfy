/**
 Transfers a briefed bot asks the PBX for. The tool call that asks may be cut short while its request goes on;
 the request's answer then acts on the caller, on the hold and on the model by itself.
 */
module BriefedCalls {
  import opened Sequences
  import opened VoiceSession
  import CallerSessions

  type BriefId = nat
  type ToolId = nat

  /** One socket's call: whether a transfer tool call is in progress, and whether the caller is kept from the model. */
  datatype Brief = Brief(pending: bool, holding: bool)

  function Asking(b: Brief): Brief {
    b.(pending := true)
  }

  function Launched(b: Brief): Brief {
    b.(holding := true)
  }

  /** A completed transfer leaves the hold on: the caller is gone. */
  function AnsweredBrief(b: Brief, completed: bool): Brief {
    if completed then b else b.(holding := false)
  }

  class TransferHold {
    var holding: bool

    constructor ()
      ensures !holding
    {
      holding := false;
    }

    method Engage()
      modifies this
      ensures holding
    {
      holding := true;
    }

    method Release()
      modifies this
      ensures !holding
    {
      holding := false;
    }
  }

  class BriefedCall {
    const sessions: CallerSessions.Registry
    const held: CallerSessions.HeldSession
    const hold: TransferHold
    var transferPending: bool

    ghost function View(): Brief
      reads this, hold
    {
      Brief(transferPending, hold.holding)
    }

    constructor (sessions: CallerSessions.Registry, held: CallerSessions.HeldSession)
      ensures this.sessions == sessions && this.held == held && fresh(hold) && View() == Brief(false, false)
    {
      this.sessions, this.held, transferPending := sessions, held, false;
      hold := new TransferHold();
    }

    /** The tool's own checks, once what is asked for fits the brief. */
    method Begin(session: Session) returns (accepted: bool)
      modifies this
      ensures accepted == (!Over(session) && !old(transferPending))
      ensures View() == if accepted then Asking(old(View())) else old(View())
    {
      if session.transferred || session.reported.Some? || transferPending {
        return false;
      }
      transferPending := true;
      return true;
    }

    /** The handover line has played: the hold goes on, and the request with it. */
    method Launch(task: CallerSessions.TaskId)
      modifies hold, held
      ensures View() == Launched(old(View()))
      ensures held.View() == CallerSessions.Transferring(old(held.View()), task)
    {
      hold.Engage();
      sessions.RunTransfer(held, task);
    }

    /** The request's answer, wherever the caller is by then: they are let go of, or the model is told. */
    method Answer(result: Result, note: string) returns (delivered: Option<string>)
      modifies hold, sessions, held
      ensures View() == AnsweredBrief(old(View()), result.completed)
      ensures result.completed ==> held.token !in sessions.held || sessions.held[held.token] != held
      ensures !result.completed ==> sessions.held == old(sessions.held)
      ensures held.View() == if result.completed then old(held.View()).(expiry := CallerSessions.Idle)
                             else CallerSessions.Told(old(held.View()), note)
      ensures delivered == if !result.completed && old(held.worker).Some? then Some(note) else None
    {
      if result.completed {
        sessions.Release(held);
        return None;
      }
      hold.Release();
      delivered := sessions.Tell(held, note);
    }

    /** `finally`: returned or cancelled, the next transfer may be asked for. */
    method ToolEnds()
      modifies this
      ensures View() == old(View()).(pending := false)
    {
      transferPending := false;
    }
  }

  // Every interleaving of tool calls and requests, over every socket of one session.

  datatype Stage = Queued | Requested | Answered(completed: bool)

  datatype Request = Request(brief: BriefId, stage: Stage)

  datatype Tool = Announcing(brief: BriefId) | Waiting(brief: BriefId, request: TaskId)

  /** The session, its sockets' calls, and who was told a transfer failed; `kept` is the caller's registry entry. */
  datatype Desk = Desk(session: Session, briefs: map<BriefId, Brief>, tools: map<ToolId, Tool>,
                       requests: map<TaskId, Request>, kept: bool, told: seq<TaskId>)

  datatype Move =
    | NewSocket(brief: BriefId)
    | SocketCloses(brief: BriefId)
    | Ask(tool: ToolId, brief: BriefId)
    | Launch(tool: ToolId, request: TaskId)
    | GetLock(request: TaskId, asked: Asked)
    | Reply(request: TaskId, completed: bool)
    | ToolReturns(tool: ToolId)
    | ToolCancelled(tool: ToolId)
    | ReserveReport(report: Report)
    | ReportDone

  predicate Live(d: Desk, request: TaskId) {
    request in d.requests && !d.requests[request].stage.Answered?
  }

  predicate Possible(d: Desk, m: Move) {
    match m
    case NewSocket(brief) => brief !in d.briefs
    case SocketCloses(brief) => brief in d.briefs
    case Ask(tool, brief) => tool !in d.tools && brief in d.briefs && !d.briefs[brief].pending && !Over(d.session)
    case Launch(tool, request) =>
      tool in d.tools && d.tools[tool].Announcing? && d.tools[tool].brief in d.briefs && request !in d.requests
    case GetLock(request, _) =>
      d.session.lock == None && Live(d, request) && d.requests[request].stage == Queued
      && d.requests[request].brief in d.briefs
    case Reply(request, _) =>
      Live(d, request) && d.requests[request].stage == Requested && d.requests[request].brief in d.briefs
    case ToolReturns(tool) =>
      tool in d.tools && d.tools[tool].Waiting? && d.tools[tool].brief in d.briefs
      && d.tools[tool].request in d.requests && !Live(d, d.tools[tool].request)
    case ToolCancelled(tool) => tool in d.tools && d.tools[tool].brief in d.briefs
    case ReserveReport(_) => d.session.lock == None && !Over(d.session)
    case ReportDone => d.session.reported.Some?
  }

  function ToolOver(d: Desk, tool: ToolId): Desk
    requires tool in d.tools && d.tools[tool].brief in d.briefs
  {
    var brief := d.tools[tool].brief;
    d.(tools := d.tools - {tool}, briefs := d.briefs[brief := d.briefs[brief].(pending := false)])
  }

  function Settle(d: Desk, request: TaskId, completed: bool): Desk
    requires request in d.requests && d.requests[request].brief in d.briefs
  {
    var brief := d.requests[request].brief;
    d.(requests := d.requests[request := Request(brief, Answered(completed))],
       briefs := d.briefs[brief := AnsweredBrief(d.briefs[brief], completed)],
       kept := d.kept && !completed,
       told := d.told + if completed then [] else [request])
  }

  function Next(d: Desk, m: Move): Desk
    requires Possible(d, m)
  {
    match m
    case NewSocket(brief) => d.(briefs := d.briefs[brief := Brief(false, false)])
    case SocketCloses(_) => d
    case Ask(tool, brief) =>
      d.(tools := d.tools[tool := Announcing(brief)], briefs := d.briefs[brief := Asking(d.briefs[brief])])
    case Launch(tool, request) =>
      var brief := d.tools[tool].brief;
      d.(tools := d.tools[tool := Waiting(brief, request)],
         briefs := d.briefs[brief := Launched(d.briefs[brief])],
         requests := d.requests[request := Request(brief, Queued)])
    case GetLock(request, asked) =>
      if Requests(d.session, asked)
      then d.(session := EnterTransfer(d.session, asked, request),
              requests := d.requests[request := d.requests[request].(stage := Requested)])
      else Settle(d, request, false)
    case Reply(request, completed) => Settle(d, request, completed).(session := LeaveTransfer(d.session, completed))
    case ToolReturns(tool) => ToolOver(d, tool)
    case ToolCancelled(tool) => ToolOver(d, tool)
    case ReserveReport(report) => d.(session := EnterReport(d.session, report))
    case ReportDone => d.(kept := false)
  }

  predicate PossibleRun(d: Desk, moves: seq<Move>)
    decreases moves
  {
    moves == [] || (Possible(d, moves[0]) && PossibleRun(Next(d, moves[0]), moves[1..]))
  }

  function AfterRun(d: Desk, moves: seq<Move>): Desk
    requires PossibleRun(d, moves)
    decreases moves
  {
    if moves == [] then d else AfterRun(Next(d, moves[0]), moves[1..])
  }

  const OPENED := Desk(Session(Call, None, false, None), map[], map[], map[], true, [])

  // Requests: whatever happens to the tool calls.

  predicate InRange(d: Desk) {
    && (forall t :: t in d.tools ==> d.tools[t].brief in d.briefs)
    && (forall t :: t in d.tools && d.tools[t].Waiting? ==>
          d.tools[t].request in d.requests && d.requests[d.tools[t].request].brief == d.tools[t].brief)
    && (forall r :: r in d.requests ==> d.requests[r].brief in d.briefs)
  }

  predicate CompletedBy(d: Desk, r: TaskId) {
    r in d.requests && d.requests[r].stage == Answered(true)
  }

  predicate FailedBy(d: Desk, r: TaskId) {
    r in d.requests && d.requests[r].stage == Answered(false)
  }

  ghost predicate Locked(d: Desk) {
    && (forall r :: (r in d.requests && d.requests[r].stage == Requested) <==> d.session.lock == Some(r))
    && (d.session.lock.Some? ==> !Over(d.session))
    && !(d.session.transferred && d.session.reported.Some?)
  }

  ghost predicate OneCompletes(d: Desk) {
    && (forall r :: CompletedBy(d, r) ==> d.session.transferred && !d.kept)
    && (forall r, q :: CompletedBy(d, r) && CompletedBy(d, q) ==> r == q)
    && (d.session.transferred ==> exists r :: CompletedBy(d, r))
  }

  /** The model was told of each transfer that failed, once, and of no other. */
  ghost predicate EachToldOnce(d: Desk) {
    && (forall r :: r in d.told <==> FailedBy(d, r))
    && (forall i, j :: 0 <= i < j < |d.told| ==> d.told[i] != d.told[j])
  }

  ghost predicate Inv(d: Desk) {
    InRange(d) && Locked(d) && OneCompletes(d) && EachToldOnce(d)
  }

  lemma SettleToldOnce(d: Desk, request: TaskId, completed: bool)
    requires InRange(d) && EachToldOnce(d) && Live(d, request)
    ensures EachToldOnce(Settle(d, request, completed))
  {
    var after := Settle(d, request, completed);
    assert !FailedBy(d, request);
    forall r ensures r in after.told <==> FailedBy(after, r) {
      assert r in after.told <==> r in d.told || (!completed && r == request);
      assert r != request ==> (FailedBy(after, r) <==> FailedBy(d, r));
    }
  }

  lemma ReplyKeepsInv(d: Desk, request: TaskId, completed: bool)
    requires Inv(d) && Possible(d, Reply(request, completed))
    ensures Inv(Next(d, Reply(request, completed)))
  {
    var after := Next(d, Reply(request, completed));
    SettleToldOnce(d, request, completed);
    assert EachToldOnce(after);
    assert forall r :: r != request ==> (CompletedBy(after, r) <==> CompletedBy(d, r));
    assert CompletedBy(after, request) <==> completed;
  }

  lemma RefusedKeepsInv(d: Desk, request: TaskId)
    requires Inv(d) && Live(d, request) && d.requests[request].stage == Queued
    ensures Inv(Settle(d, request, false))
  {
    var after := Settle(d, request, false);
    SettleToldOnce(d, request, false);
    assert forall r :: CompletedBy(after, r) <==> CompletedBy(d, r);
  }

  /** A move that answers no request and is not a report's answer leaves every answer as it was. */
  lemma QuietKeepsInv(d: Desk, after: Desk)
    requires Inv(d) && InRange(after) && Locked(after)
    requires after.session.transferred == d.session.transferred && after.told == d.told && (after.kept ==> d.kept)
    requires forall r :: (CompletedBy(after, r) <==> CompletedBy(d, r)) && (FailedBy(after, r) <==> FailedBy(d, r))
    ensures Inv(after)
  {
  }

  lemma ToolMoveKeepsInv(d: Desk, m: Move)
    requires Inv(d) && Possible(d, m) && (m.Ask? || m.Launch? || m.ToolReturns? || m.ToolCancelled?)
    ensures Inv(Next(d, m))
  {
    QuietKeepsInv(d, Next(d, m));
  }

  lemma MoveKeepsInv(d: Desk, m: Move)
    requires Inv(d) && Possible(d, m)
    ensures Inv(Next(d, m))
  {
    match m
    case Reply(request, completed) => ReplyKeepsInv(d, request, completed);
    case GetLock(request, asked) =>
      if Requests(d.session, asked) {
        QuietKeepsInv(d, Next(d, m));
      } else {
        RefusedKeepsInv(d, request);
      }
    case NewSocket(_) => QuietKeepsInv(d, Next(d, m));
    case SocketCloses(_) =>
    case ReserveReport(_) => QuietKeepsInv(d, Next(d, m));
    case ReportDone => QuietKeepsInv(d, Next(d, m));
    case _ => ToolMoveKeepsInv(d, m);
  }

  lemma {:induction false} RunKeepsInv(d: Desk, moves: seq<Move>)
    requires Inv(d) && PossibleRun(d, moves)
    ensures Inv(AfterRun(d, moves))
    decreases moves
  {
    if moves != [] {
      MoveKeepsInv(d, moves[0]);
      RunKeepsInv(Next(d, moves[0]), moves[1..]);
    }
  }

  /**
   Over every interleaving, cancelled tool calls included: at most one transfer completes, and then the caller is
   let go of; the model is told of each one that failed exactly once; and no request is out once the session is over.
   */
  lemma EveryRequestIsAnsweredFor(moves: seq<Move>)
    requires PossibleRun(OPENED, moves)
    ensures var d := AfterRun(OPENED, moves);
            && OneCompletes(d) && EachToldOnce(d)
            && (Over(d.session) ==> forall r :: r in d.requests ==> d.requests[r].stage != Requested)
  {
    assert !CompletedBy(OPENED, 0);
    RunKeepsInv(OPENED, moves);
  }

  // Tool calls and their requests, as long as none is cut short while its request is out.

  predicate Gentle(d: Desk, m: Move) {
    m.ToolCancelled? && m.tool in d.tools && d.tools[m.tool].Waiting? ==> !Live(d, d.tools[m.tool].request)
  }

  predicate GentleRun(d: Desk, moves: seq<Move>)
    requires PossibleRun(d, moves)
    decreases moves
  {
    moves == [] || (Gentle(d, moves[0]) && GentleRun(Next(d, moves[0]), moves[1..]))
  }

  /** A request of this call is out, or has completed. */
  ghost predicate InTransfer(d: Desk, b: BriefId) {
    exists r :: OutFor(d, b, r)
  }

  predicate OutFor(d: Desk, b: BriefId, r: TaskId) {
    r in d.requests && d.requests[r].brief == b && d.requests[r].stage != Answered(false)
  }

  predicate AsksFor(d: Desk, t: ToolId, b: BriefId) {
    t in d.tools && d.tools[t].brief == b
  }

  /** The tool call has not had its answer yet. */
  predicate StillAsking(d: Desk, t: ToolId) {
    t in d.tools && (d.tools[t].Waiting? ==> Live(d, d.tools[t].request))
  }

  ghost predicate OneTool(d: Desk) {
    && (forall t, b :: AsksFor(d, t, b) ==> b in d.briefs && d.briefs[b].pending)
    && (forall t, u, b :: AsksFor(d, t, b) && AsksFor(d, u, b) ==> t == u)
    && (forall b :: b in d.briefs && d.briefs[b].pending ==> exists t :: AsksFor(d, t, b))
  }

  /** A request that is out is the one its call's tool waits for. */
  ghost predicate ToolWaits(d: Desk) {
    forall r :: Live(d, r) ==> exists t :: t in d.tools && d.tools[t] == Waiting(d.requests[r].brief, r)
  }

  /** A call whose tool still asks has no completed transfer behind it. */
  ghost predicate Fresh(d: Desk) {
    forall t, r :: StillAsking(d, t) && CompletedBy(d, r) ==> d.requests[r].brief != d.tools[t].brief
  }

  ghost predicate ToolInv(d: Desk) {
    InRange(d) && OneTool(d) && ToolWaits(d) && Fresh(d)
  }

  /** With one tool to a call, a call has at most one request out, and none completed beside it. */
  lemma OnlyOneOut(d: Desk, r: TaskId, q: TaskId)
    requires InRange(d) && OneTool(d) && ToolWaits(d) && Fresh(d)
    requires Live(d, r) && OutFor(d, d.requests[r].brief, q)
    ensures q == r
  {
    var b := d.requests[r].brief;
    var t :| t in d.tools && d.tools[t] == Waiting(b, r);
    assert AsksFor(d, t, b) && StillAsking(d, t) && !CompletedBy(d, q);
    var u :| u in d.tools && d.tools[u] == Waiting(b, q);
    assert AsksFor(d, u, b);
  }

  lemma SettleKeepsFresh(d: Desk, request: TaskId, completed: bool)
    requires InRange(d) && OneTool(d) && ToolWaits(d) && Fresh(d) && Live(d, request)
    ensures Fresh(Settle(d, request, completed))
  {
    var after, mine := Settle(d, request, completed), d.requests[request].brief;
    var t :| t in d.tools && d.tools[t] == Waiting(mine, request);
    assert AsksFor(d, t, mine) && !StillAsking(after, t);
    forall u, r | StillAsking(after, u) && CompletedBy(after, r) ensures after.requests[r].brief != after.tools[u].brief {
      assert StillAsking(d, u) && AsksFor(d, u, d.tools[u].brief);
      assert r != request ==> CompletedBy(d, r);
    }
  }

  lemma SettleTools(d: Desk, request: TaskId, completed: bool)
    requires ToolInv(d) && Live(d, request)
    ensures ToolInv(Settle(d, request, completed))
  {
    var after := Settle(d, request, completed);
    assert forall t, b :: AsksFor(after, t, b) <==> AsksFor(d, t, b);
    SettleKeepsFresh(d, request, completed);
    WaitersStay(d, after);
  }

  lemma AskTools(d: Desk, tool: ToolId, brief: BriefId)
    requires Inv(d) && ToolInv(d) && Possible(d, Ask(tool, brief))
    ensures ToolInv(Next(d, Ask(tool, brief)))
  {
    var after := Next(d, Ask(tool, brief));
    assert AsksFor(after, tool, brief);
    assert forall t, b :: t != tool ==> (AsksFor(after, t, b) <==> AsksFor(d, t, b));
    assert forall b, r :: OutFor(after, b, r) <==> OutFor(d, b, r);
    assert forall r :: CompletedBy(after, r) <==> CompletedBy(d, r);
    WaitersStay(d, after);
  }

  /** No tool that waits for a request is gone. */
  lemma WaitersStay(d: Desk, after: Desk)
    requires ToolWaits(d)
    requires forall t :: t in d.tools && d.tools[t].Waiting? && Live(d, d.tools[t].request) ==>
               t in after.tools && after.tools[t] == d.tools[t]
    requires forall r :: Live(after, r) ==> Live(d, r) && after.requests[r].brief == d.requests[r].brief
    ensures ToolWaits(after)
  {
    forall r | Live(after, r) ensures exists t :: t in after.tools && after.tools[t] == Waiting(after.requests[r].brief, r) {
      var t :| t in d.tools && d.tools[t] == Waiting(d.requests[r].brief, r);
      assert after.tools[t] == d.tools[t];
    }
  }

  lemma LaunchKeepsFresh(d: Desk, tool: ToolId, request: TaskId)
    requires InRange(d) && Fresh(d) && Possible(d, Launch(tool, request))
    ensures Fresh(Next(d, Launch(tool, request)))
  {
    var after := Next(d, Launch(tool, request));
    assert forall r :: CompletedBy(after, r) ==> CompletedBy(d, r);
    assert forall t :: StillAsking(after, t) ==> StillAsking(d, t);
  }

  lemma LaunchTools(d: Desk, tool: ToolId, request: TaskId)
    requires ToolInv(d) && Possible(d, Launch(tool, request))
    ensures ToolInv(Next(d, Launch(tool, request)))
  {
    var after := Next(d, Launch(tool, request));
    assert forall t, b :: AsksFor(after, t, b) <==> AsksFor(d, t, b);
    LaunchKeepsFresh(d, tool, request);
    LaunchWaits(d, tool, request);
  }

  lemma LaunchWaits(d: Desk, tool: ToolId, request: TaskId)
    requires ToolWaits(d) && Possible(d, Launch(tool, request))
    ensures ToolWaits(Next(d, Launch(tool, request)))
  {
    var after := Next(d, Launch(tool, request));
    assert after.tools[tool] == Waiting(d.tools[tool].brief, request);
    forall r | Live(after, r) ensures exists t :: t in after.tools && after.tools[t] == Waiting(after.requests[r].brief, r) {
      if r != request {
        assert Live(d, r);
        var t :| t in d.tools && d.tools[t] == Waiting(d.requests[r].brief, r);
        assert after.tools[t] == d.tools[t];
      }
    }
  }

  lemma ToolOverTools(d: Desk, tool: ToolId)
    requires ToolInv(d) && tool in d.tools && d.tools[tool].brief in d.briefs
    requires d.tools[tool].Waiting? ==> !Live(d, d.tools[tool].request)
    ensures ToolInv(ToolOver(d, tool))
  {
    var after, brief := ToolOver(d, tool), d.tools[tool].brief;
    assert AsksFor(d, tool, brief);
    assert forall t, b :: AsksFor(after, t, b) <==> AsksFor(d, t, b) && t != tool;
    assert forall b, r :: OutFor(after, b, r) <==> OutFor(d, b, r);
    assert forall t :: StillAsking(after, t) ==> StillAsking(d, t);
    WaitersStay(d, after);
  }

  /** A move that changes no tool, and no request but to send it. */
  lemma SameTools(d: Desk, after: Desk)
    requires ToolInv(d) && after.tools == d.tools && after.requests.Keys == d.requests.Keys
    requires forall r :: r in d.requests ==> after.requests[r].brief == d.requests[r].brief
    requires forall r :: r in d.requests ==> (after.requests[r].stage == d.requests[r].stage || (Live(d, r) && Live(after, r)))
    requires d.briefs.Keys <= after.briefs.Keys && forall b :: b in d.briefs ==> after.briefs[b] == d.briefs[b]
    requires forall b :: b in after.briefs && b !in d.briefs ==> after.briefs[b] == Brief(false, false)
    ensures ToolInv(after)
  {
    assert forall t, b :: AsksFor(after, t, b) <==> AsksFor(d, t, b);
    assert forall b, r :: OutFor(after, b, r) <==> OutFor(d, b, r);
    assert forall r :: Live(after, r) <==> Live(d, r);
    assert forall t :: StillAsking(after, t) <==> StillAsking(d, t);
    assert forall r :: CompletedBy(after, r) <==> CompletedBy(d, r);
  }

  lemma MoveKeepsTools(d: Desk, m: Move)
    requires Inv(d) && ToolInv(d) && Possible(d, m) && Gentle(d, m)
    ensures ToolInv(Next(d, m))
  {
    match m
    case Ask(tool, brief) => AskTools(d, tool, brief);
    case Launch(tool, request) => LaunchTools(d, tool, request);
    case GetLock(request, asked) =>
      if Requests(d.session, asked) {
        SameTools(d, Next(d, m));
      } else {
        SettleTools(d, request, false);
      }
    case Reply(request, completed) =>
      SettleTools(d, request, completed);
      SameTools(Settle(d, request, completed), Next(d, m));
    case ToolReturns(tool) => ToolOverTools(d, tool);
    case ToolCancelled(tool) => ToolOverTools(d, tool);
    case _ => SameTools(d, Next(d, m));
  }

  lemma {:induction false} GentleRunKeepsTools(d: Desk, moves: seq<Move>)
    requires Inv(d) && ToolInv(d) && PossibleRun(d, moves) && GentleRun(d, moves)
    ensures ToolInv(AfterRun(d, moves))
    decreases moves
  {
    if moves != [] {
      MoveKeepsInv(d, moves[0]);
      MoveKeepsTools(d, moves[0]);
      GentleRunKeepsTools(Next(d, moves[0]), moves[1..]);
    }
  }

  // The hold, in every run.

  /** The request a move answers as not completed: refused by the PBX, or by the session. */
  function FailedRequest(d: Desk, m: Move): Option<TaskId> {
    match m
    case Reply(request, completed) => if completed then None else Some(request)
    case GetLock(request, asked) => if Requests(d.session, asked) then None else Some(request)
    case _ => None
  }

  /** The request is out, or, where completed ones are meant too, has completed. */
  predicate Out(d: Desk, r: TaskId, orCompleted: bool) {
    Live(d, r) || (orCompleted && CompletedBy(d, r))
  }

  /** Every call with such a request has its hold on, whichever socket its caller is on by now. */
  ghost predicate Held(d: Desk, orCompleted: bool) {
    forall r :: Out(d, r, orCompleted) ==> d.requests[r].brief in d.briefs && d.briefs[d.requests[r].brief].holding
  }

  /** No other such request is of the same call. */
  ghost predicate Alone(d: Desk, request: TaskId, orCompleted: bool)
    requires request in d.requests
  {
    forall q :: q != request && Out(d, q, orCompleted) ==> d.requests[q].brief != d.requests[request].brief
  }

  /** What the move fails, it fails alone. */
  ghost predicate FailsAlone(d: Desk, m: Move, orCompleted: bool)
    requires Possible(d, m)
  {
    FailedRequest(d, m).Some? ==> Alone(d, FailedRequest(d, m).value, orCompleted)
  }

  lemma SettleHeldIff(d: Desk, request: TaskId, completed: bool, orCompleted: bool)
    requires InRange(d) && Held(d, orCompleted) && Live(d, request)
    ensures Held(Settle(d, request, completed), orCompleted) <==> completed || Alone(d, request, orCompleted)
  {
    var after := Settle(d, request, completed);
    assert forall q :: q != request ==> (Out(after, q, orCompleted) <==> Out(d, q, orCompleted));
    assert Out(d, request, orCompleted);
    if completed {
      assert forall q :: Out(after, q, orCompleted) ==> Out(d, q, orCompleted);
    } else {
      assert !Out(after, request, orCompleted);
      assert forall q :: Out(after, q, orCompleted) ==> after.requests[q] == d.requests[q] && q != request;
    }
  }

  lemma SameHeld(d: Desk, after: Desk, orCompleted: bool)
    requires InRange(d) && Held(d, orCompleted)
    requires forall r :: Out(after, r, orCompleted) ==> Out(d, r, orCompleted) && after.requests[r].brief == d.requests[r].brief
    requires forall b :: b in d.briefs ==> b in after.briefs && (d.briefs[b].holding ==> after.briefs[b].holding)
    ensures Held(after, orCompleted)
  {
  }

  lemma LaunchHeld(d: Desk, tool: ToolId, request: TaskId, orCompleted: bool)
    requires InRange(d) && Held(d, orCompleted) && Possible(d, Launch(tool, request))
    ensures Held(Next(d, Launch(tool, request)), orCompleted)
  {
    var after := Next(d, Launch(tool, request));
    forall r | Out(after, r, orCompleted)
      ensures after.requests[r].brief in after.briefs && after.briefs[after.requests[r].brief].holding
    {
      if r != request {
        assert Out(d, r, orCompleted);
      }
    }
  }

  lemma ReplyHeldIff(d: Desk, request: TaskId, completed: bool, orCompleted: bool)
    requires Inv(d) && Held(d, orCompleted) && Possible(d, Reply(request, completed))
    ensures Held(Next(d, Reply(request, completed)), orCompleted) <==> completed || Alone(d, request, orCompleted)
  {
    var settled, after := Settle(d, request, completed), Next(d, Reply(request, completed));
    SettleHeldIff(d, request, completed, orCompleted);
    assert after.requests == settled.requests && after.briefs == settled.briefs;
    assert forall r :: Out(after, r, orCompleted) <==> Out(settled, r, orCompleted);
  }

  /** One move leaves the hold of every call with a request out on exactly when what it fails, it fails alone. */
  lemma MoveHeldIff(d: Desk, m: Move, orCompleted: bool)
    requires Inv(d) && Held(d, orCompleted) && Possible(d, m)
    ensures Held(Next(d, m), orCompleted) <==> FailsAlone(d, m, orCompleted)
  {
    match m
    case Reply(request, completed) => ReplyHeldIff(d, request, completed, orCompleted);
    case GetLock(request, asked) =>
      if Requests(d.session, asked) {
        SameHeld(d, Next(d, m), orCompleted);
      } else {
        SettleHeldIff(d, request, false, orCompleted);
      }
    case Launch(tool, request) => LaunchHeld(d, tool, request, orCompleted);
    case _ => SameHeld(d, Next(d, m), orCompleted);
  }

  /** At every point of the run, the first and the last included. */
  ghost predicate AlwaysHeld(d: Desk, moves: seq<Move>, orCompleted: bool)
    requires PossibleRun(d, moves)
    decreases moves
  {
    Held(d, orCompleted) && (moves == [] || AlwaysHeld(Next(d, moves[0]), moves[1..], orCompleted))
  }

  ghost predicate AlwaysFailsAlone(d: Desk, moves: seq<Move>, orCompleted: bool)
    requires PossibleRun(d, moves)
    decreases moves
  {
    moves == [] || (FailsAlone(d, moves[0], orCompleted) && AlwaysFailsAlone(Next(d, moves[0]), moves[1..], orCompleted))
  }

  lemma {:induction false} AlwaysHeldIff(d: Desk, moves: seq<Move>, orCompleted: bool)
    requires Inv(d) && Held(d, orCompleted) && PossibleRun(d, moves)
    ensures AlwaysHeld(d, moves, orCompleted) <==> AlwaysFailsAlone(d, moves, orCompleted)
    decreases moves
  {
    if moves != [] {
      var next := Next(d, moves[0]);
      MoveHeldIff(d, moves[0], orCompleted);
      MoveKeepsInv(d, moves[0]);
      if Held(next, orCompleted) {
        AlwaysHeldIff(next, moves[1..], orCompleted);
      } else {
        assert !AlwaysHeld(next, moves[1..], orCompleted);
      }
    }
  }

  /**
   Over every run, cancelled tool calls included: the hold of the call that asked is on for as long as its request is
   out exactly when no request ever fails while another of the same call is out. And the same with completed requests
   counted as out, after which the caller is gone. Whether that hold is between the caller and the model is another
   matter: see `KeptFromTheModelIff`.
   */
  lemma HoldLastsIff(moves: seq<Move>, orCompleted: bool)
    requires PossibleRun(OPENED, moves)
    ensures AlwaysHeld(OPENED, moves, orCompleted) <==> AlwaysFailsAlone(OPENED, moves, orCompleted)
  {
    AlwaysHeldIff(OPENED, moves, orCompleted);
  }

  /** A hold is never on for nothing: some request of that call is out or has completed. */
  ghost predicate HeldForAReason(d: Desk) {
    forall b :: b in d.briefs && d.briefs[b].holding ==> InTransfer(d, b)
  }

  lemma MoveKeepsReason(d: Desk, m: Move)
    requires HeldForAReason(d) && Possible(d, m)
    ensures HeldForAReason(Next(d, m))
  {
    var after := Next(d, m);
    forall b | b in after.briefs && after.briefs[b].holding ensures InTransfer(after, b) {
      if m.Launch? && b == d.tools[m.tool].brief {
        assert OutFor(after, b, m.request);
      } else {
        var r :| OutFor(d, b, r);
        assert OutFor(after, b, r);
      }
    }
  }

  lemma {:induction false} HoldsAlwaysHaveAReason(d: Desk, moves: seq<Move>)
    requires HeldForAReason(d) && PossibleRun(d, moves)
    ensures HeldForAReason(AfterRun(d, moves))
    decreases moves
  {
    if moves != [] {
      MoveKeepsReason(d, moves[0]);
      HoldsAlwaysHaveAReason(Next(d, moves[0]), moves[1..]);
    }
  }

  /** With no tool call cut short while its request is out, what fails fails alone. */
  lemma {:induction false} GentleFailsAlone(d: Desk, moves: seq<Move>)
    requires Inv(d) && ToolInv(d) && PossibleRun(d, moves) && GentleRun(d, moves)
    ensures AlwaysFailsAlone(d, moves, true)
    decreases moves
  {
    if moves != [] {
      var m := moves[0];
      MoveKeepsInv(d, m);
      MoveKeepsTools(d, m);
      GentleFailsAlone(Next(d, m), moves[1..]);
      if FailedRequest(d, m).Some? {
        var r := FailedRequest(d, m).value;
        forall q | q != r && Out(d, q, true) ensures d.requests[q].brief != d.requests[r].brief {
          if OutFor(d, d.requests[r].brief, q) {
            OnlyOneOut(d, r, q);
          }
        }
      }
    }
  }

  lemma {:induction false} HeldAtTheEnd(d: Desk, moves: seq<Move>, orCompleted: bool)
    requires PossibleRun(d, moves) && AlwaysHeld(d, moves, orCompleted)
    ensures Held(AfterRun(d, moves), orCompleted)
    decreases moves
  {
    if moves != [] {
      HeldAtTheEnd(Next(d, moves[0]), moves[1..], orCompleted);
    }
  }

  /** So the hold is then on exactly while a transfer of the call's is out or once one has completed, and one at a time is. */
  lemma HoldFollowsTheTransfer(moves: seq<Move>, b: BriefId)
    requires PossibleRun(OPENED, moves) && GentleRun(OPENED, moves) && b in AfterRun(OPENED, moves).briefs
    ensures var d := AfterRun(OPENED, moves);
            && (d.briefs[b].holding <==> InTransfer(d, b))
            && (d.briefs[b].pending <==> exists t :: AsksFor(d, t, b))
            && (forall r, q :: Live(d, r) && OutFor(d, b, r) && OutFor(d, b, q) ==> q == r)
  {
    var d := AfterRun(OPENED, moves);
    GentleRunKeepsTools(OPENED, moves);
    GentleFailsAlone(OPENED, moves);
    HoldLastsIff(moves, true);
    HeldAtTheEnd(OPENED, moves, true);
    HoldsAlwaysHaveAReason(OPENED, moves);
    forall r, q | Live(d, r) && OutFor(d, b, r) && OutFor(d, b, q) ensures q == r {
      OnlyOneOut(d, r, q);
    }
    if InTransfer(d, b) {
      var r :| OutFor(d, b, r);
      assert Out(d, r, true);
    }
  }

  // The hold of the socket the caller is on.

  /** The socket the caller is on after the move, if any. */
  function At(at: Option<BriefId>, m: Move): Option<BriefId> {
    match m
    case NewSocket(brief) => Some(brief)
    case SocketCloses(brief) => if at == Some(brief) then None else at
    case _ => at
  }

  predicate Known(d: Desk, at: Option<BriefId>) {
    at.Some? ==> at.value in d.briefs
  }

  ghost predicate AnyLive(d: Desk) {
    exists r :: Live(d, r)
  }

  /** While a request is out, of whichever call, the caller is on no socket or is kept from its model. */
  ghost predicate HeldAt(d: Desk, at: Option<BriefId>)
    requires Known(d, at)
  {
    AnyLive(d) && at.Some? ==> d.briefs[at.value].holding
  }

  /** The move fails a request of the caller's socket while another request, of any call, is out. */
  ghost predicate FailsBeside(d: Desk, at: BriefId, m: Move)
    requires Possible(d, m)
  {
    && FailedRequest(d, m).Some? && d.requests[FailedRequest(d, m).value].brief == at
    && exists r :: r != FailedRequest(d, m).value && Live(d, r)
  }

  /** The three moves that put the caller to a model while a request is out. */
  ghost predicate Exposes(d: Desk, at: Option<BriefId>, m: Move)
    requires Known(d, at) && Possible(d, m)
  {
    match m
    case NewSocket(_) => AnyLive(d)
    case Launch(tool, _) => at.Some? && d.tools[tool].brief != at.value && !d.briefs[at.value].holding
    case _ => at.Some? && FailsBeside(d, at.value, m)
  }

  lemma SettleHeldAt(d: Desk, request: TaskId, completed: bool, at: BriefId)
    requires InRange(d) && at in d.briefs && HeldAt(d, Some(at)) && Live(d, request)
    ensures HeldAt(Settle(d, request, completed), Some(at))
       <==> !(!completed && d.requests[request].brief == at && exists r :: r != request && Live(d, r))
  {
    var after := Settle(d, request, completed);
    assert forall r :: Live(after, r) <==> r != request && Live(d, r);
    assert d.briefs[at].holding;
  }

  /** One move leaves the caller kept from the model while a request is out exactly when it is none of the three. */
  lemma MoveHeldAtIff(d: Desk, at: Option<BriefId>, m: Move)
    requires Inv(d) && Known(d, at) && HeldAt(d, at) && Possible(d, m)
    ensures Known(Next(d, m), At(at, m))
    ensures HeldAt(Next(d, m), At(at, m)) <==> !Exposes(d, at, m)
  {
    var after := Next(d, m);
    match m
    case NewSocket(_) => assert forall r :: Live(after, r) <==> Live(d, r);
    case Launch(_, request) => assert Live(after, request);
    case Reply(request, completed) =>
      assert forall r :: Live(after, r) <==> r != request && Live(d, r);
      if at.Some? {
        SettleHeldAt(d, request, completed, at.value);
      }
    case GetLock(request, asked) =>
      if Requests(d.session, asked) {
        assert forall r :: Live(after, r) <==> Live(d, r);
      } else if at.Some? {
        SettleHeldAt(d, request, false, at.value);
      }
    case _ => assert forall r :: Live(after, r) <==> Live(d, r);
  }

  /** At every point of the run. */
  ghost predicate AlwaysHeldAt(d: Desk, at: Option<BriefId>, moves: seq<Move>)
    requires PossibleRun(d, moves)
    decreases moves
  {
    && (Known(d, at) && HeldAt(d, at))
    && (moves == [] || AlwaysHeldAt(Next(d, moves[0]), At(at, moves[0]), moves[1..]))
  }

  ghost predicate NeverExposes(d: Desk, at: Option<BriefId>, moves: seq<Move>)
    requires PossibleRun(d, moves)
    decreases moves
  {
    moves == []
    || (Known(d, at) && !Exposes(d, at, moves[0]) && NeverExposes(Next(d, moves[0]), At(at, moves[0]), moves[1..]))
  }

  lemma {:induction false} AlwaysHeldAtIff(d: Desk, at: Option<BriefId>, moves: seq<Move>)
    requires Inv(d) && Known(d, at) && HeldAt(d, at) && PossibleRun(d, moves)
    ensures AlwaysHeldAt(d, at, moves) <==> NeverExposes(d, at, moves)
    decreases moves
  {
    if moves != [] {
      var next, there := Next(d, moves[0]), At(at, moves[0]);
      MoveHeldAtIff(d, at, moves[0]);
      MoveKeepsInv(d, moves[0]);
      if HeldAt(next, there) {
        AlwaysHeldAtIff(next, there, moves[1..]);
      } else {
        assert !AlwaysHeldAt(next, there, moves[1..]);
      }
    }
  }

  /**
   Over every run, cancelled tool calls included: the caller is kept from the model whenever they are on a socket and
   a request is out exactly when no new socket opens while one is, no socket left behind launches one past a caller
   not held, and none of the caller's own fails while another is out.
   */
  lemma KeptFromTheModelIff(moves: seq<Move>)
    requires PossibleRun(OPENED, moves)
    ensures AlwaysHeldAt(OPENED, None, moves) <==> NeverExposes(OPENED, None, moves)
  {
    AlwaysHeldAtIff(OPENED, None, moves);
  }

  /** With two of one call's requests out, the first to fail takes the hold off under the other. */
  lemma HoldLostUnderTheOther(d: Desk, r: TaskId, q: TaskId)
    requires Possible(d, Reply(r, false)) && Live(d, q) && q != r && d.requests[q].brief == d.requests[r].brief
    ensures var after := Next(d, Reply(r, false));
            Live(after, q) && !after.briefs[after.requests[q].brief].holding
  {
  }

  lemma MoveFirst(d: Desk, m: Move, later: seq<Move>)
    requires Possible(d, m) && PossibleRun(Next(d, m), later)
    ensures PossibleRun(d, [m] + later) && AfterRun(d, [m] + later) == AfterRun(Next(d, m), later)
  {
    assert ([m] + later)[1..] == later;
  }

  lemma {:induction false} MoveLast(d: Desk, moves: seq<Move>, m: Move)
    requires PossibleRun(d, moves) && Possible(AfterRun(d, moves), m)
    ensures PossibleRun(d, moves + [m]) && AfterRun(d, moves + [m]) == Next(AfterRun(d, moves), m)
    decreases moves
  {
    if moves == [] {
      assert moves + [m] == [m];
      MoveFirst(d, m, []);
      assert [m] + [] == [m];
    } else {
      MoveLast(Next(d, moves[0]), moves[1..], m);
      assert moves + [m] == [moves[0]] + (moves[1..] + [m]);
      MoveFirst(d, moves[0], moves[1..] + [m]);
    }
  }

  /** The PBX is asked, and the tool call that asked is cut short: the socket closes under it, say. */
  lemma CutShort(asked: Asked) returns (moves: seq<Move>)
    requires NamesOne(asked)
    ensures PossibleRun(OPENED, moves)
    ensures var d := AfterRun(OPENED, moves);
            && d.requests == map[0 := Request(0, Requested)] && d.tools == map[] && d.briefs == map[0 := Brief(false, true)]
            && !Over(d.session) && d.told == []
    ensures moves == [NewSocket(0), Ask(0, 0), Launch(0, 0), GetLock(0, asked), ToolCancelled(0)]
  {
    var d1 := Next(OPENED, NewSocket(0));
    var d2 := Next(d1, Ask(0, 0));
    var d3 := Next(d2, Launch(0, 0));
    var d4 := Next(d3, GetLock(0, asked));
    moves := [];
    MoveFirst(d4, ToolCancelled(0), moves);
    moves := [ToolCancelled(0)] + moves;
    MoveFirst(d3, GetLock(0, asked), moves);
    moves := [GetLock(0, asked)] + moves;
    MoveFirst(d2, Launch(0, 0), moves);
    moves := [Launch(0, 0)] + moves;
    MoveFirst(d1, Ask(0, 0), moves);
    moves := [Ask(0, 0)] + moves;
    MoveFirst(OPENED, NewSocket(0), moves);
    moves := [NewSocket(0)] + moves;
  }

  /** Such a state is reached: a tool call cut short while its request is out, and the transfer asked for again. */
  lemma TwoRequestsOut(asked: Asked) returns (moves: seq<Move>)
    requires NamesOne(asked)
    ensures PossibleRun(OPENED, moves) && !GentleRun(OPENED, moves)
    ensures var d := AfterRun(OPENED, moves);
            && Possible(d, Reply(0, false)) && Live(d, 1) && d.requests[0].brief == d.requests[1].brief
            && d.requests[1].stage == Queued && d.requests[0].brief == 0 && d.told == []
  {
    moves := CutShort(asked);
    var d := AfterRun(OPENED, moves);
    MoveLast(OPENED, moves, Ask(1, 0));
    moves := moves + [Ask(1, 0)];
    MoveLast(OPENED, moves, Launch(1, 1));
    moves := moves + [Launch(1, 1)];
    if GentleRun(OPENED, moves) {
      HoldFollowsTheTransfer(moves, 0);
      assert OutFor(AfterRun(OPENED, moves), 0, 0) && OutFor(AfterRun(OPENED, moves), 0, 1);
    }
  }

  /** And there it is lost: a run that ends with a request out and its caller heard by the model. */
  lemma HoldIsLost(asked: Asked) returns (moves: seq<Move>)
    requires NamesOne(asked)
    ensures PossibleRun(OPENED, moves)
    ensures var d := AfterRun(OPENED, moves);
            Live(d, 1) && d.requests[1].brief in d.briefs && !d.briefs[d.requests[1].brief].holding
  {
    moves := TwoRequestsOut(asked);
    HoldLostUnderTheOther(AfterRun(OPENED, moves), 0, 1);
    MoveLast(OPENED, moves, Reply(0, false));
    RunKeepsInv(OPENED, moves);
    MoveKeepsInv(AfterRun(OPENED, moves), Reply(0, false));
    moves := moves + [Reply(0, false)];
  }

  /** The socket a run leaves the caller on. */
  function AtAfter(at: Option<BriefId>, moves: seq<Move>): Option<BriefId>
    decreases moves
  {
    if moves == [] then at else AtAfter(At(at, moves[0]), moves[1..])
  }

  lemma {:induction false} AtLast(at: Option<BriefId>, moves: seq<Move>, m: Move)
    ensures AtAfter(at, moves + [m]) == At(AtAfter(at, moves), m)
    decreases moves
  {
    if moves == [] {
      assert moves + [m] == [m];
    } else {
      assert (moves + [m])[1..] == moves[1..] + [m];
      AtLast(At(at, moves[0]), moves[1..], m);
    }
  }

  lemma {:induction false} HeldAtAfter(d: Desk, at: Option<BriefId>, moves: seq<Move>)
    requires PossibleRun(d, moves) && AlwaysHeldAt(d, at, moves)
    ensures Known(AfterRun(d, moves), AtAfter(at, moves)) && HeldAt(AfterRun(d, moves), AtAfter(at, moves))
    decreases moves
  {
    if moves != [] {
      HeldAtAfter(Next(d, moves[0]), At(at, moves[0]), moves[1..]);
    }
  }

  /** What a move fails, the model is told of. */
  lemma FailuresAreTold(d: Desk, m: Move)
    requires Possible(d, m)
    ensures Next(d, m).told == d.told + if FailedRequest(d, m).Some? then [FailedRequest(d, m).value] else []
  {
  }

  /** A run that has told the model of no failure has failed no request beside another. */
  lemma {:induction false} FailsNothing(d: Desk, moves: seq<Move>)
    requires PossibleRun(d, moves) && AfterRun(d, moves).told == []
    ensures d.told == [] && AlwaysFailsAlone(d, moves, true)
    decreases moves
  {
    if moves != [] {
      FailuresAreTold(d, moves[0]);
      FailsNothing(Next(d, moves[0]), moves[1..]);
      assert FailedRequest(d, moves[0]).None?;
    }
  }

  /**
   A caller back on a new socket before the PBX has answered is put to its model, though the hold of the call that
   asked is on all the while.
   */
  lemma BackBeforeTheAnswer(asked: Asked) returns (moves: seq<Move>)
    requires NamesOne(asked)
    ensures PossibleRun(OPENED, moves) && AtAfter(None, moves) == Some(1)
    ensures var d := AfterRun(OPENED, moves);
            d.requests == map[0 := Request(0, Requested)] && 1 in d.briefs && !d.briefs[1].holding
    ensures AlwaysHeld(OPENED, moves, true) && !AlwaysHeldAt(OPENED, None, moves)
  {
    moves := CutShort(asked);
    MoveLast(OPENED, moves, SocketCloses(0));
    moves := moves + [SocketCloses(0)];
    MoveLast(OPENED, moves, NewSocket(1));
    AtLast(None, moves, NewSocket(1));
    moves := moves + [NewSocket(1)];
    FailsNothing(OPENED, moves);
    HoldLastsIff(moves, true);
    var d := AfterRun(OPENED, moves);
    assert Live(d, 0);
    if AlwaysHeldAt(OPENED, None, moves) {
      HeldAtAfter(OPENED, None, moves);
    }
  }

  /** Once the session is over the model is told of a failure exactly when a request still queued gets the lock. */
  lemma ToldOnceOverIff(d: Desk, m: Move)
    requires Inv(d) && Over(d.session) && Possible(d, m)
    ensures Next(d, m).told != d.told <==> m.GetLock?
    ensures m.GetLock? ==> Next(d, m).told == d.told + [m.request]
    ensures m.GetLock? ==> !Next(d, m).briefs[d.requests[m.request].brief].holding
    ensures d.session.transferred && m.GetLock? ==> exists r :: CompletedBy(d, r) && r != m.request
  {
    if m.GetLock? {
      assert |Next(d, m).told| == |d.told| + 1;
    }
  }

  /** And one is, in a run that is reached: told as failed, though the caller was passed on. */
  lemma BehindACompletedTransfer(asked: Asked) returns (moves: seq<Move>)
    requires NamesOne(asked)
    ensures PossibleRun(OPENED, moves)
    ensures var d := AfterRun(OPENED, moves);
            d.session.transferred && CompletedBy(d, 0) && !d.kept && d.told == [1] && 0 in d.briefs && !d.briefs[0].holding
  {
    moves := TwoRequestsOut(asked);
    var d := AfterRun(OPENED, moves);
    RunKeepsInv(OPENED, moves);
    MoveLast(OPENED, moves, Reply(0, true));
    var e := Next(d, Reply(0, true));
    MoveKeepsInv(d, Reply(0, true));
    moves := moves + [Reply(0, true)];
    MoveLast(OPENED, moves, GetLock(1, asked));
    moves := moves + [GetLock(1, asked)];
  }

  /** Over every run: the caller is held until a transfer completes or a report has been answered. */
  lemma {:induction false} KeptUntilOver(d: Desk, moves: seq<Move>)
    requires PossibleRun(d, moves)
    ensures AfterRun(d, moves).kept
       <==> d.kept && forall m :: m in moves ==> m != ReportDone && !(m.Reply? && m.completed)
    decreases moves
  {
    if moves != [] {
      var m, rest := moves[0], moves[1..];
      assert moves == [m] + rest;
      KeptUntilOver(Next(d, m), rest);
      assert Next(d, m).kept <==> d.kept && m != ReportDone && !(m.Reply? && m.completed);
      assert forall x :: x in moves <==> x == m || x in rest;
    }
  }
}
