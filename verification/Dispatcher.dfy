/**
 The dispatch loop over the stream set it owns. An input is what one pass of the
 select received, or a move that a stream's goroutines or the context made in
 between. The loop is proved to do what the steps of module ServerMachine do, and
 any sequence of inputs that the environment allows is a run of the server.
 */
module Dispatcher {
  import opened Protocol
  import opened TargetStreams
  import opened StreamSets
  import opened ServerMachine
  import opened TargetStreamSets
  import ServerTheorems

  /** `announced` and `choices` are the outcomes of the selects in Add and in the streams' Send. */
  datatype Input =
    | ContextEnds(error: Status)
    | StreamDone(id: Id)
    | RequestsClosed
    | Received(req: Request, newId: Id, announced: bool, choices: nat -> Choice)
    | Moves(e: Event)

  /** The events that are not the dispatcher's. */
  predicate Independent(e: Event) {
    e.Local? || e.Forward? || e.WriteClose? || e.Abandon? || e.CancelContext?
  }

  // ---- One pass, as steps of the server ----

  /** The deliveries of a fan-out, one select after another. */
  function Deliveries(s: Server, choices: nat -> Choice, k: nat): Server
    decreases if s.dispatch.FanOut? then |s.dispatch.todo| else 0
  {
    if s.dispatch.FanOut? && s.dispatch.todo != [] && Open(s, s.dispatch.todo[0]) then
      var problem := Arm(s.table.streams[s.dispatch.todo[0]], choices(k));
      if problem.None? then Deliveries(Delivered(s), choices, k + 1) else Undelivered(s, problem.value)
    else s
  }

  function Undelivered(s: Server, problem: Problem): Server {
    if problem.TornDown? then Fail(s, problem.status) else s.(dispatch := Panicked)
  }

  function Replied(s: Server, announced: bool): Server
    requires s.dispatch.Replying?
  {
    if announced then Write(Launch(s, true), s.dispatch.reply) else Launch(s, false)
  }

  function Handled(c: Config, s: Server, req: Request, newId: Id, announced: bool, choices: nat -> Choice): Server {
    var s1 := Dispatched(c, s.(handled := s.handled + [req]), req, newId);
    if s1.dispatch.Replying? then Replied(s1, announced)
    else if s1.dispatch.FanOut? then Deliveries(s1, choices, 0)
    else s1
  }

  /** What the method returns, as the state of the dispatch goroutine. */
  datatype Returned = Waiting | ReturnsNil | ReturnsError(error: Status) | Panics

  function Leaves(r: Returned): Dispatch {
    match r
    case Waiting => Idle
    case ReturnsNil => Stopped(None)
    case ReturnsError(e) => Stopped(Some(e))
    case Panics => Panicked
  }

  // ---- A fan-out, delivered at once ----

  function Midway(s: Server, open: seq<Id>, p: Payload, k: nat): Server
    requires k <= |open|
  {
    s.(table := s.table.(streams := PushEach(s.table.streams, open[..k], p)), dispatch := AfterFanOut(p, open[k..]))
  }

  lemma MidwayFirst(s: Server, open: seq<Id>, p: Payload, k: nat, choice: Choice)
    requires k < |open| && open[k] in s.table.streams
    ensures var now := Midway(s, open, p, k);
            && now.dispatch == FanOut(p, open[k..]) && open[k..][0] == open[k] && Open(now, open[k])
            && Arm(now.table.streams[open[k]], choice) == Arm(s.table.streams[open[k]], choice)
            && Delivered(now) == Midway(s, open, p, k + 1)
  {
    hide PushEach, Arm;
    PushMore(s.table.streams, open, k, p, choice);
    assert open[k..][1..] == open[k + 1..];
  }

  lemma MidwayNext(s: Server, open: seq<Id>, p: Payload, choices: nat -> Choice, k: nat)
    requires k < |open| && open[k] in s.table.streams
    ensures var problem, now := Arm(s.table.streams[open[k]], choices(k)), Midway(s, open, p, k);
            Deliveries(now, choices, k) ==
            if problem.None? then Deliveries(Midway(s, open, p, k + 1), choices, k + 1) else Undelivered(now, problem.value)
  {
    hide PushEach, Arm, Midway, Delivered, Undelivered;
    MidwayFirst(s, open, p, k, choices(k));
  }

  lemma {:induction false} DeliversFrom(s: Server, open: seq<Id>, p: Payload, choices: nat -> Choice, k: nat, count: nat)
    requires k <= count <= |open| && (forall id <- open :: id in s.table.streams)
    requires forall j :: 0 <= j < count ==> Arm(s.table.streams[open[j]], choices(j)) == None
    requires count < |open| ==> Arm(s.table.streams[open[count]], choices(count)).Some?
    ensures Deliveries(Midway(s, open, p, k), choices, k) ==
            if count == |open| then Midway(s, open, p, count)
            else Undelivered(Midway(s, open, p, count), Arm(s.table.streams[open[count]], choices(count)).value)
    decreases count - k
  {
    hide PushEach, Arm, Delivered, Undelivered;
    if k < |open| {
      hide Midway;
      hide Deliveries;
      MidwayNext(s, open, p, choices, k);
      if k < count {
        DeliversFrom(s, open, p, choices, k + 1, count);
      }
    }
  }

  // ---- Requests ----

  lemma StartHandled(c: Config, s: Server, req: Request, newId: Id, announced: bool, choices: nat -> Choice)
    requires req.StartStream? && s.dispatch.Idle?
    ensures var s' := Handled(c, s, req, newId, announced, choices);
            if Reused(s.table, req) then
              s'.table == s.table && s'.dispatch == Stopped(Some(Status(9, "re-use of previous (target,nonce)"))) && s'.replies == s.replies
            else
              && s'.dispatch.Idle?
              && s'.replies == s.replies + (if announced then [StartAnswer(c, req, newId)] else [])
              && s'.table == if req.methodName !in c.methods then s.table
                            else Started(s.table, newId, Info(req.target, req.nonce, c.methods[req.methodName], req.dryRun), announced)
  {
    hide Reused, NewStream, Data, CancelIds, ShutListed, Deliveries, PairOf;
    assert s.replies + [] == s.replies;
  }

  function StartAnswer(c: Config, req: Request, newId: Id): Reply
    requires req.StartStream?
  {
    StartReply(req.target, req.nonce, if req.methodName in c.methods then StreamId(newId) else ErrorStatus(Status(3, "unknown method")))
  }

  method HandleStart(t: TargetStreamSet, c: Config, req: Request, newId: Id, announced: bool, choices: nat -> Choice, ghost s: Server)
    returns (r: Returned, reply: Option<Reply>)
    requires t.Valid() && t.methods == c.methods && s.table == t.View() && s.dispatch.Idle? && newId !in s.table.streams && req.StartStream?
    modifies t, t.streams.Values
    ensures t.Valid() && fresh(t.streams.Values - old(t.streams.Values))
    ensures var s' := Handled(c, s, req, newId, announced, choices);
            && t.View() == s'.table && s'.dispatch == Leaves(r)
            && s'.replies == s.replies + if reply.Some? then [reply.value] else []
  {
    hide Handled, NewStream, Started, TargetStreamSet.View, TargetStreamSet.Valid;
    StartHandled(c, s, req, newId, announced, choices);
    assert s.replies + [] == s.replies;
    var added := t.Add(req.target, req.methodName, req.nonce, req.dryRun, newId, announced);
    if added.Reuse? {
      return ReturnsError(Status(9, "re-use of previous (target,nonce)")), None;
    }
    return Waiting, if announced then Some(added.reply) else None;
  }

  function ReturnFor(problem: Option<Problem>): Returned {
    if problem.None? then Waiting
    else if problem.value.TornDown? then ReturnsError(problem.value.status)
    else if problem.value.SentOnClosed? then Panics
    else ReturnsError(ProblemStatus(problem.value))
  }

  lemma {:induction false} ValidateProblems(t: StreamSet, ids: seq<Id>, typeName: string)
    ensures var v := Validate(t, ids, typeName); v.Blocked? ==> v.problem.NoSuchStream? || v.problem.WrongType?
  {
    if ids != [] {
      ValidateProblems(t, ids[..|ids| - 1], typeName);
    }
  }

  lemma DataUnsent(c: Config, s: Server, ids: seq<Id>, p: Payload, newId: Id, announced: bool, choices: nat -> Choice,
                   t': StreamSet, problem: Option<Problem>, open: seq<Id>, count: nat)
    requires s.dispatch.Idle? && SendOutcome(s.table, c.decodable(p), ids, p, choices, t', problem, open, count)
    requires !c.decodable(p) || !Sendable(s.table, ids, p.typeName)
    ensures var s' := Handled(c, s, StreamData(ids, p), newId, announced, choices);
            s'.table == t' && s'.dispatch == Leaves(ReturnFor(problem)) && s'.replies == s.replies
  {
    ValidateProblems(s.table, ids, p.typeName);
  }

  lemma DataSent(c: Config, s: Server, ids: seq<Id>, p: Payload, newId: Id, announced: bool, choices: nat -> Choice,
                 t': StreamSet, problem: Option<Problem>, open: seq<Id>, count: nat)
    requires s.dispatch.Idle? && SendOutcome(s.table, c.decodable(p), ids, p, choices, t', problem, open, count)
    requires c.decodable(p) && Sendable(s.table, ids, p.typeName)
    ensures var s' := Handled(c, s, StreamData(ids, p), newId, announced, choices);
            s'.table == t' && s'.dispatch == Leaves(ReturnFor(problem)) && s'.replies == s.replies
  {
    hide PushEach, Validate, Sendable, OpenOf, Deliveries, Start, CancelIds, ShutListed;
    var s0 := s.(handled := s.handled + [StreamData(ids, p)]);
    ValidateAccepts(s.table, ids, p.typeName);
    PushNone(s.table.streams, open, p);
    assert open[0..] == open;
    DeliversFrom(s0, open, p, choices, 0, count);
  }

  method HandleData(t: TargetStreamSet, c: Config, ids: seq<Id>, p: Payload, ghost newId: Id, ghost announced: bool, choices: nat -> Choice, ghost s: Server)
    returns (r: Returned)
    requires t.Valid() && s.table == t.View() && s.dispatch.Idle?
    modifies t.streams.Values
    ensures t.Valid()
    ensures var s' := Handled(c, s, StreamData(ids, p), newId, announced, choices);
            t.View() == s'.table && s'.dispatch == Leaves(r) && s'.replies == s.replies
  {
    hide Handled, SendOutcome, TargetStreamSet.View, TargetStreamSet.Valid;
    var problem, open, count := t.Send(c.decodable(p), ids, p, choices);
    r := ReturnFor(problem);
    if !c.decodable(p) || !Sendable(s.table, ids, p.typeName) {
      DataUnsent(c, s, ids, p, newId, announced, choices, t.View(), problem, open, count);
    } else {
      DataSent(c, s, ids, p, newId, announced, choices, t.View(), problem, open, count);
    }
  }

  lemma OthersHandled(c: Config, s: Server, req: Request, newId: Id, announced: bool, choices: nat -> Choice)
    requires s.dispatch.Idle?
    ensures var s', t := Handled(c, s, req, newId, announced, choices), s.table;
            match req
            case ClientClose(ids) => s'.table == t.(streams := ShutListed(t.streams, ids)) && s'.dispatch.Idle? && s'.replies == s.replies
            case ClientCancel(ids) =>
              && s'.table == t.(streams := CancelListed(t.streams, Known(t, ids))) && s'.replies == s.replies
              && s'.dispatch == (if Known(t, ids) == ids then Idle else Stopped(Some(Status(3, "no such stream"))))
            case UnknownRequest =>
              s'.table == t && s'.dispatch == Stopped(Some(Status(2, "unhandled request type"))) && s'.replies == s.replies
            case _ => true
  {
    hide Start, Data, ShutListed, Known, CancelListed, Deliveries, Replied;
  }

  method HandleRequest(t: TargetStreamSet, c: Config, req: Request, newId: Id, announced: bool, choices: nat -> Choice, ghost s: Server)
    returns (r: Returned, reply: Option<Reply>)
    requires t.Valid() && t.methods == c.methods && s.table == t.View() && s.dispatch.Idle? && newId !in s.table.streams
    modifies t, t.streams.Values
    ensures t.Valid() && fresh(t.streams.Values - old(t.streams.Values))
    ensures var s' := Handled(c, s, req, newId, announced, choices);
            && t.View() == s'.table && s'.dispatch == Leaves(r)
            && s'.replies == s.replies + if reply.Some? then [reply.value] else []
  {
    hide Handled, ShutListed, Known, CancelListed, TargetStreamSet.View, TargetStreamSet.Valid;
    r, reply := Waiting, None;
    OthersHandled(c, s, req, newId, announced, choices);
    assert s.replies + [] == s.replies;
    match req {
      case StartStream(_, _, _, _) =>
        r, reply := HandleStart(t, c, req, newId, announced, choices, s);
      case StreamData(ids, p) =>
        r := HandleData(t, c, ids, p, newId, announced, choices, s);
      case ClientClose(ids) =>
        t.ClientClose(ids);
      case ClientCancel(ids) =>
        var ok := t.ClientCancel(ids);
        r := if ok then Waiting else ReturnsError(Status(3, "no such stream"));
      case UnknownRequest =>
        r := ReturnsError(Status(2, "unhandled request type"));
    }
  }

  // ---- The loop ----

  function AfterHandOff(s: Server, id: Id): Server
    requires Open(s, id)
  {
    var s' := s.(table := Without(s.table, id));
    if !s.requestsOpen && s'.table.streams == map[] then s'.(dispatch := Stopped(None)) else s'
  }

  /** One pass. A nil requestChan is never ready, doneChan carries ids of open
      streams, and a stream id is drawn afresh. */
  function Pass(c: Config, s: Server, input: Input): Server {
    match input
    case ContextEnds(e) => Fail(s, e)
    case StreamDone(id) => if Open(s, id) then AfterHandOff(s, id) else s
    case RequestsClosed => if s.requestsOpen then HalfClosed(s) else s
    case Received(req, newId, announced, choices) =>
      if s.requestsOpen && newId !in Issued(s.table) && newId != 0 then Handled(c, s, req, newId, announced, choices) else s
    case Moves(e) => if Independent(e) && Enabled(c, s, e) then Apply(c, s, e) else s
  }

  /** Pass after pass, until dispatch returns. */
  function Passes(c: Config, s: Server, inputs: seq<Input>): Server {
    if inputs == [] then s
    else
      var n := |inputs| - 1;
      var before := Passes(c, s, inputs[..n]);
      if before.dispatch.Idle? then Pass(c, before, inputs[n]) else before
  }

  lemma {:induction false} ReturnedStays(c: Config, s: Server, inputs: seq<Input>, k: nat)
    requires k <= |inputs| && !Passes(c, s, inputs[..k]).dispatch.Idle?
    ensures Passes(c, s, inputs) == Passes(c, s, inputs[..k])
  {
    if k < |inputs| {
      assert inputs[..|inputs| - 1][..k] == inputs[..k];
      ReturnedStays(c, s, inputs[..|inputs| - 1], k);
    } else {
      assert inputs[..k] == inputs;
    }
  }

  method TakeDone(t: TargetStreamSet, id: Id, requestsOpen: bool, ghost s: Server) returns (r: Returned)
    requires t.Valid() && s.table == t.View() && s.dispatch.Idle? && s.requestsOpen == requestsOpen
    modifies t
    ensures t.Valid() && t.streams.Values <= old(t.streams.Values)
    ensures var s' := if Open(s, id) then AfterHandOff(s, id) else s;
            t.View() == s'.table && s'.dispatch == Leaves(r)
  {
    hide TargetStreamSet.View, TargetStreamSet.Valid;
    r := Waiting;
    var open := t.Has(id);
    if open {
      t.Remove(id);
      t.Done();
      var empty := t.Empty();
      r := if !requestsOpen && empty then ReturnsNil else Waiting;
    }
  }

  method CloseAll(t: TargetStreamSet, ghost s: Server) returns (r: Returned)
    requires t.Valid() && s.table == t.View() && s.dispatch.Idle?
    modifies t.streams.Values
    ensures t.Valid()
    ensures t.View() == HalfClosed(s).table && HalfClosed(s).dispatch == Leaves(r)
  {
    hide TargetStreamSet.View, TargetStreamSet.Valid;
    t.ClientCloseAll();
    assert t.View().streams.Keys == s.table.streams.Keys;
    var empty := t.Empty();
    assert s.table.streams == map[] <==> s.table.streams.Keys == {};
    r := if empty then ReturnsNil else Waiting;
  }

  lemma {:induction false} DeliveriesKeep(s: Server, choices: nat -> Choice, k: nat)
    ensures Deliveries(s, choices, k).requestsOpen == s.requestsOpen
    ensures Deliveries(s, choices, k).dispatch.Idle? ==> Deliveries(s, choices, k).ctxDone == s.ctxDone
    decreases if s.dispatch.FanOut? then |s.dispatch.todo| else 0
  {
    if s.dispatch.FanOut? && s.dispatch.todo != [] && Open(s, s.dispatch.todo[0]) {
      DeliveriesKeep(Delivered(s), choices, k + 1);
    }
  }

  lemma DispatchedKeeps(c: Config, s: Server, req: Request, newId: Id)
    ensures var s' := Dispatched(c, s, req, newId);
            s'.requestsOpen == s.requestsOpen && (!s'.dispatch.Stopped? ==> s'.ctxDone == s.ctxDone)
  {
    hide Start, Data, ShutListed, Known, CancelListed;
    match req
    case StartStream(_, _, _, _) => StartKeeps(c, s, req, newId);
    case StreamData(ids, p) => DataKeeps(c, s, ids, p);
    case _ =>
  }

  lemma StartKeeps(c: Config, s: Server, req: Request, newId: Id)
    requires req.StartStream?
    ensures var s' := Start(c, s, req, newId);
            s'.requestsOpen == s.requestsOpen && (!s'.dispatch.Stopped? ==> s'.ctxDone == s.ctxDone)
  {
    hide WithStream, Reused;
  }

  lemma DataKeeps(c: Config, s: Server, ids: seq<Id>, p: Payload)
    ensures var s' := Data(c, s, ids, p);
            s'.requestsOpen == s.requestsOpen && (!s'.dispatch.Stopped? ==> s'.ctxDone == s.ctxDone)
  {
    hide Validate, AfterFanOut, ProblemStatus;
  }

  lemma RepliedKeeps(s: Server, announced: bool)
    requires s.dispatch.Replying?
    ensures Replied(s, announced).requestsOpen == s.requestsOpen && Replied(s, announced).ctxDone == s.ctxDone
  {}

  lemma HandledKeeps(c: Config, s: Server, req: Request, newId: Id, announced: bool, choices: nat -> Choice)
    requires s.dispatch.Idle?
    ensures var s' := Handled(c, s, req, newId, announced, choices);
            s'.requestsOpen == s.requestsOpen && (s'.dispatch.Idle? ==> s'.ctxDone == s.ctxDone)
  {
    hide Deliveries, Dispatched, Replied;
    var s1 := Dispatched(c, s.(handled := s.handled + [req]), req, newId);
    DispatchedKeeps(c, s.(handled := s.handled + [req]), req, newId);
    DeliveriesKeep(s1, choices, 0);
    if s1.dispatch.Replying? {
      RepliedKeeps(s1, announced);
    }
  }

  lemma PassKeeps(s: Server, id: Id)
    ensures Open(s, id) ==>
              var s' := AfterHandOff(s, id);
              s'.requestsOpen == s.requestsOpen && s'.replies == s.replies && s'.ctxDone == s.ctxDone
    ensures !HalfClosed(s).requestsOpen && HalfClosed(s).replies == s.replies && HalfClosed(s).ctxDone == s.ctxDone
  {}

  lemma StepKeepsClosed(st: Stream, ctxDone: bool, move: StreamEvent)
    requires CanStep(st, ctxDone, move)
    ensures Step(st, ctxDone, move).inbox.closed == st.inbox.closed
  {
    hide Judge, Deliver, EndGroup;
    match move
    case Judges(refusal) => JudgeKeepsClosed(st, refusal);
    case Delivers(outcome) => DeliverKeepsClosed(st, outcome);
    case GroupEnds(closeError) => EndGroupKeepsClosed(st, closeError);
    case _ =>
  }

  lemma JudgeKeepsClosed(st: Stream, refusal: Option<Failure>)
    requires st.snd.phase.Authorizing?
    ensures Judge(st, refusal).inbox == st.inbox
  {}

  lemma DeliverKeepsClosed(st: Stream, outcome: SendResult)
    requires st.snd.phase.Delivering?
    ensures Deliver(st, outcome).inbox == st.inbox
  {}

  lemma EndGroupKeepsClosed(st: Stream, closeError: Option<Failure>)
    ensures EndGroup(st, closeError).inbox == st.inbox
  {}

  /** What an independent event does to the dispatcher's own state. */
  lemma MovesKeep(c: Config, s: Server, e: Event)
    requires Independent(e) && Enabled(c, s, e)
    ensures var s' := Apply(c, s, e);
            && s'.dispatch == s.dispatch && s'.requestsOpen == s.requestsOpen
            && s'.ctxDone == (s.ctxDone || e.CancelContext?)
  {
    hide Step, CanStep;
  }

  /** The stream after a move, and what the move writes to replyChan, if it is possible. */
  function Moved(st: Stream, ctxDone: bool, e: Event): Option<(Stream, Option<Reply>)> {
    match e
    case Local(_, move) => if CanStep(st, ctxDone, move) then Some((Step(st, ctxDone, move), None)) else None
    case Forward(id) =>
      if st.run.Running? && st.rcv.phase.Forwarding? then Some((Forwarded(st), Some(DataReply([id], st.rcv.phase.payload)))) else None
    case WriteClose(id) =>
      if st.run.Closing? then Some((CloseWritten(st), Some(CloseReply([id], st.run.status)))) else None
    case Abandon(_) => if st.run.HandingOff? && ctxDone then Some((Finish(st), None)) else None
    case _ => None
  }

  lemma MovedIs(c: Config, s: Server, e: Event)
    requires Independent(e) && !e.CancelContext? && Open(s, e.id)
    ensures var st, m := s.table.streams[e.id], Moved(s.table.streams[e.id], s.ctxDone, e);
            && (m.Some? <==> Enabled(c, s, e))
            && (m.Some? ==>
                  var s' := Apply(c, s, e);
                  && m.value.0.inbox.closed == st.inbox.closed
                  && s'.table == s.table.(streams := s.table.streams[e.id := m.value.0],
                                          wg := if e.Abandon? && s.table.wg > 0 then s.table.wg - 1 else s.table.wg)
                  && s'.replies == s.replies + if m.value.1.Some? then [m.value.1.value] else [])
  {
    hide Step, CanStep;
    assert s.replies + [] == s.replies;
    if e.Local? && Enabled(c, s, e) {
      StepKeepsClosed(s.table.streams[e.id], s.ctxDone, e.move);
    }
  }

  /** One move of a stream's goroutines on the stream object. */
  method MoveStream(t: TargetStreamSet, c: Config, e: Event, ctxDone: bool, ghost s: Server) returns (reply: Option<Reply>)
    requires t.Valid() && s.table == t.View() && s.ctxDone == ctxDone && Independent(e)
    modifies t, t.streams.Values
    ensures t.Valid() && t.streams == old(t.streams)
    ensures var s' := if Enabled(c, s, e) then Apply(c, s, e) else s;
            t.View() == s'.table && s'.replies == s.replies + if reply.Some? then [reply.value] else []
  {
    hide Moved, Step, CanStep, TargetStreamSet.View, TargetStreamSet.Valid;
    reply := None;
    assert s.replies + [] == s.replies;
    if e.CancelContext? {
      return;
    }
    var open := t.Has(e.id);
    if !open {
      return;
    }
    hide Enabled, Apply;
    MovedIs(c, s, e);
    var st := t.Get(e.id);
    var moved := Moved(st, ctxDone, e);
    if moved.Some? {
      t.Put(e.id, moved.value.0);
      reply := moved.value.1;
      if e.Abandon? {
        t.Done();
      }
    }
  }

  /** One pass of the loop, or one move in between. */
  method OnePass(t: TargetStreamSet, c: Config, input: Input, open: bool, done: bool, ghost s: Server)
    returns (r: Returned, reply: Option<Reply>, requestsOpen: bool, ctxDone: bool)
    requires t.Valid() && t.methods == c.methods && s.table == t.View()
    requires s.dispatch.Idle? && s.requestsOpen == open && s.ctxDone == done
    modifies t, t.streams.Values
    ensures t.Valid() && fresh(t.streams.Values - old(t.streams.Values))
    ensures var s' := Pass(c, s, input);
            && t.View() == s'.table && s'.dispatch == Leaves(r) && s'.requestsOpen == requestsOpen
            && (r.Waiting? ==> s'.ctxDone == ctxDone)
            && s'.replies == s.replies + if reply.Some? then [reply.value] else []
  {
    hide Handled, AfterHandOff, HalfClosed, Enabled, Apply, TargetStreamSet.View, TargetStreamSet.Valid;
    r, reply, requestsOpen, ctxDone := Waiting, None, open, done;
    assert s.replies + [] == s.replies;
    match input {
      case ContextEnds(e) =>
        r := ReturnsError(e);
      case StreamDone(id) =>
        PassKeeps(s, id);
        r := TakeDone(t, id, open, s);
      case RequestsClosed =>
        PassKeeps(s, 0);
        if open {
          r := CloseAll(t, s);
          requestsOpen := false;
        }
      case Received(req, newId, announced, choices) =>
        var taken := t.Knows(newId);
        if open && !taken && newId != 0 {
          HandledKeeps(c, s, req, newId, announced, choices);
          r, reply := HandleRequest(t, c, req, newId, announced, choices, s);
        }
      case Moves(e) =>
        if Independent(e) {
          reply := MoveStream(t, c, e, done, s);
          CancelAlways(c, s, e);
          ctxDone := done || e.CancelContext?;
        }
    }
  }

  /** The loop does what the steps of the server do, with the streams moving in between. */
  method Dispatch(t: TargetStreamSet, c: Config, inputs: seq<Input>, ghost s0: Server) returns (r: Returned, replies: seq<Reply>)
    requires t.Valid() && t.methods == c.methods && s0.table == t.View()
    requires s0.dispatch.Idle? && s0.requestsOpen && !s0.ctxDone
    modifies t, t.streams.Values
    ensures t.Valid()
    ensures var s := Passes(c, s0, inputs);
            t.View() == s.table && s.dispatch == Leaves(r) && s.replies == s0.replies + replies
  {
    hide Pass, TargetStreamSet.View, TargetStreamSet.Valid;
    r, replies := Waiting, [];
    var requestsOpen, ctxDone := true, false;
    ghost var s := s0;
    for k := 0 to |inputs|
      invariant t.Valid() && s == Passes(c, s0, inputs[..k]) && t.View() == s.table && s.dispatch.Idle? && r.Waiting?
      invariant requestsOpen == s.requestsOpen && ctxDone == s.ctxDone && s.replies == s0.replies + replies
      invariant fresh(t.streams.Values - old(t.streams.Values))
    {
      assert inputs[..k + 1][..k] == inputs[..k];
      var reply;
      r, reply, requestsOpen, ctxDone := OnePass(t, c, inputs[k], requestsOpen, ctxDone, s);
      s := Pass(c, s, inputs[k]);
      assert replies + [] == replies;
      replies := replies + if reply.Some? then [reply.value] else [];
      if !r.Waiting? {
        ReturnedStays(c, s0, inputs, k + 1);
        return;
      }
    }
    assert inputs[..|inputs|] == inputs;
  }

  lemma CancelAlways(c: Config, s: Server, e: Event)
    requires Independent(e)
    ensures var s' := if Enabled(c, s, e) then Apply(c, s, e) else s;
            s'.dispatch == s.dispatch && s'.requestsOpen == s.requestsOpen && s'.ctxDone == (s.ctxDone || e.CancelContext?)
  {
    if Enabled(c, s, e) {
      MovesKeep(c, s, e);
    }
  }

  // ---- Passes are runs of the server ----

  /** What makes the arms taken in a fan-out possible: room in the queue, or a reason to refuse. */
  predicate Feasible(c: Config, s: Server, choices: nat -> Choice, k: nat)
    decreases if s.dispatch.FanOut? then |s.dispatch.todo| else 0
  {
    s.dispatch.FanOut? && s.dispatch.todo != [] && Open(s, s.dispatch.todo[0]) ==>
      var st := s.table.streams[s.dispatch.todo[0]];
      var problem := Arm(st, choices(k));
      if problem.None? then |st.inbox.queue| < c.capacity && Feasible(c, Delivered(s), choices, k + 1)
      else problem.value.TornDown? ==> MayRefuse(st, s.ctxDone)
  }

  /** The environment allows this input now. */
  predicate Possible(c: Config, s: Server, input: Input) {
    match input
    case ContextEnds(_) => s.ctxDone
    case StreamDone(id) => Open(s, id) ==> s.table.streams[id].run.HandingOff?
    case RequestsClosed => true
    case Moves(_) => true
    case Received(req, newId, announced, choices) =>
      (announced || s.ctxDone) && Feasible(c, Dispatched(c, s.(handled := s.handled + [req]), req, newId), choices, 0)
  }

  lemma Extend(c: Config, run: seq<Event>, s: Server, e: Event)
    requires After(c, run) == Some(s) && Enabled(c, s, e)
    ensures After(c, run + [e]) == Some(Apply(c, s, e))
  {
    hide Enabled, Apply;
    assert (run + [e])[..|run|] == run;
  }

  lemma {:induction false} DeliveriesRun(c: Config, run: seq<Event>, s: Server, choices: nat -> Choice, k: nat) returns (run': seq<Event>)
    requires After(c, run) == Some(s) && Feasible(c, s, choices, k)
    ensures run <= run' && After(c, run') == Some(Deliveries(s, choices, k))
    decreases if s.dispatch.FanOut? then |s.dispatch.todo| else 0
  {
    run' := run;
    if s.dispatch.FanOut? && s.dispatch.todo != [] && Open(s, s.dispatch.todo[0]) {
      var problem := Arm(s.table.streams[s.dispatch.todo[0]], choices(k));
      if problem.None? {
        Extend(c, run, s, Enqueue);
        run' := DeliveriesRun(c, run + [Enqueue], Delivered(s), choices, k + 1);
      } else {
        var e := if problem.value.TornDown? then EnqueueFails(problem.value.status) else EnqueuePanics;
        Extend(c, run, s, e);
        run' := run + [e];
      }
    }
  }

  lemma HandledRun(c: Config, run: seq<Event>, s: Server, req: Request, newId: Id, announced: bool, choices: nat -> Choice)
    returns (run': seq<Event>)
    requires After(c, run) == Some(s) && Enabled(c, s, Handle(req, newId))
    requires Possible(c, s, Received(req, newId, announced, choices))
    ensures run <= run' && After(c, run') == Some(Handled(c, s, req, newId, announced, choices))
  {
    hide After, Start, Data, CancelIds, ShutListed, Feasible, Deliveries, Launch;
    var e := Handle(req, newId);
    Extend(c, run, s, e);
    var s1 := Apply(c, s, e);
    run' := run + [e];
    if s1.dispatch.Replying? {
      DispatchedKeepsContext(c, s.(handled := s.handled + [req]), req, newId);
      var e2 := if announced then WriteStart else DropStart;
      Extend(c, run', s1, e2);
      run' := run' + [e2];
    } else if s1.dispatch.FanOut? {
      run' := DeliveriesRun(c, run', s1, choices, 0);
    }
  }

  lemma DispatchedKeepsContext(c: Config, s: Server, req: Request, newId: Id)
    ensures s.ctxDone ==> Dispatched(c, s, req, newId).ctxDone
  {}

  /** Every pass of the loop that the environment allows is a run of the server. */
  lemma PassIsRun(c: Config, run: seq<Event>, s: Server, input: Input) returns (run': seq<Event>)
    requires After(c, run) == Some(s) && s.dispatch.Idle? && Possible(c, s, input)
    ensures run <= run' && After(c, run') == Some(Pass(c, s, input))
  {
    hide After, Handled, HalfClosed, Feasible, Dispatched;
    run' := run;
    match input
    case ContextEnds(error) =>
      Extend(c, run, s, SeeContext(error));
      run' := run + [SeeContext(error)];
    case StreamDone(id) =>
      if Open(s, id) {
        Extend(c, run, s, HandOff(id));
        run' := run + [HandOff(id)];
      }
    case RequestsClosed =>
      if s.requestsOpen {
        Extend(c, run, s, HalfClose);
        run' := run + [HalfClose];
      }
    case Received(req, newId, announced, choices) =>
      if s.requestsOpen && newId !in Issued(s.table) && newId != 0 {
        run' := HandledRun(c, run, s, req, newId, announced, choices);
      }
    case Moves(e) =>
      if Independent(e) && Enabled(c, s, e) {
        Extend(c, run, s, e);
        run' := run + [e];
      }
  }

  /** The environment allows every input when its turn comes. */
  ghost predicate AllPossible(c: Config, s: Server, inputs: seq<Input>) {
    forall k :: 0 <= k < |inputs| && Passes(c, s, inputs[..k]).dispatch.Idle? ==> Possible(c, Passes(c, s, inputs[..k]), inputs[k])
  }

  /** The loop, with the streams moving in between, is a run of the server. */
  lemma {:induction false} LoopIsRun(c: Config, run: seq<Event>, s: Server, inputs: seq<Input>) returns (run': seq<Event>)
    requires After(c, run) == Some(s) && AllPossible(c, s, inputs)
    ensures run <= run' && After(c, run') == Some(Passes(c, s, inputs))
    decreases |inputs|
  {
    hide After, Pass, Possible;
    run' := run;
    if inputs != [] {
      var n := |inputs| - 1;
      assert forall k :: 0 <= k < n ==> inputs[..n][..k] == inputs[..k];
      var before := Passes(c, s, inputs[..n]);
      run' := LoopIsRun(c, run, s, inputs[..n]);
      if before.dispatch.Idle? {
        run' := PassIsRun(c, run', before, inputs[n]);
      }
    }
  }

  /** So when the loop returns nil, every stream it started has handed off its id. */
  lemma LoopReturnsClean(c: Config, inputs: seq<Input>) returns (run: seq<Event>)
    requires AllPossible(c, INITIAL, inputs) && Passes(c, INITIAL, inputs).dispatch == Stopped(None)
    ensures After(c, run) == Some(Passes(c, INITIAL, inputs))
    ensures ServerTheorems.HandedOff(run) == ServerTheorems.Created(c, run) && Passes(c, INITIAL, inputs).table.streams == map[]
  {
    assert After(c, []) == Some(INITIAL);
    run := LoopIsRun(c, [], INITIAL, inputs);
    hide After, Passes;
    ServerTheorems.CleanReturn(c, run);
  }
}
