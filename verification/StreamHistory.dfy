/**
 What the events of a run say about each stream: how it was started, what its
 goroutines took, judged, delivered and received, why it was cancelled, and which
 status it closed with. Everything here is read off the run; the records that the
 streams keep are shown to agree with it.
 */
module StreamHistory {
  import opened Protocol
  import opened TargetStreams
  import opened StreamSets
  import opened ServerMachine
  import opened ServerInvariant
  import opened ServerTheorems

  // ---- Reading moves ----

  /** The moves of a stream's own goroutines in a run, in order. */
  function MovesOf(run: seq<Event>, id: Id): seq<StreamEvent> {
    if run == [] then []
    else
      var n := |run| - 1;
      MovesOf(run[..n], id) + if run[n].Local? && run[n].id == id then [run[n].move] else []
  }

  /** What f makes of the moves that it applies to, in order. */
  function Pick<T>(moves: seq<StreamEvent>, f: StreamEvent -> Option<T>): seq<T> {
    if moves == [] then []
    else
      var n := |moves| - 1;
      Pick(moves[..n], f) + if f(moves[n]).Some? then [f(moves[n]).value] else []
  }

  lemma PickAppend<T>(moves: seq<StreamEvent>, e: StreamEvent, f: StreamEvent -> Option<T>)
    ensures Pick(moves + [e], f) == Pick(moves, f) + if f(e).Some? then [f(e).value] else []
  {
    assert (moves + [e])[..|moves|] == moves;
  }

  /** A client-streaming target that ended without its reply: an old server, tolerated. */
  predicate Tolerated(info: Info, e: StreamEvent) {
    e.TargetFails? && e.cardinality && info.rpc.clientStreams && !info.rpc.serverStreams
  }

  /** The error that a move passes to CloseWith: a refusal, an input that cannot be judged, a
      dry run that passed, a target that failed, or a half-close that failed. */
  function ClosesWith(info: Info, e: StreamEvent): Option<Failure> {
    match e
    case Judges(refusal) =>
      if refusal.None? && info.dryRun then Some(Status(10, "authz dry run passed")) else refusal
    case InputFails(err) => Some(err)
    case TargetFails(err, _, _) => if Tolerated(info, e) then None else Some(err)
    case SeesClosed(closeError) => if info.rpc.clientStreams then closeError else None
    case _ => None
  }

  /** The error of a move that only returns it to the group. */
  function OnlyReturns(e: StreamEvent): Option<Failure> {
    match e
    case DialFails(err) => Some(Wrap("could not connect to target from the proxy: ", err))
    case NewStreamFails(err) => Some(Wrap("could not connect to target from the proxy: ", err))
    case SeesCancel(err) => Some(err)
    case Delivers(Broken(err)) => Some(Wrap("Proxy could not send request to target: ", err))
    case PackFails(err) => Some(err)
    case _ => None
  }

  function ClosingErrors(info: Info, moves: seq<StreamEvent>): seq<Failure> {
    Pick(moves, e => ClosesWith(info, e))
  }

  function ReturnedErrors(moves: seq<StreamEvent>): seq<Failure> {
    Pick(moves, OnlyReturns)
  }

  /** What closing the connection came to, once the group has ended. */
  function ConnectionError(moves: seq<StreamEvent>): Option<Failure> {
    if moves != [] && moves[|moves| - 1].GroupEnds? then moves[|moves| - 1].closeError else None
  }

  /** The status of ServerClose: the first error passed to CloseWith, else the first that a
      goroutine returned, else that of closing the connection, else OK. */
  function StatusBy(info: Info, moves: seq<StreamEvent>): Status {
    if ClosingErrors(info, moves) != [] then ClosingErrors(info, moves)[0]
    else if ReturnedErrors(moves) != [] then ReturnedErrors(moves)[0]
    else if ConnectionError(moves).Some? then ConnectionError(moves).value
    else OK
  }

  function Took(e: StreamEvent): Option<bool> {
    if e.Takes? then Some(true) else None
  }

  function Approval(e: StreamEvent): Option<bool> {
    if e.Judges? then Some(e.refusal.None?) else None
  }

  function Outcome(e: StreamEvent): Option<SendResult> {
    if e.Delivers? then Some(e.outcome) else None
  }

  function GotFromTarget(e: StreamEvent): Option<Payload> {
    if e.Gets? then Some(e.payload) else None
  }

  function MadeUpBy(info: Info, e: StreamEvent): Option<Payload> {
    if Tolerated(info, e) then Some(e.empty) else None
  }

  function MadeUpIn(info: Info, moves: seq<StreamEvent>): seq<Payload> {
    Pick(moves, e => MadeUpBy(info, e))
  }

  /** After this move the sending goroutine is done. */
  predicate EndsSender(info: Info, e: StreamEvent) {
    match e
    case DialFails(_) => true
    case NewStreamFails(_) => true
    case SeesCancel(_) => true
    case SeesClosed(_) => true
    case InputFails(_) => true
    case Judges(refusal) => refusal.Some? || info.dryRun
    case Delivers(outcome) => !outcome.Accepted? || !info.rpc.clientStreams
    case _ => false
  }

  /** After this move the receiving goroutine is done. */
  predicate EndsReceiver(info: Info, e: StreamEvent) {
    e.TargetEnds? || e.PackFails? || (e.TargetFails? && !Tolerated(info, e))
  }

  predicate Dials(e: StreamEvent) {
    e.Connects? || e.NewStreamFails?
  }

  /** A stream's own moves that cancel it. */
  predicate CancelsItself(info: Info, e: StreamEvent) {
    ClosesWith(info, e).Some? || e.DialFails? || e.NewStreamFails? || (e.Delivers? && !e.outcome.Accepted?)
  }

  // ---- The records agree with the moves ----

  ghost predicate ErrorsAgree(st: Stream, moves: seq<StreamEvent>) {
    && st.err.closeWiths == ClosingErrors(st.info, moves)
    && (st.err.closeWiths == [] ==> st.err.returned == ReturnedErrors(moves))
    && (st.err.closeWiths != [] ==> st.cancelled)
    && (st.dialed <==> exists e :: e in moves && Dials(e))
    && (st.snd.phase.Dialing? || st.dialed || st.err.returned != [])
    && st.err.connErr == (if st.dialed then ConnectionError(moves) else None)
  }

  ghost predicate SenderAgrees(st: Stream, moves: seq<StreamEvent>) {
    && |st.snd.taken| == |Pick(moves, Took)|
    && |st.snd.verdicts| == |Pick(moves, Approval)|
    && (forall k :: 0 <= k < |st.snd.verdicts| ==> st.snd.verdicts[k].approved == Pick(moves, Approval)[k])
    && |st.snd.delivered| == |Pick(moves, Outcome)|
    && (st.snd.phase.SenderDone? <==> exists e :: e in moves && EndsSender(st.info, e))
    && ((exists e :: e in moves && e.SeesClosed?) ==>
          st.inbox.closed && st.inbox.queue == [] && |st.snd.delivered| == |st.snd.taken| && st.snd.phase.SenderDone?)
  }

  ghost predicate ReceiverAgrees(st: Stream, moves: seq<StreamEvent>) {
    && st.rcv.received == Pick(moves, GotFromTarget)
    && st.rcv.madeUp == MadeUpIn(st.info, moves)
    && (st.rcv.phase.NotStarted? <==> Connects !in moves)
    && (st.rcv.phase.Forwarding? && st.rcv.phase.last ==> st.rcv.madeUp != [])
    && (st.rcv.phase.ReceiverDone? ==> st.rcv.madeUp != [] || exists e :: e in moves && EndsReceiver(st.info, e))
    && ((exists e :: e in moves && EndsReceiver(st.info, e)) ==> st.rcv.phase.ReceiverDone?)
  }

  ghost predicate Agrees(st: Stream, moves: seq<StreamEvent>) {
    ErrorsAgree(st, moves) && SenderAgrees(st, moves) && ReceiverAgrees(st, moves)
  }

  /** What a move does to the errors, the context and the connection of its stream. */
  ghost predicate Effect(a: Stream, e: StreamEvent, b: Stream) {
    var cw, rt := ClosesWith(a.info, e), OnlyReturns(e);
    && b.info == a.info
    && b.err.closeWiths == (if cw.Some? then a.err.closeWiths + [cw.value] else a.err.closeWiths)
    && (cw.None? ==> b.err.returned == if rt.Some? then a.err.returned + [rt.value] else a.err.returned)
    && b.cancelled == (a.cancelled || CancelsItself(a.info, e))
    && b.dialed == (a.dialed || Dials(e))
    && b.err.connErr == (if e.GroupEnds? then if a.dialed then e.closeError else None else a.err.connErr)
    && (b.snd.phase.Dialing? ==> a.snd.phase.Dialing?)
    && (a.snd.phase.Dialing? && !b.snd.phase.Dialing? ==> Dials(e) || e.DialFails?)
    && (a.err.returned != [] ==> b.err.returned != [])
  }

  lemma ReturnsAre(e: StreamEvent)
    ensures OnlyReturns(e) ==
            match e
            case DialFails(err) => Some(DialError(err))
            case NewStreamFails(err) => Some(DialError(err))
            case SeesCancel(err) => Some(err)
            case Delivers(Broken(err)) => Some(SendError(err))
            case PackFails(err) => Some(err)
            case _ => None
  {}

  lemma GivesUpEffect(st: Stream, ctxDone: bool, e: StreamEvent)
    requires CanStep(st, ctxDone, e) && (st.err.slot.Some? ==> st.cancelled)
    requires e.DialFails? || e.NewStreamFails? || e.SeesCancel? || e.SeesClosed? || e.InputFails?
    ensures Effect(st, e, Step(st, ctxDone, e))
  {
    hide OnlyReturns, DialError, SendError, RecvError;
    ReturnsAre(e);
  }

  lemma SendsEffect(st: Stream, ctxDone: bool, e: StreamEvent)
    requires CanStep(st, ctxDone, e) && (st.err.slot.Some? ==> st.cancelled)
    requires e.Connects? || e.Takes? || e.Delivers?
    ensures Effect(st, e, Step(st, ctxDone, e))
  {
    hide OnlyReturns, DialError, SendError, RecvError;
    ReturnsAre(e);
  }

  lemma JudgesEffect(st: Stream, ctxDone: bool, e: StreamEvent)
    requires CanStep(st, ctxDone, e) && (st.err.slot.Some? ==> st.cancelled) && e.Judges?
    ensures Effect(st, e, Step(st, ctxDone, e))
  {
    hide OnlyReturns, DialError, SendError, RecvError;
    ReturnsAre(e);
  }

  lemma ReceivesEffect(st: Stream, ctxDone: bool, e: StreamEvent)
    requires CanStep(st, ctxDone, e) && (st.err.slot.Some? ==> st.cancelled)
    requires e.Gets? || e.TargetEnds? || e.PackFails? || e.GroupEnds?
    ensures Effect(st, e, Step(st, ctxDone, e))
  {
    hide OnlyReturns, DialError, SendError, RecvError;
    ReturnsAre(e);
  }

  lemma TargetFailsEffect(st: Stream, ctxDone: bool, e: StreamEvent)
    requires CanStep(st, ctxDone, e) && (st.err.slot.Some? ==> st.cancelled) && e.TargetFails?
    ensures Effect(st, e, Step(st, ctxDone, e))
  {
    hide OnlyReturns, DialError, SendError, RecvError;
    ReturnsAre(e);
  }

  lemma StepEffect(st: Stream, ctxDone: bool, e: StreamEvent)
    requires CanStep(st, ctxDone, e) && (st.err.slot.Some? ==> st.cancelled)
    ensures Effect(st, e, Step(st, ctxDone, e))
  {
    hide Effect, Step, CanStep;
    if e.Connects? || e.Takes? || e.Delivers? {
      SendsEffect(st, ctxDone, e);
    } else if e.Judges? {
      JudgesEffect(st, ctxDone, e);
    } else if e.TargetFails? {
      TargetFailsEffect(st, ctxDone, e);
    } else if e.Gets? || e.TargetEnds? || e.PackFails? || e.GroupEnds? {
      ReceivesEffect(st, ctxDone, e);
    } else {
      GivesUpEffect(st, ctxDone, e);
    }
  }

  lemma ErrorsGrow(info: Info, moves: seq<StreamEvent>, e: StreamEvent)
    ensures ClosingErrors(info, moves + [e]) ==
            if ClosesWith(info, e).Some? then ClosingErrors(info, moves) + [ClosesWith(info, e).value] else ClosingErrors(info, moves)
    ensures ReturnedErrors(moves + [e]) == if OnlyReturns(e).Some? then ReturnedErrors(moves) + [OnlyReturns(e).value] else ReturnedErrors(moves)
  {
    hide Pick, ClosesWith, OnlyReturns;
    PickAppend(moves, e, x => ClosesWith(info, x));
    PickAppend(moves, e, OnlyReturns);
  }

  lemma ErrorsStep(st: Stream, ctxDone: bool, e: StreamEvent, moves: seq<StreamEvent>)
    requires StreamOk(st) && CanStep(st, ctxDone, e) && ErrorsAgree(st, moves)
    ensures ErrorsAgree(Step(st, ctxDone, e), moves + [e])
    ensures Step(st, ctxDone, e).cancelled == (st.cancelled || CancelsItself(st.info, e))
  {
    hide SenderOk, ReceiverOk, ModeOk, Step, CanStep, ClosingErrors, ReturnedErrors, ClosesWith, OnlyReturns, DialError, SendError;
    Stepping(st, ctxDone, e);
    ReturnsAre(e);
    ClosesOrNot(st.info, e);
    StepEffect(st, ctxDone, e);
    ErrorsGrow(st.info, moves, e);
    assert e in moves + [e];
  }

  lemma ClosesOrNot(info: Info, e: StreamEvent)
    ensures e.DialFails? || e.GroupEnds? ==> ClosesWith(info, e) == None
  {}

  lemma Stepping(st: Stream, ctxDone: bool, e: StreamEvent)
    requires CanStep(st, ctxDone, e)
    ensures st.run == Running
  {}

  // ---- The goroutines ----

  ghost predicate SenderEffect(a: Stream, e: StreamEvent, b: Stream) {
    && |b.snd.taken| == |a.snd.taken| + (if e.Takes? then 1 else 0)
    && |b.snd.delivered| == |a.snd.delivered| + (if e.Delivers? then 1 else 0)
    && |b.snd.verdicts| == |a.snd.verdicts| + (if e.Judges? then 1 else 0) && a.snd.verdicts <= b.snd.verdicts
    && (e.Judges? ==> b.snd.verdicts[|a.snd.verdicts|].approved == e.refusal.None?)
    && (b.snd.phase.SenderDone? <==> a.snd.phase.SenderDone? || EndsSender(a.info, e))
    && b.inbox.closed == a.inbox.closed && (a.snd.phase.SenderDone? ==> b.snd == a.snd && b.inbox == a.inbox)
    && (e.SeesClosed? ==> a.snd.phase.Selecting? && a.inbox.closed && a.inbox.queue == [] && b.inbox == a.inbox)
  }

  lemma SenderMoves(st: Stream, ctxDone: bool, e: StreamEvent)
    requires CanStep(st, ctxDone, e) && (e.Connects? || e.Takes? || e.Judges? || e.Delivers?)
    ensures SenderEffect(st, e, Step(st, ctxDone, e))
  {
    hide SendError;
  }

  lemma OtherMoves(st: Stream, ctxDone: bool, e: StreamEvent)
    requires CanStep(st, ctxDone, e) && !(e.Connects? || e.Takes? || e.Judges? || e.Delivers?)
    ensures SenderEffect(st, e, Step(st, ctxDone, e))
  {
    hide DialError, SendError, RecvError, Judge, Deliver;
  }

  lemma StepSends(st: Stream, ctxDone: bool, e: StreamEvent)
    requires CanStep(st, ctxDone, e)
    ensures SenderEffect(st, e, Step(st, ctxDone, e))
  {
    hide CanStep, Step, SenderEffect;
    if e.Connects? || e.Takes? || e.Judges? || e.Delivers? {
      SenderMoves(st, ctxDone, e);
    } else {
      OtherMoves(st, ctxDone, e);
    }
  }

  ghost predicate ReceiverEffect(a: Stream, e: StreamEvent, b: Stream) {
    && b.rcv.received == (if e.Gets? then a.rcv.received + [e.payload] else a.rcv.received)
    && b.rcv.madeUp == (if Tolerated(a.info, e) then [e.empty] else a.rcv.madeUp)
    && (b.rcv.phase.NotStarted? <==> a.rcv.phase.NotStarted? && !e.Connects?)
    && (b.rcv.phase.Forwarding? && b.rcv.phase.last ==> Tolerated(a.info, e) || b.rcv == a.rcv)
    && (b.rcv.phase.ReceiverDone? <==> a.rcv.phase.ReceiverDone? || EndsReceiver(a.info, e))
    && (Tolerated(a.info, e) || EndsReceiver(a.info, e) ==> a.rcv.phase.Receiving?)
  }

  lemma StepReceives(st: Stream, ctxDone: bool, e: StreamEvent)
    requires CanStep(st, ctxDone, e) && (st.snd.phase.Dialing? ==> st.rcv.phase.NotStarted?)
    ensures ReceiverEffect(st, e, Step(st, ctxDone, e))
  {
    hide DialError, SendError, RecvError;
  }

  lemma SenderStep(st: Stream, ctxDone: bool, e: StreamEvent, moves: seq<StreamEvent>)
    requires StreamOk(st) && CanStep(st, ctxDone, e) && SenderAgrees(st, moves)
    ensures SenderAgrees(Step(st, ctxDone, e), moves + [e])
  {
    hide ReceiverOk, RunOk, ModeOk, Step, CanStep, Pick;
    StepSends(st, ctxDone, e);
    KeepsInfo(st, ctxDone, e);
    PickAppend(moves, e, Took);
    PickAppend(moves, e, Approval);
    PickAppend(moves, e, Outcome);
    assert e in moves + [e];
  }

  lemma KeepsInfo(st: Stream, ctxDone: bool, e: StreamEvent)
    requires CanStep(st, ctxDone, e)
    ensures Step(st, ctxDone, e).info == st.info
  {
    hide DialError, SendError, RecvError;
  }

  lemma ReceiverStep(st: Stream, ctxDone: bool, e: StreamEvent, moves: seq<StreamEvent>)
    requires StreamOk(st) && CanStep(st, ctxDone, e) && ReceiverAgrees(st, moves)
    ensures ReceiverAgrees(Step(st, ctxDone, e), moves + [e])
  {
    hide SenderOk, ModeOk, Step, CanStep, Pick, EndsReceiver, Tolerated;
    StepReceives(st, ctxDone, e);
    KeepsInfo(st, ctxDone, e);
    PickAppend(moves, e, GotFromTarget);
    PickAppend(moves, e, x => MadeUpBy(st.info, x));
    assert e in moves + [e];
  }

  /** One move of the stream. */
  lemma MoveAgrees(st: Stream, ctxDone: bool, e: StreamEvent, moves: seq<StreamEvent>)
    requires StreamOk(st) && CanStep(st, ctxDone, e) && Agrees(st, moves)
    ensures Agrees(Step(st, ctxDone, e), moves + [e])
    ensures Step(st, ctxDone, e).cancelled == (st.cancelled || CancelsItself(st.info, e))
  {
    hide StreamOk, Step, CanStep, ErrorsAgree, SenderAgrees, ReceiverAgrees;
    ErrorsStep(st, ctxDone, e, moves);
    SenderStep(st, ctxDone, e, moves);
    ReceiverStep(st, ctxDone, e, moves);
  }

  // ---- Everything else that happens ----

  /** A handled ClientCancel that gets to id while its stream is open. */
  ghost predicate CancelledNow(s: Server, e: Event, id: Id) {
    e.Handle? && e.req.ClientCancel? && Open(s, id) && id in Known(s.table, e.req.ids)
  }

  /** A ClientClose that names id, or half-close, while its stream is open. */
  predicate ClosedNow(s: Server, e: Event, id: Id) {
    Open(s, id) && (e.HalfClose? || (e.Handle? && e.req.ClientClose? && id in e.req.ids))
  }

  /** The stream did not move itself: at most a reply was forwarded, or it was shut or cancelled. */
  ghost predicate Undisturbed(a: Stream, b: Stream, cancels: bool, closes: bool) {
    && b.info == a.info && b.snd == a.snd && b.err == a.err && b.dialed == a.dialed
    && b.rcv.received == a.rcv.received && b.rcv.madeUp == a.rcv.madeUp
    && (b.rcv.phase == a.rcv.phase
        || (a.rcv.phase.Forwarding? && b.rcv.phase == if a.rcv.phase.last then ReceiverDone else Receiving))
    && b.cancelled == (a.cancelled || cancels) && b.inbox.closed == (a.inbox.closed || closes)
    && (a.inbox.closed ==> b.inbox.queue == a.inbox.queue)
  }

  lemma LeftAlone(a: Stream)
    ensures Undisturbed(a, a, false, false)
  {}

  lemma PutElsewhere(s: Server, x: Id, b: Stream, id: Id)
    requires Open(s, x) && id in Issued(s.table)
    ensures id in Issued(Put(s, x, b).table) && At(Put(s, x, b).table, id) == if x == id then b else At(s.table, id)
  {}

  lemma PutUndisturbed(s: Server, x: Id, b: Stream, id: Id)
    requires Open(s, x) && id in Issued(s.table) && Undisturbed(s.table.streams[x], b, false, false)
    ensures id in Issued(Put(s, x, b).table) && Undisturbed(At(s.table, id), At(Put(s, x, b).table, id), false, false)
  {
    hide Undisturbed;
    PutElsewhere(s, x, b, id);
    LeftAlone(At(s.table, id));
  }

  lemma HandOffUndisturbed(c: Config, s: Server, x: Id, id: Id)
    requires Inv(c, s) && Open(s, x) && s.table.streams[x].run.HandingOff? && id in Issued(s.table)
    ensures var t := Without(s.table, x); id in Issued(t) && Undisturbed(At(s.table, id), At(t, id), false, false)
  {
    hide Inv, Undisturbed;
    CountedOf(c, s);
    WithoutSet(s.table, x, Without(s.table, x));
    LeftAlone(At(s.table, id));
    FinishUndisturbed(s.table.streams[x]);
  }

  lemma FinishUndisturbed(st: Stream)
    ensures Undisturbed(st, Finish(st), false, false)
  {}

  /** Many streams are shut or cancelled at once. */
  lemma TunedUndisturbed(t: StreamSet, t': StreamSet, id: Id, cancels: bool, closes: bool)
    requires id in Issued(t) && t'.closed == t.closed && t'.streams.Keys == t.streams.Keys
    requires id in t.streams ==> Undisturbed(t.streams[id], t'.streams[id], cancels, closes)
    requires id !in t.streams ==> !cancels && !closes
    ensures id in Issued(t') && Undisturbed(At(t, id), At(t', id), cancels, closes)
  {}

  lemma StartElsewhere(c: Config, s: Server, req: Request, newId: Id, id: Id)
    requires req.StartStream? && newId !in Issued(s.table) && id in Issued(s.table)
    ensures var t := Start(c, s, req, newId).table; id in Issued(t) && At(t, id) == At(s.table, id)
  {
    hide Reused, PairOf, NewStream;
  }

  lemma ShutsListed(t: StreamSet, ids: seq<Id>, id: Id)
    requires id in t.streams
    ensures Undisturbed(t.streams[id], ShutListed(t.streams, ids)[id], false, id in ids)
  {}

  lemma CancelsKnown(s: Server, ids: seq<Id>, id: Id)
    requires id in s.table.streams
    ensures var t := CancelIds(s, ids).table;
            id in t.streams && Undisturbed(s.table.streams[id], t.streams[id], id in Known(s.table, ids), false)
  {
    hide Known;
  }

  lemma RequestUndisturbed(c: Config, s: Server, req: Request, newId: Id, id: Id)
    requires newId !in Issued(s.table) && id in Issued(s.table)
    ensures var t := Dispatched(c, s, req, newId).table; var e := Handle(req, newId);
            id in Issued(t) && Undisturbed(At(s.table, id), At(t, id), CancelledNow(s, e, id), ClosedNow(s, e, id))
  {
    hide Start, Data, CancelIds, ShutListed, Known, Undisturbed;
    LeftAlone(At(s.table, id));
    match req
    case StartStream(_, _, _, _) => StartElsewhere(c, s, req, newId, id);
    case StreamData(ids, p) => DataKeys(c, s, ids, p);
    case ClientClose(ids) =>
      ShutKeys(s.table.streams, ids);
      if Open(s, id) {
        ShutsListed(s.table, ids, id);
      }
      TunedUndisturbed(s.table, s.table.(streams := ShutListed(s.table.streams, ids)), id, false, Open(s, id) && id in ids);
    case ClientCancel(ids) =>
      CancelKeys(s, ids);
      if Open(s, id) {
        CancelsKnown(s, ids, id);
      }
      TunedUndisturbed(s.table, CancelIds(s, ids).table, id, Open(s, id) && id in Known(s.table, ids), false);
    case UnknownRequest =>
  }

  lemma LaunchUndisturbed(s: Server, announced: bool, id: Id)
    requires id in Issued(s.table)
    ensures var t := Launch(s, announced).table; id in Issued(t) && Undisturbed(At(s.table, id), At(t, id), false, false)
  {
    LeftAlone(At(s.table, id));
    if s.dispatch.Replying? && s.dispatch.starting.Some? && s.dispatch.starting.value in s.table.streams {
      var x := s.dispatch.starting.value;
      PutUndisturbed(s.(dispatch := Idle), x, s.table.streams[x].(run := Running, announced := announced), id);
    }
  }

  /** An event that is not a move of id's own goroutines. */
  lemma Elsewhere(c: Config, s: Server, e: Event, id: Id)
    requires Inv(c, s) && Enabled(c, s, e) && id in Issued(s.table) && !(e.Local? && e.id == id)
    ensures var t := Apply(c, s, e).table;
            id in Issued(t) && Undisturbed(At(s.table, id), At(t, id), CancelledNow(s, e, id), ClosedNow(s, e, id))
  {
    hide Inv, Step, CanStep, Dispatched, Launch, Known, Undisturbed;
    LeftAlone(At(s.table, id));
    match e
    case Local(x, move) => PutElsewhere(s, x, Step(s.table.streams[x], s.ctxDone, move), id);
    case Forward(x) =>
      ForwardUndisturbed(s.table.streams[x]);
      PutUndisturbed(s, x, Forwarded(s.table.streams[x]), id);
    case WriteClose(x) =>
      WriteUndisturbed(s.table.streams[x]);
      PutUndisturbed(s, x, CloseWritten(s.table.streams[x]), id);
    case HandOff(x) => HandOffUndisturbed(c, s, x, id);
    case Abandon(x) =>
      FinishUndisturbed(s.table.streams[x]);
      PutUndisturbed(s, x, Finish(s.table.streams[x]), id);
    case Handle(req, newId) => RequestUndisturbed(c, s.(handled := s.handled + [req]), req, newId, id);
    case WriteStart => LaunchUndisturbed(s, true, id);
    case DropStart => LaunchUndisturbed(s, false, id);
    case Enqueue =>
      var x := s.dispatch.todo[0];
      PushUndisturbed(s.table.streams[x], s.dispatch.payload);
      PutUndisturbed(s, x, Push(s.table.streams[x], s.dispatch.payload), id);
    case HalfClose =>
      AllShut(s.table, id);
      TunedUndisturbed(s.table, HalfClosed(s).table, id, false, Open(s, id));
    case _ =>
  }

  lemma ForwardUndisturbed(st: Stream)
    requires st.rcv.phase.Forwarding?
    ensures Undisturbed(st, Forwarded(st), false, false)
  {}

  lemma WriteUndisturbed(st: Stream)
    requires st.run.Closing?
    ensures Undisturbed(st, CloseWritten(st), false, false)
  {}

  lemma PushUndisturbed(st: Stream, p: Payload)
    requires !st.inbox.closed
    ensures Undisturbed(st, Push(st, p), false, false)
  {}

  lemma AllShut(t: StreamSet, id: Id)
    ensures id in t.streams ==> Undisturbed(t.streams[id], ShutAll(t.streams)[id], false, true)
  {}

  lemma UndisturbedAgrees(a: Stream, b: Stream, cancels: bool, closes: bool, moves: seq<StreamEvent>)
    requires Undisturbed(a, b, cancels, closes) && Agrees(a, moves)
    ensures Agrees(b, moves)
  {
    hide Pick, EndsReceiver, EndsSender, Dials;
  }

  lemma NewAgrees(info: Info)
    ensures Agrees(NewStream(info), [])
  {}

  // ---- Whole runs ----

  /** Started by the run, and not handed off yet. */
  predicate OpenAfter(c: Config, run: seq<Event>, id: Id) {
    After(c, run).Some? && id in Created(c, run) && id !in HandedOff(run)
  }

  /** id is listed, and every id up to there was issued. */
  ghost predicate Reaches(c: Config, run: seq<Event>, ids: seq<Id>, id: Id)
    requires After(c, run).Some?
  {
    exists j :: 0 <= j < |ids| && ids[j] == id && forall i :: 0 <= i <= j ==> ids[i] in Created(c, run)
  }

  /** After run, event e cancels stream id: by one of the stream's own moves, or by a
      ClientCancel that names it, while open, before the first id never issued. */
  ghost predicate CancelsAt(c: Config, run: seq<Event>, e: Event, id: Id, info: Info) {
    || (e.Local? && e.id == id && CancelsItself(info, e.move))
    || (e.Handle? && e.req.ClientCancel? && OpenAfter(c, run, id) && Reaches(c, run, e.req.ids, id))
  }

  /** After run, event e closes the request channel of id: a ClientClose that names it, or half-close. */
  predicate ShutsAt(c: Config, run: seq<Event>, e: Event, id: Id) {
    OpenAfter(c, run, id) && (e.HalfClose? || (e.Handle? && e.req.ClientClose? && id in e.req.ids))
  }

  /** After run, event e registers id as a stream for a StartStream with these parameters. */
  predicate StartsAt(c: Config, run: seq<Event>, e: Event, id: Id, info: Info) {
    && After(c, run).Some? && Registers(c, After(c, run).value, e) && e.newId == id
    && info == Info(e.req.target, e.req.nonce, c.methods[e.req.methodName], e.req.dryRun)
  }

  ghost predicate Cancelled(c: Config, run: seq<Event>, id: Id, info: Info) {
    exists k :: 0 <= k < |run| && CancelsAt(c, run[..k], run[k], id, info)
  }

  ghost predicate ShutIn(c: Config, run: seq<Event>, id: Id) {
    exists k :: 0 <= k < |run| && ShutsAt(c, run[..k], run[k], id)
  }

  ghost predicate StartedIn(c: Config, run: seq<Event>, id: Id, info: Info) {
    exists k :: 0 <= k < |run| && StartsAt(c, run[..k], run[k], id, info)
  }

  lemma CancelledGrows(c: Config, run: seq<Event>, id: Id, info: Info)
    requires run != []
    ensures var n := |run| - 1;
            Cancelled(c, run, id, info) <==> Cancelled(c, run[..n], id, info) || CancelsAt(c, run[..n], run[n], id, info)
  {
    hide CancelsAt;
    var n := |run| - 1;
    assert forall k :: 0 <= k < n ==> run[..n][..k] == run[..k] && run[..n][k] == run[k];
  }

  lemma ShutGrows(c: Config, run: seq<Event>, id: Id)
    requires run != []
    ensures var n := |run| - 1; ShutIn(c, run, id) <==> ShutIn(c, run[..n], id) || ShutsAt(c, run[..n], run[n], id)
  {
    hide ShutsAt;
    var n := |run| - 1;
    assert forall k :: 0 <= k < n ==> run[..n][..k] == run[..k] && run[..n][k] == run[k];
  }

  lemma StartedGrows(c: Config, run: seq<Event>, id: Id, info: Info)
    requires run != []
    ensures var n := |run| - 1;
            StartedIn(c, run, id, info) <==> StartedIn(c, run[..n], id, info) || StartsAt(c, run[..n], run[n], id, info)
  {
    hide StartsAt;
    var n := |run| - 1;
    assert forall k :: 0 <= k < n ==> run[..n][..k] == run[..k] && run[..n][k] == run[k];
  }

  lemma MovesGrow(run: seq<Event>, id: Id)
    requires run != []
    ensures var n := |run| - 1; var e := run[n];
            MovesOf(run, id) == if e.Local? && e.id == id then MovesOf(run[..n], id) + [e.move] else MovesOf(run[..n], id)
  {}

  lemma {:induction false} KnownReaches(t: StreamSet, ids: seq<Id>, id: Id)
    ensures id in Known(t, ids) <==>
            exists j :: 0 <= j < |ids| && ids[j] == id && forall i :: 0 <= i <= j ==> ids[i] in Issued(t)
  {
    if ids != [] && ids[0] in Issued(t) {
      var rest := ids[1..];
      KnownReaches(t, rest, id);
      if id in Known(t, rest) {
        var j :| 0 <= j < |rest| && rest[j] == id && forall i :: 0 <= i <= j ==> rest[i] in Issued(t);
        assert ids[j + 1] == id && forall i :: 1 <= i <= j + 1 ==> ids[i] == rest[i - 1];
      }
      if j :| 0 < j < |ids| && ids[j] == id && forall i :: 0 <= i <= j ==> ids[i] in Issued(t) {
        assert rest[j - 1] == id && forall i :: 0 <= i <= j - 1 ==> rest[i] == ids[i + 1];
      }
    }
  }

  /** What the dispatcher sees now is what the run says. */
  lemma NowIsThen(c: Config, run: seq<Event>, e: Event, id: Id)
    requires After(c, run).Some?
    ensures var s := After(c, run).value;
            && (Open(s, id) <==> OpenAfter(c, run, id))
            && (id in Issued(s.table) <==> id in Created(c, run))
            && (CancelledNow(s, e, id) <==> e.Handle? && e.req.ClientCancel? && OpenAfter(c, run, id) && Reaches(c, run, e.req.ids, id))
            && (ClosedNow(s, e, id) <==> ShutsAt(c, run, e, id))
  {
    hide After, Created, HandedOff, Known;
    IssuedPartition(c, run);
    var t := After(c, run).value.table;
    assert Issued(t) == Created(c, run);
    if e.Handle? && e.req.ClientCancel? {
      KnownReaches(t, e.req.ids, id);
    }
  }

  /** The record of id is what the run says of it; an id never issued was never heard of. */
  ghost predicate Recorded(c: Config, run: seq<Event>, id: Id)
    requires After(c, run).Some?
  {
    var t := After(c, run).value.table;
    if id in Issued(t) then
      var st := At(t, id);
      && Agrees(st, MovesOf(run, id))
      && (st.cancelled <==> Cancelled(c, run, id, st.info))
      && (st.inbox.closed <==> ShutIn(c, run, id))
      && StartedIn(c, run, id, st.info)
    else MovesOf(run, id) == [] && !ShutIn(c, run, id) && forall info :: !Cancelled(c, run, id, info)
  }

  lemma NewlyIssued(c: Config, s: Server, e: Event, id: Id)
    requires Enabled(c, s, e) && id !in Issued(s.table)
    ensures var t := Apply(c, s, e).table;
            if Registers(c, s, e) && e.newId == id
            then id in Issued(t) && At(t, id) == NewStream(Info(e.req.target, e.req.nonce, c.methods[e.req.methodName], e.req.dryRun))
            else id !in Issued(t)
  {
    hide Enabled, Apply, Reused, NewStream;
    KeysStep(c, s, e);
    if Registers(c, s, e) && e.newId == id {
      RegisteredAs(c, s, e);
    }
  }

  lemma RegisteredAs(c: Config, s: Server, e: Event)
    requires Enabled(c, s, e) && Registers(c, s, e)
    ensures e.newId in Apply(c, s, e).table.streams
    ensures Apply(c, s, e).table.streams[e.newId] == NewStream(Info(e.req.target, e.req.nonce, c.methods[e.req.methodName], e.req.dryRun))
  {
    hide Reused, NewStream, PairOf;
  }

  lemma OwnMoveRecorded(c: Config, run: seq<Event>, id: Id)
    requires run != [] && After(c, run).Some? && Recorded(c, run[..|run| - 1], id)
    requires var e := run[|run| - 1]; e.Local? && e.id == id
    ensures Recorded(c, run, id)
  {
    hide StreamOk, Step, CanStep, Agrees, Inv, MovesOf, ClosesWith, Cancelled, ShutIn, StartedIn, Created, HandedOff;
    var n := |run| - 1;
    var s, e := After(c, run[..n]).value, run[n];
    AfterInv(c, run[..n]);
    StreamsOf(c, s, id);
    MovesGrow(run, id);
    MoveAgrees(s.table.streams[id], s.ctxDone, e.move, MovesOf(run[..n], id));
    StepKeepsOk(s.table.streams[id], s.ctxDone, e.move);
    CancelledGrows(c, run, id, s.table.streams[id].info);
    ShutGrows(c, run, id);
    StartedGrows(c, run, id, s.table.streams[id].info);
  }

  lemma ElsewhereRecorded(c: Config, run: seq<Event>, id: Id)
    requires run != [] && After(c, run).Some? && Recorded(c, run[..|run| - 1], id)
    requires var e := run[|run| - 1]; !(e.Local? && e.id == id)
    requires id in Issued(After(c, run[..|run| - 1]).value.table)
    ensures Recorded(c, run, id)
  {
    hide Inv, Enabled, Apply, Agrees, MovesOf, Cancelled, ShutIn, StartedIn, Created, HandedOff, Reaches, OpenAfter,
      CancelledNow, ClosedNow, ShutsAt, StartsAt;
    var n := |run| - 1;
    var s, e := After(c, run[..n]).value, run[n];
    var st := At(s.table, id);
    AfterInv(c, run[..n]);
    Elsewhere(c, s, e, id);
    NowIsThen(c, run[..n], e, id);
    UndisturbedAgrees(st, At(After(c, run).value.table, id), CancelledNow(s, e, id), ClosedNow(s, e, id), MovesOf(run[..n], id));
    MovesGrow(run, id);
    CancelledGrows(c, run, id, st.info);
    ShutGrows(c, run, id);
    StartedGrows(c, run, id, st.info);
  }

  lemma UnissuedRecorded(c: Config, run: seq<Event>, id: Id)
    requires run != [] && After(c, run).Some? && Recorded(c, run[..|run| - 1], id)
    requires id !in Issued(After(c, run[..|run| - 1]).value.table)
    ensures Recorded(c, run, id)
  {
    hide Apply, Agrees, MovesOf, Cancelled, ShutIn, StartedIn, Created, HandedOff, Reaches, CanStep;
    var n := |run| - 1;
    var s, e := After(c, run[..n]).value, run[n];
    NewlyIssued(c, s, e, id);
    NowIsThen(c, run[..n], e, id);
    MovesGrow(run, id);
    ShutGrows(c, run, id);
    forall info
      ensures !Cancelled(c, run, id, info)
    {
      CancelledGrows(c, run, id, info);
    }
    if Registers(c, s, e) && e.newId == id {
      var info := At(After(c, run).value.table, id).info;
      NewAgrees(info);
      StartedGrows(c, run, id, info);
    }
  }

  lemma {:induction false} RunRecorded(c: Config, run: seq<Event>, id: Id)
    requires After(c, run).Some?
    ensures Recorded(c, run, id)
  {
    if run != [] {
      hide Recorded;
      var n := |run| - 1;
      RunRecorded(c, run[..n], id);
      if id !in Issued(After(c, run[..n]).value.table) {
        UnissuedRecorded(c, run, id);
      } else if run[n].Local? && run[n].id == id {
        OwnMoveRecorded(c, run, id);
      } else {
        ElsewhereRecorded(c, run, id);
      }
    }
  }

  // ---- What every run says ----

  /** In every run: a stream was started by a StartStream with its parameters. */
  lemma StartedAsAsked(c: Config, run: seq<Event>, id: Id)
    requires After(c, run).Some? && id in Issued(After(c, run).value.table)
    ensures StartedIn(c, run, id, At(After(c, run).value.table, id).info)
  {
    RunRecorded(c, run, id);
  }

  /** In every run: a stream is cancelled if and only if one of its own moves cancelled it,
      or a ClientCancel named it, while open, before the first id never issued. In
      particular no close cancels. */
  lemma WhyCancelled(c: Config, run: seq<Event>, id: Id)
    requires After(c, run).Some? && id in Issued(After(c, run).value.table)
    ensures var st := At(After(c, run).value.table, id);
            st.cancelled <==> exists k :: 0 <= k < |run| && CancelsAt(c, run[..k], run[k], id, st.info)
  {
    RunRecorded(c, run, id);
  }

  /** In every run: the request channel of a stream is closed if and only if a ClientClose
      named it, or half-close came, while it was open. */
  lemma WhyShut(c: Config, run: seq<Event>, id: Id)
    requires After(c, run).Some? && id in Issued(After(c, run).value.table)
    ensures At(After(c, run).value.table, id).inbox.closed <==> exists k :: 0 <= k < |run| && ShutsAt(c, run[..k], run[k], id)
  {
    RunRecorded(c, run, id);
  }

  lemma StatusAgrees(st: Stream, moves: seq<StreamEvent>)
    requires StreamOk(st) && ErrorsAgree(st, moves) && st.closeSent.Some?
    ensures st.closeSent.value == StatusBy(st.info, moves)
  {
    hide SenderOk, ReceiverOk, ModeOk, ClosingErrors, ReturnedErrors;
  }

  /** In every run: the status of a stream's ServerClose is decided by its own moves. It is the
      first error passed to CloseWith, else the first that a goroutine returned, with its
      prefix, else that of closing the connection, else OK. A dry run that approved a request
      never closes OK, and closes Aborted unless a CloseWith came earlier. */
  lemma StatusPrecedence(c: Config, run: seq<Event>, id: Id, k: nat)
    requires After(c, run).Some?
    requires var s := After(c, run).value; k < |s.replies| && s.replies[k].CloseReply? && id in s.replies[k].ids
    ensures id in Issued(After(c, run).value.table)
    ensures var s, moves := After(c, run).value, MovesOf(run, id); var info := At(s.table, id).info;
            var closing, passed := ClosingErrors(info, moves), Status(10, "authz dry run passed");
            && s.replies[k] == CloseReply([id], StatusBy(info, moves))
            && (s.replies[k].status == OK <==> closing == [] && ReturnedErrors(moves) == [] && ConnectionError(moves) == None)
            && (info.dryRun && Judges(None) in moves ==>
                  passed in closing && s.replies[k].status != OK && (closing[0] == passed ==> s.replies[k].status == passed))
  {
    hide After, MovesOf, StreamOk, SenderAgrees, ReceiverAgrees, ErrorsAgree, ClosingErrors, ReturnedErrors;
    var s := After(c, run).value;
    RunRecorded(c, run, id);
    AfterStream(c, run, id);
    ProjectHas(s.replies, k, id);
    WireClose(id, At(s.table, id), s.replies[k]);
    StatusAgrees(At(s.table, id), MovesOf(run, id));
    if At(s.table, id).info.dryRun && Judges(None) in MovesOf(run, id) {
      PassedCloses(At(s.table, id).info, MovesOf(run, id));
    }
  }

  lemma {:induction false} PassedCloses(info: Info, moves: seq<StreamEvent>)
    requires info.dryRun && Judges(None) in moves
    ensures Status(10, "authz dry run passed") in ClosingErrors(info, moves)
  {
    var n := |moves| - 1;
    if Judges(None) in moves[..n] {
      PassedCloses(info, moves[..n]);
    }
  }

  lemma {:induction false} PickHas<T>(moves: seq<StreamEvent>, f: StreamEvent -> Option<T>, e: StreamEvent)
    ensures e in moves && f(e).Some? ==> Pick(moves, f) != []
  {
    if moves != [] {
      var n := |moves| - 1;
      PickHas(moves[..n], f, e);
      assert moves == moves[..n] + [moves[n]];
    }
  }

  /** The first picked value comes from the first move that f applies to. */
  lemma {:induction false} PickFirst<T>(moves: seq<StreamEvent>, f: StreamEvent -> Option<T>, j: nat)
    requires j < |moves| && f(moves[j]).Some? && forall i :: 0 <= i < j ==> f(moves[i]).None?
    ensures Pick(moves, f) != [] && Pick(moves, f)[0] == f(moves[j]).value
  {
    var n := |moves| - 1;
    if j < n {
      PickFirst(moves[..n], f, j);
    } else {
      PickNone(moves[..n], f);
    }
  }

  lemma {:induction false} PickNone<T>(moves: seq<StreamEvent>, f: StreamEvent -> Option<T>)
    ensures Pick(moves, f) == [] <==> forall i :: 0 <= i < |moves| ==> f(moves[i]).None?
  {
    if moves != [] {
      var n := |moves| - 1;
      PickNone(moves[..n], f);
      assert forall i :: 0 <= i < n ==> moves[..n][i] == moves[i];
    }
  }

  /** Move j decides the final status: it is the first that calls CloseWith; or none does, and it is
      the first that returns an error; or none does that either, and it ends the group. */
  ghost predicate Decides(info: Info, moves: seq<StreamEvent>, j: nat)
    requires j < |moves|
  {
    if exists e :: e in moves && ClosesWith(info, e).Some? then FirstTo(moves, e => ClosesWith(info, e), j)
    else if exists e :: e in moves && OnlyReturns(e).Some? then FirstTo(moves, OnlyReturns, j)
    else j == |moves| - 1 && moves[j].GroupEnds?
  }

  ghost predicate FirstTo(moves: seq<StreamEvent>, f: StreamEvent -> Option<Failure>, j: nat)
    requires j < |moves|
  {
    f(moves[j]).Some? && forall i :: 0 <= i < j ==> f(moves[i]).None?
  }

  /** The status is the error of the move that decides it. */
  lemma StatusDecided(info: Info, moves: seq<StreamEvent>, j: nat)
    requires j < |moves| && Decides(info, moves, j)
    ensures var e := moves[j];
            StatusBy(info, moves) ==
            if ClosesWith(info, e).Some? then ClosesWith(info, e).value
            else if OnlyReturns(e).Some? then OnlyReturns(e).value
            else if e.GroupEnds? && e.closeError.Some? then e.closeError.value
            else OK
  {
    hide Pick, ClosesWith, OnlyReturns;
    PickNone<Failure>(moves, e => ClosesWith(info, e));
    PickNone<Failure>(moves, OnlyReturns);
    assert moves[j] in moves;
    if exists e :: e in moves && ClosesWith(info, e).Some? {
      PickFirst<Failure>(moves, e => ClosesWith(info, e), j);
    } else if exists e :: e in moves && OnlyReturns(e).Some? {
      PickFirst<Failure>(moves, OnlyReturns, j);
    }
  }

  lemma {:induction false} SomeFirst(moves: seq<StreamEvent>, f: StreamEvent -> Option<Failure>) returns (j: nat)
    requires exists e :: e in moves && f(e).Some?
    ensures j < |moves| && FirstTo(moves, f, j)
  {
    if f(moves[0]).Some? {
      return 0;
    }
    var e :| e in moves && f(e).Some?;
    assert moves == [moves[0]] + moves[1..];
    j := SomeFirst(moves[1..], f);
    j := j + 1;
  }

  /** Unless the status is OK, some move decides it. */
  lemma SomeDecides(info: Info, moves: seq<StreamEvent>) returns (j: nat)
    requires StatusBy(info, moves) != OK
    ensures j < |moves| && Decides(info, moves, j)
  {
    hide Pick, ClosesWith, OnlyReturns;
    PickNone<Failure>(moves, e => ClosesWith(info, e));
    PickNone<Failure>(moves, OnlyReturns);
    if exists e :: e in moves && ClosesWith(info, e).Some? {
      j := SomeFirst(moves, e => ClosesWith(info, e));
    } else if exists e :: e in moves && OnlyReturns(e).Some? {
      j := SomeFirst(moves, OnlyReturns);
    } else {
      j := |moves| - 1;
    }
  }

  /** In every run: what a stream's goroutines took, judged, passed to the target and got from
      it, by their moves and the requests handled. */
  lemma HistoryOfRun(c: Config, run: seq<Event>, id: Id)
    requires After(c, run).Some? && id in Issued(After(c, run).value.table)
    ensures var s := After(c, run).value; var st := At(s.table, id); var moves := MovesOf(run, id);
            var asked, sent, verdicts := Requested(s.handled, id), Pick(moves, Outcome), Pick(moves, Approval);
            && |sent| <= |verdicts| == |st.snd.verdicts| <= |asked| && st.snd.delivered == asked[..|sent|]
            && (forall k :: 0 <= k < |sent| ==> verdicts[k])
            && (forall k :: 0 <= k < |verdicts| ==> st.snd.verdicts[k] == Verdict(asked[k], verdicts[k]))
            && st.rcv.received == Pick(moves, GotFromTarget) && st.rcv.madeUp == MadeUpIn(st.info, moves)
            && (st.snd.phase.SenderDone? <==> exists e :: e in moves && EndsSender(st.info, e))
            && (st.dialed <==> exists e :: e in moves && Dials(e))
  {
    hide After, MovesOf, Pick, Cancelled, ShutIn, StartedIn, EndsSender, EndsReceiver, Requested, ClosingErrors, ReturnedErrors;
    RunRecorded(c, run, id);
    AfterStream(c, run, id);
  }

  /** No error, no refusal: the sender was done in the ordinary way. */
  lemma EndedWell(info: Info, moves: seq<StreamEvent>, e: StreamEvent)
    requires StatusBy(info, moves) == OK && e in moves && EndsSender(info, e)
    ensures e.SeesClosed? || (e.Delivers? && !e.outcome.Broken?)
  {
    hide Pick;
    PickHas(moves, x => ClosesWith(info, x), e);
    PickHas(moves, OnlyReturns, e);
  }

  /** In every run: if a stream closes OK, and its target did not cut the sending short with an
      EOF, then the target was passed everything that was queued for it, one message for a
      method without client streaming. */
  lemma OkMeansDelivered(c: Config, run: seq<Event>, id: Id, k: nat)
    requires After(c, run).Some?
    requires var s := After(c, run).value; k < |s.replies| && s.replies[k] == CloseReply([id], OK)
    requires Delivers(Eof) !in MovesOf(run, id)
    ensures id in Issued(After(c, run).value.table)
    ensures var st := At(After(c, run).value.table, id);
            st.snd.delivered == if st.info.rpc.clientStreams || st.inbox.enqueued == [] then st.inbox.enqueued else st.inbox.enqueued[..1]
  {
    hide After, MovesOf, StatusBy, StreamOk, SenderAgrees, ErrorsAgree, ReceiverAgrees;
    StatusPrecedence(c, run, id, k);
    RunRecorded(c, run, id);
    AfterStream(c, run, id);
    var s := After(c, run).value;
    ProjectHas(s.replies, k, id);
    WireClose(id, At(s.table, id), s.replies[k]);
    DeliveredAll(At(s.table, id), MovesOf(run, id));
  }

  lemma DeliveredAll(st: Stream, moves: seq<StreamEvent>)
    requires StreamOk(st) && SenderAgrees(st, moves) && st.closeSent.Some?
    requires StatusBy(st.info, moves) == OK && Delivers(Eof) !in moves
    ensures st.snd.delivered == if st.info.rpc.clientStreams || st.inbox.enqueued == [] then st.inbox.enqueued else st.inbox.enqueued[..1]
  {
    hide ReceiverOk, ModeOk, Pick, StatusBy;
    var e :| e in moves && EndsSender(st.info, e);
    EndedWell(st.info, moves, e);
    PickHas(moves, Outcome, e);
    DeliveredPrefix(st);
    assert st.snd.taken + [] == st.snd.taken;
  }

  lemma DeliveredPrefix(st: Stream)
    requires StreamOk(st)
    ensures st.snd.delivered <= st.inbox.enqueued && |st.snd.delivered| <= |st.snd.taken| <= |st.inbox.enqueued|
    ensures !st.info.rpc.clientStreams ==> |st.snd.delivered| <= 1
  {
    assert forall k :: 0 <= k < |st.snd.delivered| ==> st.snd.delivered[k] == st.inbox.enqueued[k];
  }
}
