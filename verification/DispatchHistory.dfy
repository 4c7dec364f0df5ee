/**
 What the events of a run say about the dispatcher: why it returned an error, why
 its context is done, why a start was refused, and when a stream can see that it
 was cancelled.
 */
module DispatchHistory {
  import opened Protocol
  import opened TargetStreams
  import opened StreamSets
  import opened ServerMachine
  import opened ServerInvariant
  import opened ServerTheorems
  import opened StreamHistory
  import opened ComposedInvariant

  // ---- Errors of dispatch ----

  /** A stream was started with this target and nonce. */
  ghost predicate PairUsed(t: StreamSet, target: string, nonce: Nonce) {
    exists id :: id in Issued(t) && At(t, id).info.target == target && At(t, id).info.nonce == nonce
  }

  /** The code of the error that event e makes dispatch return, if it does. */
  ghost function StopCode(c: Config, t: StreamSet, e: Event): Option<nat> {
    match e
    case Handle(StartStream(target, _, nonce, _), _) => if PairUsed(t, target, nonce) then Some(9) else None
    case Handle(StreamData(ids, p), _) =>
      if !c.decodable(p) then Some(13) else if !Sendable(t, ids, p.typeName) then Some(3) else None
    case Handle(ClientCancel(ids), _) => if exists id <- ids :: id !in Issued(t) then Some(3) else None
    case Handle(UnknownRequest, _) => Some(2)
    case EnqueueFails(err) => Some(err.code)
    case SeeContext(err) => Some(err.code)
    case _ => None
  }

  function ErrorCode(d: Dispatch): Option<nat> {
    if d.Stopped? && d.error.Some? then Some(d.error.value.code) else None
  }

  lemma {:induction false} BlockedBy(t: StreamSet, ids: seq<Id>, typeName: string)
    ensures var r := Validate(t, ids, typeName); r.Blocked? ==> r.problem.NoSuchStream? || r.problem.WrongType?
  {
    if ids != [] {
      BlockedBy(t, ids[..|ids| - 1], typeName);
    }
  }

  lemma HandleStops(c: Config, s: Server, e: Event)
    requires e.Handle? && s.dispatch.Idle? && (e.req.StartStream? ==> (Reused(s.table, e.req) <==> PairUsed(s.table, e.req.target, e.req.nonce)))
    ensures var s' := Dispatched(c, s.(handled := s.handled + [e.req]), e.req, e.newId);
            ErrorCode(s'.dispatch) == StopCode(c, s.table, e) && s'.ctxDone == (s.ctxDone || StopCode(c, s.table, e).Some?)
  {
    hide Validate, Known, Sendable, PairUsed, Reused, WithStream;
    match e.req
    case StreamData(ids, p) =>
      ValidateAccepts(s.table, ids, p.typeName);
      BlockedBy(s.table, ids, p.typeName);
    case ClientCancel(ids) => KnownIsPrefix(s.table, ids);
    case _ =>
  }

  lemma StepStops(c: Config, s: Server, e: Event)
    requires Enabled(c, s, e) && (e.Handle? && e.req.StartStream? ==> (Reused(s.table, e.req) <==> PairUsed(s.table, e.req.target, e.req.nonce)))
    ensures var s', code := Apply(c, s, e), StopCode(c, s.table, e);
            && ErrorCode(s'.dispatch) == (if code.Some? then code else ErrorCode(s.dispatch))
            && (code.Some? ==> !s.dispatch.Stopped?)
            && s'.ctxDone == (s.ctxDone || code.Some? || e.CancelContext?)
  {
    hide Step, CanStep, Dispatched, Without, Push, ShutAll, Forwarded, CloseWritten, Sendable, PairUsed, Reused;
    if e.Handle? {
      HandleStops(c, s, e);
    }
  }

  lemma Reuse(c: Config, run: seq<Event>, req: Request)
    requires After(c, run).Some? && req.StartStream?
    ensures var t := After(c, run).value.table; Reused(t, req) <==> PairUsed(t, req.target, req.nonce)
  {
    hide After, Reused;
    ReuseExactly(c, run, req);
  }

  /** Event k of the run gave dispatch an error with this code. */
  ghost predicate StoppedBy(c: Config, run: seq<Event>, k: nat, code: nat)
    requires k < |run|
  {
    After(c, run[..k]).Some? && StopCode(c, After(c, run[..k]).value.table, run[k]) == Some(code)
  }

  lemma StoppedByEarlier(c: Config, run: seq<Event>, code: nat)
    requires run != []
    ensures var n := |run| - 1;
            (exists k: nat :: k < |run| && StoppedBy(c, run, k, code)) <==>
            (exists k: nat :: k < n && StoppedBy(c, run[..n], k, code)) || StoppedBy(c, run, n, code)
  {
    hide StopCode, After;
    var n := |run| - 1;
    forall k: nat | k < n
      ensures StoppedBy(c, run, k, code) <==> StoppedBy(c, run[..n], k, code)
    {
      assert run[..n][..k] == run[..k] && run[..n][k] == run[k];
    }
  }

  /** In every run: dispatch has returned an error if and only if one of the events gave it one,
      and the error has that event's code; the context is done if and only if it was cancelled
      or dispatch has returned an error. */
  lemma {:induction false} WhyStopped(c: Config, run: seq<Event>)
    requires After(c, run).Some?
    ensures var s := After(c, run).value;
            && (forall code: nat :: ErrorCode(s.dispatch) == Some(code) <==> exists k: nat :: k < |run| && StoppedBy(c, run, k, code))
            && (s.ctxDone <==> ErrorCode(s.dispatch).Some? || CancelContext in run)
  {
    if run != [] {
      hide Enabled, Apply, StopCode, Reused, PairUsed;
      var n := |run| - 1;
      WhyStopped(c, run[..n]);
      var s := After(c, run[..n]).value;
      if run[n].Handle? && run[n].req.StartStream? {
        Reuse(c, run[..n], run[n].req);
      }
      StepStops(c, s, run[n]);
      assert run == run[..n] + [run[n]];
      forall code: nat
        ensures ErrorCode(After(c, run).value.dispatch) == Some(code) <==> exists k: nat :: k < |run| && StoppedBy(c, run, k, code)
      {
        StoppedByEarlier(c, run, code);
      }
    }
  }

  // ---- Refused starts ----

  /** The run handled a StartStream for an unknown method that this reply answers. */
  ghost predicate RefusedIn(c: Config, run: seq<Event>, r: Reply) {
    exists e <- run ::
      && e.Handle? && e.req.StartStream? && e.req.methodName !in c.methods
      && r.StartReply? && r.target == e.req.target && r.nonce == e.req.nonce && r.result.ErrorStatus? && r.result.status.code == 3
  }

  predicate IsRefusal(r: Reply) {
    r.StartReply? && !r.result.StreamId?
  }

  ghost predicate RefusalsKnown(c: Config, run: seq<Event>, s: Server) {
    && (forall r <- s.replies :: IsRefusal(r) ==> RefusedIn(c, run, r))
    && (s.dispatch.Replying? && IsRefusal(s.dispatch.reply) ==> RefusedIn(c, run, s.dispatch.reply))
  }

  lemma StartRefuses(c: Config, s: Server, req: Request, newId: Id)
    requires req.StartStream? && s.dispatch.Idle?
    ensures var d := Start(c, s, req, newId).dispatch;
            d.Replying? && IsRefusal(d.reply) ==>
              req.methodName !in c.methods && d.reply.target == req.target && d.reply.nonce == req.nonce
              && d.reply.result.ErrorStatus? && d.reply.result.status.code == 3
  {
    hide Reused, WithStream;
  }

  lemma HandleRefuses(c: Config, s: Server, e: Event)
    requires e.Handle? && s.dispatch.Idle?
    ensures var d := Dispatched(c, s.(handled := s.handled + [e.req]), e.req, e.newId).dispatch;
            d.Replying? && IsRefusal(d.reply) ==> RefusedIn(c, [e], d.reply)
  {
    hide Start, Data, Known, ShutListed, CancelListed;
    match e.req
    case StartStream(_, _, _, _) =>
      StartRefuses(c, s.(handled := s.handled + [e.req]), e.req, e.newId);
      assert e in [e];
    case StreamData(ids, p) => DataLog(c, s.(handled := s.handled + [e.req]), ids, p);
    case _ =>
  }

  lemma RefusedLater(c: Config, a: seq<Event>, b: seq<Event>, r: Reply)
    requires RefusedIn(c, a, r) && forall e <- a :: e in b
    ensures RefusedIn(c, b, r)
  {}

  lemma RefusalsStep(c: Config, run: seq<Event>, s: Server, e: Event, run': seq<Event>)
    requires RefusalsKnown(c, run, s) && Enabled(c, s, e) && run' == run + [e]
    ensures RefusalsKnown(c, run', Apply(c, s, e))
  {
    hide RefusedIn, Step, CanStep, Dispatched, Without, Push, ShutAll;
    var s' := Apply(c, s, e);
    EventLogGrows(c, s, e);
    forall r: Reply
      ensures (RefusedIn(c, run, r) || RefusedIn(c, [e], r)) ==> RefusedIn(c, run', r)
    {
      if RefusedIn(c, run, r) {
        RefusedLater(c, run, run', r);
      }
      if RefusedIn(c, [e], r) {
        RefusedLater(c, [e], run', r);
      }
    }
    if e.Handle? {
      HandleRefuses(c, s, e);
    }
    if s'.replies != s.replies {
      assert s'.replies == s.replies + [s'.replies[|s.replies|]];
    }
  }

  /** In every run: a start reply without a stream carries InvalidArgument and answers a StartStream
      for a method that does not exist. */
  lemma {:induction false} WhyRefused(c: Config, run: seq<Event>)
    requires After(c, run).Some?
    ensures RefusalsKnown(c, run, After(c, run).value)
  {
    if run != [] {
      hide RefusalsKnown, Enabled, Apply;
      var n := |run| - 1;
      WhyRefused(c, run[..n]);
      RefusalsStep(c, run[..n], After(c, run[..n]).value, run[n], run);
    }
  }

  // ---- Seeing a cancellation ----

  lemma SeesExactly(st: Stream, ctxDone: bool, moves: seq<StreamEvent>, err: Failure)
    requires StreamOk(st) && ErrorsAgree(st, moves) && st.run.Running? && st.snd.phase.Selecting?
    ensures CanStep(st, ctxDone, SeesCancel(err)) <==> ctxDone || st.cancelled || ReturnedErrors(moves) != []
  {
    hide SenderOk, ReceiverOk, ModeOk, ReturnedErrors, ClosingErrors;
  }

  /** In every run: a sender that waits for requests can see a cancellation if and only if the
      context is done, or the stream was cancelled, by itself or by a ClientCancel, or a
      goroutine has returned an error. */
  lemma WhenCancelIsSeen(c: Config, run: seq<Event>, id: Id, err: Failure)
    requires After(c, run).Some? && id in After(c, run).value.table.streams
    requires var st := After(c, run).value.table.streams[id]; st.run.Running? && st.snd.phase.Selecting?
    ensures var s := After(c, run).value; var info := s.table.streams[id].info;
            Enabled(c, s, Local(id, SeesCancel(err))) <==>
            s.ctxDone || ReturnedErrors(MovesOf(run, id)) != []
            || exists k :: 0 <= k < |run| && CancelsAt(c, run[..k], run[k], id, info)
  {
    hide After, MovesOf, StreamOk, SenderAgrees, ReceiverAgrees, ErrorsAgree, CanStep, CancelsAt;
    RunRecorded(c, run, id);
    AfterStream(c, run, id);
    var s := After(c, run).value;
    SeesExactly(s.table.streams[id], s.ctxDone, MovesOf(run, id), err);
  }
}
