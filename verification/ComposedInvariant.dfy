/**
 The inductive invariant of client and server together.
 */
module ComposedInvariant {
  import opened Protocol
  import opened NonceKeys
  import opened TargetStreams
  import opened StreamSets
  import opened ServerMachine
  import opened ServerInvariant
  import opened ServerTheorems
  import opened ClientModel
  import opened Composed

  // ---- What one event of the server can do to what the client depends on ----

  /** The start parameters of the streams issued by e, beside those issued before. */
  function InfosAfter(c: Config, s: Server, e: Event): map<Id, Info> {
    if Registers(c, s, e)
    then Infos(s.table)[e.newId := Info(e.req.target, e.req.nonce, c.methods[e.req.methodName], e.req.dryRun)]
    else Infos(s.table)
  }

  /** Data or a close for one stream. */
  predicate Single(r: Reply) {
    (r.DataReply? || r.CloseReply?) && |r.ids| == 1
  }

  ghost predicate LogGrows(s: Server, e: Event, s': Server) {
    && s'.handled == s.handled + (if e.Handle? then [e.req] else [])
    && (s'.replies == s.replies || (|s'.replies| == |s.replies| + 1 && s'.replies[..|s.replies|] == s.replies))
    && (s'.replies != s.replies ==>
          var r := s'.replies[|s.replies|];
          Single(r) || (s.dispatch.Replying? && r == s.dispatch.reply && s'.dispatch.Idle?))
    && (s'.dispatch.Replying? ==>
          if e.Handle? then e.req.StartStream? && s'.dispatch.reply.StartReply? && !s'.dispatch.reply.result.NoResult?
                            && s'.dispatch.reply.target == e.req.target && s'.dispatch.reply.nonce == e.req.nonce
          else s'.dispatch == s.dispatch)
    && (s'.dispatch.FanOut? ==> if e.Handle? then e.req.StreamData? else s.dispatch.FanOut?)
    && (s'.dispatch.Panicked? ==> e.EnqueuePanics? || s.dispatch.Panicked?)
  }

  lemma StartRequestInfos(c: Config, s: Server, req: Request, newId: Id)
    requires newId !in Issued(s.table) && req.StartStream?
    ensures Infos(Start(c, s, req, newId).table) == InfosAfter(c, s, Handle(req, newId))
  {
    hide Key, Infos;
    if req.methodName in c.methods {
      var info := Info(req.target, req.nonce, c.methods[req.methodName], req.dryRun);
      StartInfos(s.table, newId, info, WithStream(s.table, newId, info));
    }
  }

  lemma HandleInfos(c: Config, s: Server, req: Request, newId: Id)
    requires newId !in Issued(s.table)
    ensures Infos(Dispatched(c, s.(handled := s.handled + [req]), req, newId).table) == InfosAfter(c, s, Handle(req, newId))
  {
    hide Start, Infos, Validate, Reused;
    var s1 := s.(handled := s.handled + [req]);
    match req
    case StartStream(_, _, _, _) => StartRequestInfos(c, s1, req, newId);
    case StreamData(ids, p) =>
    case ClientClose(ids) => TunedSet(s.table, Dispatched(c, s1, req, newId).table);
    case ClientCancel(ids) => TunedSet(s.table, CancelIds(s1, ids).table);
    case UnknownRequest =>
  }

  lemma LaunchInfos(s: Server, announced: bool)
    ensures Infos(Launch(s, announced).table) == Infos(s.table)
  {
    hide Infos;
    if s.dispatch.Replying? && s.dispatch.starting.Some? && s.dispatch.starting.value in s.table.streams {
      var id := s.dispatch.starting.value;
      PutInfos(s.(dispatch := Idle), id, s.table.streams[id].(run := Running, announced := announced));
    }
  }

  lemma LocalInfos(c: Config, s: Server, id: Id, move: StreamEvent)
    requires Inv(c, s) && Open(s, id) && CanStep(s.table.streams[id], s.ctxDone, move)
    ensures Infos(Put(s, id, Step(s.table.streams[id], s.ctxDone, move)).table) == Infos(s.table)
  {
    hide Inv, Step, CanStep, StreamOk;
    StreamsOf(c, s, id);
    StepKeepsOk(s.table.streams[id], s.ctxDone, move);
    PutInfos(s, id, Step(s.table.streams[id], s.ctxDone, move));
  }

  lemma PutInfos(s: Server, id: Id, b: Stream)
    requires Open(s, id) && b.info == s.table.streams[id].info
    ensures Infos(Put(s, id, b).table) == Infos(s.table)
  {
    assert Issued(Put(s, id, b).table) == Issued(s.table);
  }

  lemma HandOffInfos(c: Config, s: Server, id: Id)
    requires Inv(c, s) && Open(s, id) && s.table.streams[id].run.HandingOff?
    ensures Infos(Without(s.table, id)) == Infos(s.table)
  {
    hide Inv, Infos;
    CountedOf(c, s);
    WithoutSet(s.table, id, Without(s.table, id));
  }

  lemma WaitInfos(t: StreamSet, wg: nat)
    ensures Infos(t.(wg := wg)) == Infos(t)
  {
    assert Issued(t.(wg := wg)) == Issued(t);
  }

  lemma EventInfos(c: Config, s: Server, e: Event)
    requires Inv(c, s) && Enabled(c, s, e)
    ensures Infos(Apply(c, s, e).table) == InfosAfter(c, s, e)
  {
    hide Inv, Step, CanStep, Dispatched, Infos, Launch;
    match e
    case Local(id, move) => LocalInfos(c, s, id, move);
    case Forward(id) => PutInfos(s, id, Forwarded(s.table.streams[id]));
    case WriteClose(id) => PutInfos(s, id, CloseWritten(s.table.streams[id]));
    case HandOff(id) => HandOffInfos(c, s, id);
    case Abandon(id) =>
      PutInfos(s, id, Finish(s.table.streams[id]));
      WaitInfos(Put(s, id, Finish(s.table.streams[id])).table, Apply(c, s, e).table.wg);
    case Handle(req, newId) => HandleInfos(c, s, req, newId);
    case WriteStart => LaunchInfos(s, true);
    case DropStart => LaunchInfos(s, false);
    case Enqueue => PutInfos(s, s.dispatch.todo[0], Push(s.table.streams[s.dispatch.todo[0]], s.dispatch.payload));
    case HalfClose => TunedSet(s.table, HalfClosed(s).table);
    case _ =>
  }

  lemma StartLog(c: Config, s: Server, req: Request, newId: Id)
    requires req.StartStream? && s.dispatch.Idle?
    ensures var s' := Start(c, s, req, newId);
            && s'.handled == s.handled && s'.replies == s.replies && !s'.dispatch.FanOut? && !s'.dispatch.Panicked?
            && (s'.dispatch.Replying? ==>
                  && s'.dispatch.reply.StartReply? && !s'.dispatch.reply.result.NoResult?
                  && s'.dispatch.reply.target == req.target && s'.dispatch.reply.nonce == req.nonce)
  {
    hide Key;
  }

  lemma DataLog(c: Config, s: Server, ids: seq<Id>, p: Payload)
    requires s.dispatch.Idle?
    ensures var s' := Data(c, s, ids, p);
            s'.handled == s.handled && s'.replies == s.replies && !s'.dispatch.Replying? && !s'.dispatch.Panicked?
  {
    hide Validate;
  }

  lemma HandleLogGrows(c: Config, s: Server, req: Request, newId: Id)
    requires s.dispatch.Idle?
    ensures LogGrows(s, Handle(req, newId), Dispatched(c, s.(handled := s.handled + [req]), req, newId))
  {
    hide Start, Data, Known, ShutListed, CancelListed;
    var s1 := s.(handled := s.handled + [req]);
    match req
    case StartStream(_, _, _, _) => StartLog(c, s1, req, newId);
    case StreamData(ids, p) => DataLog(c, s1, ids, p);
    case ClientClose(_) =>
    case ClientCancel(_) =>
    case UnknownRequest =>
  }

  /** An event that neither writes nor changes what dispatch is doing, except to stop it. */
  lemma SilentLogGrows(s: Server, e: Event, s': Server)
    requires !e.Handle? && s'.handled == s.handled && s'.replies == s.replies
    requires s'.dispatch == s.dispatch || s'.dispatch.Idle? || s'.dispatch.Stopped?
             || (s.dispatch.FanOut? && s'.dispatch.FanOut?) || (e.EnqueuePanics? && s'.dispatch.Panicked?)
    ensures LogGrows(s, e, s')
  {
    assert s.handled + [] == s.handled;
  }

  lemma WritingLogGrows(s: Server, e: Event, s': Server, r: Reply)
    requires !e.Handle? && s'.handled == s.handled && s'.replies == s.replies + [r]
    requires (s'.dispatch == s.dispatch && Single(r)) || (s.dispatch.Replying? && r == s.dispatch.reply && s'.dispatch.Idle?)
    ensures LogGrows(s, e, s')
  {
    assert s.handled + [] == s.handled;
  }

  lemma EventLogGrows(c: Config, s: Server, e: Event)
    requires Enabled(c, s, e)
    ensures LogGrows(s, e, Apply(c, s, e))
  {
    hide Step, CanStep, Dispatched, Without, Push, ShutAll, Forwarded, CloseWritten, LogGrows;
    match e
    case Handle(req, newId) => HandleLogGrows(c, s, req, newId);
    case Forward(id) => WritingLogGrows(s, e, Apply(c, s, e), DataReply([id], s.table.streams[id].rcv.phase.payload));
    case WriteClose(id) => WritingLogGrows(s, e, Apply(c, s, e), CloseReply([id], s.table.streams[id].run.status));
    case WriteStart => WritingLogGrows(s, e, Apply(c, s, e), s.dispatch.reply);
    case _ => SilentLogGrows(s, e, Apply(c, s, e));
  }

  // ---- The invariant ----

  /** Start requests first, one per target in order; then data; a close only last. */
  ghost predicate WireShape(call: Call, cl: Client)
    requires |call.targets| < NONCE_LIMIT
  {
    && cl.starts <= |call.targets| && cl.starts <= |cl.wire|
    && (forall i :: 0 <= i < cl.starts ==> cl.wire[i] == StartOf(call, i))
    && (forall i :: cl.starts <= i < |cl.wire| ==>
          cl.wire[i].StreamData? || (cl.wire[i].ClientClose? && i == |cl.wire| - 1 && cl.closedIds))
    && (cl.phase.SettingUp? ==> |cl.wire| == cl.starts && cl.messages == [] && cl.got == [] && !cl.closedIds)
  }

  predicate Names(r: Request, id: Id) {
    (r.StreamData? || r.ClientClose?) && id in r.ids
  }

  /** Every stream the client ever named was issued. */
  ghost predicate Named(s: System) {
    forall r, id :: r in s.client.wire && Names(r, id) ==> id in Infos(s.server.table)
  }

  /** The nonces of the start replies in a log. */
  function StartNonces(log: seq<Reply>): seq<nat> {
    if log == [] then []
    else
      var n := |log| - 1;
      StartNonces(log[..n]) + if log[n].StartReply? then [log[n].nonce] else []
  }

  ghost predicate Increasing(ns: seq<nat>, bound: nat) {
    && (forall i, j :: 0 <= i < j < |ns| ==> ns[i] < ns[j])
    && (forall i :: 0 <= i < |ns| ==> ns[i] < bound)
  }

  /** Start replies echo a start request of the call. */
  ghost predicate Echoes(call: Call, log: seq<Reply>) {
    forall r <- log :: r.StartReply? ==> r.nonce < |call.targets| && r.target == call.targets[r.nonce]
  }

  /** Every reply is a start reply or speaks of a single stream. */
  ghost predicate Plain(log: seq<Reply>) {
    forall r <- log :: (r.StartReply? && !r.result.NoResult?) || Single(r)
  }

  /** Start requests are answered at most once and in order. */
  ghost predicate InTurn(call: Call, s: Server) {
    && Plain(s.replies) && Echoes(call, s.replies)
    && (if s.dispatch.Replying?
        then s.handled != [] && s.dispatch.reply.StartReply? && !s.dispatch.reply.result.NoResult?
             && s.dispatch.reply.nonce == |s.handled| - 1
             && |s.handled| <= |call.targets|
             && s.dispatch.reply.target == call.targets[|s.handled| - 1]
             && Increasing(StartNonces(s.replies), |s.handled| - 1)
        else Increasing(StartNonces(s.replies), |s.handled|))
    && (s.dispatch.FanOut? ==> s.handled != [] && s.handled[|s.handled| - 1].StreamData?)
    && !s.dispatch.Panicked?
  }

  /** Each stream was opened by the start request with its nonce. */
  ghost predicate Opened(call: Call, infos: map<Id, Info>, handled: nat) {
    forall id <- infos ::
      infos[id].nonce < handled && infos[id].nonce < |call.targets| && infos[id].target == call.targets[infos[id].nonce]
  }

  function Heard(s: System): seq<Reply>
    requires s.client.consumed <= |s.server.replies|
  {
    s.server.replies[..s.client.consumed]
  }

  function IdsOf(cl: Client): map<Id, Ret> {
    match cl.phase
    case SettingUp(setup) => setup.ids
    case Ready(ids) => ids
    case Gone => map[]
  }

  /** The client tracks exactly the streams that were announced to it and not closed. */
  ghost predicate Tracks(ids: map<Id, Ret>, id: Id, tr: seq<Reply>) {
    && (tr != [] ==> tr[0].StartReply?)
    && (id in ids <==> tr != [] && !tr[|tr| - 1].CloseReply?)
  }

  ghost predicate Tracking(s: System)
    requires s.client.consumed <= |s.server.replies|
  {
    !s.client.phase.Gone? ==> forall id: Id :: Tracks(IdsOf(s.client), id, Project(Heard(s), id))
  }

  /** What it tracks carries the nonce and target of the stream. */
  ghost predicate Matched(ids: map<Id, Ret>, infos: map<Id, Info>) {
    forall id <- ids ::
      id in infos && ids[id].index == infos[id].nonce && ids[id].target == infos[id].target && ids[id].error == None
  }

  /** The result carries data: a response and no error. */
  predicate IsData(r: Ret) {
    r.resp.Some? && r.error == None
  }

  /** The payloads handed to the caller under one index, in results without an error. */
  function Payloads(got: seq<Ret>, index: nat): seq<Payload> {
    if got == [] then []
    else
      var n := |got| - 1;
      Payloads(got[..n], index) + if got[n].index == index && IsData(got[n]) then [got[n].resp.value] else []
  }

  /** The payloads in a log of data replies. */
  function DataOf(tr: seq<Reply>): seq<Payload> {
    if tr == [] then []
    else
      var n := |tr| - 1;
      DataOf(tr[..n]) + if tr[n].DataReply? then [tr[n].payload] else []
  }

  /** Under each stream's nonce the caller has what the client heard from that stream. */
  ghost predicate Collected(got: seq<Ret>, heard: seq<Reply>, infos: map<Id, Info>) {
    forall id <- infos :: Payloads(got, infos[id].nonce) == DataOf(Project(heard, id))
  }

  /** Results carry their own target, and data only ever comes from a stream. */
  ghost predicate Attributed(call: Call, got: seq<Ret>, infos: map<Id, Info>) {
    forall r <- got ::
      && r.index < |call.targets| && r.target == call.targets[r.index]
      && (r.resp.Some? ==> exists id :: id in infos && infos[id].nonce == r.index)
  }

  ghost predicate Blamed(call: Call, errors: seq<Ret>) {
    forall r <- errors :: Labelled(call.targets, r)
  }

  /** The requests name every open stream in every message. */
  ghost predicate Complete(cl: Client) {
    forall id: Id ::
      && Requested(cl.wire, id) <= cl.messages
      && (id in IdsOf(cl) ==> Requested(cl.wire, id) == cl.messages)
  }

  /** Each answered start request is accounted for exactly once. */
  ghost predicate Accounted(setup: Setup, ns: seq<nat>) {
    && setup.replies == |ns|
    && (forall id <- setup.ids :: setup.ids[id].index in ns)
    && (forall e <- setup.errors :: e.index in ns)
    && Covers(setup, ns) && Apart(setup)
  }

  ghost predicate Covers(setup: Setup, ns: seq<nat>) {
    forall n <- ns :: (exists id :: id in setup.ids && setup.ids[id].index == n)
                      || (exists e :: e in setup.errors && e.index == n)
  }

  ghost predicate Apart(setup: Setup) {
    && (forall a, b :: a in setup.ids && b in setup.ids && a != b ==> setup.ids[a].index != setup.ids[b].index)
    && (forall i, j :: 0 <= i < j < |setup.errors| ==> setup.errors[i].index != setup.errors[j].index)
    && (forall id, e :: id in setup.ids && e in setup.errors ==> setup.ids[id].index != e.index)
  }

  ghost predicate SetupKnown(call: Call, s: System)
    requires s.client.consumed <= |s.server.replies|
  {
    && (s.client.phase.SettingUp? ==>
          && Accounted(s.client.phase.setup, StartNonces(Heard(s)))
          && Blamed(call, s.client.phase.setup.errors)
          && (forall id <- s.client.phase.setup.ids :: s.client.phase.setup.ids[id].resp == None))
    && (s.client.phase.Ready? ==> |StartNonces(Heard(s))| == |call.targets|)
  }

  ghost predicate ServerSide(c: Config, call: Call, s: System) {
    && Inv(c, s.server)
    && s.server.handled <= s.client.wire
    && InTurn(call, s.server)
    && Opened(call, Infos(s.server.table), |s.server.handled|)
  }

  ghost predicate ClientSide(call: Call, s: System) {
    && s.client.consumed <= |s.server.replies|
    && Named(s)
    && Tracking(s)
    && Matched(IdsOf(s.client), Infos(s.server.table))
    && Collected(s.client.got, Heard(s), Infos(s.server.table))
    && Attributed(call, s.client.got, Infos(s.server.table))
    && SetupKnown(call, s)
  }

  ghost predicate SysInv(c: Config, call: Call, s: System)
    requires |call.targets| < NONCE_LIMIT
  {
    && WireShape(call, s.client) && Complete(s.client) && Blamed(call, s.client.errors)
    && ServerSide(c, call, s) && ClientSide(call, s)
  }

  lemma StartSysInv(c: Config, call: Call)
    requires |call.targets| < NONCE_LIMIT
    ensures SysInv(c, call, START)
  {
    hide Inv;
    InitialInv(c);
  }

  // ---- The server moves ----

  lemma StartNoncesAppend(log: seq<Reply>, r: Reply)
    ensures StartNonces(log + [r]) == StartNonces(log) + if r.StartReply? then [r.nonce] else []
  {
    assert (log + [r])[..|log|] == log;
  }

  lemma IncreasingAppend(ns: seq<nat>, n: nat)
    requires Increasing(ns, n)
    ensures Increasing(ns + [n], n + 1)
  {
  }

  lemma InTurnStays(call: Call, s: Server, e: Event, s': Server)
    requires InTurn(call, s) && LogGrows(s, e, s') && !e.Handle? && !e.EnqueuePanics?
    ensures InTurn(call, s')
  {
    if s'.replies != s.replies {
      var r := s'.replies[|s.replies|];
      assert s'.replies == s.replies + [r];
      StartNoncesAppend(s.replies, r);
      if s.dispatch.Replying? {
        IncreasingAppend(StartNonces(s.replies), |s.handled| - 1);
      }
    }
  }

  lemma InTurnHandles(call: Call, s: Server, e: Event, s': Server, wire: seq<Request>, starts: nat)
    requires InTurn(call, s) && LogGrows(s, e, s') && e.Handle? && s.dispatch.Idle? && s'.replies == s.replies
    requires |call.targets| < NONCE_LIMIT && starts <= |call.targets| && starts <= |wire|
    requires forall i :: 0 <= i < starts ==> wire[i] == StartOf(call, i)
    requires forall i :: starts <= i < |wire| ==> !wire[i].StartStream?
    requires |s.handled| < |wire| && e.req == wire[|s.handled|]
    ensures InTurn(call, s')
  {
  }

  lemma ClosedByRequest(c: Config, s: Server)
    requires Inv(c, s) && s.dispatch.FanOut? && s.dispatch.todo != [] && Open(s, s.dispatch.todo[0])
    requires s.table.streams[s.dispatch.todo[0]].inbox.closed
    ensures Closes(s.handled, s.dispatch.todo[0])
  {
    assert Placed(c, s, s.dispatch.todo[0]);
  }

  lemma NoCloseBeforeData(call: Call, cl: Client, h: seq<Request>, id: Id)
    requires |call.targets| < NONCE_LIMIT && WireShape(call, cl) && h <= cl.wire
    requires h != [] && h[|h| - 1].StreamData?
    ensures !Closes(h, id)
  {
    assert forall k :: 0 <= k < |h| ==> h[k] == cl.wire[k];
  }

  /** The client never sends data after a close, so no delivery meets a closed queue. */
  lemma NeverPanics(c: Config, call: Call, s: System)
    requires |call.targets| < NONCE_LIMIT && WireShape(call, s.client) && ServerSide(c, call, s)
    ensures !Enabled(c, s.server, EnqueuePanics)
  {
    hide Inv;
    if s.server.dispatch.FanOut? && s.server.dispatch.todo != [] {
      NoCloseBeforeData(call, s.client, s.server.handled, s.server.dispatch.todo[0]);
    }
    if Enabled(c, s.server, EnqueuePanics) {
      ClosedByRequest(c, s.server);
      assert false;
    }
  }

  ghost predicate Extends(a: map<Id, Info>, b: map<Id, Info>) {
    forall id <- a :: id in b && b[id] == a[id]
  }

  /** The server may move on without the client's view going stale. */
  lemma ClientSideStays(call: Call, s: System, s': System)
    requires ClientSide(call, s) && s'.client == s.client && s.server.replies <= s'.server.replies
    requires Extends(Infos(s.server.table), Infos(s'.server.table))
    requires forall id <- Infos(s'.server.table) :: id !in Infos(s.server.table) ==>
               Payloads(s.client.got, Infos(s'.server.table)[id].nonce) == [] && Project(Heard(s), id) == []
    ensures ClientSide(call, s')
  {
    hide Infos;
    assert Heard(s') == Heard(s);
    assert Attributed(call, s'.client.got, Infos(s'.server.table)) by {
      forall r <- s.client.got | r.resp.Some?
        ensures exists id :: id in Infos(s'.server.table) && Infos(s'.server.table)[id].nonce == r.index
      {
        var id :| id in Infos(s.server.table) && Infos(s.server.table)[id].nonce == r.index;
        assert Infos(s'.server.table)[id].nonce == r.index;
      }
    }
  }

  lemma MoveFacts(c: Config, s: Server, e: Event)
    requires Inv(c, s) && !e.Handle? && Enabled(c, s, e)
    ensures var s' := Apply(c, s, e); Inv(c, s') && LogGrows(s, e, s') && Infos(s'.table) == Infos(s.table)
  {
    hide Inv, Apply, LogGrows;
    EventInfos(c, s, e);
    EventLogGrows(c, s, e);
    StepKeepsInv(c, s, e);
  }

  lemma ServerMovesKeeps(c: Config, call: Call, s: System, e: Event)
    requires |call.targets| < NONCE_LIMIT && SysInv(c, call, s) && !e.Handle? && Enabled(c, s.server, e)
    ensures SysInv(c, call, s.(server := Apply(c, s.server, e)))
  {
    hide Inv, Apply, Infos, Enabled, InTurn, ClientSide;
    NeverPanics(c, call, s);
    assert !e.EnqueuePanics?;
    var s' := s.(server := Apply(c, s.server, e));
    MoveFacts(c, s.server, e);
    InTurnStays(call, s.server, e, s'.server);
    ClientSideStays(call, s, s');
  }

  // ---- The server handles the client's next request ----

  /** An index no stream has is an index nothing was delivered under. */
  lemma {:induction false} NothingDelivered(got: seq<Ret>, infos: map<Id, Info>, index: nat)
    requires forall r <- got :: r.resp.Some? ==> exists id :: id in infos && infos[id].nonce == r.index
    requires forall id <- infos :: infos[id].nonce != index
    ensures Payloads(got, index) == []
  {
    if got != [] {
      var n := |got| - 1;
      NothingDelivered(got[..n], infos, index);
      assert got[n] in got;
    }
  }

  lemma {:induction false} ProjectPrefix(log: seq<Reply>, k: nat, id: Id)
    requires k <= |log|
    ensures Project(log[..k], id) <= Project(log, id)
  {
    ProjectSplit(log[..k], log[k..], id);
    assert log == log[..k] + log[k..];
  }

  lemma UnissuedUnheard(c: Config, s: Server, k: nat, id: Id)
    requires Inv(c, s) && id !in Issued(s.table) && k <= |s.replies|
    ensures Project(s.replies[..k], id) == []
  {
    assert Project(s.replies, id) == [];
    ProjectPrefix(s.replies, k, id);
  }

  /** What handling a request needs and leaves alone, in one place. */
  lemma HandleFacts(c: Config, s: Server, e: Event, k: nat)
    requires Inv(c, s) && e.Handle? && Enabled(c, s, e) && k <= |s.replies|
    ensures var s' := Apply(c, s, e);
            && s.dispatch.Idle? && e.newId !in Infos(s.table) && Project(s.replies[..k], e.newId) == []
            && Inv(c, s') && LogGrows(s, e, s') && s'.replies == s.replies && Infos(s'.table) == InfosAfter(c, s, e)
  {
    hide Inv, Apply, LogGrows;
    EventInfos(c, s, e);
    EventLogGrows(c, s, e);
    StepKeepsInv(c, s, e);
    HandleSilent(c, s, e.req, e.newId);
    UnissuedUnheard(c, s, k, e.newId);
  }

  lemma ServerHandlesKeeps(c: Config, call: Call, s: System, e: Event)
    requires |call.targets| < NONCE_LIMIT && SysInv(c, call, s) && |s.server.handled| < |s.client.wire|
    requires e.Handle? && e.req == s.client.wire[|s.server.handled|] && Enabled(c, s.server, e)
    ensures SysInv(c, call, s.(server := Apply(c, s.server, e)))
  {
    hide Inv, Apply, Enabled, LogGrows, InTurn, Infos, InfosAfter;
    HandleFacts(c, s.server, e, s.client.consumed);
    HandlesServerSide(c, call, s, s.(server := Apply(c, s.server, e)), e);
    HandlesClientSide(c, call, s, s.(server := Apply(c, s.server, e)), e);
  }

  lemma HandleSilent(c: Config, s: Server, req: Request, newId: Id)
    requires Enabled(c, s, Handle(req, newId))
    ensures Apply(c, s, Handle(req, newId)).replies == s.replies
  {
    hide Validate, Key, Known, ShutListed, CancelListed;
    EventLogGrows(c, s, Handle(req, newId));
  }

  lemma HandlesServerSide(c: Config, call: Call, s: System, s': System, e: Event)
    requires |call.targets| < NONCE_LIMIT && SysInv(c, call, s) && |s.server.handled| < |s.client.wire|
    requires e.Handle? && e.req == s.client.wire[|s.server.handled|] && s.server.dispatch.Idle?
    requires s'.client == s.client && Inv(c, s'.server) && LogGrows(s.server, e, s'.server) && s'.server.replies == s.server.replies
    requires Infos(s'.server.table) == InfosAfter(c, s.server, e)
    ensures ServerSide(c, call, s')
  {
    hide Inv, Infos, ClientSide, Reused, InTurn, LogGrows;
    InTurnHandles(call, s.server, e, s'.server, s.client.wire, s.client.starts);
    HandledGrows(s.server, e, s'.server);
  }

  lemma HandledGrows(s: Server, e: Event, s': Server)
    requires LogGrows(s, e, s') && e.Handle?
    ensures s'.handled == s.handled + [e.req]
  {
  }

  lemma HandlesClientSide(c: Config, call: Call, s: System, s': System, e: Event)
    requires |call.targets| < NONCE_LIMIT && SysInv(c, call, s) && |s.server.handled| < |s.client.wire|
    requires e.Handle? && e.req == s.client.wire[|s.server.handled|]
    requires s'.client == s.client && s'.server.replies == s.server.replies
    requires Infos(s'.server.table) == InfosAfter(c, s.server, e) && e.newId !in Infos(s.server.table)
    requires Project(Heard(s), e.newId) == []
    ensures ClientSide(call, s')
  {
    hide Inv, Infos, InTurn, Reused, Tracking;
    var infos := Infos(s.server.table);
    if Registers(c, s.server, e) {
      assert e.req == StartOf(call, |s.server.handled|);
      NothingDelivered(s.client.got, infos, e.req.nonce);
    }
    ClientSideStays(call, s, s');
  }

  // ---- The client sends ----

  lemma {:induction false} CopiesOnce(order: seq<Id>, id: Id, p: Payload)
    requires forall i, j :: 0 <= i < j < |order| ==> order[i] != order[j]
    ensures Copies(order, id, p) == if id in order then [p] else []
  {
    if order != [] {
      CopiesOnce(order[1..], id, p);
      assert forall i :: 0 < i < |order| ==> order[i] == order[1..][i - 1];
    }
  }

  /** Naming every open stream once keeps each of them level with the caller. */
  lemma SendKeepsComplete(cl: Client, p: Payload, order: seq<Id>)
    requires Complete(cl) && Lists(order, IdsOf(cl).Keys)
    ensures Complete(cl.(wire := cl.wire + [StreamData(order, p)], messages := cl.messages + [p]))
  {
    forall id: Id
      ensures Requested(cl.wire + [StreamData(order, p)], id) <= cl.messages + [p]
      ensures id in IdsOf(cl) ==> Requested(cl.wire + [StreamData(order, p)], id) == cl.messages + [p]
    {
      RequestedAppend(cl.wire, StreamData(order, p), id);
      CopiesOnce(order, id, p);
    }
  }

  lemma QuietKeepsComplete(cl: Client, r: Request, cl': Client)
    requires Complete(cl) && !r.StreamData? && cl'.wire == cl.wire + [r] && cl'.messages == cl.messages
    requires IdsOf(cl') == IdsOf(cl)
    ensures Complete(cl')
  {
    forall id: Id
      ensures Requested(cl'.wire, id) == Requested(cl.wire, id)
    {
      RequestedAppend(cl.wire, r, id);
    }
  }

  /** Sending changes nothing the client has received. */
  lemma SendKeepsClientSide(call: Call, s: System, r: Request, s': System)
    requires ClientSide(call, s) && s'.server == s.server
    requires s'.client == s.client.(wire := s.client.wire + [r], messages := s'.client.messages, starts := s'.client.starts, closedIds := s'.client.closedIds)
    requires forall id: Id :: Names(r, id) ==> id in IdsOf(s.client)
    ensures ClientSide(call, s')
  {
    hide Infos, Collected, Attributed, Accounted;
  }

  lemma SendMsgKeeps(c: Config, call: Call, s: System, p: Payload, order: seq<Id>)
    requires |call.targets| < NONCE_LIMIT && SysInv(c, call, s) && Can(c, call, s, SendMsg(p, order))
    ensures SysInv(c, call, Do(c, call, s, SendMsg(p, order)))
  {
    hide Inv, InTurn, Opened, Infos, Complete, ClientSide;
    SendKeepsComplete(s.client, p, order);
    SendKeepsClientSide(call, s, StreamData(order, p), Do(c, call, s, SendMsg(p, order)));
  }

  lemma CloseClientsKeeps(c: Config, call: Call, s: System, order: seq<Id>)
    requires |call.targets| < NONCE_LIMIT && SysInv(c, call, s) && Can(c, call, s, CloseClients(order))
    ensures SysInv(c, call, Do(c, call, s, CloseClients(order)))
  {
    hide Inv, InTurn, Opened, Infos, Complete, ClientSide;
    QuietKeepsComplete(s.client, ClientClose(order), Do(c, call, s, CloseClients(order)).client);
    SendKeepsClientSide(call, s, ClientClose(order), Do(c, call, s, CloseClients(order)));
  }

  lemma SendStartKeeps(c: Config, call: Call, s: System)
    requires |call.targets| < NONCE_LIMIT && SysInv(c, call, s) && Can(c, call, s, SendStart)
    ensures SysInv(c, call, Do(c, call, s, SendStart))
  {
    hide Inv, InTurn, Opened, Infos, Complete, ClientSide;
    QuietKeepsComplete(s.client, StartOf(call, s.client.starts), Do(c, call, s, SendStart).client);
    SendKeepsClientSide(call, s, StartOf(call, s.client.starts), Do(c, call, s, SendStart));
  }

  // ---- The client's phases ----

  /** Flags and phases that leave the tracked streams alone, or give them up. */
  lemma PhaseKeeps(c: Config, call: Call, s: System, s': System)
    requires |call.targets| < NONCE_LIMIT && SysInv(c, call, s) && s'.server == s.server
    requires s'.client == s.client.(phase := s'.client.phase, startsOver := s'.client.startsOver,
                                    halfClosed := s'.client.halfClosed, errors := s'.client.errors,
                                    base := s'.client.base, since := s'.client.since)
    requires s'.client.phase == s.client.phase || s'.client.phase.Gone?
             || (s.client.phase.SettingUp? && s'.client.phase == Ready(s.client.phase.setup.ids)
                 && s.client.phase.setup.replies == |call.targets|)
    requires s'.client.errors == s.client.errors || (s.client.phase.SettingUp? && s'.client.errors == s.client.phase.setup.errors)
    ensures SysInv(c, call, s')
  {
    hide Inv, InTurn, Infos, Collected, Attributed;
  }

  lemma {:induction false} PayloadsSilent(got: seq<Ret>, errors: seq<Ret>, index: nat)
    requires forall r <- errors :: !IsData(r)
    ensures Payloads(got + errors, index) == Payloads(got, index)
  {
    if errors == [] {
      assert got + errors == got;
    } else {
      var n := |errors| - 1;
      assert (got + errors)[..|got + errors| - 1] == got + errors[..n];
      PayloadsSilent(got, errors[..n], index);
    }
  }

  lemma ErrorsAreSilent(call: Call, got: seq<Ret>, errors: seq<Ret>, heard: seq<Reply>, infos: map<Id, Info>)
    requires Collected(got, heard, infos) && Attributed(call, got, infos) && Blamed(call, errors)
    ensures Collected(got + errors, heard, infos) && Attributed(call, got + errors, infos)
  {
    forall id <- infos
      ensures Payloads(got + errors, infos[id].nonce) == DataOf(Project(heard, id))
    {
      PayloadsSilent(got, errors, infos[id].nonce);
    }
  }

  lemma ShipErrorsKeeps(c: Config, call: Call, s: System, s': System)
    requires |call.targets| < NONCE_LIMIT && SysInv(c, call, s) && s.client.phase.Ready?
    requires s' == s.(client := s.client.(got := s.client.got + s.client.errors, sentErrors := true))
    ensures SysInv(c, call, s')
  {
    hide Inv, InTurn, Infos, Collected, Attributed, Opened, Requested, Project;
    ErrorsAreSilent(call, s.client.got, s.client.errors, Heard(s), Infos(s.server.table));
  }

  // ---- The client receives ----

  /** A reply in the log extends what was heard of its stream: a start only begins,
      and nothing follows a close. */
  lemma NextReply(c: Config, s: Server, k: nat, id: Id)
    requires Inv(c, s) && k < |s.replies| && Mentions(s.replies[k], id)
    ensures id in Infos(s.table) && id != 0
    ensures var tr := Project(s.replies[..k], id);
            && (s.replies[k].StartReply? ==> tr == [])
            && (tr != [] ==> !tr[|tr| - 1].CloseReply?)
  {
    hide Inv, Wire, Grammatical;
    ProjectHas(s.replies, k, id);
    InvStream(c, s, id);
    WireGrammatical(id, At(s.table, id));
    GrammarAt(s.replies, k, id, At(s.table, id).announced);
  }

  lemma GrammarAt(log: seq<Reply>, k: nat, id: Id, announced: bool)
    requires Grammatical(Project(log, id), announced) && k < |log| && Mentions(log[k], id)
    ensures var tr := Project(log[..k], id);
            (log[k].StartReply? ==> tr == []) && (tr != [] ==> !tr[|tr| - 1].CloseReply?)
  {
    hide Project;
    var a, b := log[..k], log[k..];
    assert log == a + b;
    ProjectSplit(a, b, id);
    ProjectFirst(b, id);
    var tr, all := Project(a, id), Project(log, id);
    assert all[|tr|] == log[k];
    if tr != [] {
      assert all[|tr| - 1] == tr[|tr| - 1];
    }
  }

  lemma HeardNext(s: System, s': System)
    requires s'.server == s.server && s.client.consumed < |s.server.replies| && s'.client.consumed == s.client.consumed + 1
    ensures Heard(s') == Heard(s) + [s.server.replies[s.client.consumed]]
  {
  }

  /** Keys change only where the reply speaks. */
  ghost predicate KeysFollow(ids: map<Id, Ret>, ids': map<Id, Ret>, r: Reply) {
    forall id: Id ::
      if Mentions(r, id) then id in ids' <==> !r.CloseReply? else id in ids' <==> id in ids
  }

  lemma TracksNext(c: Config, s: Server, k: nat, ids: map<Id, Ret>, ids': map<Id, Ret>)
    requires Inv(c, s) && k < |s.replies|
    requires forall id: Id :: Tracks(ids, id, Project(s.replies[..k], id))
    requires KeysFollow(ids, ids', s.replies[k])
    requires forall id: Id :: Mentions(s.replies[k], id) && !s.replies[k].StartReply? ==> id in ids
    ensures forall id: Id :: Tracks(ids', id, Project(s.replies[..k] + [s.replies[k]], id))
  {
    hide Inv;
    var r := s.replies[k];
    forall id: Id
      ensures Tracks(ids', id, Project(s.replies[..k] + [r], id))
    {
      ProjectAppend(s.replies[..k], r, id);
      assert Tracks(ids, id, Project(s.replies[..k], id));
      if Mentions(r, id) {
        NextReply(c, s, k, id);
      }
    }
  }

  lemma DataOfAppend(tr: seq<Reply>, r: Reply)
    ensures DataOf(tr + [r]) == DataOf(tr) + if r.DataReply? then [r.payload] else []
  {
    assert (tr + [r])[..|tr|] == tr;
  }

  ghost predicate DistinctNonces(infos: map<Id, Info>) {
    forall a, b :: a in infos && b in infos && a != b ==> infos[a].nonce != infos[b].nonce
  }

  lemma NoncesDistinct(c: Config, call: Call, s: System)
    requires ServerSide(c, call, s)
    ensures DistinctNonces(Infos(s.server.table))
  {
    hide Inv, Infos, InTurn, Key;
    PairedOf(c, s.server);
  }

  lemma PairedOf(c: Config, s: Server)
    requires Inv(c, s)
    ensures Paired(Infos(s.table), s.table.pairs)
  {
    hide Infos, Paired, Streams, Wired;
  }

  /** One reply adds its payload under its stream's nonce, or no payload at all. */
  ghost predicate AddsPayload(r: Reply, out: seq<Ret>, infos: map<Id, Info>) {
    if r.DataReply? then
      && |r.ids| == 1 && r.ids[0] in infos
      && |out| == 1 && out[0].index == infos[r.ids[0]].nonce && out[0].resp == Some(r.payload) && out[0].error == None
    else forall x <- out :: !IsData(x)
  }

  lemma CollectedNext(got: seq<Ret>, heard: seq<Reply>, infos: map<Id, Info>, r: Reply, out: seq<Ret>)
    requires Collected(got, heard, infos) && DistinctNonces(infos) && AddsPayload(r, out, infos)
    ensures Collected(got + out, heard + [r], infos)
  {
    hide Project, DataOf, Payloads;
    forall id <- infos
      ensures Payloads(got + out, infos[id].nonce) == DataOf(Project(heard + [r], id))
    {
      ProjectAppend(heard, r, id);
      DataOfAppend(Project(heard, id), r);
      assert Project(heard, id) + [] == Project(heard, id);
      assert DataOf(Project(heard, id)) + [] == DataOf(Project(heard, id));
      if r.DataReply? {
        assert out == [out[0]];
        PayloadsAppend(got, out[0], infos[id].nonce);
      } else {
        PayloadsSilent(got, out, infos[id].nonce);
      }
    }
  }

  lemma PayloadsAppend(got: seq<Ret>, r: Ret, index: nat)
    ensures Payloads(got + [r], index) ==
            Payloads(got, index) + if r.index == index && IsData(r) then [r.resp.value] else []
  {
    assert (got + [r])[..|got|] == got;
  }

  lemma {:induction false} StartNoncesPrefix(log: seq<Reply>, k: nat)
    requires k <= |log|
    ensures StartNonces(log[..k]) <= StartNonces(log)
    decreases |log|
  {
    if k < |log| {
      var n := |log| - 1;
      assert log[..n][..k] == log[..k];
      StartNoncesPrefix(log[..n], k);
    } else {
      assert log[..k] == log;
    }
  }

  /** The nonce of the next start reply was not heard before. */
  lemma NonceIsNew(log: seq<Reply>, k: nat, bound: nat)
    requires Increasing(StartNonces(log), bound) && k < |log| && log[k].StartReply?
    ensures log[k].nonce !in StartNonces(log[..k])
  {
    hide StartNonces;
    assert log[..k + 1] == log[..k] + [log[k]];
    StartNoncesAppend(log[..k], log[k]);
    StartNoncesPrefix(log, k + 1);
    LastIsNew(StartNonces(log[..k]), log[k].nonce, StartNonces(log), bound);
  }

  lemma LastIsNew(before: seq<nat>, n: nat, ns: seq<nat>, bound: nat)
    requires Increasing(ns, bound) && before + [n] <= ns
    ensures n !in before
  {
    assert ns[|before|] == (before + [n])[|before|];
    forall i | 0 <= i < |before|
      ensures before[i] != n
    {
      assert ns[i] == (before + [n])[i];
    }
  }

  // ---- Setup replies ----

  lemma AccountedOpen(s: Setup, ns: seq<nat>, id: Id, ret: Ret)
    requires Accounted(s, ns) && id !in s.ids && ret.index !in ns
    ensures Accounted(Setup(s.replies + 1, s.ids[id := ret], s.errors), ns + [ret.index])
  {
    var s' := Setup(s.replies + 1, s.ids[id := ret], s.errors);
    forall n <- ns + [ret.index]
      ensures (exists x :: x in s'.ids && s'.ids[x].index == n) || (exists e :: e in s'.errors && e.index == n)
    {
      if n == ret.index {
        assert s'.ids[id].index == n;
      } else if x :| x in s.ids && s.ids[x].index == n {
        assert s'.ids[x].index == n;
      }
    }
  }

  lemma AccountedError(s: Setup, ns: seq<nat>, ret: Ret)
    requires Accounted(s, ns) && ret.index !in ns
    ensures Accounted(Setup(s.replies + 1, s.ids, s.errors + [ret]), ns + [ret.index])
  {
    var s' := Setup(s.replies + 1, s.ids, s.errors + [ret]);
    forall n <- ns + [ret.index]
      ensures (exists x :: x in s'.ids && s'.ids[x].index == n) || (exists e :: e in s'.errors && e.index == n)
    {
      if n == ret.index {
        assert s'.errors[|s.errors|] == ret;
      } else if e :| e in s.errors && e.index == n {
        assert e in s'.errors;
      }
    }
  }

  lemma CoversClose(s: Setup, ns: seq<nat>, id: Id, ret: Ret)
    requires Covers(s, ns) && id in s.ids && ret.index == s.ids[id].index
    ensures Covers(s.(ids := s.ids - {id}, errors := s.errors + [ret]), ns)
  {
    var ids', errors' := s.ids - {id}, s.errors + [ret];
    forall n <- ns
      ensures (exists x :: x in ids' && ids'[x].index == n) || (exists e :: e in errors' && e.index == n)
    {
      if n == ret.index {
        assert errors'[|s.errors|] == ret;
      } else if e :| e in s.errors && e.index == n {
        assert e in errors';
      } else {
        var x :| x in s.ids && s.ids[x].index == n;
        assert x in ids';
      }
    }
  }

  lemma ApartClose(s: Setup, id: Id, ret: Ret)
    requires Apart(s) && id in s.ids && ret.index == s.ids[id].index
    ensures Apart(s.(ids := s.ids - {id}, errors := s.errors + [ret]))
  {
    var errors' := s.errors + [ret];
    forall i, j | 0 <= i < j < |errors'|
      ensures errors'[i].index != errors'[j].index
    {
      assert errors'[i] == s.errors[i] && s.errors[i] in s.errors;
    }
  }

  lemma AccountedClose(s: Setup, ns: seq<nat>, id: Id, ret: Ret)
    requires Accounted(s, ns) && id in s.ids && ret.index == s.ids[id].index
    ensures Accounted(s.(ids := s.ids - {id}, errors := s.errors + [ret]), ns)
  {
    hide Covers, Apart;
    CoversClose(s, ns, id, ret);
    ApartClose(s, id, ret);
  }

  lemma CloseOne(s: Setup, id: Id, status: Status)
    ensures AcceptClose(s, [id], status) ==
            if id !in s.ids then Refused("close on invalid stream id")
            else Success(s.(ids := s.ids - {id}, errors := s.errors + [s.ids[id].(error := Some(Failed(status)))]))
  {
    assert [id][1..] == [];
  }

  /** What an accepted reply does to the tracked streams. */
  lemma AcceptFollows(targets: seq<string>, s: Setup, r: Reply)
    requires Accept(targets, s, r).Success? && ((r.StartReply? && !r.result.NoResult?) || Single(r))
    ensures var s' := Accept(targets, s, r).value;
            && !r.DataReply? && KeysFollow(s.ids, s'.ids, r)
            && (forall id <- s'.ids :: if id in s.ids then s'.ids[id] == s.ids[id]
                  else r.StartReply? && r.result == StreamId(id) && s'.ids[id] == Ret(r.target, r.nonce, None, None))
    ensures !r.StartReply? ==> r.ids[0] in s.ids
  {
    if r.CloseReply? {
      assert r.ids == [r.ids[0]];
      CloseOne(s, r.ids[0], r.status);
      hide AcceptClose;
    }
  }

  lemma AcceptAccounts(call: Call, s: Setup, r: Reply, ns: seq<nat>)
    requires |call.targets| < NONCE_LIMIT && Accept(call.targets, s, r).Success?
    requires (r.StartReply? && !r.result.NoResult?) || Single(r)
    requires Accounted(s, ns) && Blamed(call, s.errors) && (r.StartReply? ==> r.nonce !in ns)
    requires forall id <- s.ids :: Labelled(call.targets, s.ids[id])
    ensures var s' := Accept(call.targets, s, r).value;
            Accounted(s', ns + if r.StartReply? then [r.nonce] else []) && Blamed(call, s'.errors)
  {
    if r.StartReply? {
      assert |call.targets| % NONCE_LIMIT == |call.targets|;
      hide Accounted;
      var ret := Ret(r.target, r.nonce, None, None);
      if r.result.ErrorStatus? {
        AccountedError(s, ns, ret.(error := Some(Failed(r.result.status))));
      } else {
        AccountedOpen(s, ns, r.result.id, ret);
      }
    } else if r.CloseReply? {
      var id := r.ids[0];
      assert r.ids == [id] && ns + [] == ns;
      CloseOne(s, id, r.status);
      hide Accounted;
      hide AcceptClose;
      AccountedClose(s, ns, id, s.ids[id].(error := Some(Failed(r.status))));
    }
  }

  lemma StartInfo(c: Config, s: Server, k: nat)
    requires Inv(c, s) && k < |s.replies| && s.replies[k].StartReply? && s.replies[k].result.StreamId?
    ensures var r := s.replies[k];
            r.result.id in Infos(s.table) && Infos(s.table)[r.result.id].target == r.target && Infos(s.table)[r.result.id].nonce == r.nonce
  {
    hide Inv;
    StartOnWire(c, s, k);
  }

  lemma SetupRecvMatched(c: Config, s: System, ids': map<Id, Ret>)
    requires Inv(c, s.server) && s.client.consumed < |s.server.replies| && Matched(IdsOf(s.client), Infos(s.server.table))
    requires var r := s.server.replies[s.client.consumed];
             forall id <- ids' :: if id in IdsOf(s.client) then ids'[id] == IdsOf(s.client)[id]
               else r.StartReply? && r.result == StreamId(id) && ids'[id] == Ret(r.target, r.nonce, None, None)
    ensures Matched(ids', Infos(s.server.table))
  {
    hide Inv, Infos;
    var r := s.server.replies[s.client.consumed];
    if r.StartReply? && r.result.StreamId? {
      StartInfo(c, s.server, s.client.consumed);
    }
  }

  lemma RecvTracking(c: Config, s: System, ids': map<Id, Ret>, heard': seq<Reply>)
    requires Inv(c, s.server) && s.client.consumed < |s.server.replies| && !s.client.phase.Gone? && Tracking(s)
    requires heard' == Heard(s) + [s.server.replies[s.client.consumed]]
    requires KeysFollow(IdsOf(s.client), ids', s.server.replies[s.client.consumed])
    requires var r := s.server.replies[s.client.consumed]; r.StartReply? || (Single(r) && r.ids[0] in IdsOf(s.client))
    ensures forall id: Id :: Tracks(ids', id, Project(heard', id))
  {
    hide Inv, Tracks;
    TracksNext(c, s.server, s.client.consumed, IdsOf(s.client), ids');
  }

  lemma PlainNext(call: Call, s: Server, k: nat)
    requires InTurn(call, s) && k < |s.replies|
    ensures (s.replies[k].StartReply? && !s.replies[k].result.NoResult?) || Single(s.replies[k])
  {
    assert s.replies[k] in s.replies;
  }

  lemma SetupRecvClientSide(c: Config, call: Call, s: System, s': System, r: Reply)
    requires |call.targets| < NONCE_LIMIT && SysInv(c, call, s) && s.client.phase.SettingUp?
    requires s.client.consumed < |s.server.replies| && r == s.server.replies[s.client.consumed]
    requires Accept(call.targets, s.client.phase.setup, r).Success?
    requires s' == s.(client := s.client.(phase := SettingUp(Accept(call.targets, s.client.phase.setup, r).value),
                                          consumed := s.client.consumed + 1))
    ensures ClientSide(call, s')
  {
    hide Inv, Infos, InTurn, Accounted, Accept, Tracks, KeysFollow, Complete, WireShape, Opened, Collected, Attributed, Blamed;
    PlainNext(call, s.server, s.client.consumed);
    AcceptFollows(call.targets, s.client.phase.setup, r);
    SetupAccounts(c, call, s);
    NoncesDistinct(c, call, s);
    HeardNext(s, s');
    SetupRecvMatched(c, s, s'.client.phase.setup.ids);
    RecvTracking(c, s, s'.client.phase.setup.ids, Heard(s'));
    assert s.client.got + [] == s.client.got;
    CollectedNext(s.client.got, Heard(s), Infos(s.server.table), r, []);
  }

  lemma SetupRecvRest(c: Config, call: Call, s: System, s': System)
    requires |call.targets| < NONCE_LIMIT && SysInv(c, call, s) && s.client.phase.SettingUp? && s'.client.phase.SettingUp?
    requires s' == s.(client := s.client.(phase := s'.client.phase, consumed := s'.client.consumed)) && ClientSide(call, s')
    ensures SysInv(c, call, s')
  {
    hide Inv, Infos, InTurn, Opened, ClientSide, Requested;
  }

  lemma SetupRecvKeeps(c: Config, call: Call, s: System, s': System, r: Reply)
    requires |call.targets| < NONCE_LIMIT && SysInv(c, call, s) && s.client.phase.SettingUp?
    requires s.client.consumed < |s.server.replies| && r == s.server.replies[s.client.consumed]
    requires s' == s.(client := AfterSetupRecv(call, s.client, r))
    ensures SysInv(c, call, s')
  {
    hide SysInv, Accept;
    if Accept(call.targets, s.client.phase.setup, r).Success? {
      SetupRecvClientSide(c, call, s, s', r);
      SetupRecvRest(c, call, s, s');
    } else {
      PhaseKeeps(c, call, s, s');
    }
  }

  lemma SetupAccounts(c: Config, call: Call, s: System)
    requires |call.targets| < NONCE_LIMIT && SysInv(c, call, s) && s.client.phase.SettingUp?
    requires s.client.consumed < |s.server.replies|
    requires Accept(call.targets, s.client.phase.setup, s.server.replies[s.client.consumed]).Success?
    ensures var setup' := Accept(call.targets, s.client.phase.setup, s.server.replies[s.client.consumed]).value;
            && Accounted(setup', StartNonces(Heard(s) + [s.server.replies[s.client.consumed]])) && Blamed(call, setup'.errors)
            && (forall id <- setup'.ids :: setup'.ids[id].resp == None)
  {
    hide Inv;
    hide Infos;
    hide Accounted;
    hide Complete;
    hide Tracking;
    var k := s.client.consumed;
    var r := s.server.replies[k];
    StartNoncesAppend(Heard(s), r);
    if r.StartReply? {
      NonceIsNew(s.server.replies, k, |s.server.handled|);
    }
    hide InTurn;
    AcceptFollows(call.targets, s.client.phase.setup, r);
    AcceptAccounts(call, s.client.phase.setup, r, StartNonces(Heard(s)));
  }

  // ---- Replies after setup ----

  /** How the client's receive step deals with one reply about one stream. */
  lemma AnswerFollows(call: Call, ids: map<Id, Ret>, r: Reply)
    requires Single(r) && forall id <- ids :: ids[id].error == None
    ensures var t := Answer(call, ids, r);
            && SomeOf(t.ids, ids) && !t.end.Crashed?
            && if t.end.Fine? then
                 && r.ids[0] in ids && KeysFollow(ids, t.ids, r)
                 && (forall id <- t.ids :: t.ids[id].error == None)
                 && (forall x <- t.out :: x.index == ids[r.ids[0]].index && x.target == ids[r.ids[0]].target)
                 && (if r.DataReply? then |t.out| == 1 && t.out[0].resp == Some(r.payload) && t.out[0].error == None
                     else forall x <- t.out :: !IsData(x))
               else t.out == []
  {
    hide Answer;
    var id := r.ids[0];
    assert r.ids == [id];
    AnswerOne(call, ids, id, r);
  }

  lemma AnswerOne(call: Call, ids: map<Id, Ret>, id: Id, r: Reply)
    requires (r.DataReply? || r.CloseReply?) && r.ids == [id]
    ensures id !in ids ==> var t := Answer(call, ids, r); t.end.Unexpected? && t.out == [] && t.ids == ids
    ensures id in ids && r.DataReply? ==>
              var ret := ids[id].(resp := Some(r.payload), error := if call.unary then ids[id].error else None);
              Answer(call, ids, r) == Taken(ids[id := ret], [ret], Fine)
    ensures id in ids && r.CloseReply? && !call.unary ==>
              Answer(call, ids, r) == Taken(ids - {id}, [ids[id].(resp := None, error := Some(CloseError(call.dryRun, r.status)))], Fine)
    ensures id in ids && r.CloseReply? && call.unary ==>
              var t := Answer(call, ids, r);
              if r.status.code == 0 then t == Taken(ids - {id}, [], Fine)
              else if ids[id].resp.Some? then t.out == [] && t.end.Unexpected? && t.ids == ids - {id}
              else t == Taken(ids - {id}, [ids[id].(error := Some(Failed(r.status)))], Fine)
  {
    if id in ids {
      if r.DataReply? {
        DataOne(ids, id, r.payload);
      } else {
        hide RecvReply, InvokeReply, CloseError;
        if call.unary {
          InvokeCloseOne(ids, id, r.status);
        } else {
          RecvCloseOne(call.dryRun, ids, id, r.status);
        }
      }
    } else {
      assert r.ids[0] in r.ids;
    }
  }

  lemma RecvCloseOne(dryRun: bool, ids: map<Id, Ret>, id: Id, st: Status)
    requires id in ids
    ensures RecvReply(dryRun, ids, CloseReply([id], st)) ==
            Taken(ids - {id}, [ids[id].(resp := None, error := Some(CloseError(dryRun, st)))], Fine)
  {
    hide RecvClosed, CloseError;
    ClosedOne(ids, id, CloseError(dryRun, st));
  }

  lemma InvokeCloseOne(ids: map<Id, Ret>, id: Id, st: Status)
    requires id in ids
    ensures var t := InvokeReply(ids, CloseReply([id], st));
            if st.code == 0 then t == Taken(ids - {id}, [], Fine)
            else if ids[id].resp.Some? then t.out == [] && t.end.Unexpected? && t.ids == ids - {id}
            else t == Taken(ids - {id}, [ids[id].(error := Some(Failed(st)))], Fine)
  {
    hide InvokeFailed;
    assert (set x | x in [id]) == {id};
    if st.code != 0 {
      FailedOne(ids, id, st);
    }
  }

  lemma AttributedNext(call: Call, got: seq<Ret>, out: seq<Ret>, infos: map<Id, Info>, handled: nat, id: Id)
    requires Attributed(call, got, infos) && Opened(call, infos, handled) && id in infos
    requires forall x <- out :: x.index == infos[id].nonce && x.target == infos[id].target
    ensures Attributed(call, got + out, infos)
  {
    forall r <- got + out
      ensures r.index < |call.targets| && r.target == call.targets[r.index]
      ensures r.resp.Some? ==> exists x :: x in infos && infos[x].nonce == r.index
    {
      if r !in got {
        assert r in out;
      }
    }
  }

  lemma RecvClientSide(c: Config, call: Call, s: System, s': System, r: Reply)
    requires |call.targets| < NONCE_LIMIT && SysInv(c, call, s) && s.client.phase.Ready?
    requires s.client.consumed < |s.server.replies| && r == s.server.replies[s.client.consumed] && Single(r)
    requires Answer(call, s.client.phase.ids, r).end.Fine?
    requires var t := Answer(call, s.client.phase.ids, r);
             s' == s.(client := s.client.(phase := Ready(t.ids), consumed := s.client.consumed + 1, got := s.client.got + t.out))
    ensures ClientSide(call, s') && forall id <- IdsOf(s'.client) :: id in IdsOf(s.client)
  {
    hide Inv, Infos, InTurn, Answer, Tracks, KeysFollow, Complete, WireShape, Opened, Collected, Attributed, Blamed, StartNonces;
    var ids, t, infos := s.client.phase.ids, Answer(call, s.client.phase.ids, r), Infos(s.server.table);
    AnswerFollows(call, ids, r);
    NoncesDistinct(c, call, s);
    HeardNext(s, s');
    RecvTracking(c, s, t.ids, Heard(s'));
    assert infos[r.ids[0]].nonce == ids[r.ids[0]].index;
    CollectedNext(s.client.got, Heard(s), infos, r, t.out);
    AttributedNext(call, s.client.got, t.out, infos, |s.server.handled|, r.ids[0]);
    StartNoncesAppend(Heard(s), r);
  }

  lemma RecvRest(c: Config, call: Call, s: System, s': System)
    requires |call.targets| < NONCE_LIMIT && SysInv(c, call, s) && s.client.phase.Ready? && s'.client.phase.Ready?
    requires s' == s.(client := s.client.(phase := s'.client.phase, consumed := s'.client.consumed, got := s'.client.got))
    requires ClientSide(call, s') && forall id <- IdsOf(s'.client) :: id in IdsOf(s.client)
    ensures SysInv(c, call, s')
  {
    hide Inv, Infos, InTurn, Opened, ClientSide, Requested;
  }

  lemma LeftOverAttributed(call: Call, got: seq<Ret>, ids: map<Id, Ret>, order: seq<Id>, err: Option<RetError>,
                           infos: map<Id, Info>, handled: nat)
    requires Attributed(call, got, infos) && Opened(call, infos, handled) && (forall id <- order :: id in ids)
    requires forall id <- ids :: id in infos && ids[id].index == infos[id].nonce && ids[id].target == infos[id].target
    ensures Attributed(call, got + LeftOver(ids, order, err), infos)
  {
    var left := LeftOver(ids, order, err);
    forall r <- got + left
      ensures r.index < |call.targets| && r.target == call.targets[r.index]
      ensures r.resp.Some? ==> exists x :: x in infos && infos[x].nonce == r.index
    {
      if r !in got {
        var k :| 0 <= k < |left| && left[k] == r;
        assert order[k] in ids;
      }
    }
  }

  lemma LeftOverSilent(got: seq<Ret>, ids: map<Id, Ret>, order: seq<Id>, err: Option<RetError>, heard: seq<Reply>, infos: map<Id, Info>)
    requires Collected(got, heard, infos) && (forall id <- order :: id in ids) && (err.Some? || order == [])
    ensures Collected(got + LeftOver(ids, order, err), heard, infos)
  {
    forall id <- infos
      ensures Payloads(got + LeftOver(ids, order, err), infos[id].nonce) == DataOf(Project(heard, id))
    {
      PayloadsSilent(got, LeftOver(ids, order, err), infos[id].nonce);
    }
  }

  lemma NothingListed(order: seq<Id>)
    requires Lists(order, {})
    ensures order == []
  {
    if |order| > 0 {
      ListedAt(order, {}, 0);
    }
  }

  lemma ListedAt(order: seq<Id>, keys: set<Id>, k: nat)
    requires Lists(order, keys) && k < |order|
    ensures order[k] in keys
  {
    assert order[k] in order;
  }

  /** The unary loop ends, with an error or with nothing open. */
  lemma LoopEndsKeeps(c: Config, call: Call, s: System, ids: map<Id, Ret>, order: seq<Id>, err: Option<RetError>, at: nat)
    requires |call.targets| < NONCE_LIMIT && SysInv(c, call, s) && s.client.phase.Ready?
    requires SomeOf(ids, s.client.phase.ids) && Lists(order, ids.Keys) && (err.Some? || ids == map[])
    ensures SysInv(c, call, s.(client := LoopEnds(s.client, ids, order, err, at)))
  {
    hide Inv, InTurn, Infos, Collected, Attributed, Opened, LeftOver, Requested, Project;
    if err.None? {
      NothingListed(order);
    }
    LeftOverSilent(s.client.got, ids, order, err, Heard(s), Infos(s.server.table));
    LeftOverAttributed(call, s.client.got, ids, order, err, Infos(s.server.table), |s.server.handled|);
  }

  /** When the server has ended the call cleanly and everything was received, no stream is open. */
  lemma EofNothingOpen(c: Config, call: Call, s: System)
    requires |call.targets| < NONCE_LIMIT && SysInv(c, call, s) && s.client.phase.Ready?
    requires s.server.dispatch == Stopped(None) && s.client.consumed == |s.server.replies|
    ensures s.client.phase.ids == map[]
  {
    hide Inv, InTurn, Opened, Named, Collected, Attributed, SetupKnown, Complete, WireShape;
    assert Heard(s) == s.server.replies;
    forall id <- s.client.phase.ids
      ensures false
    {
      assert Tracks(s.client.phase.ids, id, Project(s.server.replies, id));
      AllClosed(c, s.server, id);
    }
    assert s.client.phase.ids.Keys == {};
  }

  lemma AllClosed(c: Config, s: Server, id: Id)
    requires Inv(c, s) && s.dispatch == Stopped(None) && Project(s.replies, id) != []
    ensures Project(s.replies, id)[|Project(s.replies, id)| - 1].CloseReply?
  {
    hide Inv, SenderOk, Project;
    InvStream(c, s, id);
    StoppedClean(c, s);
    InvAt(c, s, id);
    WireEnds(id, At(s.table, id));
  }

  lemma StoppedClean(c: Config, s: Server)
    requires Inv(c, s) && s.dispatch == Stopped(None)
    ensures s.table.streams.Keys == {}
  {
    hide Streams, Wired, Paired, Unasked, Counted;
  }

  lemma WireEnds(id: Id, st: Stream)
    requires st.closeSent.Some?
    ensures Wire(id, st) != [] && Wire(id, st)[|Wire(id, st)| - 1].CloseReply?
  {}

  lemma RecvKeeps(c: Config, call: Call, s: System, s': System, r: Reply, order: seq<Id>)
    requires |call.targets| < NONCE_LIMIT && SysInv(c, call, s) && s.client.phase.Ready?
    requires s.client.consumed < |s.server.replies| && r == s.server.replies[s.client.consumed]
    requires var t := Answer(call, s.client.phase.ids, r); call.unary && !t.end.Fine? ==> Lists(order, t.ids.Keys)
    requires s' == s.(client := AfterRecv(call, s.client, r, order))
    ensures SysInv(c, call, s')
  {
    hide SysInv, InTurn, Answer, LeftOver;
    PlainOf(c, call, s);
    PlainNext(call, s.server, s.client.consumed);
    NoErrors(c, call, s);
    var t := Answer(call, s.client.phase.ids, r);
    if Single(r) {
      AnswerFollows(call, s.client.phase.ids, r);
    } else {
      StartUnexpected(call, s.client.phase.ids, r);
    }
    if t.end.Fine? {
      RecvClientSide(c, call, s, s', r);
      RecvRest(c, call, s, s');
    } else {
      assert s.client.got + [] == s.client.got;
      if call.unary {
        LoopEndsKeeps(c, call, s, t.ids, order, Some(ChanErr(t.end)), s.client.consumed + 1);
      } else {
        PhaseKeeps(c, call, s, s');
      }
    }
  }

  lemma NoErrors(c: Config, call: Call, s: System)
    requires |call.targets| < NONCE_LIMIT && SysInv(c, call, s) && s.client.phase.Ready?
    ensures forall id <- s.client.phase.ids :: s.client.phase.ids[id].error == None
  {
    hide Inv, InTurn, Opened, Named, Collected, Attributed, SetupKnown, Complete, WireShape, Tracking;
  }

  lemma StartUnexpected(call: Call, ids: map<Id, Ret>, r: Reply)
    requires r.StartReply?
    ensures var t := Answer(call, ids, r); t.end.Unexpected? && t.out == [] && t.ids == ids
  {
  }

  lemma PlainOf(c: Config, call: Call, s: System)
    requires |call.targets| < NONCE_LIMIT && SysInv(c, call, s)
    ensures InTurn(call, s.server)
  {
    hide Inv;
  }

  // ---- Every action of every run ----

  lemma DoKeepsSysInv(c: Config, call: Call, s: System, a: Action)
    requires |call.targets| < NONCE_LIMIT && SysInv(c, call, s) && Can(c, call, s, a)
    ensures SysInv(c, call, Do(c, call, s, a))
  {
    hide SysInv, Enabled, Apply, Accept, Answer;
    match a
    case ServerMoves(e) => ServerMovesKeeps(c, call, s, e);
    case ServerHandles(newId) => ServerHandlesKeeps(c, call, s, Handle(s.client.wire[|s.server.handled|], newId));
    case SendStart => SendStartKeeps(c, call, s);
    case StartsEnd => PhaseKeeps(c, call, s, Do(c, call, s, a));
    case SetupRecv => SetupRecvKeeps(c, call, s, Do(c, call, s, a), s.server.replies[s.client.consumed]);
    case SetupDone => PhaseKeeps(c, call, s, Do(c, call, s, a));
    case SendMsg(p, order) => SendMsgKeeps(c, call, s, p, order);
    case CloseClients(order) => CloseClientsKeeps(c, call, s, order);
    case CloseSend => PhaseKeeps(c, call, s, Do(c, call, s, a));
    case ShipErrors => ShipErrorsKeeps(c, call, s, Do(c, call, s, a));
    case RecvNext(order) => RecvKeeps(c, call, s, Do(c, call, s, a), s.server.replies[s.client.consumed], order);
    case EndOfReplies(order) =>
      if call.unary {
        EofNothingOpen(c, call, s);
        LoopEndsKeeps(c, call, s, s.client.phase.ids, order, None, s.client.consumed);
      } else {
        PhaseKeeps(c, call, s, Do(c, call, s, a));
      }
    case Breaks(order) =>
      if Looping(call, s.client) {
        LoopEndsKeeps(c, call, s, s.client.phase.ids, order, Some(CONNECTION_LOST), s.client.consumed);
      } else {
        PhaseKeeps(c, call, s, Do(c, call, s, a));
      }
  }

  /** The invariant holds after every run of client and server. */
  lemma {:induction false} ReachedInv(c: Config, call: Call, run: seq<Action>)
    requires |call.targets| < NONCE_LIMIT && Reached(c, call, run).Some?
    ensures SysInv(c, call, Reached(c, call, run).value)
  {
    if run == [] {
      StartSysInv(c, call);
    } else {
      hide SysInv;
      hide Can;
      hide Do;
      var n := |run| - 1;
      ReachedInv(c, call, run[..n]);
      DoKeepsSysInv(c, call, Reached(c, call, run[..n]).value, run[n]);
    }
  }
}
