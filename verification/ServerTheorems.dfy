/**
 What the invariant means for every run of the server, whatever the client sends
 and however the goroutines interleave.
 */
module ServerTheorems {
  import opened Protocol
  import opened NonceKeys
  import opened TargetStreams
  import opened StreamSets
  import opened ServerMachine
  import opened ServerInvariant

  /** What the invariant says about one id. */
  lemma AfterStream(c: Config, run: seq<Event>, id: Id)
    requires After(c, run).Some?
    ensures var s := After(c, run).value;
            if id in Issued(s.table) then Placed(c, s, id) && Fed(s, id) && Project(s.replies, id) == Wire(id, At(s.table, id))
            else Project(s.replies, id) == []
  {
    hide Placed, Fed, Wire;
    AfterInv(c, run);
  }

  // ---- The reply grammar ----

  /** A start reply can only come first and a close only last, so everything in
      between is data; with a start reply at the front when one is due. */
  ghost predicate Grammatical(tr: seq<Reply>, announced: bool) {
    && (forall k :: 0 <= k < |tr| && tr[k].StartReply? ==> k == 0)
    && (forall k :: 0 <= k < |tr| && tr[k].CloseReply? ==> k == |tr| - 1)
    && (forall k :: 0 <= k < |tr| ==> !tr[k].UnknownReply?)
    && (announced && tr != [] ==> tr[0].StartReply?)
  }

  lemma WireGrammatical(id: Id, st: Stream)
    ensures Grammatical(Wire(id, st), st.announced)
  {
    var tr := Wire(id, st);
    var a := if st.announced then 1 else 0;
    assert forall k :: a <= k < a + |st.rcv.forwarded| ==> tr[k] == DataReply([id], st.rcv.forwarded[k - a]);
  }

  lemma Looser(tr: seq<Reply>, announced: bool, due: bool, silent: bool)
    requires Grammatical(tr, announced) || tr == []
    requires due ==> announced || silent
    ensures (silent ==> tr == []) ==> Grammatical(tr, due)
  {}

  lemma StartingIsSilent(id: Id, st: Stream)
    requires StreamOk(st)
    ensures st.run.Starting? ==> Wire(id, st) == []
  {
    hide SenderOk, ReceiverOk, ModeOk;
  }

  /** While the context is live every stream's replies read: start, data, close.
      A stream without its start reply exists only after cancellation. */
  lemma ReplyGrammar(c: Config, run: seq<Event>, id: Id)
    requires After(c, run).Some?
    ensures var s := After(c, run).value;
            && Grammatical(Project(s.replies, id), !s.ctxDone)
            && (id !in Issued(s.table) ==> Project(s.replies, id) == [])
  {
    hide After, Inv, StreamOk, Wire, Grammatical;
    var s := After(c, run).value;
    AfterInv(c, run);
    InvStream(c, s, id);
    if id in Issued(s.table) {
      InvAt(c, s, id);
      WireGrammatical(id, At(s.table, id));
      Looser(Wire(id, At(s.table, id)), At(s.table, id).announced, !s.ctxDone, At(s.table, id).run.Starting?);
      StartingIsSilent(id, At(s.table, id));
    } else {
      Looser([], false, !s.ctxDone, true);
    }
  }

  /** The payloads of a stream on replyChan are those its target sent, in order, up to
      one that is still waiting to be written, and after them the empty reply made up
      for a client-streaming target that ended without one. */
  lemma RepliesComeFromTarget(c: Config, run: seq<Event>, id: Id)
    requires After(c, run).Some? && id in Issued(After(c, run).value.table)
    ensures var s := After(c, run).value; var st := At(s.table, id);
            && Project(s.replies, id) == Wire(id, st)
            && st.rcv.forwarded <= st.rcv.received + st.rcv.madeUp
            && |st.rcv.received + st.rcv.madeUp| <= |st.rcv.forwarded| + 1
            && (st.rcv.madeUp != [] ==> |st.rcv.madeUp| == 1 && st.info.rpc.clientStreams && !st.info.rpc.serverStreams)
  {
    hide SenderOk;
    AfterStream(c, run, id);
  }

  lemma ClosedMeansOver(c: Config, s: Server)
    requires Inv(c, s) && s.replyClosed
    ensures s.dispatch.Stopped? && forall id <- s.table.streams :: s.table.streams[id].run.Finished?
  {
    hide Streams, Wired, Unasked, Paired, Infos;
    assert Unfinished(s.table) == {};
    assert forall id <- s.table.streams :: !s.table.streams[id].run.Finished? ==> id in Unfinished(s.table);
  }

  lemma WritersOnly(c: Config, s: Server, e: Event)
    requires Enabled(c, s, e) && !e.Forward? && !e.WriteClose? && !e.WriteStart?
    ensures Apply(c, s, e).replies == s.replies
  {
    hide Step, CanStep, Dispatched, Without, ShutAll, Push, Finish;
    if e.Handle? {
      HandleWritesNothing(c, s.(handled := s.handled + [e.req]), e.req, e.newId);
    }
  }

  lemma HandleWritesNothing(c: Config, s: Server, req: Request, newId: Id)
    ensures Dispatched(c, s, req, newId).replies == s.replies
  {
    hide Validate, WithStream, Known, CancelListed, ShutListed, Reused;
  }

  /** Nothing is written to replyChan after it is closed: no event can. */
  lemma NoWriteAfterClose(c: Config, run: seq<Event>, e: Event)
    requires After(c, run).Some? && After(c, run).value.replyClosed && Enabled(c, After(c, run).value, e)
    ensures Apply(c, After(c, run).value, e).replies == After(c, run).value.replies
  {
    hide After, Inv, Apply, CanStep;
    AfterInv(c, run);
    ClosedMeansOver(c, After(c, run).value);
    WritersOnly(c, After(c, run).value, e);
  }

  // ---- Issued ids ----

  /** The request makes a new stream. */
  predicate Registers(c: Config, s: Server, e: Event) {
    e.Handle? && e.req.StartStream? && !Reused(s.table, e.req) && e.req.methodName in c.methods
  }

  /** The ids of the streams a run made. */
  function Created(c: Config, run: seq<Event>): set<Id>
    requires After(c, run).Some?
  {
    if run == [] then {}
    else
      var n := |run| - 1;
      Created(c, run[..n]) + if Registers(c, After(c, run[..n]).value, run[n]) then {run[n].newId} else {}
  }

  /** The ids that came in on doneChan. */
  function HandedOff(run: seq<Event>): set<Id> {
    set k | 0 <= k < |run| && run[k].HandOff? :: run[k].id
  }

  lemma PutKeys(s: Server, id: Id, st: Stream)
    requires Open(s, id)
    ensures Put(s, id, st).table.streams.Keys == s.table.streams.Keys && Put(s, id, st).table.closed == s.table.closed
  {}

  lemma LaunchKeys(s: Server, announced: bool)
    ensures var s' := Launch(s, announced);
            s'.table.streams.Keys == s.table.streams.Keys && s'.table.closed == s.table.closed
  {
    hide Put;
    if s.dispatch.Replying? && s.dispatch.starting.Some? && s.dispatch.starting.value in s.table.streams {
      var id := s.dispatch.starting.value;
      PutKeys(s.(dispatch := Idle), id, s.table.streams[id].(run := Running, announced := announced));
    }
  }

  lemma KeysStep(c: Config, s: Server, e: Event)
    requires Enabled(c, s, e)
    ensures var s' := Apply(c, s, e);
            && s'.table.streams.Keys == s.table.streams.Keys - (if e.HandOff? then {e.id} else {})
                                       + (if Registers(c, s, e) then {e.newId} else {})
            && s'.table.closed.Keys == s.table.closed.Keys + (if e.HandOff? then {e.id} else {})
            && (e.HandOff? ==> e.id in s.table.streams)
  {
    hide Step, CanStep, Dispatched, Reused, Push, Put, Launch, Forwarded, CloseWritten, Finish;
    match e
    case Local(id, move) => PutKeys(s, id, Step(s.table.streams[id], s.ctxDone, move));
    case Forward(id) => PutKeys(s, id, Forwarded(s.table.streams[id]));
    case WriteClose(id) => PutKeys(s, id, CloseWritten(s.table.streams[id]));
    case Abandon(id) => PutKeys(s, id, Finish(s.table.streams[id]));
    case Handle(req, newId) => HandleKeys(c, s.(handled := s.handled + [req]), req, newId);
    case WriteStart => LaunchKeys(s, true);
    case DropStart => LaunchKeys(s, false);
    case Enqueue => PutKeys(s, s.dispatch.todo[0], Push(s.table.streams[s.dispatch.todo[0]], s.dispatch.payload));
    case _ =>
  }

  lemma HandleKeys(c: Config, s: Server, req: Request, newId: Id)
    ensures var s' := Dispatched(c, s, req, newId);
            && s'.table.closed.Keys == s.table.closed.Keys
            && s'.table.streams.Keys == s.table.streams.Keys +
               (if req.StartStream? && !Reused(s.table, req) && req.methodName in c.methods then {newId} else {})
  {
    hide Start, Data, CancelIds, ShutListed;
    match req
    case StartStream(_, _, _, _) => StartKeys(c, s, req, newId);
    case StreamData(ids, p) => DataKeys(c, s, ids, p);
    case ClientClose(ids) => ShutKeys(s.table.streams, ids);
    case ClientCancel(ids) => CancelKeys(s, ids);
    case UnknownRequest =>
  }

  lemma StartKeys(c: Config, s: Server, req: Request, newId: Id)
    requires req.StartStream?
    ensures var s' := Start(c, s, req, newId);
            && s'.table.closed == s.table.closed
            && s'.table.streams.Keys == s.table.streams.Keys +
               (if !Reused(s.table, req) && req.methodName in c.methods then {newId} else {})
  {
    hide Reused, WithStream;
    if req.methodName in c.methods {
      WithStreamKeys(s.table, newId, Info(req.target, req.nonce, c.methods[req.methodName], req.dryRun));
    }
  }

  lemma WithStreamKeys(t: StreamSet, id: Id, info: Info)
    ensures WithStream(t, id, info).closed == t.closed && WithStream(t, id, info).streams.Keys == t.streams.Keys + {id}
  {}

  lemma DataKeys(c: Config, s: Server, ids: seq<Id>, p: Payload)
    ensures Data(c, s, ids, p).table == s.table
  {
    hide Validate;
  }

  lemma ShutKeys(streams: map<Id, Stream>, ids: seq<Id>)
    ensures ShutListed(streams, ids).Keys == streams.Keys
  {}

  lemma CancelKeys(s: Server, ids: seq<Id>)
    ensures var s' := CancelIds(s, ids); s'.table.closed == s.table.closed && s'.table.streams.Keys == s.table.streams.Keys
  {
    hide Known;
  }

  /** Open and closed ids partition the ids the run issued; the closed ones are
      exactly those handed off. */
  lemma {:induction false} IssuedPartition(c: Config, run: seq<Event>)
    requires After(c, run).Some?
    ensures var s := After(c, run).value;
            && s.table.streams.Keys + s.table.closed.Keys == Created(c, run)
            && s.table.streams.Keys !! s.table.closed.Keys
            && s.table.closed.Keys == HandedOff(run)
  {
    hide Apply, Enabled, Registers, HandedOff;
    CountedAfter(c, run);
    if run == [] {
      assert After(c, run).value.table.streams.Keys == {} && After(c, run).value.table.closed.Keys == {};
      NoneHandedOff();
    } else {
      var n := |run| - 1;
      IssuedPartition(c, run[..n]);
      KeysStep(c, After(c, run[..n]).value, run[n]);
      HandedOffGrows(run);
    }
  }

  lemma CountedAfter(c: Config, run: seq<Event>)
    requires After(c, run).Some?
    ensures After(c, run).value.table.streams.Keys !! After(c, run).value.table.closed.Keys
  {
    AfterInv(c, run);
  }

  lemma NoneHandedOff()
    ensures HandedOff([]) == {}
  {}

  lemma HandedOffGrows(run: seq<Event>)
    requires run != []
    ensures var n := |run| - 1;
            HandedOff(run) == HandedOff(run[..n]) + if run[n].HandOff? then {run[n].id} else {}
  {
    var n := |run| - 1;
    forall id <- HandedOff(run)
      ensures id in HandedOff(run[..n]) + if run[n].HandOff? then {run[n].id} else {}
    {
      var k :| 0 <= k < |run| && run[k].HandOff? && run[k].id == id;
      if k < n {
        assert run[..n][k] == run[k];
      }
    }
    forall id <- HandedOff(run[..n])
      ensures id in HandedOff(run)
    {
      var k :| 0 <= k < n && run[..n][k].HandOff? && run[..n][k].id == id;
      assert run[k].id == id;
    }
  }

  /** dispatch returns nil only when every stream it ever started has handed off its id. */
  lemma CleanReturn(c: Config, run: seq<Event>)
    requires After(c, run).Some? && After(c, run).value.dispatch == Stopped(None)
    ensures HandedOff(run) == Created(c, run)
    ensures After(c, run).value.table.streams == map[]
  {
    hide Streams, Wired, Paired;
    IssuedPartition(c, run);
    AfterInv(c, run);
  }

  /** Once the request channel is gone no stream is added, and each hand-off removes one. */
  lemma HalfClosedShrinks(c: Config, run: seq<Event>, e: Event)
    requires After(c, run).Some? && !After(c, run).value.requestsOpen && Enabled(c, After(c, run).value, e)
    ensures var s := After(c, run).value; var s' := Apply(c, s, e);
            !s'.requestsOpen && |s'.table.streams| == |s.table.streams| - if e.HandOff? then 1 else 0
  {
    hide Step, CanStep;
    var s := After(c, run).value;
    var s' := Apply(c, s, e);
    KeysStep(c, s, e);
    assert |s.table.streams| == |s.table.streams.Keys| && |s'.table.streams| == |s'.table.streams.Keys|;
  }

  // ---- Authorisation and order of delivery ----

  /** What reached the target's SendMsg is an in-order prefix of what was queued;
      each message was approved first, and a refusal is the last thing judged. */
  lemma AuthorisedPrefix(c: Config, run: seq<Event>, id: Id)
    requires After(c, run).Some? && id in Issued(After(c, run).value.table)
    ensures var st := At(After(c, run).value.table, id); var snd := st.snd;
            && snd.delivered <= st.inbox.enqueued
            && (forall k :: 0 <= k < |snd.delivered| ==> k < |snd.verdicts| && snd.verdicts[k] == Verdict(snd.delivered[k], true))
            && (forall j :: 0 <= j < |snd.verdicts| && !snd.verdicts[j].approved ==>
                  |snd.delivered| <= j && j == |snd.verdicts| - 1 && |snd.taken| == j + 1)
            && (st.info.dryRun ==> snd.delivered == [])
            && (!st.info.rpc.clientStreams ==> |snd.delivered| <= 1)
  {
    hide After;
    AfterStream(c, run, id);
    var st := At(After(c, run).value.table, id);
    assert forall k :: 0 <= k < |st.snd.delivered| ==> st.snd.delivered[k] == st.inbox.enqueued[k];
  }

  /** Against any client: a stream gets, in order, one copy of each data message
      per time it was named, and only a prefix of them once it or dispatch is done. */
  lemma FanOutOrder(c: Config, run: seq<Event>, id: Id)
    requires After(c, run).Some? && id in Issued(After(c, run).value.table)
    ensures var s := After(c, run).value; var st := At(s.table, id);
            && st.snd.delivered <= st.inbox.enqueued <= Requested(s.handled, id)
            && (s.dispatch.Idle? && id in s.table.streams ==> st.inbox.enqueued == Requested(s.handled, id))
  {
    hide StreamOk;
    AfterStream(c, run, id);
    AuthorisedPrefix(c, run, id);
  }

  // ---- The close of a stream ----

  lemma WireClose(id: Id, st: Stream, r: Reply)
    requires r in Wire(id, st) && r.CloseReply?
    ensures st.closeSent.Some? && r == CloseReply([id], st.closeSent.value)
  {
    assert forall x <- DataReplies(id, st.rcv.forwarded) :: x.DataReply?;
  }

  // ---- Nonces ----

  /** No two successful start replies of a run share a (target, nonce) pair. */
  lemma NoncesUnique(c: Config, run: seq<Event>, i: nat, j: nat)
    requires After(c, run).Some?
    requires var rs := After(c, run).value.replies;
             && i < j < |rs| && rs[i].StartReply? && rs[i].result.StreamId? && rs[j].StartReply? && rs[j].result.StreamId?
    ensures var rs := After(c, run).value.replies;
            rs[i].result.id != rs[j].result.id && (rs[i].target, rs[i].nonce) != (rs[j].target, rs[j].nonce)
  {
    AfterInv(c, run);
    var s := After(c, run).value;
    var a, b := s.replies[i].result.id, s.replies[j].result.id;
    StartOnWire(c, s, i);
    StartOnWire(c, s, j);
    if a == b {
      OneStart(s.replies, i, j, a);
      WireGrammatical(a, At(s.table, a));
    } else {
      assert Paired(Infos(s.table), s.table.pairs);
      assert Infos(s.table)[a] == At(s.table, a).info && Infos(s.table)[b] == At(s.table, b).info;
    }
  }

  lemma StartOnWire(c: Config, s: Server, k: nat)
    requires Inv(c, s) && k < |s.replies| && s.replies[k].StartReply? && s.replies[k].result.StreamId?
    ensures var id := s.replies[k].result.id;
            id in Issued(s.table) && s.replies[k] == StartReply(At(s.table, id).info.target, At(s.table, id).info.nonce, StreamId(id))
  {
    hide Streams, Paired, Wire;
    var id := s.replies[k].result.id;
    ProjectHas(s.replies, k, id);
    assert Project(s.replies, id) == if id in Issued(s.table) then Wire(id, At(s.table, id)) else [];
    WireStart(id, At(s.table, id), s.replies[k]);
  }

  lemma WireStart(id: Id, st: Stream, r: Reply)
    requires r in Wire(id, st) && r.StartReply?
    ensures st.announced && r == StartReply(st.info.target, st.info.nonce, StreamId(id))
  {
    assert forall x <- DataReplies(id, st.rcv.forwarded) :: x.DataReply?;
  }

  /** Two mentioning replies give a projection with two such positions. */
  lemma {:induction false} OneStart(log: seq<Reply>, i: nat, j: nat, id: Id)
    requires i < j < |log| && Mentions(log[i], id) && Mentions(log[j], id)
    ensures exists k :: 0 < k < |Project(log, id)| && Project(log, id)[k] == log[j]
  {
    var a, b := log[..j], log[j..];
    assert log == a + b;
    ProjectSplit(a, b, id);
    assert b[0] == log[j];
    ProjectFirst(b, id);
    ProjectHas(a, i, id);
    assert Project(log, id)[|Project(a, id)|] == log[j];
  }

  lemma {:induction false} ProjectFirst(log: seq<Reply>, id: Id)
    requires log != [] && Mentions(log[0], id)
    ensures Project(log, id) != [] && Project(log, id)[0] == log[0]
  {
    assert log == [log[0]] + log[1..];
    ProjectSplit([log[0]], log[1..], id);
    ProjectAppend([], log[0], id);
    assert [] + [log[0]] == [log[0]];
  }

  /** A start request is refused for re-use exactly when an earlier one with the
      same pair got a stream; in particular a failed start leaves its pair usable. */
  lemma ReuseExactly(c: Config, run: seq<Event>, req: Request)
    requires After(c, run).Some? && req.StartStream?
    ensures var t := After(c, run).value.table;
            Reused(t, req) <==> exists id :: id in Issued(t) && At(t, id).info.target == req.target && At(t, id).info.nonce == req.nonce
  {
    AfterInv(c, run);
    var t := After(c, run).value.table;
    assert Paired(Infos(t), t.pairs);
    if Reused(t, req) {
      var id :| id in Infos(t) && PairOf(Infos(t)[id]) == Key(req.target, req.nonce);
      KeyInjective(At(t, id).info.target, At(t, id).info.nonce, req.target, req.nonce);
    }
    if id :| id in Issued(t) && At(t, id).info.target == req.target && At(t, id).info.nonce == req.nonce {
      assert PairOf(Infos(t)[id]) in t.pairs;
    }
  }
}
