/**
 The inductive invariant of the server: it holds initially and every event of
 every goroutine keeps it, for any request trace.
 */
module ServerInvariant {
  import opened Protocol
  import opened NonceKeys
  import opened TargetStreams
  import opened StreamSets
  import opened ServerMachine

  /** What a stream has put on replyChan so far: the announcement, the data it
      forwarded, and its close, in that order. */
  function Wire(id: Id, st: Stream): seq<Reply> {
    (if st.announced then [StartReply(st.info.target, st.info.nonce, StreamId(id))] else [])
    + DataReplies(id, st.rcv.forwarded)
    + (if st.closeSent.Some? then [CloseReply([id], st.closeSent.value)] else [])
  }

  function DataReplies(id: Id, ps: seq<Payload>): seq<Reply> {
    seq(|ps|, i requires 0 <= i < |ps| => DataReply([id], ps[i]))
  }

  predicate Active(d: Dispatch) {
    !d.Stopped? && !d.Panicked?
  }

  /** Copies of the message being fanned out that id has yet to get. */
  function Owed(d: Dispatch, id: Id): seq<Payload> {
    if d.FanOut? then Copies(d.todo, id, d.payload) else []
  }

  /** Some handled ClientClose names id. */
  predicate Closes(trace: seq<Request>, id: Id) {
    exists k :: 0 <= k < |trace| && trace[k].ClientClose? && id in trace[k].ids
  }

  function StartingReply(id: Id, info: Info): Dispatch {
    Replying(StartReply(info.target, info.nonce, StreamId(id)), Some(id))
  }

  /** The stream itself and its place in the dispatcher's state. */
  ghost predicate Placed(c: Config, s: Server, id: Id)
    requires id in Issued(s.table)
  {
    var st := At(s.table, id);
    && id != 0
    && StreamOk(st)
    && |st.inbox.queue| <= c.capacity
    && (id in s.table.closed ==> st.run.Finished?)
    && (id in s.table.streams && st.run.Finished? ==> s.ctxDone)
    && (st.run.Starting? <==> s.dispatch == StartingReply(id, st.info))
    && (st.announced || st.run.Starting? || s.ctxDone)
    && (id in s.table.streams && !s.requestsOpen ==> st.inbox.closed)
    && (st.inbox.closed ==> !s.requestsOpen || Closes(s.handled, id))
  }

  /** What was queued for id against what the requests asked for. */
  ghost predicate Fed(s: Server, id: Id)
    requires id in Issued(s.table)
  {
    var st := At(s.table, id);
    && st.inbox.enqueued <= Requested(s.handled, id)
    && (id in s.table.streams && Active(s.dispatch) ==>
          st.inbox.enqueued + Owed(s.dispatch, id) == Requested(s.handled, id))
  }

  ghost predicate Streams(c: Config, s: Server) {
    forall id <- Issued(s.table) :: Placed(c, s, id) && Fed(s, id)
  }

  /** Each stream's share of replyChan is its Wire; an id never issued has none. */
  ghost predicate Wired(s: Server) {
    forall id: Id :: Project(s.replies, id) == if id in Issued(s.table) then Wire(id, At(s.table, id)) else []
  }

  /** Nothing was requested for an id not issued yet, or dispatch has stopped. */
  ghost predicate Unasked(s: Server) {
    Active(s.dispatch) ==> forall id: Id :: id !in Issued(s.table) ==> Requested(s.handled, id) == []
  }

  function Infos(t: StreamSet): map<Id, Info> {
    map id | id in Issued(t) :: At(t, id).info
  }

  /** pairs holds exactly the keys of the issued streams, no two of which agree. */
  ghost predicate Paired(infos: map<Id, Info>, pairs: set<string>) {
    && (forall id <- infos :: PairOf(infos[id]) in pairs)
    && (forall k <- pairs :: exists id :: id in infos && PairOf(infos[id]) == k)
    && (forall a, b :: a in infos && b in infos && a != b ==> PairOf(infos[a]) != PairOf(infos[b]))
  }

  function Unfinished(t: StreamSet): set<Id> {
    set id | id in t.streams && !t.streams[id].run.Finished?
  }

  ghost predicate Counted(t: StreamSet) {
    && t.streams.Keys !! t.closed.Keys
    && t.wg == |Unfinished(t)|
  }

  /** Where dispatch may be, given the streams. */
  ghost predicate Central(s: Server) {
    var d := s.dispatch;
    && (s.replyClosed ==> d.Stopped? && s.table.wg == 0)
    && (d.Replying? && d.starting.None? ==> d.reply.StartReply? && !d.reply.result.StreamId?)
    && (d.Replying? && d.starting.Some? ==>
          d.starting.value in s.table.streams && s.table.streams[d.starting.value].run.Starting?)
    && (d.Replying? || d.Panicked? ==> s.requestsOpen)
    && (d.Idle? && !s.requestsOpen ==> s.table.streams.Keys != {})
    && (d.FanOut? ==> s.requestsOpen && d.todo != [] && forall id <- d.todo :: id in s.table.streams.Keys)
    && (d.Stopped? && d.error.None? ==> !s.requestsOpen && s.table.streams.Keys == {})
    && (d.Stopped? && d.error.Some? ==> s.ctxDone)
  }

  ghost predicate Inv(c: Config, s: Server) {
    Streams(c, s) && Wired(s) && Unasked(s) && Paired(Infos(s.table), s.table.pairs) && Counted(s.table) && Central(s)
  }

  lemma InvStream(c: Config, s: Server, id: Id)
    requires Inv(c, s)
    ensures id in Issued(s.table) ==> id != 0
    ensures Project(s.replies, id) == if id in Issued(s.table) then Wire(id, At(s.table, id)) else []
  {
    hide StreamOk, Wire;
    if id in Issued(s.table) {
      assert Placed(c, s, id);
    }
  }

  lemma InitialInv(c: Config)
    ensures Inv(c, INITIAL)
  {
  }

  // ---- Events that touch one stream ----

  /** s' is s with another record for the open stream id, and maybe more replies. */
  ghost predicate Touches(s: Server, s': Server, id: Id) {
    && id in s.table.streams && id in s'.table.streams
    && s' == Put(s, id, s'.table.streams[id]).(replies := s'.replies)
    && var a, b := s.table.streams[id], s'.table.streams[id];
       a.info == b.info && (a.run.Starting? <==> b.run.Starting?) && (a.run.Finished? <==> b.run.Finished?)
  }

  lemma TouchSet(t: StreamSet, id: Id, st: Stream, t': StreamSet)
    requires id in t.streams && t' == t.(streams := t.streams[id := st])
    requires st.info == t.streams[id].info && (st.run.Finished? <==> t.streams[id].run.Finished?)
    ensures Issued(t') == Issued(t) && Unfinished(t') == Unfinished(t) && Infos(t') == Infos(t)
    ensures forall x <- Issued(t) :: At(t', x) == if x == id then st else At(t, x)
  {
  }

  /** A stream whose record is unchanged stays in place when the surroundings move on. */
  lemma PlacedFrame(c: Config, s: Server, s': Server, x: Id)
    requires x in Issued(s.table) && Placed(c, s, x)
    requires x in Issued(s'.table) && At(s.table, x) == At(s'.table, x)
    requires x in s.table.streams <==> x in s'.table.streams
    requires x in s.table.closed <==> x in s'.table.closed
    requires var d := StartingReply(x, At(s.table, x).info); s.dispatch == d <==> s'.dispatch == d
    requires s.ctxDone ==> s'.ctxDone
    requires s'.requestsOpen == s.requestsOpen && s.handled <= s'.handled
    ensures Placed(c, s', x)
  {
    hide StreamOk;
    ClosesGrows(s.handled, s'.handled, x);
  }

  lemma ClosesGrows(a: seq<Request>, b: seq<Request>, id: Id)
    requires a <= b
    ensures Closes(a, id) ==> Closes(b, id)
  {
    if Closes(a, id) {
      var k :| 0 <= k < |a| && a[k].ClientClose? && id in a[k].ids;
      assert b[k] == a[k];
    }
  }

  lemma TouchKeepsStreams(c: Config, s: Server, s': Server, id: Id)
    requires Streams(c, s) && Touches(s, s', id)
    requires Placed(c, s', id) && Fed(s', id)
    ensures Streams(c, s')
  {
    hide StreamOk;
    TouchSet(s.table, id, s'.table.streams[id], s'.table);
    forall x <- Issued(s'.table)
      ensures Placed(c, s', x) && Fed(s', x)
    {
      if x != id {
        PlacedFrame(c, s, s', x);
      }
    }
  }

  lemma TouchKeepsRest(s: Server, s': Server, id: Id)
    requires Touches(s, s', id)
    requires Unasked(s) && Paired(Infos(s.table), s.table.pairs) && Counted(s.table) && Central(s)
    ensures Unasked(s') && Paired(Infos(s'.table), s'.table.pairs) && Counted(s'.table) && Central(s')
  {
    hide Paired;
    TouchSet(s.table, id, s'.table.streams[id], s'.table);
  }

  lemma StepShrinksQueue(st: Stream, ctxDone: bool, e: StreamEvent)
    requires CanStep(st, ctxDone, e)
    ensures |Step(st, ctxDone, e).inbox.queue| <= |st.inbox.queue|
  {
  }

  /** What is written belongs to the stream touched, and extends its wire. */
  lemma TouchKeepsWired(s: Server, s': Server, id: Id, rs: seq<Reply>)
    requires Wired(s) && Touches(s, s', id) && s'.replies == s.replies + rs
    requires Wire(id, s'.table.streams[id]) == Wire(id, s.table.streams[id]) + rs
    requires rs == [] || (|rs| == 1 && forall x: Id :: Mentions(rs[0], x) <==> x == id)
    ensures Wired(s')
  {
    TouchSet(s.table, id, s'.table.streams[id], s'.table);
    forall x: Id
      ensures Project(s'.replies, x) == if x in Issued(s'.table) then Wire(x, At(s'.table, x)) else []
    {
      assert Project(s.replies, x) == if x in Issued(s.table) then Wire(x, At(s.table, x)) else [];
      if rs == [] {
        assert s'.replies == s.replies;
      } else {
        assert rs == [rs[0]];
        ProjectAppend(s.replies, rs[0], x);
      }
    }
  }

  lemma TouchKeepsInv(c: Config, s: Server, s': Server, id: Id, rs: seq<Reply>)
    requires Inv(c, s) && Touches(s, s', id) && s'.replies == s.replies + rs
    requires id in Issued(s'.table) && Placed(c, s', id) && Fed(s', id)
    requires Wire(id, s'.table.streams[id]) == Wire(id, s.table.streams[id]) + rs
    requires rs == [] || (|rs| == 1 && forall x: Id :: Mentions(rs[0], x) <==> x == id)
    ensures Inv(c, s')
  {
    hide StreamOk, Wire, Wired;
    TouchKeepsStreams(c, s, s', id);
    TouchKeepsWired(s, s', id, rs);
    TouchKeepsRest(s, s', id);
  }

  lemma InvAt(c: Config, s: Server, id: Id)
    requires Inv(c, s) && id in Issued(s.table)
    ensures Placed(c, s, id) && Fed(s, id)
  {}

  lemma CountedOf(c: Config, s: Server)
    requires Inv(c, s)
    ensures Counted(s.table)
  {}

  /** Replacing a stream by one that differs only in its goroutines' private state. */
  lemma QuietKeepsInv(c: Config, s: Server, id: Id, b: Stream)
    requires Inv(c, s) && Open(s, id)
    requires StreamOk(b) && SameOutside(s.table.streams[id], b) && |b.inbox.queue| <= |s.table.streams[id].inbox.queue|
    ensures Inv(c, Put(s, id, b))
  {
    hide Inv, StreamOk;
    var s' := Put(s, id, b);
    InvAt(c, s, id);
    assert s'.replies == s.replies + [];
    TouchKeepsInv(c, s, s', id, []);
  }

  lemma StreamsOf(c: Config, s: Server, id: Id)
    requires Inv(c, s) && Open(s, id)
    ensures StreamOk(s.table.streams[id])
  {
    assert Placed(c, s, id);
  }

  lemma LocalKeepsInv(c: Config, s: Server, id: Id, move: StreamEvent)
    requires Inv(c, s) && Open(s, id) && CanStep(s.table.streams[id], s.ctxDone, move)
    ensures Inv(c, Put(s, id, Step(s.table.streams[id], s.ctxDone, move)))
  {
    hide StreamOk, Inv, Step, CanStep;
    StreamsOf(c, s, id);
    StepKeepsOk(s.table.streams[id], s.ctxDone, move);
    StepShrinksQueue(s.table.streams[id], s.ctxDone, move);
    QuietKeepsInv(c, s, id, Step(s.table.streams[id], s.ctxDone, move));
  }

  lemma ForwardedWire(id: Id, a: Stream)
    requires StreamOk(a) && a.run.Running? && a.rcv.phase.Forwarding?
    ensures StreamOk(Forwarded(a)) && Wire(id, Forwarded(a)) == Wire(id, a) + [DataReply([id], a.rcv.phase.payload)]
  {
    hide SenderOk;
  }

  lemma CloseWrittenWire(id: Id, a: Stream)
    requires StreamOk(a) && a.run.Closing?
    ensures StreamOk(CloseWritten(a)) && Wire(id, CloseWritten(a)) == Wire(id, a) + [CloseReply([id], a.run.status)]
  {
    hide SenderOk;
  }

  lemma ForwardKeepsInv(c: Config, s: Server, id: Id)
    requires Inv(c, s) && Open(s, id)
    requires s.table.streams[id].run.Running? && s.table.streams[id].rcv.phase.Forwarding?
    ensures Inv(c, Write(Put(s, id, Forwarded(s.table.streams[id])), DataReply([id], s.table.streams[id].rcv.phase.payload)))
  {
    hide Inv, StreamOk, Wire;
    var a := s.table.streams[id];
    var r := DataReply([id], a.rcv.phase.payload);
    InvAt(c, s, id);
    ForwardedWire(id, a);
    TouchKeepsInv(c, s, Write(Put(s, id, Forwarded(a)), r), id, [r]);
  }

  lemma WriteCloseKeepsInv(c: Config, s: Server, id: Id)
    requires Inv(c, s) && Open(s, id) && s.table.streams[id].run.Closing?
    ensures Inv(c, Write(Put(s, id, CloseWritten(s.table.streams[id])), CloseReply([id], s.table.streams[id].run.status)))
  {
    hide Inv, StreamOk, Wire;
    var a := s.table.streams[id];
    var r := CloseReply([id], a.run.status);
    InvAt(c, s, id);
    CloseWrittenWire(id, a);
    TouchKeepsInv(c, s, Write(Put(s, id, CloseWritten(a)), r), id, [r]);
  }

  // ---- The end of a stream ----

  lemma WithoutSet(t: StreamSet, id: Id, t': StreamSet)
    requires id in t.streams && Counted(t) && !t.streams[id].run.Finished? && t' == Without(t, id)
    ensures Counted(t') && Issued(t') == Issued(t) && Infos(t') == Infos(t)
    ensures forall x <- Issued(t) :: At(t', x) == if x == id then Finish(t.streams[id]) else At(t, x)
  {
    assert Unfinished(t') == Unfinished(t) - {id};
  }

  /** Nothing written, no wire changed. */
  lemma WiredFrame(s: Server, s': Server)
    requires Wired(s) && s'.replies == s.replies && Issued(s'.table) == Issued(s.table)
    requires forall x <- Issued(s.table) :: Wire(x, At(s'.table, x)) == Wire(x, At(s.table, x))
    ensures Wired(s')
  {
    hide Wire;
  }

  lemma FinishOk(id: Id, st: Stream)
    requires StreamOk(st) && st.run.HandingOff?
    ensures StreamOk(Finish(st)) && Wire(id, Finish(st)) == Wire(id, st)
  {
    hide SenderOk;
  }

  lemma HandOffAt(c: Config, s: Server, s': Server, id: Id, x: Id)
    requires x in Issued(s.table) && Placed(c, s, x) && Fed(s, x)
    requires Counted(s.table) && Open(s, id) && s.table.streams[id].run.HandingOff? && s.dispatch.Idle?
    requires s' == s.(table := Without(s.table, id), dispatch := s'.dispatch)
    requires s'.dispatch.Idle? || s'.dispatch.Stopped?
    ensures x in Issued(s'.table) && Placed(c, s', x) && Fed(s', x)
  {
    hide StreamOk, Without;
    WithoutSet(s.table, id, s'.table);
    WithoutKeys(s.table, id);
    if x == id {
      FinishOk(id, s.table.streams[id]);
    } else {
      PlacedFrame(c, s, s', x);
    }
  }

  lemma WithoutKeys(t: StreamSet, id: Id)
    requires id in t.streams
    ensures Without(t, id).streams.Keys == t.streams.Keys - {id} && Without(t, id).closed.Keys == t.closed.Keys + {id}
  {}

  lemma HandOffKeepsStreams(c: Config, s: Server, s': Server, id: Id)
    requires Streams(c, s) && Counted(s.table) && Open(s, id) && s.table.streams[id].run.HandingOff? && s.dispatch.Idle?
    requires s' == s.(table := Without(s.table, id), dispatch := s'.dispatch)
    requires s'.dispatch.Idle? || s'.dispatch.Stopped?
    ensures Streams(c, s')
  {
    hide Placed, Fed, Counted, Without;
    WithoutKeys(s.table, id);
    forall x <- Issued(s'.table)
      ensures Placed(c, s', x) && Fed(s', x)
    {
      HandOffAt(c, s, s', id, x);
    }
  }

  lemma HandOffCentral(s: Server, s': Server, id: Id)
    requires Central(s) && Counted(s.table) && Open(s, id) && s.table.streams[id].run.HandingOff? && s.dispatch.Idle?
    requires s' == s.(table := Without(s.table, id), dispatch := s'.dispatch)
    requires s'.dispatch == if !s.requestsOpen && s.table.streams - {id} == map[] then Stopped(None) else Idle
    ensures Central(s')
  {
    assert s'.table.streams == s.table.streams - {id};
    assert s'.table.streams == map[] <==> s'.table.streams.Keys == {};
  }

  lemma HandOffKeepsInv(c: Config, s: Server, s': Server, id: Id)
    requires Inv(c, s) && Open(s, id) && s.table.streams[id].run.HandingOff? && s.dispatch.Idle?
    requires s' == s.(table := Without(s.table, id), dispatch := s'.dispatch)
    requires s'.dispatch == if !s.requestsOpen && s.table.streams - {id} == map[] then Stopped(None) else Idle
    ensures Inv(c, s')
  {
    hide StreamOk, Streams, Paired, Wire, Wired, Counted, Central, Finish;
    StreamsOf(c, s, id);
    FinishOk(id, s.table.streams[id]);
    WithoutSet(s.table, id, s'.table);
    HandOffCentral(s, s', id);
    HandOffKeepsStreams(c, s, s', id);
    WiredFrame(s, s');
  }

  lemma AbandonSet(t: StreamSet, id: Id, t': StreamSet)
    requires id in t.streams && Counted(t) && !t.streams[id].run.Finished?
    requires t' == t.(streams := t.streams[id := Finish(t.streams[id])], wg := if t.wg == 0 then 0 else t.wg - 1)
    ensures Counted(t') && Issued(t') == Issued(t) && Infos(t') == Infos(t)
    ensures forall x <- Issued(t) :: At(t', x) == if x == id then Finish(t.streams[id]) else At(t, x)
  {
    assert Unfinished(t') == Unfinished(t) - {id};
  }

  lemma AbandonKeepsStreams(c: Config, s: Server, s': Server, id: Id)
    requires Streams(c, s) && s.ctxDone && Open(s, id) && s.table.streams[id].run.HandingOff?
    requires s' == s.(table := s'.table)
    requires s'.table.streams == s.table.streams[id := Finish(s.table.streams[id])] && s'.table.closed == s.table.closed
    ensures Streams(c, s')
  {
    hide StreamOk;
    forall x <- Issued(s'.table)
      ensures Placed(c, s', x) && Fed(s', x)
    {
      assert Placed(c, s, x) && Fed(s, x);
      if x == id {
        FinishOk(id, s.table.streams[id]);
      } else {
        PlacedFrame(c, s, s', x);
      }
    }
  }

  lemma AbandonKeepsInv(c: Config, s: Server, s': Server, id: Id)
    requires Inv(c, s) && s.ctxDone && Open(s, id) && s.table.streams[id].run.HandingOff?
    requires s' == s.(table := s.table.(streams := s.table.streams[id := Finish(s.table.streams[id])],
                                      wg := if s.table.wg == 0 then 0 else s.table.wg - 1))
    ensures Inv(c, s')
  {
    hide StreamOk, Streams, Paired, Wire, Wired;
    StreamsOf(c, s, id);
    FinishOk(id, s.table.streams[id]);
    AbandonSet(s.table, id, s'.table);
    AbandonKeepsStreams(c, s, s', id);
    WiredFrame(s, s');
  }

  // ---- Moves of the dispatcher that leave the streams alone ----

  lemma {:induction false} RequestedGrows(a: seq<Request>, b: seq<Request>, id: Id)
    requires a <= b
    ensures Requested(a, id) <= Requested(b, id)
    decreases |b|
  {
    if a != b {
      var n := |b| - 1;
      RequestedGrows(a, b[..n], id);
    }
  }

  predicate Starts(d: Dispatch) {
    d.Replying? && d.starting.Some?
  }

  /** Only the dispatcher's own state and the context differ. */
  ghost predicate SameStreams(s: Server, s': Server) {
    && s'.table == s.table && s'.replies == s.replies && s'.requestsOpen == s.requestsOpen
    && s.handled <= s'.handled && (s.ctxDone ==> s'.ctxDone)
    && (s'.dispatch == s.dispatch || (!Starts(s.dispatch) && !Starts(s'.dispatch)))
  }

  lemma SameStreamsKeeps(c: Config, s: Server, s': Server)
    requires Streams(c, s) && Wired(s) && SameStreams(s, s')
    requires forall x <- Issued(s.table) :: Fed(s, x) ==> Fed(s', x)
    ensures Streams(c, s') && Wired(s')
  {
    hide StreamOk, Wire, Fed;
    forall x <- Issued(s'.table)
      ensures Placed(c, s', x) && Fed(s', x)
    {
      assert Placed(c, s, x) && Fed(s, x);
      PlacedFrame(c, s, s', x);
    }
  }

  lemma FedStopped(s: Server, s': Server)
    requires s'.table == s.table && s.handled <= s'.handled && !Active(s'.dispatch)
    ensures forall x <- Issued(s.table) :: Fed(s, x) ==> Fed(s', x)
  {
    forall x <- Issued(s.table)
      ensures Fed(s, x) ==> Fed(s', x)
    {
      RequestedGrows(s.handled, s'.handled, x);
    }
  }

  lemma FedSame(s: Server, s': Server)
    requires s'.table == s.table && (Active(s'.dispatch) ==> Active(s.dispatch))
    requires forall id: Id :: Requested(s'.handled, id) == Requested(s.handled, id) && Owed(s'.dispatch, id) == Owed(s.dispatch, id)
    ensures forall x <- Issued(s.table) :: Fed(s, x) ==> Fed(s', x)
  {
  }

  /** dispatch returns an error or panics. */
  lemma StopKeepsInv(c: Config, s: Server, s': Server)
    requires Inv(c, s) && Active(s.dispatch) && SameStreams(s, s') && s'.replyClosed == s.replyClosed
    requires (s'.dispatch.Panicked? && s.dispatch.FanOut?) || (s'.dispatch.Stopped? && s'.dispatch.error.Some? && s'.ctxDone)
    ensures Inv(c, s')
  {
    hide Streams, Fed, Wired, Paired;
    FedStopped(s, s');
    SameStreamsKeeps(c, s, s');
  }

  lemma CancelKeepsInv(c: Config, s: Server)
    requires Inv(c, s)
    ensures Inv(c, s.(ctxDone := true))
  {
    hide Streams, Fed, Wired, Paired;
    var s' := s.(ctxDone := true);
    FedSame(s, s');
    SameStreamsKeeps(c, s, s');
  }

  lemma CloseRepliesKeepsInv(c: Config, s: Server)
    requires Inv(c, s) && s.dispatch.Stopped? && s.table.wg == 0
    ensures Inv(c, s.(replyClosed := true))
  {
    hide Streams, Fed, Wired, Paired;
    var s' := s.(replyClosed := true);
    FedSame(s, s');
    SameStreamsKeeps(c, s, s');
  }

  /** A request other than data leaves what is owed to each stream as it was. */
  lemma QuietRequest(s: Server, s': Server, req: Request)
    requires !req.StreamData? && s'.handled == s.handled + [req]
    ensures forall id: Id :: Requested(s'.handled, id) == Requested(s.handled, id)
    ensures s.handled <= s'.handled
  {
    forall id: Id
      ensures Requested(s'.handled, id) == Requested(s.handled, id)
    {
      RequestedAppend(s.handled, req, id);
    }
  }

  /** Add refuses a method it does not know: an error reply is due, no stream is made. */
  lemma UnknownMethodKeepsInv(c: Config, s: Server, s': Server, req: Request)
    requires Inv(c, s) && s.dispatch.Idle? && s.requestsOpen && !req.StreamData?
    requires s' == s.(handled := s.handled + [req], dispatch := s'.dispatch)
    requires s'.dispatch.Replying? && s'.dispatch.starting.None?
    requires s'.dispatch.reply.StartReply? && !s'.dispatch.reply.result.StreamId?
    ensures Inv(c, s')
  {
    hide Streams, Fed, Wired, Paired;
    QuietRequest(s, s', req);
    FedSame(s, s');
    SameStreamsKeeps(c, s, s');
  }

  /** The error reply is written or dropped. */
  lemma ErrorReplyKeepsInv(c: Config, s: Server, written: bool)
    requires Inv(c, s) && s.dispatch.Replying? && s.dispatch.starting.None?
    ensures Inv(c, s.(dispatch := Idle, replies := s.replies + if written then [s.dispatch.reply] else []))
  {
    hide Streams, Fed, Wired, Paired;
    var s1 := s.(dispatch := Idle);
    FedSame(s, s1);
    SameStreamsKeeps(c, s, s1);
    if written {
      SilentReply(c, s1, s.dispatch.reply);
    } else {
      assert s.replies + [] == s.replies;
    }
  }

  lemma SilentReply(c: Config, s: Server, r: Reply)
    requires Streams(c, s) && Wired(s) && forall x: Id :: !Mentions(r, x)
    ensures Streams(c, Write(s, r)) && Wired(Write(s, r))
  {
    hide Streams, Wire;
    RepliesKeepStreams(c, s, Write(s, r));
    forall x: Id
      ensures Project(Write(s, r).replies, x) == Project(s.replies, x)
    {
      ProjectAppend(s.replies, r, x);
    }
  }

  lemma RepliesKeepStreams(c: Config, s: Server, s': Server)
    requires Streams(c, s) && s' == s.(replies := s'.replies)
    ensures Streams(c, s')
  {
    hide StreamOk;
    forall x <- Issued(s'.table)
      ensures Placed(c, s', x) && Fed(s', x)
    {
      assert Placed(c, s, x) && Fed(s, x);
    }
  }

  lemma FedFanOutAt(s: Server, s': Server, ids: seq<Id>, p: Payload, x: Id)
    requires s'.table == s.table && s.dispatch.Idle? && Sendable(s.table, ids, p.typeName)
    requires s'.handled == s.handled + [StreamData(ids, p)] && s'.dispatch == AfterFanOut(p, OpenOf(s.table, ids))
    ensures x in Issued(s.table) && Fed(s, x) ==> Fed(s', x)
    ensures x !in Issued(s.table) ==> Requested(s'.handled, x) == Requested(s.handled, x)
  {
    hide OpenOf, Requested;
    RequestedAppend(s.handled, StreamData(ids, p), x);
    if x in s.table.streams {
      OpenOfCopies(s.table, ids, x, p);
    } else if x !in Issued(s.table) {
      CopiesAbsent(ids, x, p);
    }
  }

  lemma FedFanOut(s: Server, s': Server, ids: seq<Id>, p: Payload)
    requires s'.table == s.table && s.dispatch.Idle? && Sendable(s.table, ids, p.typeName)
    requires s'.handled == s.handled + [StreamData(ids, p)] && s'.dispatch == AfterFanOut(p, OpenOf(s.table, ids))
    ensures forall x <- Issued(s.table) :: Fed(s, x) ==> Fed(s', x)
    ensures Unasked(s) ==> Unasked(s')
  {
    hide Fed, Requested, OpenOf, Sendable;
    forall x: Id
      ensures x in Issued(s.table) && Fed(s, x) ==> Fed(s', x)
      ensures x !in Issued(s.table) ==> Requested(s'.handled, x) == Requested(s.handled, x)
    {
      FedFanOutAt(s, s', ids, p, x);
    }
  }

  /** Validation passed: every open id is owed one copy per occurrence. */
  lemma FanOutKeepsInv(c: Config, s: Server, s': Server, ids: seq<Id>, p: Payload)
    requires Inv(c, s) && s.dispatch.Idle? && s.requestsOpen && Sendable(s.table, ids, p.typeName)
    requires s' == s.(handled := s.handled + [StreamData(ids, p)], dispatch := AfterFanOut(p, OpenOf(s.table, ids)))
    ensures Inv(c, s')
  {
    hide Streams, Fed, Wired, Paired, Unasked;
    FedFanOut(s, s', ids, p);
    OpenOfOpen(s.table, ids);
    SameStreamsKeeps(c, s, s');
  }

  // ---- Starting a stream ----

  lemma StartCounts(t: StreamSet, id: Id, info: Info, t': StreamSet)
    requires Counted(t) && id !in Issued(t) && t' == WithStream(t, id, info)
    ensures Counted(t')
  {
    assert Unfinished(t') == Unfinished(t) + {id};
  }

  lemma StartInfos(t: StreamSet, id: Id, info: Info, t': StreamSet)
    requires id !in Issued(t) && t' == WithStream(t, id, info)
    ensures Issued(t') == Issued(t) + {id} && Infos(t') == Infos(t)[id := info]
  {
  }

  lemma PairedGrows(infos: map<Id, Info>, pairs: set<string>, id: Id, info: Info)
    requires Paired(infos, pairs) && id !in infos && PairOf(info) !in pairs
    ensures Paired(infos[id := info], pairs + {PairOf(info)})
  {
    var infos' := infos[id := info];
    forall k <- pairs + {PairOf(info)}
      ensures exists x :: x in infos' && PairOf(infos'[x]) == k
    {
      if k in pairs {
        var x :| x in infos && PairOf(infos[x]) == k;
        assert infos'[x] == infos[x];
      } else {
        assert infos'[id] == info;
      }
    }
  }

  lemma NewStreamOk(id: Id, info: Info)
    ensures StreamOk(NewStream(info)) && Wire(id, NewStream(info)) == []
  {
  }

  lemma StartAt(c: Config, s: Server, s': Server, id: Id, info: Info, x: Id)
    requires s.dispatch.Idle? && s.requestsOpen && id !in Issued(s.table) && id != 0
    requires s'.table.streams == s.table.streams[id := NewStream(info)] && s'.table.closed == s.table.closed
    requires s' == s.(table := s'.table, handled := s'.handled, dispatch := StartingReply(id, info))
    requires s.handled <= s'.handled && Requested(s'.handled, x) == Requested(s.handled, x) && (x == id ==> Requested(s.handled, x) == [])
    requires x == id || (x in Issued(s.table) && Placed(c, s, x) && Fed(s, x))
    ensures x in Issued(s'.table) && Placed(c, s', x) && Fed(s', x)
  {
    hide StreamOk, Requested;
    if x == id {
      NewStreamOk(id, info);
    } else {
      PlacedFrame(c, s, s', x);
    }
  }

  lemma StartKeepsStreams(c: Config, s: Server, s': Server, id: Id, info: Info)
    requires Streams(c, s) && Unasked(s) && s.dispatch.Idle? && s.requestsOpen && id !in Issued(s.table) && id != 0
    requires s'.table.streams == s.table.streams[id := NewStream(info)] && s'.table.closed == s.table.closed
    requires s' == s.(table := s'.table, handled := s'.handled, dispatch := StartingReply(id, info))
    requires s.handled <= s'.handled && forall x: Id :: Requested(s'.handled, x) == Requested(s.handled, x)
    ensures Streams(c, s')
  {
    hide Placed, Fed, NewStream, Requested;
    forall x <- Issued(s'.table)
      ensures Placed(c, s', x) && Fed(s', x)
    {
      StartAt(c, s, s', id, info, x);
    }
  }

  lemma StartKeepsWired(s: Server, s': Server, id: Id, info: Info)
    requires Wired(s) && id !in Issued(s.table) && s'.replies == s.replies
    requires s'.table.streams == s.table.streams[id := NewStream(info)] && s'.table.closed == s.table.closed
    ensures Wired(s')
  {
    hide Wire;
    NewStreamOk(id, info);
    assert Issued(s'.table) == Issued(s.table) + {id};
    forall x <- Issued(s.table)
      ensures At(s'.table, x) == At(s.table, x)
    {
    }
    assert At(s'.table, id) == NewStream(info);
  }

  lemma StartKeepsInv(c: Config, s: Server, s': Server, req: Request, id: Id, info: Info)
    requires Inv(c, s) && s.dispatch.Idle? && s.requestsOpen && id !in Issued(s.table) && id != 0
    requires !req.StreamData? && PairOf(info) !in s.table.pairs
    requires s' == s.(table := WithStream(s.table, id, info), handled := s.handled + [req], dispatch := StartingReply(id, info))
    ensures Inv(c, s')
  {
    hide Streams, Wired, Paired, Counted;
    QuietRequest(s, s', req);
    StartCounts(s.table, id, info, s'.table);
    StartInfos(s.table, id, info, s'.table);
    PairedGrows(Infos(s.table), s.table.pairs, id, info);
    StartKeepsStreams(c, s, s', id, info);
    StartKeepsWired(s, s', id, info);
  }

  lemma LaunchedOk(id: Id, info: Info, announced: bool)
    ensures var st := NewStream(info).(run := Running, announced := announced);
            StreamOk(st) && Wire(id, st) == if announced then [StartReply(info.target, info.nonce, StreamId(id))] else []
  {
  }

  /** The stream that dispatch is busy starting, once its goroutine is running. */
  function Launched(s: Server, id: Id, announced: bool): Server
    requires id in s.table.streams
  {
    Put(s.(dispatch := Idle), id, s.table.streams[id].(run := Running, announced := announced))
  }

  lemma StartingIsNew(c: Config, s: Server, id: Id)
    requires Open(s, id) && Placed(c, s, id) && s.table.streams[id].run.Starting?
    ensures s.table.streams[id] == NewStream(s.table.streams[id].info)
    ensures s.dispatch == StartingReply(id, s.table.streams[id].info)
  {
    hide SenderOk, ReceiverOk, ModeOk;
  }

  lemma LaunchAt(c: Config, s: Server, id: Id, announced: bool, x: Id)
    requires x in Issued(s.table) && Placed(c, s, x) && Fed(s, x) && Counted(s.table) && Open(s, id) && (announced || s.ctxDone)
    requires s.table.streams[id] == NewStream(s.table.streams[id].info)
    requires s.dispatch == StartingReply(id, s.table.streams[id].info)
    ensures var s' := Launched(s, id, announced); x in Issued(s'.table) && Placed(c, s', x) && Fed(s', x)
  {
    hide StreamOk;
    if x == id {
      LaunchedOk(id, s.table.streams[id].info, announced);
    } else {
      PlacedFrame(c, s, Launched(s, id, announced), x);
    }
  }

  lemma LaunchKeepsStreams(c: Config, s: Server, id: Id, announced: bool)
    requires Streams(c, s) && Counted(s.table) && Starts(s.dispatch) && s.dispatch.starting.value == id
    requires Open(s, id) && s.table.streams[id].run.Starting? && (announced || s.ctxDone)
    ensures Streams(c, Launched(s, id, announced))
    ensures s.table.streams[id] == NewStream(s.table.streams[id].info)
    ensures s.dispatch == StartingReply(id, s.table.streams[id].info)
  {
    hide Placed, Fed, NewStream, Counted;
    StartingIsNew(c, s, id);
    forall x <- Issued(Launched(s, id, announced).table)
      ensures Placed(c, Launched(s, id, announced), x) && Fed(Launched(s, id, announced), x)
    {
      LaunchAt(c, s, id, announced, x);
    }
  }

  lemma LaunchWire(id: Id, info: Info, announced: bool, rs: seq<Reply>)
    requires rs == if announced then [StartReply(info.target, info.nonce, StreamId(id))] else []
    ensures Wire(id, NewStream(info).(run := Running, announced := announced)) == rs && Wire(id, NewStream(info)) == []
  {
    NewStreamOk(id, info);
    LaunchedOk(id, info, announced);
  }

  lemma LaunchProject(replies: seq<Reply>, id: Id, info: Info, announced: bool, rs: seq<Reply>, x: Id)
    requires rs == if announced then [StartReply(info.target, info.nonce, StreamId(id))] else []
    ensures Project(replies + rs, x) == Project(replies, x) + if x == id then rs else []
  {
    if announced {
      ProjectAppend(replies, rs[0], x);
    } else {
      assert replies + rs == replies && Project(replies, x) + [] == Project(replies, x);
    }
  }

  lemma LaunchWiredAt(s: Server, id: Id, info: Info, announced: bool, rs: seq<Reply>, x: Id)
    requires Open(s, id) && s.table.streams[id] == NewStream(info)
    requires Project(s.replies, x) == if x in Issued(s.table) then Wire(x, At(s.table, x)) else []
    requires rs == if announced then [StartReply(info.target, info.nonce, StreamId(id))] else []
    ensures var t := Launched(s, id, announced).table;
            Project(s.replies + rs, x) == if x in Issued(t) then Wire(x, At(t, x)) else []
  {
    hide NewStream, Wire, Project;
    LaunchWire(id, info, announced, rs);
    LaunchProject(s.replies, id, info, announced, rs, x);
  }

  lemma LaunchKeepsWired(s: Server, id: Id, info: Info, announced: bool)
    requires Wired(s) && Open(s, id) && s.table.streams[id] == NewStream(info)
    ensures Wired(Launched(s, id, announced)
                  .(replies := s.replies + if announced then [StartReply(info.target, info.nonce, StreamId(id))] else []))
  {
    hide NewStream, Wire, Project;
    var rs := if announced then [StartReply(info.target, info.nonce, StreamId(id))] else [];
    var t := Launched(s, id, announced).table;
    forall x: Id
      ensures Project(s.replies + rs, x) == if x in Issued(t) then Wire(x, At(t, x)) else []
    {
      LaunchWiredAt(s, id, info, announced, rs, x);
    }
  }

  lemma LaunchKeepsInv(c: Config, s: Server, id: Id, announced: bool)
    requires Inv(c, s) && Starts(s.dispatch) && s.dispatch.starting.value == id && (announced || s.ctxDone)
    ensures Open(s, id)
    ensures Inv(c, Launched(s, id, announced).(replies := s.replies + if announced then [s.dispatch.reply] else []))
  {
    hide Streams, Wired, Paired;
    var st := s.table.streams[id];
    LaunchKeepsStreams(c, s, id, announced);
    LaunchKeepsWired(s, id, st.info, announced);
    var s1 := Launched(s, id, announced);
    TouchSet(s.table, id, s1.table.streams[id], s1.table);
    RepliesKeepStreams(c, s1, s1.(replies := s.replies + if announced then [s.dispatch.reply] else []));
  }

  // ---- One delivery of a fan-out ----

  lemma PushOk(id: Id, st: Stream, p: Payload)
    requires StreamOk(st) && !st.run.Starting?
    ensures StreamOk(Push(st, p)) && Wire(id, Push(st, p)) == Wire(id, st)
  {
    hide SenderOk;
  }

  lemma FedDelivered(s: Server, x: Id)
    requires s.dispatch.FanOut? && s.dispatch.todo != [] && Open(s, s.dispatch.todo[0])
    requires x in Issued(s.table) && Fed(s, x)
    ensures x in Issued(Delivered(s).table) && Fed(Delivered(s), x)
  {
    var p, todo := s.dispatch.payload, s.dispatch.todo;
    if x == todo[0] {
      var enqueued, rest := s.table.streams[x].inbox.enqueued, Copies(todo[1..], x, p);
      assert enqueued + ([p] + rest) == enqueued + [p] + rest;
    }
  }

  lemma EnqueueKeepsStreams(c: Config, s: Server)
    requires Streams(c, s) && s.dispatch.FanOut? && s.dispatch.todo != [] && Open(s, s.dispatch.todo[0])
    requires |s.table.streams[s.dispatch.todo[0]].inbox.queue| < c.capacity
    ensures Streams(c, Delivered(s))
    ensures !s.table.streams[s.dispatch.todo[0]].run.Starting? && StreamOk(s.table.streams[s.dispatch.todo[0]])
  {
    hide StreamOk;
    var s' := Delivered(s);
    var id := s.dispatch.todo[0];
    assert Placed(c, s, id);
    forall x <- Issued(s'.table)
      ensures Placed(c, s', x) && Fed(s', x)
    {
      assert Placed(c, s, x) && Fed(s, x);
      FedDelivered(s, x);
      if x == id {
        PushOk(id, s.table.streams[id], s.dispatch.payload);
      } else {
        PlacedFrame(c, s, s', x);
      }
    }
  }

  lemma EnqueueKeepsInv(c: Config, s: Server)
    requires Inv(c, s) && s.dispatch.FanOut? && s.dispatch.todo != [] && Open(s, s.dispatch.todo[0])
    requires |s.table.streams[s.dispatch.todo[0]].inbox.queue| < c.capacity
    ensures Inv(c, Delivered(s))
  {
    hide Streams, Wired, Paired, StreamOk, Wire;
    var s' := Delivered(s);
    var id := s.dispatch.todo[0];
    EnqueueKeepsStreams(c, s);
    PushOk(id, s.table.streams[id], s.dispatch.payload);
    TouchSet(s.table, id, s'.table.streams[id], s'.table);
    WiredFrame(s, s');
  }

  // ---- Closing or cancelling many streams at once ----

  lemma TunedOk(id: Id, a: Stream, b: Stream)
    requires StreamOk(a) && !a.run.Starting? && (b == a || b == Shut(a) || b == Cancel(a))
    ensures StreamOk(b) && Wire(id, b) == Wire(id, a) && b.info == a.info && b.run == a.run
  {
    hide SenderOk;
  }

  /** Every open stream is left alone, shut or cancelled. */
  ghost predicate Tuned(t: StreamSet, t': StreamSet) {
    && t' == t.(streams := t'.streams) && t'.streams.Keys == t.streams.Keys
    && forall x <- t.streams :: var a, b := t.streams[x], t'.streams[x]; b == a || b == Shut(a) || b == Cancel(a)
  }

  lemma TunedSet(t: StreamSet, t': StreamSet)
    requires Tuned(t, t')
    ensures Issued(t') == Issued(t) && Infos(t') == Infos(t) && Unfinished(t') == Unfinished(t)
  {
  }

  lemma TunedKeepsStreams(c: Config, s: Server, s': Server)
    requires Streams(c, s) && Tuned(s.table, s'.table) && s.dispatch.Idle? && s.requestsOpen
    requires s'.dispatch.Idle? || s'.dispatch == Stopped(None)
    requires s.handled <= s'.handled && (forall x: Id :: Requested(s'.handled, x) == Requested(s.handled, x)) && s'.ctxDone == s.ctxDone
    requires forall x <- s.table.streams :: s'.table.streams[x].inbox.closed && !s.table.streams[x].inbox.closed ==>
                                             !s'.requestsOpen || Closes(s'.handled, x)
    requires !s'.requestsOpen ==> forall x <- s'.table.streams :: s'.table.streams[x].inbox.closed
    ensures Streams(c, s')
    ensures forall x <- s.table.streams :: StreamOk(s.table.streams[x]) && !s.table.streams[x].run.Starting?
  {
    hide StreamOk;
    forall x <- s.table.streams
      ensures StreamOk(s.table.streams[x]) && !s.table.streams[x].run.Starting?
    {
      assert Placed(c, s, x);
    }
    forall x <- Issued(s'.table)
      ensures Placed(c, s', x) && Fed(s', x)
    {
      assert Placed(c, s, x) && Fed(s, x);
      ClosesGrows(s.handled, s'.handled, x);
      if x in s.table.streams {
        TunedOk(x, s.table.streams[x], s'.table.streams[x]);
      }
    }
  }

  lemma TunedKeepsInv(c: Config, s: Server, s': Server)
    requires Inv(c, s) && Tuned(s.table, s'.table) && s.dispatch.Idle? && s.requestsOpen
    requires s' == s.(table := s'.table, handled := s'.handled, dispatch := s'.dispatch, requestsOpen := s'.requestsOpen)
    requires if s'.dispatch.Idle? then s'.requestsOpen || s.table.streams.Keys != {}
             else s'.dispatch == Stopped(None) && !s'.requestsOpen && s.table.streams.Keys == {}
    requires s.handled <= s'.handled && (forall x: Id :: Requested(s'.handled, x) == Requested(s.handled, x))
    requires forall x <- s.table.streams :: s'.table.streams[x].inbox.closed && !s.table.streams[x].inbox.closed ==>
                                             !s'.requestsOpen || Closes(s'.handled, x)
    requires !s'.requestsOpen ==> forall x <- s'.table.streams :: s'.table.streams[x].inbox.closed
    ensures Inv(c, s')
  {
    hide Streams, Wired, Paired, StreamOk, Wire;
    TunedSet(s.table, s'.table);
    TunedKeepsStreams(c, s, s');
    forall x <- Issued(s.table)
      ensures Wire(x, At(s'.table, x)) == Wire(x, At(s.table, x))
    {
      if x in s.table.streams {
        TunedOk(x, s.table.streams[x], s'.table.streams[x]);
      }
    }
    WiredFrame(s, s');
  }

  // ---- Every event of every run ----

  lemma DataKeepsInv(c: Config, s: Server, s1: Server, ids: seq<Id>, p: Payload)
    requires Inv(c, s) && s.dispatch.Idle? && s.requestsOpen && s1 == s.(handled := s.handled + [StreamData(ids, p)])
    ensures Inv(c, Data(c, s1, ids, p))
  {
    hide Inv, Validate;
    ValidateAccepts(s.table, ids, p.typeName);
    if c.decodable(p) && Validate(s.table, ids, p.typeName).Cleared? {
      FanOutKeepsInv(c, s, Data(c, s1, ids, p), ids, p);
    } else {
      StopKeepsInv(c, s, Data(c, s1, ids, p));
    }
  }

  lemma StartRequestKeepsInv(c: Config, s: Server, s1: Server, req: Request, newId: Id)
    requires Inv(c, s) && s.dispatch.Idle? && s.requestsOpen && newId !in Issued(s.table) && newId != 0
    requires req.StartStream? && s1 == s.(handled := s.handled + [req])
    ensures Inv(c, Start(c, s1, req, newId))
  {
    hide Inv, Key;
    if Reused(s1.table, req) {
      StopKeepsInv(c, s, Start(c, s1, req, newId));
    } else if req.methodName !in c.methods {
      UnknownMethodKeepsInv(c, s, Start(c, s1, req, newId), req);
    } else {
      StartKeepsInv(c, s, Start(c, s1, req, newId), req, newId,
                    Info(req.target, req.nonce, c.methods[req.methodName], req.dryRun));
    }
  }

  lemma CloseRequestKeepsInv(c: Config, s: Server, s1: Server, ids: seq<Id>)
    requires Inv(c, s) && s.dispatch.Idle? && s.requestsOpen && s1 == s.(handled := s.handled + [ClientClose(ids)])
    ensures Inv(c, s1.(table := s.table.(streams := ShutListed(s.table.streams, ids))))
  {
    hide Inv;
    var s' := s1.(table := s.table.(streams := ShutListed(s.table.streams, ids)));
    QuietRequest(s, s1, ClientClose(ids));
    assert s'.handled[|s.handled|] == ClientClose(ids);
    TunedKeepsInv(c, s, s');
  }

  lemma CancelRequestKeepsInv(c: Config, s: Server, s1: Server, ids: seq<Id>)
    requires Inv(c, s) && s.dispatch.Idle? && s.requestsOpen && s1 == s.(handled := s.handled + [ClientCancel(ids)])
    ensures Inv(c, CancelIds(s1, ids))
  {
    hide Inv;
    var known := Known(s.table, ids);
    var s2 := s1.(table := s.table.(streams := CancelListed(s.table.streams, known)));
    QuietRequest(s, s1, ClientCancel(ids));
    TunedKeepsInv(c, s, s2);
    if known != ids {
      StopKeepsInv(c, s2, CancelIds(s1, ids));
    }
  }

  lemma HandleKeepsInv(c: Config, s: Server, req: Request, newId: Id)
    requires Inv(c, s) && s.dispatch.Idle? && s.requestsOpen && newId !in Issued(s.table) && newId != 0
    ensures Inv(c, Dispatched(c, s.(handled := s.handled + [req]), req, newId))
  {
    hide Inv, Start, Data, CancelIds;
    var s1 := s.(handled := s.handled + [req]);
    match req
    case StartStream(_, _, _, _) => StartRequestKeepsInv(c, s, s1, req, newId);
    case StreamData(ids, p) => DataKeepsInv(c, s, s1, ids, p);
    case ClientClose(ids) => CloseRequestKeepsInv(c, s, s1, ids);
    case ClientCancel(ids) => CancelRequestKeepsInv(c, s, s1, ids);
    case UnknownRequest => StopKeepsInv(c, s, Dispatched(c, s1, req, newId));
  }

  lemma HalfCloseKeepsInv(c: Config, s: Server)
    requires Inv(c, s) && s.dispatch.Idle? && s.requestsOpen
    ensures Inv(c, HalfClosed(s))
  {
    hide Inv;
    TunedKeepsInv(c, s, HalfClosed(s));
  }

  lemma ReplyKeepsInv(c: Config, s: Server, announced: bool)
    requires Inv(c, s) && s.dispatch.Replying? && (announced || s.ctxDone)
    ensures Inv(c, if announced then Write(Launch(s, true), s.dispatch.reply) else Launch(s, false))
  {
    hide Inv;
    if Starts(s.dispatch) {
      LaunchKeepsInv(c, s, s.dispatch.starting.value, announced);
      assert s.replies + [] == s.replies;
    } else {
      ErrorReplyKeepsInv(c, s, announced);
      assert s.replies + [] == s.replies;
    }
  }

  lemma StepKeepsInv(c: Config, s: Server, e: Event)
    requires Inv(c, s) && Enabled(c, s, e)
    ensures Inv(c, Apply(c, s, e))
  {
    hide Inv, Step, CanStep, Dispatched, Launch;
    match e
    case Local(id, move) => LocalKeepsInv(c, s, id, move);
    case Forward(id) => ForwardKeepsInv(c, s, id);
    case WriteClose(id) => WriteCloseKeepsInv(c, s, id);
    case HandOff(id) => HandOffKeepsInv(c, s, Apply(c, s, e), id);
    case Abandon(id) => AbandonKeepsInv(c, s, Apply(c, s, e), id);
    case Handle(req, newId) => HandleKeepsInv(c, s, req, newId);
    case WriteStart => ReplyKeepsInv(c, s, true);
    case DropStart => ReplyKeepsInv(c, s, false);
    case Enqueue => EnqueueKeepsInv(c, s);
    case EnqueueFails(_) => StopKeepsInv(c, s, Apply(c, s, e));
    case EnqueuePanics => StopKeepsInv(c, s, Apply(c, s, e));
    case HalfClose => HalfCloseKeepsInv(c, s);
    case CancelContext => CancelKeepsInv(c, s);
    case SeeContext(_) => StopKeepsInv(c, s, Apply(c, s, e));
    case CloseReplies => CloseRepliesKeepsInv(c, s);
  }

  /** The invariant holds after every run. */
  lemma {:induction false} AfterInv(c: Config, run: seq<Event>)
    requires After(c, run).Some?
    ensures Inv(c, After(c, run).value)
  {
    if run == [] {
      InitialInv(c);
    } else {
      hide Inv;
      hide Enabled;
      hide Apply;
      var n := |run| - 1;
      AfterInv(c, run[..n]);
      StepKeepsInv(c, After(c, run[..n]).value, run[n]);
    }
  }
}
