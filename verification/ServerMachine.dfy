/**
 The proxy server as a step system: the dispatch loop, the reply channel, and
 the goroutines of every stream, interleaved arbitrarily. A run is a sequence of
 events; nothing is assumed about the client that sends the requests.
 */
module ServerMachine {
  import opened Protocol
  import opened NonceKeys
  import opened TargetStreams
  import opened StreamSets

  /** The service map, which payloads unmarshal, and ReqBufferSize. */
  datatype Config = Config(methods: map<string, Method>, decodable: Payload -> bool, capacity: nat)

  /** Where the dispatch goroutine is. `Replying` is Add waiting to write its
      StartStreamReply, `FanOut` is Send between two deliveries. */
  datatype Dispatch =
    | Idle
    | Replying(reply: Reply, starting: Option<Id>)
    | FanOut(payload: Payload, todo: seq<Id>)
    | Stopped(error: Option<Status>)
    | Panicked

  datatype Server = Server(
    table: StreamSet,
    dispatch: Dispatch,
    requestsOpen: bool,      // requestChan != nil
    ctxDone: bool,           // the context handed to Add is done
    replies: seq<Reply>,     // everything written to replyChan
    replyClosed: bool,
    handled: seq<Request>)   // everything received from requestChan

  const INITIAL := Server(EMPTY, Idle, true, false, [], false, [])

  datatype Event =
    | Local(id: Id, move: StreamEvent)
    | Forward(id: Id)               // the receiver's write to replyChan
    | WriteClose(id: Id)            // Run's final write to replyChan
    | HandOff(id: Id)               // doneChan, taken by dispatch
    | Abandon(id: Id)               // the other arm of that select
    | Handle(req: Request, newId: Id)
    | WriteStart | DropStart        // sendReply in Add
    | Enqueue | EnqueueFails(error: Status) | EnqueuePanics
    | HalfClose                     // requestChan was closed
    | CancelContext | SeeContext(error: Status)
    | CloseReplies

  // ---- Updates ----

  function Put(s: Server, id: Id, st: Stream): Server {
    s.(table := s.table.(streams := s.table.streams[id := st]))
  }

  function Write(s: Server, r: Reply): Server {
    s.(replies := s.replies + [r])
  }

  /** dispatch returns an error, and its caller cancels every stream. */
  function Fail(s: Server, e: Status): Server {
    s.(dispatch := Stopped(Some(e)), ctxDone := true)
  }

  function AfterFanOut(p: Payload, todo: seq<Id>): Dispatch {
    if todo == [] then Idle else FanOut(p, todo)
  }

  function ProblemStatus(p: Problem): Status {
    if p.Undecodable? then Status(13, "error unmarshalling request")
    else if p.TornDown? then p.status
    else Status(3, "invalid stream data")
  }

  predicate Reused(t: StreamSet, req: Request)
    requires req.StartStream?
  {
    Key(req.target, req.nonce) in t.pairs
  }

  /** TargetStreamSet.Add up to the point where the reply is written. */
  function Start(c: Config, s: Server, req: Request, newId: Id): Server
    requires req.StartStream?
  {
    if Reused(s.table, req) then Fail(s, Status(9, "re-use of previous (target,nonce)"))
    else if req.methodName !in c.methods then
      s.(dispatch := Replying(StartReply(req.target, req.nonce, ErrorStatus(Status(3, "unknown method"))), None))
    else
      s.(table := WithStream(s.table, newId, Info(req.target, req.nonce, c.methods[req.methodName], req.dryRun)),
         dispatch := Replying(StartReply(req.target, req.nonce, StreamId(newId)), Some(newId)))
  }

  /** TargetStreamSet.Send up to the first delivery. */
  function Data(c: Config, s: Server, ids: seq<Id>, p: Payload): Server {
    if !c.decodable(p) then Fail(s, ProblemStatus(Undecodable))
    else
      match Validate(s.table, ids, p.typeName)
      case Blocked(problem) => Fail(s, ProblemStatus(problem))
      case Cleared(open) => s.(dispatch := AfterFanOut(p, open))
  }

  function CancelIds(s: Server, ids: seq<Id>): Server {
    var known := Known(s.table, ids);
    var s' := s.(table := s.table.(streams := CancelListed(s.table.streams, known)));
    if known == ids then s' else Fail(s', Status(3, "no such stream"))
  }

  function Dispatched(c: Config, s: Server, req: Request, newId: Id): Server {
    match req
    case StartStream(_, _, _, _) => Start(c, s, req, newId)
    case StreamData(ids, p) => Data(c, s, ids, p)
    case ClientClose(ids) => s.(table := s.table.(streams := ShutListed(s.table.streams, ids)))
    case ClientCancel(ids) => CancelIds(s, ids)
    case UnknownRequest => Fail(s, Status(2, "unhandled request type"))
  }

  /** Add's goroutine starts, whether or not the reply got through. */
  function Launch(s: Server, announced: bool): Server {
    var s' := s.(dispatch := Idle);
    if s.dispatch.Replying? && s.dispatch.starting.Some? && s.dispatch.starting.value in s.table.streams then
      var id := s.dispatch.starting.value;
      Put(s', id, s.table.streams[id].(run := Running, announced := announced))
    else s'
  }

  predicate Open(s: Server, id: Id) {
    id in s.table.streams
  }

  /** One delivery of a fan-out. */
  function Delivered(s: Server): Server
    requires s.dispatch.FanOut? && s.dispatch.todo != [] && Open(s, s.dispatch.todo[0])
  {
    var id := s.dispatch.todo[0];
    Put(s, id, Push(s.table.streams[id], s.dispatch.payload))
    .(dispatch := AfterFanOut(s.dispatch.payload, s.dispatch.todo[1..]))
  }

  /** No more requests: every open stream is told, and dispatch is done if there is none. */
  function HalfClosed(s: Server): Server {
    s.(table := s.table.(streams := ShutAll(s.table.streams)), requestsOpen := false,
       dispatch := if s.table.streams == map[] then Stopped(None) else Idle)
  }

  // ---- The step relation ----

  /** TargetStream.Send may report an error once the stream is cancelled, or
      connected and so exposed to failures of the target's transport. */
  predicate MayRefuse(st: Stream, ctxDone: bool) {
    GroupCtxDone(st, ctxDone) || st.dialed
  }

  predicate Enabled(c: Config, s: Server, e: Event) {
    match e
    case Local(id, move) => Open(s, id) && CanStep(s.table.streams[id], s.ctxDone, move)
    case Forward(id) => Open(s, id) && s.table.streams[id].run.Running? && s.table.streams[id].rcv.phase.Forwarding?
    case WriteClose(id) => Open(s, id) && s.table.streams[id].run.Closing?
    case HandOff(id) => Open(s, id) && s.table.streams[id].run.HandingOff? && s.dispatch.Idle?
    case Abandon(id) => Open(s, id) && s.table.streams[id].run.HandingOff? && s.ctxDone
    case Handle(req, newId) => s.dispatch.Idle? && s.requestsOpen && newId !in Issued(s.table) && newId != 0
    case WriteStart => s.dispatch.Replying?
    case DropStart => s.dispatch.Replying? && s.ctxDone
    case Enqueue =>
      && s.dispatch.FanOut? && s.dispatch.todo != [] && Open(s, s.dispatch.todo[0])
      && var inbox := s.table.streams[s.dispatch.todo[0]].inbox; |inbox.queue| < c.capacity && !inbox.closed
    case EnqueueFails(_) =>
      && s.dispatch.FanOut? && s.dispatch.todo != [] && Open(s, s.dispatch.todo[0])
      && MayRefuse(s.table.streams[s.dispatch.todo[0]], s.ctxDone)
    case EnqueuePanics =>
      && s.dispatch.FanOut? && s.dispatch.todo != [] && Open(s, s.dispatch.todo[0])
      && s.table.streams[s.dispatch.todo[0]].inbox.closed
    case HalfClose => s.dispatch.Idle? && s.requestsOpen
    case CancelContext => !s.ctxDone
    case SeeContext(_) => s.dispatch.Idle? && s.ctxDone
    case CloseReplies => s.dispatch.Stopped? && s.table.wg == 0 && !s.replyClosed
  }

  function Forwarded(st: Stream): Stream
    requires st.rcv.phase.Forwarding?
  {
    st.(rcv := st.rcv.(phase := if st.rcv.phase.last then ReceiverDone else Receiving,
                       forwarded := st.rcv.forwarded + [st.rcv.phase.payload]))
  }

  function CloseWritten(st: Stream): Stream
    requires st.run.Closing?
  {
    st.(closeSent := Some(st.run.status), run := HandingOff)
  }

  function Apply(c: Config, s: Server, e: Event): Server
    requires Enabled(c, s, e)
  {
    match e
    case Local(id, move) => Put(s, id, Step(s.table.streams[id], s.ctxDone, move))
    case Forward(id) =>
      var st := s.table.streams[id];
      Write(Put(s, id, Forwarded(st)), DataReply([id], st.rcv.phase.payload))
    case WriteClose(id) =>
      var st := s.table.streams[id];
      Write(Put(s, id, CloseWritten(st)), CloseReply([id], st.run.status))
    case HandOff(id) =>
      var s' := s.(table := Without(s.table, id));
      if !s.requestsOpen && s'.table.streams == map[] then s'.(dispatch := Stopped(None)) else s'
    case Abandon(id) =>
      var s' := Put(s, id, Finish(s.table.streams[id]));
      s'.(table := s'.table.(wg := if s.table.wg == 0 then 0 else s.table.wg - 1))
    case Handle(req, newId) => Dispatched(c, s.(handled := s.handled + [req]), req, newId)
    case WriteStart => Write(Launch(s, true), s.dispatch.reply)
    case DropStart => Launch(s, false)
    case Enqueue => Delivered(s)
    case EnqueueFails(err) => Fail(s, err)
    case EnqueuePanics => s.(dispatch := Panicked)
    case HalfClose => HalfClosed(s)
    case CancelContext => s.(ctxDone := true)
    case SeeContext(err) => Fail(s, err)
    case CloseReplies => s.(replyClosed := true)
  }

  /** The state after a run, if every event of it was enabled in turn. */
  function After(c: Config, run: seq<Event>): Option<Server> {
    if run == [] then Some(INITIAL)
    else
      var n := |run| - 1;
      var before := After(c, run[..n]);
      if before.Some? && Enabled(c, before.value, run[n]) then Some(Apply(c, before.value, run[n])) else None
  }
}
