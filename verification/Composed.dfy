/**
 Client and server together: one call of the client library against the proxy.
 Requests and replies travel in order; everything else interleaves freely, and
 either side may fail at any time.
 */
module Composed {
  import opened Protocol
  import opened TargetStreams
  import opened StreamSets
  import opened ServerMachine
  import opened ClientModel

  /** What the caller asked for: `unary` is invokeOneMany, otherwise a proxyStream. */
  datatype Call = Call(targets: seq<string>, methodName: string, dryRun: bool, unary: bool)

  datatype Phase = SettingUp(setup: Setup) | Ready(ids: map<Id, Ret>) | Gone

  datatype Client = Client(
    phase: Phase,
    starts: nat, startsOver: bool,          // createStreams' sending goroutine
    wire: seq<Request>,                     // everything sent to the proxy
    messages: seq<Payload>,                 // everything the caller passed to SendMsg
    closedIds: bool, halfClosed: bool,
    consumed: nat,                          // replies received so far
    errors: seq<Ret>, sentErrors: bool,
    got: seq<Ret>,                          // every result handed to the caller, as it was then
    base: Setup, since: nat,                // what setup left, and how many replies it took
    ended: Option<nat>)                     // where in the replies the unary loop stopped, once it has

  datatype System = System(server: Server, client: Client)

  const START := System(INITIAL, Client(SettingUp(NO_REPLIES), 0, false, [], [], false, false, 0, [], false, [], NO_REPLIES, 0, None))

  datatype Action =
    | ServerMoves(e: Event)
    | ServerHandles(newId: Id)
    | SendStart | StartsEnd
    | SetupRecv | SetupDone
    | SendMsg(p: Payload, order: seq<Id>)
    | CloseClients(order: seq<Id>)
    | CloseSend
    | ShipErrors
    | RecvNext(order: seq<Id>)
    | EndOfReplies(order: seq<Id>)
    | Breaks(order: seq<Id>)

  /** Some enumeration of a map's keys, as ranging over it yields. */
  ghost predicate Lists(order: seq<Id>, keys: set<Id>) {
    && (forall id :: id in order <==> id in keys)
    && (forall i, j :: 0 <= i < j < |order| ==> order[i] != order[j])
  }

  function StartOf(call: Call, i: nat): Request
    requires i < |call.targets| < NONCE_LIMIT
  {
    StartStream(call.targets[i], call.methodName, i, call.dryRun)
  }

  function Answer(call: Call, ids: map<Id, Ret>, r: Reply): Taken {
    if call.unary then InvokeReply(ids, r) else RecvReply(call.dryRun, ids, r)
  }

  ghost predicate Can(c: Config, call: Call, s: System, a: Action) {
    var cl := s.client;
    match a
    case ServerMoves(e) => !e.Handle? && Enabled(c, s.server, e)
    case ServerHandles(newId) =>
      |s.server.handled| < |cl.wire| && Enabled(c, s.server, Handle(cl.wire[|s.server.handled|], newId))
    case SendStart => cl.phase.SettingUp? && !cl.startsOver && cl.starts < |call.targets|
    case StartsEnd => cl.phase.SettingUp? && !cl.startsOver
    case SetupRecv => cl.phase.SettingUp? && cl.phase.setup.replies != |call.targets| && cl.consumed < |s.server.replies|
    case SetupDone => cl.phase.SettingUp? && cl.phase.setup.replies == |call.targets| && cl.startsOver
    case SendMsg(_, order) =>
      && cl.phase.Ready? && !cl.closedIds && !cl.halfClosed && Lists(order, cl.phase.ids.Keys)
      && (call.unary ==> cl.messages == [])
    case CloseClients(order) =>
      && cl.phase.Ready? && !cl.closedIds && !cl.halfClosed && Lists(order, cl.phase.ids.Keys)
      && call.unary && cl.messages != []
    case CloseSend => cl.phase.Ready? && !cl.halfClosed && (call.unary ==> cl.closedIds)
    case ShipErrors =>
      cl.phase.Ready? && !cl.sentErrors && if call.unary then cl.halfClosed else cl.phase.ids != map[]
    case RecvNext(order) =>
      && cl.phase.Ready? && cl.sentErrors && cl.phase.ids != map[] && cl.consumed < |s.server.replies|
      && var t := Answer(call, cl.phase.ids, s.server.replies[cl.consumed]);
         call.unary && !t.end.Fine? ==> Lists(order, t.ids.Keys)
    case EndOfReplies(order) =>
      && cl.phase.Ready? && cl.sentErrors && Lists(order, cl.phase.ids.Keys)
      && s.server.replyClosed && s.server.dispatch == Stopped(None) && cl.consumed == |s.server.replies|
    case Breaks(order) => Looping(call, cl) ==> Lists(order, cl.phase.ids.Keys)
  }

  function AfterSetupRecv(call: Call, cl: Client, r: Reply): Client
    requires cl.phase.SettingUp?
  {
    match Accept(call.targets, cl.phase.setup, r)
    case Success(setup) => cl.(phase := SettingUp(setup), consumed := cl.consumed + 1)
    case Refused(_) => cl.(phase := Gone)
  }

  /** The goroutine of invokeOneMany is in its receive loop. */
  predicate Looping(call: Call, cl: Client) {
    call.unary && cl.phase.Ready? && cl.sentErrors
  }

  /** The loop is over: whatever is still open gets the error it ended with. */
  ghost function LoopEnds(cl: Client, ids: map<Id, Ret>, order: seq<Id>, err: Option<RetError>, at: nat): Client
    requires Lists(order, ids.Keys)
  {
    cl.(phase := Gone, got := cl.got + LeftOver(ids, order, err), ended := Some(at))
  }

  ghost function AfterRecv(call: Call, cl: Client, r: Reply, order: seq<Id>): Client
    requires cl.phase.Ready?
    requires var t := Answer(call, cl.phase.ids, r); call.unary && !t.end.Fine? ==> Lists(order, t.ids.Keys)
  {
    var t := Answer(call, cl.phase.ids, r);
    var cl' := cl.(got := cl.got + t.out);
    if t.end.Fine? then cl'.(phase := Ready(t.ids), consumed := cl.consumed + 1)
    else if call.unary then LoopEnds(cl', t.ids, order, Some(ChanErr(t.end)), cl.consumed + 1)
    else cl'.(phase := Gone)
  }

  ghost function Do(c: Config, call: Call, s: System, a: Action): System
    requires |call.targets| < NONCE_LIMIT && Can(c, call, s, a)
  {
    var cl := s.client;
    match a
    case ServerMoves(e) => s.(server := Apply(c, s.server, e))
    case ServerHandles(newId) => s.(server := Apply(c, s.server, Handle(cl.wire[|s.server.handled|], newId)))
    case SendStart => s.(client := cl.(wire := cl.wire + [StartOf(call, cl.starts)], starts := cl.starts + 1))
    case StartsEnd => s.(client := cl.(startsOver := true))
    case SetupRecv => s.(client := AfterSetupRecv(call, cl, s.server.replies[cl.consumed]))
    case SetupDone =>
      s.(client := cl.(phase := Ready(cl.phase.setup.ids), errors := cl.phase.setup.errors,
                       base := cl.phase.setup, since := cl.consumed))
    case SendMsg(p, order) => s.(client := cl.(wire := cl.wire + [StreamData(order, p)], messages := cl.messages + [p]))
    case CloseClients(order) => s.(client := cl.(wire := cl.wire + [ClientClose(order)], closedIds := true))
    case CloseSend => s.(client := cl.(halfClosed := true))
    case ShipErrors => s.(client := cl.(got := cl.got + cl.errors, sentErrors := true))
    case RecvNext(order) => s.(client := AfterRecv(call, cl, s.server.replies[cl.consumed], order))
    case EndOfReplies(order) =>
      s.(client := if call.unary then LoopEnds(cl, cl.phase.ids, order, None, cl.consumed) else cl.(phase := Gone))
    case Breaks(order) =>
      s.(client := if Looping(call, cl) then LoopEnds(cl, cl.phase.ids, order, Some(CONNECTION_LOST), cl.consumed)
                   else cl.(phase := Gone))
  }

  /** The state after a run of both sides, if every action of it was possible in turn. */
  ghost function Reached(c: Config, call: Call, run: seq<Action>): Option<System>
    requires |call.targets| < NONCE_LIMIT
  {
    if run == [] then Some(START)
    else
      var n := |run| - 1;
      var before := Reached(c, call, run[..n]);
      if before.Some? && Can(c, call, before.value, run[n]) then Some(Do(c, call, before.value, run[n])) else None
  }
}
