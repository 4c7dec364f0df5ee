/**
 A run of client and server seen from the server: which run of the server it is,
 and what the streams of the call were started for.
 */
module CallRuns {
  import opened Protocol
  import opened TargetStreams
  import opened StreamSets
  import opened ServerMachine
  import opened ServerInvariant
  import opened ServerTheorems
  import opened StreamHistory
  import opened ClientModel
  import opened Composed
  import opened ComposedInvariant

  // ---- The server's part of a run ----

  /** The events of the server in a run of both sides. */
  ghost function ServerRun(c: Config, call: Call, run: seq<Action>): seq<Event>
    requires |call.targets| < NONCE_LIMIT && Reached(c, call, run).Some?
  {
    if run == [] then []
    else
      var n := |run| - 1;
      ServerRun(c, call, run[..n]) + EventOf(Reached(c, call, run[..n]).value, run[n])
  }

  function EventOf(s: System, a: Action): seq<Event> {
    match a
    case ServerMoves(e) => [e]
    case ServerHandles(newId) =>
      if |s.server.handled| < |s.client.wire| then [Handle(s.client.wire[|s.server.handled|], newId)] else []
    case _ => []
  }

  lemma AfterAppend(c: Config, run: seq<Event>, e: Event)
    requires After(c, run).Some? && Enabled(c, After(c, run).value, e)
    ensures After(c, run + [e]) == Some(Apply(c, After(c, run).value, e))
  {
    assert (run + [e])[..|run|] == run;
  }

  lemma ServerStep(c: Config, call: Call, s: System, a: Action)
    requires |call.targets| < NONCE_LIMIT && Can(c, call, s, a)
    ensures var es, s' := EventOf(s, a), Do(c, call, s, a).server;
            if es == [] then s' == s.server else |es| == 1 && Enabled(c, s.server, es[0]) && s' == Apply(c, s.server, es[0])
  {
    hide Enabled, Apply, AfterSetupRecv, AfterRecv, LoopEnds, Answer;
  }

  /** The server of a joint run is in the state that its own events lead to, so what holds of
      every run of the server holds of it. */
  lemma {:induction false} IsServerRun(c: Config, call: Call, run: seq<Action>)
    requires |call.targets| < NONCE_LIMIT && Reached(c, call, run).Some?
    ensures After(c, ServerRun(c, call, run)) == Some(Reached(c, call, run).value.server)
  {
    if run != [] {
      hide Enabled, Apply, After, Can, Do;
      var n := |run| - 1;
      IsServerRun(c, call, run[..n]);
      var before, es := ServerRun(c, call, run[..n]), EventOf(Reached(c, call, run[..n]).value, run[n]);
      ServerStep(c, call, Reached(c, call, run[..n]).value, run[n]);
      if es == [] {
        assert before + [] == before;
      } else {
        assert es == [es[0]];
        AfterAppend(c, before, es[0]);
      }
    }
  }

  // ---- What the streams were started for ----

  /** Every start request is for the method of the call, as a dry run if the call is one. */
  ghost predicate RequestsAsCalled(call: Call, wire: seq<Request>) {
    forall r <- wire :: r.StartStream? ==> r.methodName == call.methodName && r.dryRun == call.dryRun
  }

  ghost predicate InfosAsCalled(c: Config, call: Call, infos: map<Id, Info>) {
    forall id <- infos ::
      call.methodName in c.methods && infos[id].rpc == c.methods[call.methodName] && infos[id].dryRun == call.dryRun
  }

  ghost predicate AsCalled(c: Config, call: Call, s: System) {
    RequestsAsCalled(call, s.client.wire) && InfosAsCalled(c, call, Infos(s.server.table))
  }

  lemma ServerAsCalled(c: Config, call: Call, s: System, e: Event)
    requires AsCalled(c, call, s) && Inv(c, s.server) && Enabled(c, s.server, e)
    requires e.Handle? ==> e.req in s.client.wire
    ensures AsCalled(c, call, s.(server := Apply(c, s.server, e)))
  {
    hide Inv, Enabled, Apply, Infos, Reused;
    EventInfos(c, s.server, e);
  }

  lemma ClientAsCalled(c: Config, call: Call, s: System, s': System)
    requires AsCalled(c, call, s) && s'.server == s.server
    requires s'.client.wire == s.client.wire ||
             exists r :: s'.client.wire == s.client.wire + [r]
                         && (r.StartStream? ==> r.methodName == call.methodName && r.dryRun == call.dryRun)
    ensures AsCalled(c, call, s')
  {
    hide Infos;
  }

  lemma StepAsCalled(c: Config, call: Call, s: System, a: Action)
    requires |call.targets| < NONCE_LIMIT && Inv(c, s.server) && AsCalled(c, call, s) && Can(c, call, s, a)
    ensures AsCalled(c, call, Do(c, call, s, a))
  {
    hide AsCalled, Inv, Enabled, Apply, Accept, Answer, LeftOver;
    match a
    case ServerMoves(e) => ServerAsCalled(c, call, s, e);
    case ServerHandles(newId) => ServerAsCalled(c, call, s, Handle(s.client.wire[|s.server.handled|], newId));
    case _ => ClientAsCalled(c, call, s, Do(c, call, s, a));
  }

  lemma {:induction false} AlwaysAsCalled(c: Config, call: Call, run: seq<Action>)
    requires |call.targets| < NONCE_LIMIT && Reached(c, call, run).Some?
    ensures AsCalled(c, call, Reached(c, call, run).value)
  {
    if run != [] {
      hide Can, Do, AsCalled, Inv;
      var n := |run| - 1;
      AlwaysAsCalled(c, call, run[..n]);
      IsServerRun(c, call, run[..n]);
      AfterInv(c, ServerRun(c, call, run[..n]));
      StepAsCalled(c, call, Reached(c, call, run[..n]).value, run[n]);
    }
  }

  /** In every run: each stream of the call has the method of the call, and is a dry run if and
      only if the call is one. */
  lemma StartedForCall(c: Config, call: Call, run: seq<Action>, id: Id)
    requires |call.targets| < NONCE_LIMIT && Reached(c, call, run).Some?
    requires id in Issued(Reached(c, call, run).value.server.table)
    ensures var info := At(Reached(c, call, run).value.server.table, id).info;
            call.methodName in c.methods && info.rpc == c.methods[call.methodName] && info.dryRun == call.dryRun
  {
    hide Reached;
    AlwaysAsCalled(c, call, run);
    var t := Reached(c, call, run).value.server.table;
    assert id in Infos(t) && Infos(t)[id] == At(t, id).info;
  }

  // ---- closeClients ----

  /** Once a unary call has closed its streams, that is the last request, and it names every
      stream the client still has open. */
  ghost predicate ClosesAll(cl: Client) {
    cl.closedIds ==>
      cl.wire != [] && var r := cl.wire[|cl.wire| - 1]; r.ClientClose? && forall id <- IdsOf(cl) :: id in r.ids
  }

  lemma FewerOpen(cl: Client, cl': Client)
    requires ClosesAll(cl) && cl'.wire == cl.wire && cl'.closedIds == cl.closedIds && forall id <- IdsOf(cl') :: id in IdsOf(cl)
    ensures ClosesAll(cl')
  {}

  lemma RecvCloses(c: Config, call: Call, s: System, order: seq<Id>)
    requires |call.targets| < NONCE_LIMIT && SysInv(c, call, s) && ClosesAll(s.client) && Can(c, call, s, RecvNext(order))
    ensures ClosesAll(Do(c, call, s, RecvNext(order)).client)
  {
    hide SysInv, ClosesAll, Answer, InTurn, LeftOver;
    PlainOf(c, call, s);
    PlainNext(call, s.server, s.client.consumed);
    NoErrors(c, call, s);
    var r := s.server.replies[s.client.consumed];
    if Single(r) {
      AnswerFollows(call, s.client.phase.ids, r);
    } else {
      StartUnexpected(call, s.client.phase.ids, r);
    }
    FewerOpen(s.client, Do(c, call, s, RecvNext(order)).client);
  }

  lemma StepCloses(c: Config, call: Call, s: System, a: Action)
    requires |call.targets| < NONCE_LIMIT && SysInv(c, call, s) && ClosesAll(s.client) && Can(c, call, s, a)
    ensures ClosesAll(Do(c, call, s, a).client)
  {
    hide SysInv, Enabled, Apply, Accept, Answer, LeftOver;
    NotYetClosed(c, call, s);
    if a.RecvNext? {
      RecvCloses(c, call, s, a.order);
    }
  }

  lemma NotYetClosed(c: Config, call: Call, s: System)
    requires |call.targets| < NONCE_LIMIT && SysInv(c, call, s)
    ensures s.client.phase.SettingUp? ==> !s.client.closedIds
  {
    hide ServerSide, ClientSide, Complete, Blamed;
  }

  lemma {:induction false} ClosesEveryStream(c: Config, call: Call, run: seq<Action>)
    requires |call.targets| < NONCE_LIMIT && Reached(c, call, run).Some?
    ensures ClosesAll(Reached(c, call, run).value.client)
  {
    if run != [] {
      hide Can, Do, ClosesAll, SysInv;
      var n := |run| - 1;
      ClosesEveryStream(c, call, run[..n]);
      ReachedInv(c, call, run[..n]);
      StepCloses(c, call, Reached(c, call, run[..n]).value, run[n]);
    }
  }

  // ---- Dry runs ----

  lemma {:induction false} MovedIn(run: seq<Event>, id: Id, move: StreamEvent)
    ensures move in MovesOf(run, id) <==> Local(id, move) in run
  {
    if run != [] {
      var n := |run| - 1;
      MovedIn(run[..n], id, move);
      assert run == run[..n] + [run[n]];
    }
  }

  /** In every run of a dry run, no event passes a message to a target. */
  lemma DryRunDeliversNothing(c: Config, call: Call, run: seq<Action>, id: Id, outcome: SendResult)
    requires |call.targets| < NONCE_LIMIT && Reached(c, call, run).Some? && call.dryRun
    ensures Local(id, Delivers(outcome)) !in ServerRun(c, call, run)
    ensures var t := Reached(c, call, run).value.server.table; id in Issued(t) ==> At(t, id).snd.delivered == []
  {
    hide Reached, ServerRun, After, Pick, Agrees;
    IsServerRun(c, call, run);
    var events := ServerRun(c, call, run);
    var t := After(c, events).value.table;
    MovedIn(events, id, Delivers(outcome));
    RunRecorded(c, events, id);
    if id in Issued(t) {
      StartedForCall(c, call, run, id);
      AuthorisedPrefix(c, events, id);
      HistoryOfRun(c, events, id);
      PickHas(MovesOf(events, id), Outcome, Delivers(outcome));
    }
  }

  /** The move brings an error with this status from outside the proxy: from the policy, the
      target, the context or the connection. */
  predicate Brings(e: StreamEvent, st: Status) {
    match e
    case Judges(refusal) => refusal == Some(st)
    case InputFails(err) => err == st
    case TargetFails(err, _, _) => err == st
    case SeesClosed(closeError) => closeError == Some(st)
    case SeesCancel(err) => err == st
    case PackFails(err) => err == st
    case GroupEnds(closeError) => closeError == Some(st)
    case _ => false
  }

  /** Without a dry run the proxy makes up no status that begins with an 'a'. */
  lemma Brought(info: Info, e: StreamEvent, st: Status)
    requires !info.dryRun && st.code != 0 && st.message != [] && st.message[0] == 'a'
    ensures ClosesWith(info, e).Some? ==> (ClosesWith(info, e) == Some(st) <==> Brings(e, st))
    ensures OnlyReturns(e).Some? ==> (OnlyReturns(e) == Some(st) <==> Brings(e, st))
  {
    hide OnlyReturns, DialError, SendError;
    ReturnsAre(e);
    match e
    case DialFails(err) => Prefixed(err);
    case NewStreamFails(err) => Prefixed(err);
    case Delivers(Broken(err)) => Prefixed(err);
    case _ =>
  }

  lemma Prefixed(err: Failure)
    ensures DialError(err).message != [] && DialError(err).message[0] == 'c'
    ensures SendError(err).message != [] && SendError(err).message[0] == 'P'
  {
    var dial, send := "could not connect to target from the proxy: ", "Proxy could not send request to target: ";
    assert (dial + err.message)[0] == dial[0] && (send + err.message)[0] == send[0];
  }

  lemma BroughtExactly(info: Info, moves: seq<StreamEvent>, st: Status)
    requires !info.dryRun && st.code != 0 && st.message != [] && st.message[0] == 'a'
    ensures StatusBy(info, moves) == st <==> exists j: nat :: j < |moves| && Decides(info, moves, j) && Brings(moves[j], st)
  {
    hide StatusBy, ClosesWith, OnlyReturns, Decides;
    forall j: nat | j < |moves| && Decides(info, moves, j)
      ensures StatusBy(info, moves) == st <==> Brings(moves[j], st)
    {
      StatusDecided(info, moves, j);
      Brought(info, moves[j], st);
      DecidersBring(info, moves, j, st);
    }
    if StatusBy(info, moves) == st {
      var j := SomeDecides(info, moves);
    }
  }

  lemma DecidersBring(info: Info, moves: seq<StreamEvent>, j: nat, st: Status)
    requires j < |moves| && Decides(info, moves, j)
    ensures ClosesWith(info, moves[j]).Some? || OnlyReturns(moves[j]).Some? || moves[j].GroupEnds?
  {
    hide ClosesWith, OnlyReturns;
  }

  /** In every run of a call that is not a dry run, a stream closes with the status of a passed dry
      run if and only if the move that decides its status brings exactly that status from
      outside the proxy. */
  lemma NoDryRunStatus(c: Config, call: Call, run: seq<Action>, id: Id, k: nat)
    requires |call.targets| < NONCE_LIMIT && Reached(c, call, run).Some? && !call.dryRun
    requires var rs := Reached(c, call, run).value.server.replies; k < |rs| && rs[k].CloseReply? && id in rs[k].ids
    ensures id in Issued(Reached(c, call, run).value.server.table)
    ensures var s, passed := Reached(c, call, run).value.server, Status(10, "authz dry run passed");
            var info, moves := At(s.table, id).info, MovesOf(ServerRun(c, call, run), id);
            s.replies[k].status == passed <==> exists j: nat :: j < |moves| && Decides(info, moves, j) && Brings(moves[j], passed)
  {
    hide Reached, ServerRun, After, StatusBy, Decides, MovesOf;
    IsServerRun(c, call, run);
    var events := ServerRun(c, call, run);
    StatusPrecedence(c, events, id, k);
    StartedForCall(c, call, run, id);
    BroughtExactly(At(After(c, events).value.table, id).info, MovesOf(events, id), Status(10, "authz dry run passed"));
  }

  /** The moves of a stream whose target fails at once with the status of a passed dry run. */
  lemma SaysPassed(info: Info, p: Payload)
    ensures var passed, gone := Status(10, "authz dry run passed"), Status(1, "context canceled");
            var a := NewStream(info).(run := Running, announced := true);
            && CanStep(a, false, Connects)
            && var b := Step(a, false, Connects);
            && CanStep(b, false, TargetFails(passed, false, p))
            && var d := Step(b, false, TargetFails(passed, false, p));
            && CanStep(d, false, SeesCancel(gone))
            && var e := Step(d, false, SeesCancel(gone));
            && CanStep(e, false, GroupEnds(None))
            && Step(e, false, GroupEnds(None)).run == Closing(passed)
  {
    hide RecvError;
  }

  /** One more move of stream 1. */
  lemma MovesOn(c: Config, run: seq<Event>, move: StreamEvent, st: Stream)
    requires After(c, run).Some? && 1 in After(c, run).value.table.streams && !After(c, run).value.ctxDone
    requires After(c, run).value.table.streams[1] == st && CanStep(st, false, move)
    ensures var s := After(c, run + [Local(1, move)]);
            s.Some? && 1 in s.value.table.streams && !s.value.ctxDone && s.value.table.streams[1] == Step(st, false, move)
  {
    hide After, Step, CanStep;
    AfterAppend(c, run, Local(1, move));
  }

  lemma StartsOne(c: Config, m: string)
    requires m in c.methods
    ensures var s := After(c, [Handle(StartStream("t", m, 0, false), 1), WriteStart]);
            && s.Some? && 1 in s.value.table.streams && !s.value.ctxDone
            && s.value.table.streams[1] == NewStream(Info("t", 0, c.methods[m], false)).(run := Running, announced := true)
  {
    hide After, PairOf;
    var start := Handle(StartStream("t", m, 0, false), 1);
    assert After(c, []) == Some(INITIAL) by {
      Initially(c);
    }
    AfterAppend(c, [], start);
    assert [] + [start] == [start];
    AfterAppend(c, [start], WriteStart);
    assert [start] + [WriteStart] == [start, WriteStart];
  }

  lemma Initially(c: Config)
    ensures After(c, []) == Some(INITIAL)
  {}

  /** The exception of NoDryRunStatus is real: a stream that is not a dry run closes with that
      status when its target fails with it. */
  lemma TargetSaysPassed(c: Config, m: string, p: Payload)
    requires m in c.methods
    ensures var passed := Status(10, "authz dry run passed");
            var run := [Handle(StartStream("t", m, 0, false), 1), WriteStart] + [Local(1, Connects)]
                       + [Local(1, TargetFails(passed, false, p))] + [Local(1, SeesCancel(Status(1, "context canceled")))]
                       + [Local(1, GroupEnds(None))] + [WriteClose(1)];
            After(c, run).Some? && CloseReply([1], passed) in After(c, run).value.replies
  {
    hide After, Step, CanStep;
    var passed, gone := Status(10, "authz dry run passed"), Status(1, "context canceled");
    var r0 := [Handle(StartStream("t", m, 0, false), 1), WriteStart];
    var info := Info("t", 0, c.methods[m], false);
    StartsOne(c, m);
    SaysPassed(info, p);
    var a := NewStream(info).(run := Running, announced := true);
    var b := Step(a, false, Connects);
    var d := Step(b, false, TargetFails(passed, false, p));
    var e := Step(d, false, SeesCancel(gone));
    MovesOn(c, r0, Connects, a);
    var r1 := r0 + [Local(1, Connects)];
    MovesOn(c, r1, TargetFails(passed, false, p), b);
    var r2 := r1 + [Local(1, TargetFails(passed, false, p))];
    MovesOn(c, r2, SeesCancel(gone), d);
    var r3 := r2 + [Local(1, SeesCancel(gone))];
    MovesOn(c, r3, GroupEnds(None), e);
    AfterAppend(c, r3 + [Local(1, GroupEnds(None))], WriteClose(1));
  }
}
