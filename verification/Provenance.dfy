/**
 Where the responses that a client holds and hands out come from, with an error
 beside them or without.
 */
module Provenance {
  import opened Protocol
  import opened TargetStreams
  import opened ServerMachine
  import opened ServerInvariant
  import opened ServerTheorems
  import opened ClientModel
  import opened Composed
  import opened ComposedInvariant

  /** The response, if there is one, is data that was heard from stream id. */
  ghost predicate From(heard: seq<Reply>, id: Id, resp: Option<Payload>) {
    resp.Some? ==> resp.value in DataOf(Project(heard, id))
  }

  ghost predicate IdsFrom(ids: map<Id, Ret>, heard: seq<Reply>) {
    forall id <- ids :: From(heard, id, ids[id].resp)
  }

  /** Its response was heard from a stream that was opened under its index. */
  ghost predicate RetFrom(r: Ret, heard: seq<Reply>, infos: map<Id, Info>) {
    r.resp.Some? ==> exists id :: id in infos && infos[id].nonce == r.index && From(heard, id, r.resp)
  }

  ghost predicate GotFrom(got: seq<Ret>, heard: seq<Reply>, infos: map<Id, Info>) {
    forall r <- got :: RetFrom(r, heard, infos)
  }

  ghost predicate Sourced(s: System) {
    && s.client.consumed <= |s.server.replies|
    && IdsFrom(IdsOf(s.client), Heard(s))
    && GotFrom(s.client.got, Heard(s), Infos(s.server.table))
  }

  // ---- What keeps a source ----

  lemma FromGrows(heard: seq<Reply>, r: Reply, id: Id, resp: Option<Payload>)
    requires From(heard, id, resp)
    ensures From(heard + [r], id, resp)
  {
    hide DataOf, Project;
    ProjectAppend(heard, r, id);
    var tr := Project(heard, id);
    DataOfAppend(tr, r);
    assert tr + [] == tr;
  }

  lemma FromReply(heard: seq<Reply>, id: Id, p: Payload)
    ensures From(heard + [DataReply([id], p)], id, Some(p))
  {
    hide DataOf, Project;
    ProjectAppend(heard, DataReply([id], p), id);
    DataOfAppend(Project(heard, id), DataReply([id], p));
    var all := DataOf(Project(heard, id)) + [p];
    assert all[|all| - 1] == p;
  }

  lemma GotGrows(got: seq<Ret>, heard: seq<Reply>, r: Reply, infos: map<Id, Info>)
    requires GotFrom(got, heard, infos)
    ensures GotFrom(got, heard + [r], infos)
  {
    hide From;
    forall x <- got | x.resp.Some?
      ensures RetFrom(x, heard + [r], infos)
    {
      assert RetFrom(x, heard, infos);
      var id :| id in infos && infos[id].nonce == x.index && From(heard, id, x.resp);
      FromGrows(heard, r, id, x.resp);
    }
  }

  lemma GotMoreInfos(got: seq<Ret>, heard: seq<Reply>, infos: map<Id, Info>, infos': map<Id, Info>)
    requires GotFrom(got, heard, infos) && forall id <- infos :: id in infos' && infos'[id] == infos[id]
    ensures GotFrom(got, heard, infos')
  {
    hide From;
    forall x <- got | x.resp.Some?
      ensures RetFrom(x, heard, infos')
    {
      assert RetFrom(x, heard, infos);
      var id :| id in infos && infos[id].nonce == x.index && From(heard, id, x.resp);
      assert id in infos';
    }
  }

  lemma GotAppend(got: seq<Ret>, more: seq<Ret>, heard: seq<Reply>, infos: map<Id, Info>)
    requires GotFrom(got, heard, infos) && GotFrom(more, heard, infos)
    ensures GotFrom(got + more, heard, infos)
  {
    hide RetFrom;
  }

  /** A result taken from a tracked stream has the stream's source. */
  lemma TrackedFrom(ids: map<Id, Ret>, id: Id, err: Option<RetError>, heard: seq<Reply>, infos: map<Id, Info>)
    requires IdsFrom(ids, heard) && Matched(ids, infos) && id in ids
    ensures RetFrom(ids[id].(error := err), heard, infos)
  {
    hide From;
  }

  lemma LeftOverFrom(ids: map<Id, Ret>, order: seq<Id>, err: Option<RetError>, heard: seq<Reply>, infos: map<Id, Info>)
    requires IdsFrom(ids, heard) && Matched(ids, infos) && forall id <- order :: id in ids
    ensures GotFrom(LeftOver(ids, order, err), heard, infos)
  {
    hide RetFrom, IdsFrom, Matched;
    var left := LeftOver(ids, order, err);
    forall r <- left
      ensures RetFrom(r, heard, infos)
    {
      var k :| 0 <= k < |left| && left[k] == r;
      assert order[k] in order;
      TrackedFrom(ids, order[k], err, heard, infos);
    }
  }

  // ---- One reply ----

  /** After a reply that is taken, the tracked streams and the results have their sources. */
  lemma AnswerFrom(call: Call, ids: map<Id, Ret>, r: Reply, heard: seq<Reply>, infos: map<Id, Info>)
    requires Single(r) && IdsFrom(ids, heard) && Matched(ids, infos) && Answer(call, ids, r).end.Fine?
    ensures var t := Answer(call, ids, r); IdsFrom(t.ids, heard + [r]) && GotFrom(t.out, heard + [r], infos)
  {
    hide Answer, From;
    var id := r.ids[0];
    assert r.ids == [id];
    AnswerOne(call, ids, id, r);
    var t := Answer(call, ids, r);
    forall x <- t.ids
      ensures From(heard + [r], x, t.ids[x].resp)
    {
      if r.DataReply? && x == id {
        FromReply(heard, id, r.payload);
      } else {
        FromGrows(heard, r, x, ids[x].resp);
      }
    }
    if r.DataReply? {
      FromReply(heard, id, r.payload);
      assert t.out[0].index == infos[id].nonce && From(heard + [r], id, t.out[0].resp);
    }
  }

  /** A reply that is refused hands nothing out and changes no stream that it leaves. */
  lemma RefusedKeeps(call: Call, ids: map<Id, Ret>, r: Reply)
    requires (Single(r) || r.StartReply?) && !Answer(call, ids, r).end.Fine?
    ensures var t := Answer(call, ids, r); t.out == [] && forall id <- t.ids :: id in ids && t.ids[id] == ids[id]
  {
    hide Answer;
    if Single(r) {
      assert r.ids == [r.ids[0]];
      AnswerOne(call, ids, r.ids[0], r);
    } else {
      StartUnexpected(call, ids, r);
    }
  }

  // ---- Every action ----

  /** The client did not receive: its results and streams are those it had, or fewer. */
  lemma QuietSourced(s: System, s': System)
    requires Sourced(s) && s'.server == s.server && s'.client.consumed == s.client.consumed && s'.client.got == s.client.got
    requires forall id <- IdsOf(s'.client) :: id in IdsOf(s.client) && IdsOf(s'.client)[id] == IdsOf(s.client)[id]
    ensures Sourced(s')
  {
    hide From, RetFrom;
  }

  lemma ServerSourced(c: Config, s: System, e: Event)
    requires Sourced(s) && Inv(c, s.server) && Enabled(c, s.server, e)
    ensures Sourced(s.(server := Apply(c, s.server, e)))
  {
    hide Inv, Enabled, Apply, IdsFrom, GotFrom, Infos;
    EventLogGrows(c, s.server, e);
    EventInfos(c, s.server, e);
    var s' := s.(server := Apply(c, s.server, e));
    assert Heard(s') == Heard(s);
    NewIsNew(c, s.server, e);
    GotMoreInfos(s.client.got, Heard(s), Infos(s.server.table), Infos(s'.server.table));
  }

  lemma NewIsNew(c: Config, s: Server, e: Event)
    requires Enabled(c, s, e)
    ensures e.Handle? ==> e.newId !in Infos(s.table)
  {}

  /** Setup hears no data, so nothing it leaves has a response. */
  lemma SetupHasNone(c: Config, call: Call, s: System)
    requires |call.targets| < NONCE_LIMIT && SysInv(c, call, s)
    ensures s.client.consumed <= |s.server.replies|
    ensures s.client.phase.SettingUp? ==> s.client.got == [] && forall id <- IdsOf(s.client) :: IdsOf(s.client)[id].resp == None
    ensures forall r <- s.client.errors :: r.resp == None
    ensures Inv(c, s.server) && Matched(IdsOf(s.client), Infos(s.server.table)) && Plain(s.server.replies)
  {
    hide Inv, Infos, Named, Tracking, Collected, Attributed, Complete, Opened, Accounted;
  }

  lemma RecvSourced(c: Config, call: Call, s: System, order: seq<Id>)
    requires |call.targets| < NONCE_LIMIT && SysInv(c, call, s) && Sourced(s) && Can(c, call, s, RecvNext(order))
    ensures Sourced(Do(c, call, s, RecvNext(order)))
  {
    hide SysInv, Answer, IdsFrom, GotFrom, Infos, LeftOver, Matched, Inv, Enabled, Apply, AfterSetupRecv;
    SetupHasNone(c, call, s);
    var cl, infos := s.client, Infos(s.server.table);
    var r := s.server.replies[cl.consumed];
    NextKind(s.server, cl.consumed);
    var t := Answer(call, cl.phase.ids, r);
    var s' := Do(c, call, s, RecvNext(order));
    if t.end.Fine? {
      FineIsSingle(call, cl.phase.ids, r);
      assert Heard(s') == Heard(s) + [r];
      AnswerFrom(call, cl.phase.ids, r, Heard(s), infos);
      GotGrows(cl.got, Heard(s), r, infos);
      GotAppend(cl.got, t.out, Heard(s'), infos);
    } else {
      RefusedKeeps(call, cl.phase.ids, r);
      assert cl.got + [] == cl.got;
      NoneTracked(Heard(s));
      if call.unary {
        FewerFrom(cl.phase.ids, t.ids, Heard(s), infos);
        LeftOverFrom(t.ids, order, Some(ChanErr(t.end)), Heard(s), infos);
        GotAppend(cl.got, LeftOver(t.ids, order, Some(ChanErr(t.end))), Heard(s), infos);
      }
    }
  }

  lemma NextKind(s: Server, k: nat)
    requires Plain(s.replies) && k < |s.replies|
    ensures Single(s.replies[k]) || s.replies[k].StartReply?
  {
    assert s.replies[k] in s.replies;
  }

  lemma FineIsSingle(call: Call, ids: map<Id, Ret>, r: Reply)
    requires (Single(r) || r.StartReply?) && Answer(call, ids, r).end.Fine?
    ensures Single(r)
  {}

  lemma NoneTracked(heard: seq<Reply>)
    ensures IdsFrom(map[], heard)
  {}

  lemma FewerFrom(ids: map<Id, Ret>, ids': map<Id, Ret>, heard: seq<Reply>, infos: map<Id, Info>)
    requires IdsFrom(ids, heard) && Matched(ids, infos) && forall id <- ids' :: id in ids && ids'[id] == ids[id]
    ensures IdsFrom(ids', heard) && Matched(ids', infos)
  {
    hide From;
  }

  lemma EndsSourced(c: Config, call: Call, s: System, order: seq<Id>, err: Option<RetError>)
    requires |call.targets| < NONCE_LIMIT && SysInv(c, call, s) && Sourced(s) && s.client.phase.Ready? && Lists(order, s.client.phase.ids.Keys)
    ensures Sourced(s.(client := LoopEnds(s.client, s.client.phase.ids, order, err, s.client.consumed)))
  {
    hide SysInv, IdsFrom, GotFrom, Infos, LeftOver, Matched;
    SetupHasNone(c, call, s);
    NoneTracked(Heard(s));
    LeftOverFrom(s.client.phase.ids, order, err, Heard(s), Infos(s.server.table));
    GotAppend(s.client.got, LeftOver(s.client.phase.ids, order, err), Heard(s), Infos(s.server.table));
  }

  lemma NoResponseNeeded(s: System)
    requires s.client.consumed <= |s.server.replies| && s.client.got == [] && forall id <- IdsOf(s.client) :: IdsOf(s.client)[id].resp == None
    ensures Sourced(s)
  {}

  lemma ErrorsSourced(s: System, s': System)
    requires Sourced(s) && (forall r <- s.client.errors :: r.resp == None)
    requires s' == s.(client := s.client.(got := s.client.got + s.client.errors, sentErrors := true))
    ensures Sourced(s')
  {
    hide From, IdsFrom, Infos;
    GotAppend(s.client.got, s.client.errors, Heard(s), Infos(s.server.table));
  }

  lemma SetupSourced(c: Config, call: Call, s: System, a: Action)
    requires |call.targets| < NONCE_LIMIT && SysInv(c, call, s) && Can(c, call, s, a) && (a.SetupRecv? || a.SetupDone?)
    ensures Sourced(Do(c, call, s, a))
  {
    hide SysInv, Sourced, Accept, Inv, Matched, Enabled, Apply, Answer, LoopEnds, AfterRecv;
    SetupHasNone(c, call, s);
    DoKeepsSysInv(c, call, s, a);
    SetupHasNone(c, call, Do(c, call, s, a));
    NoResponseNeeded(Do(c, call, s, a));
  }

  lemma EndSourced(c: Config, call: Call, s: System, a: Action)
    requires |call.targets| < NONCE_LIMIT && SysInv(c, call, s) && Sourced(s) && Can(c, call, s, a) && (a.EndOfReplies? || a.Breaks?)
    ensures Sourced(Do(c, call, s, a))
  {
    hide SysInv, Sourced, LoopEnds, Enabled, Apply, Answer, AfterRecv, AfterSetupRecv;
    if a.EndOfReplies? && call.unary {
      EndsSourced(c, call, s, a.order, None);
    } else if a.Breaks? && Looping(call, s.client) {
      EndsSourced(c, call, s, a.order, Some(CONNECTION_LOST));
    } else {
      QuietSourced(s, Do(c, call, s, a));
    }
  }

  lemma StepSourced(c: Config, call: Call, s: System, a: Action)
    requires |call.targets| < NONCE_LIMIT && SysInv(c, call, s) && Sourced(s) && Can(c, call, s, a)
    ensures Sourced(Do(c, call, s, a))
  {
    hide SysInv, Sourced, Enabled, Apply, Answer, LoopEnds, AfterRecv, AfterSetupRecv, Inv, Matched;
    SetupHasNone(c, call, s);
    match a
    case ServerMoves(e) => ServerSourced(c, s, e);
    case ServerHandles(newId) => ServerSourced(c, s, Handle(s.client.wire[|s.server.handled|], newId));
    case SetupRecv => SetupSourced(c, call, s, a);
    case SetupDone => SetupSourced(c, call, s, a);
    case ShipErrors => ErrorsSourced(s, Do(c, call, s, a));
    case RecvNext(order) => RecvSourced(c, call, s, order);
    case EndOfReplies(_) => EndSourced(c, call, s, a);
    case Breaks(_) => EndSourced(c, call, s, a);
    case _ => QuietSourced(s, Do(c, call, s, a));
  }

  /** In every run, whatever the client holds or has handed out was heard from a stream
      opened under its index. */
  lemma {:induction false} AlwaysSourced(c: Config, call: Call, run: seq<Action>)
    requires |call.targets| < NONCE_LIMIT && Reached(c, call, run).Some?
    ensures Sourced(Reached(c, call, run).value)
  {
    hide Can, Do, Sourced, SysInv;
    if run == [] {
      NoResponseNeeded(START);
    } else {
      var n := |run| - 1;
      AlwaysSourced(c, call, run[..n]);
      ReachedInv(c, call, run[..n]);
      StepSourced(c, call, Reached(c, call, run[..n]).value, run[n]);
    }
  }
}
