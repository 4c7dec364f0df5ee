/**
 What a caller of the client library can rely on, for every run of client and
 server together.
 */
module EndToEnd {
  import opened Protocol
  import opened TargetStreams
  import opened StreamSets
  import opened ServerMachine
  import opened ServerInvariant
  import opened ServerTheorems
  import opened ClientModel
  import opened Composed
  import opened ComposedInvariant
  import opened Provenance

  // ---- Demultiplexing ----

  lemma {:induction false} DataOfSplit(a: seq<Reply>, b: seq<Reply>)
    ensures DataOf(a + b) == DataOf(a) + DataOf(b)
  {
    if b == [] {
      assert a + b == a;
    } else {
      var n := |b| - 1;
      assert a + b == (a + b[..n]) + [b[n]];
      DataOfSplit(a, b[..n]);
      DataOfAppend(a + b[..n], b[n]);
    }
  }

  lemma {:induction false} DataOfReplies(id: Id, ps: seq<Payload>)
    ensures DataOf(DataReplies(id, ps)) == ps
  {
    if ps != [] {
      var n := |ps| - 1;
      DataOfReplies(id, ps[..n]);
      assert DataReplies(id, ps) == DataReplies(id, ps[..n]) + [DataReply([id], ps[n])];
      DataOfAppend(DataReplies(id, ps[..n]), DataReply([id], ps[n]));
    }
  }

  lemma {:induction false} DataOfNone(tr: seq<Reply>)
    requires forall r <- tr :: !r.DataReply?
    ensures DataOf(tr) == []
  {
    if tr != [] {
      DataOfNone(tr[..|tr| - 1]);
    }
  }

  /** The data on a stream's wire is what its receiver forwarded. */
  lemma DataOfWire(id: Id, st: Stream)
    ensures DataOf(Wire(id, st)) == st.rcv.forwarded
  {
    hide DataOf, DataReplies;
    var a := if st.announced then [StartReply(st.info.target, st.info.nonce, StreamId(id))] else [];
    var z := if st.closeSent.Some? then [CloseReply([id], st.closeSent.value)] else [];
    DataOfSplit(a + DataReplies(id, st.rcv.forwarded), z);
    DataOfSplit(a, DataReplies(id, st.rcv.forwarded));
    DataOfReplies(id, st.rcv.forwarded);
    DataOfNone(a);
    DataOfNone(z);
  }

  /** What a target sent, and the empty reply made up for it if it ended without one. */
  function FromTarget(st: Stream): seq<Payload> {
    st.rcv.received + st.rcv.madeUp
  }

  lemma HeardFromTarget(c: Config, s: Server, k: nat, id: Id)
    requires Inv(c, s) && k <= |s.replies| && id in Issued(s.table)
    ensures DataOf(Project(s.replies[..k], id)) <= FromTarget(At(s.table, id))
  {
    hide Inv, Wire, Project, DataOf;
    InvStream(c, s, id);
    InvReceiver(c, s, id);
    DataOfWire(id, At(s.table, id));
    assert s.replies == s.replies[..k] + s.replies[k..];
    ProjectSplit(s.replies[..k], s.replies[k..], id);
    DataOfSplit(Project(s.replies[..k], id), Project(s.replies[k..], id));
  }

  lemma InvReceiver(c: Config, s: Server, id: Id)
    requires Inv(c, s) && id in Issued(s.table)
    ensures At(s.table, id).rcv.forwarded <= FromTarget(At(s.table, id))
  {
    hide SenderOk;
    assert Placed(c, s, id);
  }

  /** Stream id answers for index i: it was opened by the start request with nonce
      i, for the target the caller listed there. */
  ghost predicate Serves(call: Call, s: Server, id: Id, i: nat) {
    && id in Issued(s.table) && At(s.table, id).info.nonce == i
    && i < |call.targets| && At(s.table, id).info.target == call.targets[i]
  }

  /** Every result, with an error or without, names its own target, even when targets
      repeat, and its response, if it has one, was sent by the target of the one stream
      that serves its index; and the data handed out under i in results without an error
      is, in order, a prefix of what that target sent. Results count as they were when
      handed out. */
  lemma Demultiplexed(c: Config, call: Call, run: seq<Action>)
    requires |call.targets| < NONCE_LIMIT && Reached(c, call, run).Some?
    ensures var s := Reached(c, call, run).value;
            && (forall r <- s.client.got ::
                  && r.index < |call.targets| && r.target == call.targets[r.index]
                  && (r.resp.Some? ==>
                        exists id :: Serves(call, s.server, id, r.index) && r.resp.value in FromTarget(At(s.server.table, id))))
            && (forall id, i :: Serves(call, s.server, id, i) ==>
                  Payloads(s.client.got, i) <= FromTarget(At(s.server.table, id)))
            && (forall a, b, i :: Serves(call, s.server, a, i) && Serves(call, s.server, b, i) ==> a == b)
  {
    hide Reached, Inv, InTurn, WireShape, Complete, Tracking, SetupKnown, Payloads, Sourced, FromTarget;
    ReachedInv(c, call, run);
    AlwaysSourced(c, call, run);
    var s := Reached(c, call, run).value;
    NoncesDistinct(c, call, s);
    InfosAre(s.server.table);
    forall r <- s.client.got | r.resp.Some?
      ensures exists id :: Serves(call, s.server, id, r.index) && r.resp.value in FromTarget(At(s.server.table, id))
    {
      var id := SentBy(c, call, s, r);
      assert Serves(call, s.server, id, r.index);
    }
    forall id, i | Serves(call, s.server, id, i)
      ensures Payloads(s.client.got, i) <= FromTarget(At(s.server.table, id))
    {
      assert id in Infos(s.server.table);
      HeardFromTarget(c, s.server, s.client.consumed, id);
    }
  }

  /** The stream whose target sent the response of a result. */
  lemma SentBy(c: Config, call: Call, s: System, r: Ret) returns (id: Id)
    requires ServerSide(c, call, s) && Sourced(s) && r in s.client.got && r.resp.Some?
    ensures Serves(call, s.server, id, r.index) && r.resp.value in FromTarget(At(s.server.table, id))
  {
    hide Inv, InTurn, FromTarget, DataOf, Project;
    InfosAre(s.server.table);
    assert RetFrom(r, Heard(s), Infos(s.server.table));
    id :| id in Infos(s.server.table) && Infos(s.server.table)[id].nonce == r.index && From(Heard(s), id, r.resp);
    HeardFromTarget(c, s.server, s.client.consumed, id);
    var heard, sent := DataOf(Project(Heard(s), id)), FromTarget(At(s.server.table, id));
    var k :| 0 <= k < |heard| && heard[k] == r.resp.value;
    assert sent[k] == heard[k];
  }

  lemma InfosAre(t: StreamSet)
    ensures Infos(t).Keys == Issued(t) && forall id <- Issued(t) :: Infos(t)[id] == At(t, id).info
  {
  }

  // ---- Fan-out ----

  lemma InvDelivered(c: Config, s: Server, id: Id)
    requires Inv(c, s) && id in Issued(s.table)
    ensures At(s.table, id).snd.delivered <= Requested(s.handled, id)
  {
    assert Placed(c, s, id) && Fed(s, id);
    hide Inv;
    var st := At(s.table, id);
    assert forall k :: 0 <= k < |st.snd.delivered| ==> st.snd.delivered[k] == st.inbox.enqueued[k];
  }

  /** Each target sees a prefix of the messages the caller passed to SendMsg, in
      order and each once, all of them approved for that stream. */
  lemma FannedOut(c: Config, call: Call, run: seq<Action>, id: Id)
    requires |call.targets| < NONCE_LIMIT && Reached(c, call, run).Some?
    requires id in Issued(Reached(c, call, run).value.server.table)
    ensures var s := Reached(c, call, run).value; var snd := At(s.server.table, id).snd;
            && snd.delivered <= s.client.messages
            && (forall k :: 0 <= k < |snd.delivered| ==> k < |snd.verdicts| && snd.verdicts[k] == Verdict(snd.delivered[k], true))
  {
    ReachedInv(c, call, run);
    var s := Reached(c, call, run).value;
    hide Reached;
    hide ClientSide;
    hide InTurn;
    hide WireShape;
    hide Opened;
    InvDelivered(c, s.server, id);
    InvApproved(c, s.server, id);
    hide Inv;
    RequestedGrows(s.server.handled, s.client.wire, id);
  }

  lemma InvApproved(c: Config, s: Server, id: Id)
    requires Inv(c, s) && id in Issued(s.table)
    ensures var snd := At(s.table, id).snd;
            forall k :: 0 <= k < |snd.delivered| ==> k < |snd.verdicts| && snd.verdicts[k] == Verdict(snd.delivered[k], true)
  {
    assert Placed(c, s, id);
  }

  // ---- The client never trips the server ----

  lemma {:induction false} IssuedNeverUnknown(t: StreamSet, ids: seq<Id>, typeName: string)
    requires forall id <- ids :: id in Issued(t)
    ensures Validate(t, ids, typeName).Blocked? ==> Validate(t, ids, typeName).problem.WrongType?
  {
    if ids != [] {
      IssuedNeverUnknown(t, ids[..|ids| - 1], typeName);
      assert ids[|ids| - 1] in ids;
    }
  }

  lemma NextRequest(c: Config, call: Call, s: System)
    requires |call.targets| < NONCE_LIMIT && SysInv(c, call, s) && |s.server.handled| < |s.client.wire|
    ensures var r := s.client.wire[|s.server.handled|];
            && !r.ClientCancel? && !r.UnknownRequest?
            && (r.StreamData? ==> forall id <- r.ids :: id in Issued(s.server.table))
  {
    hide Inv, InTurn, Tracking, Complete, Collected, Attributed, SetupKnown, Infos;
    var r := s.client.wire[|s.server.handled|];
    InfosAre(s.server.table);
    assert r in s.client.wire;
    assert r.StreamData? ==> forall id <- r.ids :: Names(r, id);
  }

  lemma SafeNow(c: Config, call: Call, s: System)
    requires |call.targets| < NONCE_LIMIT && SysInv(c, call, s)
    ensures !s.server.dispatch.Panicked? && !Enabled(c, s.server, EnqueuePanics)
  {
    hide Inv, ClientSide, Complete;
    NeverPanics(c, call, s);
  }

  /** Neither kind of client makes the server enqueue on a closed channel or meet
      an id it never issued: only a message of the wrong type can be refused. */
  lemma ClientIsSafe(c: Config, call: Call, run: seq<Action>)
    requires |call.targets| < NONCE_LIMIT && Reached(c, call, run).Some?
    ensures var s := Reached(c, call, run).value; var h := |s.server.handled|;
            && !s.server.dispatch.Panicked? && !Enabled(c, s.server, EnqueuePanics)
            && (h < |s.client.wire| ==>
                  var r := s.client.wire[h];
                  && !r.ClientCancel? && !r.UnknownRequest?
                  && (r.StreamData? ==>
                        var checked := Validate(s.server.table, r.ids, r.payload.typeName);
                        checked.Blocked? ==> checked.problem.WrongType?))
  {
    hide SysInv, Reached, Enabled, Validate;
    ReachedInv(c, call, run);
    var s := Reached(c, call, run).value;
    SafeNow(c, call, s);
    if |s.server.handled| < |s.client.wire| {
      NextRequest(c, call, s);
      var r := s.client.wire[|s.server.handled|];
      if r.StreamData? {
        IssuedNeverUnknown(s.server.table, r.ids, r.payload.typeName);
      }
    }
  }

  // ---- Setup ----

  lemma {:induction false} FullRange(ns: seq<nat>, k: nat)
    requires Increasing(ns, |ns|) && k < |ns|
    ensures ns[k] == k
  {
    RangeFloor(ns, k);
    RangeCeiling(ns, k);
  }

  lemma {:induction false} RangeFloor(ns: seq<nat>, k: nat)
    requires Increasing(ns, |ns|) && k < |ns|
    ensures k <= ns[k]
  {
    if k > 0 {
      RangeFloor(ns, k - 1);
    }
  }

  lemma {:induction false} RangeCeiling(ns: seq<nat>, k: nat)
    requires Increasing(ns, |ns|) && k < |ns|
    ensures ns[k] <= k
    decreases |ns| - k
  {
    if k + 1 < |ns| {
      RangeCeiling(ns, k + 1);
    }
  }

  /** Index i belongs to exactly one open stream or exactly one recorded failure. */
  ghost predicate Partitioned(setup: Setup, i: nat) {
    && ((exists id :: id in setup.ids && setup.ids[id].index == i) <==> !(exists e :: e in setup.errors && e.index == i))
    && (forall a, b :: a in setup.ids && b in setup.ids && setup.ids[a].index == setup.ids[b].index ==> a == b)
    && (forall j, k :: 0 <= j < k < |setup.errors| ==> setup.errors[j].index != setup.errors[k].index)
  }

  lemma AccountedPartitions(setup: Setup, ns: seq<nat>, i: nat)
    requires Accounted(setup, ns) && i in ns
    ensures Partitioned(setup, i)
  {
  }

  /** When setup succeeds the indices 0..N-1 are partitioned between the open
      streams and the recorded failures. */
  lemma SetupPartitions(c: Config, call: Call, run: seq<Action>, i: nat)
    requires |call.targets| < NONCE_LIMIT && Reached(c, call, run).Some?
    requires Can(c, call, Reached(c, call, run).value, SetupDone) && i < |call.targets|
    ensures Partitioned(Reached(c, call, run).value.client.phase.setup, i)
  {
    hide SysInv, Accounted, Partitioned, Reached;
    ReachedInv(c, call, run);
    var s := Reached(c, call, run).value;
    HeardIncreasing(c, call, s);
    AccountedReplies(s.client.phase.setup, StartNonces(Heard(s)));
    FullRange(StartNonces(Heard(s)), i);
    AccountedPartitions(s.client.phase.setup, StartNonces(Heard(s)), i);
  }

  lemma AccountedReplies(setup: Setup, ns: seq<nat>)
    requires Accounted(setup, ns)
    ensures setup.replies == |ns|
  {
  }

  /** During setup only start requests are out, so the nonces heard stay below N. */
  lemma HeardIncreasing(c: Config, call: Call, s: System)
    requires |call.targets| < NONCE_LIMIT && SysInv(c, call, s) && s.client.phase.SettingUp?
    ensures s.client.consumed <= |s.server.replies| && Increasing(StartNonces(Heard(s)), |call.targets|)
    ensures Accounted(s.client.phase.setup, StartNonces(Heard(s)))
  {
    hide Inv, Tracking, Complete;
    StartNoncesPrefix(s.server.replies, s.client.consumed);
    var ns, all := StartNonces(Heard(s)), StartNonces(s.server.replies);
    assert forall k :: 0 <= k < |ns| ==> ns[k] == all[k];
  }

  // ---- The client's own checks ----

  /** A stream whose first reply is not its announcement belongs to a cancelled run. */
  lemma UnannouncedMeansDone(c: Config, s: Server, k: nat, id: Id)
    requires Inv(c, s) && k < |s.replies| && Single(s.replies[k]) && s.replies[k].ids[0] == id
    requires Project(s.replies[..k], id) == []
    ensures s.ctxDone
  {
    hide Inv, Wire, Project;
    FirstMention(s.replies, k, id);
    InvAnnounced(c, s, id);
    WireGrammatical(id, At(s.table, id));
  }

  lemma FirstMention(log: seq<Reply>, k: nat, id: Id)
    requires k < |log| && Mentions(log[k], id) && Project(log[..k], id) == []
    ensures Project(log, id) != [] && Project(log, id)[0] == log[k]
  {
    var a, b := log[..k], log[k..];
    assert log == a + b;
    ProjectSplit(a, b, id);
    ProjectFirst(b, id);
    assert [] + Project(b, id) == Project(b, id);
  }

  lemma InvAnnounced(c: Config, s: Server, id: Id)
    requires Inv(c, s) && Project(s.replies, id) != []
    ensures id in Issued(s.table) && Project(s.replies, id) == Wire(id, At(s.table, id))
    ensures At(s.table, id).announced || s.ctxDone
  {
    hide SenderOk;
    InvStream(c, s, id);
    assert Placed(c, s, id);
  }

  /** The next reply's stream is tracked, unless the server's context is done. */
  lemma NextIsTracked(c: Config, s: System)
    requires Inv(c, s.server) && s.client.consumed < |s.server.replies| && Tracking(s) && !s.client.phase.Gone?
    requires Single(s.server.replies[s.client.consumed])
    ensures s.server.replies[s.client.consumed].ids[0] in IdsOf(s.client) || s.server.ctxDone
  {
    hide Inv;
    var k := s.client.consumed;
    var id := s.server.replies[k].ids[0];
    NextReply(c, s.server, k, id);
    assert Tracks(IdsOf(s.client), id, Project(Heard(s), id));
    if Project(Heard(s), id) == [] {
      UnannouncedMeansDone(c, s.server, k, id);
    }
  }

  lemma NextStartAccepted(c: Config, call: Call, s: System)
    requires |call.targets| < NONCE_LIMIT && SysInv(c, call, s) && s.client.phase.SettingUp?
    requires s.client.consumed < |s.server.replies| && s.server.replies[s.client.consumed].StartReply?
    ensures Accept(call.targets, s.client.phase.setup, s.server.replies[s.client.consumed]).Success?
  {
    hide Inv, Complete, Accounted, Collected, Attributed;
    var k := s.client.consumed;
    var r := s.server.replies[k];
    assert |call.targets| % NONCE_LIMIT == |call.targets|;
    PlainNext(call, s.server, k);
    assert r in s.server.replies;
    if r.result.StreamId? {
      NextReply(c, s.server, k, r.result.id);
      assert Tracks(IdsOf(s.client), r.result.id, Project(Heard(s), r.result.id));
    } else {
      InvStream(c, s.server, 0);
      InfosAre(s.server.table);
    }
  }

  /** Against this server setup refuses a reply only if a target spoke or closed
      cleanly before the call had begun, or the server's context is done. */
  lemma SetupRefusals(c: Config, call: Call, run: seq<Action>)
    requires |call.targets| < NONCE_LIMIT && Reached(c, call, run).Some?
    requires Can(c, call, Reached(c, call, run).value, SetupRecv)
    requires var s := Reached(c, call, run).value;
             Accept(call.targets, s.client.phase.setup, s.server.replies[s.client.consumed]).Refused?
    ensures var s := Reached(c, call, run).value; var r := s.server.replies[s.client.consumed];
            s.server.ctxDone || r.DataReply? || (r.CloseReply? && r.status.code == 0)
  {
    hide SysInv, Reached, Inv, Tracking, InTurn;
    ReachedInv(c, call, run);
    var s := Reached(c, call, run).value;
    var r := s.server.replies[s.client.consumed];
    SysFacts(c, call, s);
    if r.StartReply? {
      NextStartAccepted(c, call, s);
    } else {
      PlainNext(call, s.server, s.client.consumed);
      NextIsTracked(c, s);
      if r.CloseReply? {
        assert r.ids == [r.ids[0]];
        CloseOne(s.client.phase.setup, r.ids[0], r.status);
      }
    }
  }

  lemma SysFacts(c: Config, call: Call, s: System)
    requires |call.targets| < NONCE_LIMIT && SysInv(c, call, s)
    ensures Inv(c, s.server) && InTurn(call, s.server) && s.client.consumed <= |s.server.replies| && Tracking(s)
  {
    hide Inv, InTurn, Tracking;
  }

  lemma {:induction false} EchoedNonces(call: Call, log: seq<Reply>)
    requires Echoes(call, log)
    ensures forall i :: 0 <= i < |StartNonces(log)| ==> StartNonces(log)[i] < |call.targets|
  {
    if log != [] {
      var n := |log| - 1;
      assert log[n] in log && forall r <- log[..n] :: r in log;
      EchoedNonces(call, log[..n]);
    }
  }

  /** Increasing numbers below a bound are no more than the bound. */
  lemma {:induction false} IncreasingSize(ns: seq<nat>, bound: nat, k: nat)
    requires Increasing(ns, bound) && k < |ns|
    ensures k <= ns[k]
  {
    if k > 0 {
      IncreasingSize(ns, bound, k - 1);
    }
  }

  /** Once N start replies were heard there is no other. */
  lemma NoMoreStarts(c: Config, call: Call, s: System)
    requires |call.targets| < NONCE_LIMIT && SysInv(c, call, s) && s.client.phase.Ready? && s.client.consumed < |s.server.replies|
    ensures Single(s.server.replies[s.client.consumed])
  {
    hide Inv, Complete, Tracking, Collected, Attributed, WireShape;
    var k := s.client.consumed;
    var log := s.server.replies;
    PlainNext(call, s.server, k);
    if log[k].StartReply? {
      assert log[..k + 1] == Heard(s) + [log[k]];
      StartNoncesAppend(Heard(s), log[k]);
      StartNoncesPrefix(log, k + 1);
      EchoedNonces(call, log);
      var all := StartNonces(log);
      IncreasingSize(all, |s.server.handled|, |all| - 1);
      assert false;
    }
  }

  /** Against this server the receive loops never crash, and never meet an unknown
      stream or an unexpected answer while its context is live; what remains is a unary
      target that answers and then fails. */
  lemma ReceiveRefusals(c: Config, call: Call, run: seq<Action>)
    requires |call.targets| < NONCE_LIMIT && Reached(c, call, run).Some?
    requires Reached(c, call, run).value.client.phase.Ready?
    requires var s := Reached(c, call, run).value; s.client.consumed < |s.server.replies|
    ensures var s := Reached(c, call, run).value; var r := s.server.replies[s.client.consumed];
            var t := Answer(call, s.client.phase.ids, r);
            && !t.end.Crashed?
            && (|| t.end.Fine? || s.server.ctxDone
                || (call.unary && r.CloseReply? && r.status.code != 0 && |r.ids| == 1
                    && r.ids[0] in s.client.phase.ids && s.client.phase.ids[r.ids[0]].resp.Some?))
  {
    hide SysInv, Reached, Inv, Tracking, Answer;
    ReachedInv(c, call, run);
    var s := Reached(c, call, run).value;
    var r := s.server.replies[s.client.consumed];
    SysFacts(c, call, s);
    PlainNext(call, s.server, s.client.consumed);
    if r.StartReply? {
      StartUnexpected(call, s.client.phase.ids, r);
    } else {
      assert r.ids == [r.ids[0]];
      AnswerOne(call, s.client.phase.ids, r.ids[0], r);
    }
    if !s.server.ctxDone {
      NoMoreStarts(c, call, s);
      NextIsTracked(c, s);
    }
  }

  /** A call that the server ends cleanly leaves no stream open at the client, and the
      caller has everything the targets sent. */
  lemma CleanEnd(c: Config, call: Call, run: seq<Action>)
    requires |call.targets| < NONCE_LIMIT && Reached(c, call, run).Some?
    requires var s := Reached(c, call, run).value; s.server.dispatch == Stopped(None) && s.client.consumed == |s.server.replies|
    ensures var s := Reached(c, call, run).value;
            && (s.client.phase.Ready? ==> s.client.phase.ids == map[])
            && (forall id, i :: Serves(call, s.server, id, i) ==>
                  Payloads(s.client.got, i) == FromTarget(At(s.server.table, id)))
  {
    hide SysInv, Reached, Payloads, FromTarget;
    ReachedInv(c, call, run);
    var s := Reached(c, call, run).value;
    if s.client.phase.Ready? {
      EofNothingOpen(c, call, s);
    }
    forall id, i | Serves(call, s.server, id, i)
      ensures Payloads(s.client.got, i) == FromTarget(At(s.server.table, id))
    {
      AllArrived(c, call, s, id);
    }
  }

  lemma AllArrived(c: Config, call: Call, s: System, id: Id)
    requires |call.targets| < NONCE_LIMIT && SysInv(c, call, s) && id in Issued(s.server.table)
    requires s.server.dispatch == Stopped(None) && s.client.consumed == |s.server.replies|
    ensures Payloads(s.client.got, At(s.server.table, id).info.nonce) == FromTarget(At(s.server.table, id))
  {
    hide Inv, InTurn, Opened, Named, Attributed, SetupKnown, Complete, WireShape, Tracking, Payloads, DataOf, Project, Wire;
    assert Heard(s) == s.server.replies;
    InfosAre(s.server.table);
    InvStream(c, s.server, id);
    DataOfWire(id, At(s.server.table, id));
    AllForwarded(c, s.server, id);
  }

  lemma AllForwarded(c: Config, s: Server, id: Id)
    requires Inv(c, s) && s.dispatch == Stopped(None) && id in Issued(s.table)
    ensures At(s.table, id).rcv.forwarded == FromTarget(At(s.table, id))
  {
    hide Inv, SenderOk, ModeOk;
    StoppedClean(c, s);
    InvAt(c, s, id);
    var rcv := At(s.table, id).rcv;
    assert rcv.forwarded + [] == rcv.forwarded;
  }
}
