/**
 What the caller of a streaming call has, in every run of client and server: the
 failures of setup, and for each open stream one result per reply about it.
 */
module StreamResults {
  import opened Protocol
  import opened TargetStreams
  import opened StreamSets
  import opened ServerMachine
  import opened ServerInvariant
  import opened StreamHistory
  import opened ClientModel
  import opened Results
  import opened Composed
  import opened ComposedInvariant
  import opened Provenance
  import opened CallRuns

  /** One result per reply, in order. */
  ghost predicate ReadAs(dryRun: bool, ret: Ret, tr: seq<Reply>, rs: seq<Ret>) {
    |rs| == |tr| && forall k :: 0 <= k < |tr| ==> Reads(dryRun, ret, tr[k], rs[k])
  }

  /** The replies that the client has taken since setup. */
  function HeardSince(s: System): seq<Reply>
    requires s.client.since <= s.client.consumed <= |s.server.replies|
  {
    s.server.replies[s.client.since..s.client.consumed]
  }

  /** Setup and what it left, by the replies it took. */
  ghost predicate SetupTold(call: Call, s: System) {
    var cl := s.client;
    && cl.since <= cl.consumed <= |s.server.replies|
    && SetupAfter(call.targets, s.server.replies[..cl.since]) == Success(cl.base)
    && cl.errors == cl.base.errors
    && (cl.phase.SettingUp? ==>
          SetupAfter(call.targets, Heard(s)) == Success(cl.phase.setup) && cl.base == NO_REPLIES && cl.since == 0 && !cl.sentErrors)
    && (!cl.sentErrors ==> cl.got == [])
  }

  ghost predicate StreamsReported(dryRun: bool, base: Setup, log: seq<Reply>, got: seq<Ret>) {
    forall id <- base.ids :: ReadAs(dryRun, base.ids[id], Project(log, id), Under(got, base.ids[id].index))
  }

  ghost predicate FailuresReported(base: Setup, sent: bool, got: seq<Ret>) {
    forall e <- base.errors :: Under(got, e.index) == if sent then [e] else []
  }

  ghost predicate Reported(call: Call, s: System)
    requires s.client.since <= s.client.consumed <= |s.server.replies|
  {
    var cl := s.client;
    && Apart(cl.base)
    && (cl.phase.Ready? ==> SomeOf(cl.phase.ids, cl.base.ids))
    && StreamsReported(call.dryRun, cl.base, HeardSince(s), cl.got)
    && FailuresReported(cl.base, cl.sentErrors, cl.got)
  }

  ghost predicate Account(call: Call, s: System) {
    SetupTold(call, s) && (!call.unary ==> Reported(call, s))
  }

  // ---- Every action ----

  lemma ServerAccount(c: Config, call: Call, s: System, e: Event)
    requires Account(call, s) && Enabled(c, s.server, e)
    ensures Account(call, s.(server := Apply(c, s.server, e)))
  {
    hide Enabled, Apply, SetupAfter, StreamsReported, FailuresReported, Apart, SomeOf;
    EventLogGrows(c, s.server, e);
    var s' := s.(server := Apply(c, s.server, e));
    assert s'.server.replies[..s.client.since] == s.server.replies[..s.client.since];
    assert Heard(s') == Heard(s) && HeardSince(s') == HeardSince(s);
  }

  /** The client did not receive and handed nothing out. */
  lemma QuietAccount(call: Call, s: System, s': System)
    requires Account(call, s) && s'.server == s.server
    requires var a, b := s.client, s'.client;
             && b.consumed == a.consumed && b.got == a.got && b.base == a.base && b.since == a.since && b.errors == a.errors
             && b.sentErrors == a.sentErrors && (b.phase == a.phase || b.phase.Gone?)
    ensures Account(call, s')
  {
    hide SetupAfter, StreamsReported, FailuresReported, Apart, SomeOf;
  }

  lemma SetupRecvAccount(call: Call, s: System)
    requires Account(call, s) && s.client.phase.SettingUp? && s.client.consumed < |s.server.replies|
    ensures Account(call, s.(client := AfterSetupRecv(call, s.client, s.server.replies[s.client.consumed])))
  {
    hide SetupAfter, Accept, StreamsReported, FailuresReported, Apart, SomeOf;
    var r := s.server.replies[s.client.consumed];
    var s' := s.(client := AfterSetupRecv(call, s.client, r));
    if Accept(call.targets, s.client.phase.setup, r).Success? {
      assert Heard(s') == Heard(s) + [r];
      SetupAppend(call.targets, Heard(s), r);
      NothingOpened(call, s, s');
    }
  }

  /** Before setup is over nothing was opened or recorded. */
  lemma NothingOpened(call: Call, s: System, s': System)
    requires s.client.base == NO_REPLIES && s'.client.base == NO_REPLIES && !s'.client.phase.Ready?
    requires s'.client.since <= s'.client.consumed <= |s'.server.replies|
    ensures Reported(call, s')
  {}

  lemma SetupDoneAccount(call: Call, s: System)
    requires Account(call, s) && s.client.phase.SettingUp? && Apart(s.client.phase.setup)
    ensures Account(call, s.(client := s.client.(phase := Ready(s.client.phase.setup.ids), errors := s.client.phase.setup.errors,
                                                 base := s.client.phase.setup, since := s.client.consumed)))
  {
    hide SetupAfter;
  }

  lemma ShipErrorsAccount(call: Call, s: System)
    requires Account(call, s) && s.client.phase.Ready? && !s.client.sentErrors
    ensures Account(call, s.(client := s.client.(got := s.client.got + s.client.errors, sentErrors := true)))
  {
    hide SetupAfter, Reads, SomeOf, Under;
    var cl := s.client;
    assert cl.got + cl.errors == cl.errors;
    if !call.unary {
      forall id <- cl.base.ids
        ensures Under(cl.errors, cl.base.ids[id].index) == Under(cl.got, cl.base.ids[id].index)
      {
        UnderAbsent(cl.errors, cl.base.ids[id].index);
        UnderAbsent(cl.got, cl.base.ids[id].index);
      }
      forall e <- cl.base.errors
        ensures Under(cl.errors, e.index) == [e]
      {
        var k :| 0 <= k < |cl.errors| && cl.errors[k] == e;
        UnderUnique(cl.errors, k);
      }
    }
  }

  lemma ReadMore(dryRun: bool, ret: Ret, tr: seq<Reply>, rs: seq<Ret>, r: Reply, x: Ret)
    requires ReadAs(dryRun, ret, tr, rs) && Reads(dryRun, ret, r, x)
    ensures ReadAs(dryRun, ret, tr + [r], rs + [x])
  {
    hide Reads;
  }

  /** One more reply, about one open stream. */
  lemma ReplyReported(dryRun: bool, base: Setup, log: seq<Reply>, got: seq<Ret>, sent: bool, id: Id, r: Reply, x: Ret)
    requires StreamsReported(dryRun, base, log, got) && FailuresReported(base, sent, got) && Apart(base)
    requires Single(r) && r.ids[0] == id && id in base.ids && Reads(dryRun, base.ids[id], r, x)
    ensures StreamsReported(dryRun, base, log + [r], got + [x]) && FailuresReported(base, sent, got + [x])
  {
    hide Reads, Under, Project, ReadAs;
    ReadsLabels(dryRun, base.ids[id], r, x);
    forall i: nat
      ensures Under(got + [x], i) == Under(got, i) + if x.index == i then [x] else []
    {
      UnderSplit(got, [x], i);
      UnderShort([x], i);
    }
    forall y <- base.ids
      ensures ReadAs(dryRun, base.ids[y], Project(log + [r], y), Under(got + [x], base.ids[y].index))
    {
      ProjectAppend(log, r, y);
      assert r.ids == [id];
      var tr, rs := Project(log, y), Under(got, base.ids[y].index);
      assert tr + [] == tr && rs + [] == rs;
      if y == id {
        ReadMore(dryRun, base.ids[y], tr, rs, r, x);
      }
    }
    assert forall e <- base.errors :: Under(got, e.index) + [] == Under(got, e.index);
  }

  lemma ReadsLabels(dryRun: bool, ret: Ret, r: Reply, x: Ret)
    requires Reads(dryRun, ret, r, x)
    ensures x.index == ret.index
  {}

  /** What a streaming client makes of a reply about an open stream. */
  lemma AnswerReads(call: Call, ids: map<Id, Ret>, ret: Ret, r: Reply)
    requires !call.unary && Single(r) && r.ids[0] in ids && ret.target == ids[r.ids[0]].target && ret.index == ids[r.ids[0]].index
    ensures var t := Answer(call, ids, r); |t.out| == 1 && Reads(call.dryRun, ret, r, t.out[0]) && SomeOf(t.ids, ids)
  {
    hide Answer, TellsClose, CloseError;
    assert r.ids == [r.ids[0]];
    AnswerOne(call, ids, r.ids[0], r);
    if r.CloseReply? {
      CloseTells(call.dryRun, r.status);
    }
  }

  lemma RecvAccount(c: Config, call: Call, s: System, order: seq<Id>)
    requires |call.targets| < NONCE_LIMIT && SysInv(c, call, s) && Account(call, s) && Can(c, call, s, RecvNext(order))
    ensures Account(call, Do(c, call, s, RecvNext(order)))
  {
    hide SysInv, Inv, Answer, SetupAfter, StreamsReported, FailuresReported, Apart, LeftOver, Reads, Matched, Enabled, Apply, AfterSetupRecv;
    SetupHasNone(c, call, s);
    var cl := s.client;
    var r := s.server.replies[cl.consumed];
    var t, s' := Answer(call, cl.phase.ids, r), Do(c, call, s, RecvNext(order));
    if !call.unary {
      NextKind(s.server, cl.consumed);
      if t.end.Fine? {
        FineIsSingle(call, cl.phase.ids, r);
        FineIsOpen(call, cl.phase.ids, r);
        AnswerReads(call, cl.phase.ids, cl.base.ids[r.ids[0]], r);
        assert HeardSince(s') == HeardSince(s) + [r];
        assert t.out == [t.out[0]];
        ReplyReported(call.dryRun, cl.base, HeardSince(s), cl.got, cl.sentErrors, r.ids[0], r, t.out[0]);
      } else {
        RefusedKeeps(call, cl.phase.ids, r);
        assert cl.got + [] == cl.got;
      }
    }
  }

  lemma FineIsOpen(call: Call, ids: map<Id, Ret>, r: Reply)
    requires Single(r) && Answer(call, ids, r).end.Fine?
    ensures r.ids[0] in ids
  {
    hide Answer;
    assert r.ids == [r.ids[0]];
    AnswerOne(call, ids, r.ids[0], r);
  }

  lemma SetupApart(c: Config, call: Call, s: System)
    requires |call.targets| < NONCE_LIMIT && SysInv(c, call, s) && s.client.phase.SettingUp?
    ensures Apart(s.client.phase.setup)
  {
    hide Inv, InTurn, Opened, Named, Collected, Attributed, Complete, WireShape, Tracking, Covers;
  }

  lemma StepAccount(c: Config, call: Call, s: System, a: Action)
    requires |call.targets| < NONCE_LIMIT && SysInv(c, call, s) && Account(call, s) && Can(c, call, s, a)
    ensures Account(call, Do(c, call, s, a))
  {
    hide SysInv, Account, Enabled, Apply, Accept, Answer, LeftOver;
    match a
    case ServerMoves(e) => ServerAccount(c, call, s, e);
    case ServerHandles(newId) => ServerAccount(c, call, s, Handle(s.client.wire[|s.server.handled|], newId));
    case SetupRecv => SetupRecvAccount(call, s);
    case SetupDone =>
      SetupApart(c, call, s);
      SetupDoneAccount(call, s);
    case ShipErrors => ShipErrorsAccount(call, s);
    case RecvNext(order) => RecvAccount(c, call, s, order);
    case EndOfReplies(order) => EndAccount(call, s, Do(c, call, s, a));
    case Breaks(order) => EndAccount(call, s, Do(c, call, s, a));
    case _ => QuietAccount(call, s, Do(c, call, s, a));
  }

  lemma EndAccount(call: Call, s: System, s': System)
    requires Account(call, s) && s'.server == s.server
    requires var a, b := s.client, s'.client;
             && b.consumed == a.consumed && b.base == a.base && b.since == a.since && b.errors == a.errors
             && b.sentErrors == a.sentErrors && b.phase.Gone? && (b.got == a.got || (call.unary && a.sentErrors))
    ensures Account(call, s')
  {
    hide SetupAfter, StreamsReported, FailuresReported, Apart, SomeOf;
  }

  lemma {:induction false} AlwaysAccounted(c: Config, call: Call, run: seq<Action>)
    requires |call.targets| < NONCE_LIMIT && Reached(c, call, run).Some?
    ensures Account(call, Reached(c, call, run).value)
  {
    if run != [] {
      hide Can, Do, Account, SysInv;
      var n := |run| - 1;
      AlwaysAccounted(c, call, run[..n]);
      ReachedInv(c, call, run[..n]);
      StepAccount(c, call, Reached(c, call, run[..n]).value, run[n]);
    }
  }

  // ---- What the caller has ----

  /** In every run of a streaming call, for each stream that setup left open: the results under
      its index are, one by one and in order, what the replies about it since setup stand for. */
  lemma ResultsOfOpen(c: Config, call: Call, run: seq<Action>, id: Id)
    requires |call.targets| < NONCE_LIMIT && Reached(c, call, run).Some? && !call.unary
    requires id in Reached(c, call, run).value.client.base.ids
    ensures var s := Reached(c, call, run).value; var ret := s.client.base.ids[id];
            && s.client.since <= s.client.consumed <= |s.server.replies|
            && Announced(s.server.replies[..s.client.since], id, ret)
            && ReadAs(call.dryRun, ret, Project(HeardSince(s), id), Under(s.client.got, ret.index))
  {
    hide Reached, SetupAfter, ReadAs, Announced, Caused;
    AlwaysAccounted(c, call, run);
    var s := Reached(c, call, run).value;
    SetupExplained(call.targets, s.server.replies[..s.client.since]);
  }

  /** In every run, for each target that failed in setup: its failure carries the status of the
      reply that caused it, and a streaming call hands it out once, as the only result under
      its index. */
  lemma ResultsOfFailed(c: Config, call: Call, run: seq<Action>, e: Ret)
    requires |call.targets| < NONCE_LIMIT && Reached(c, call, run).Some?
    requires e in Reached(c, call, run).value.client.base.errors
    ensures var s := Reached(c, call, run).value;
            && s.client.since <= |s.server.replies| && Caused(s.server.replies[..s.client.since], e)
            && (!call.unary ==> Under(s.client.got, e.index) == if s.client.sentErrors then [e] else [])
  {
    hide Reached, SetupAfter, StreamsReported, Announced, Caused;
    AlwaysAccounted(c, call, run);
    var s := Reached(c, call, run).value;
    SetupExplained(call.targets, s.server.replies[..s.client.since]);
  }

  lemma {:induction false} UnderHas(out: seq<Ret>, x: Ret)
    requires x in out
    ensures x in Under(out, x.index)
  {
    var n := |out| - 1;
    if x in out[..n] {
      UnderHas(out[..n], x);
    }
  }

  lemma {:induction false} ProjectFrom(log: seq<Reply>, id: Id, r: Reply)
    requires r in Project(log, id)
    ensures r in log && Mentions(r, id)
  {
    var n := |log| - 1;
    if r in Project(log[..n], id) {
      ProjectFrom(log[..n], id, r);
    }
  }

  lemma CloseBehind(dryRun: bool, ret: Ret, log: seq<Reply>, id: Id, got: seq<Ret>, x: Ret) returns (r: Reply)
    requires ReadAs(dryRun, ret, Project(log, id), Under(got, ret.index)) && x in got && x.index == ret.index && x.error.Some?
    ensures r in log && r.CloseReply? && id in r.ids && TellsClose(dryRun, r.status, x.error.value)
  {
    hide TellsClose, Project, Under;
    UnderHas(got, x);
    var tr, rs := Project(log, id), Under(got, ret.index);
    var k :| 0 <= k < |rs| && rs[k] == x;
    r := tr[k];
    assert Reads(dryRun, ret, tr[k], rs[k]);
    ProjectFrom(log, id, r);
  }

  /** In every run of a streaming call: a terminal result of a stream ends it with EOF if and only
      if the stream's ServerClose has code 0, and otherwise with the code and, outside a passed
      dry run, the message of that close; and the close is what the stream's own moves at the
      server come to. */
  lemma TerminalResults(c: Config, call: Call, run: seq<Action>, id: Id, x: Ret)
    requires |call.targets| < NONCE_LIMIT && Reached(c, call, run).Some? && !call.unary
    requires var cl := Reached(c, call, run).value.client;
             id in cl.base.ids && x in cl.got && x.index == cl.base.ids[id].index && x.error.Some?
    ensures id in Issued(Reached(c, call, run).value.server.table)
    ensures var s := Reached(c, call, run).value;
            var st := StatusBy(At(s.server.table, id).info, MovesOf(ServerRun(c, call, run), id));
            CloseReply([id], st) in s.server.replies && TellsClose(call.dryRun, st, x.error.value)
  {
    hide Reached, ServerRun, After, ReadAs, TellsClose, StatusBy, MovesOf, Announced;
    ResultsOfOpen(c, call, run, id);
    IsServerRun(c, call, run);
    var s := Reached(c, call, run).value;
    var r := CloseBehind(call.dryRun, s.client.base.ids[id], HeardSince(s), id, s.client.got, x);
    var j :| 0 <= j < |HeardSince(s)| && HeardSince(s)[j] == r;
    assert s.server.replies[s.client.since + j] == r;
    StatusPrecedence(c, ServerRun(c, call, run), id, s.client.since + j);
  }
}
