/**
 What the caller of a unary call has: for any replies that speak of one stream at
 a time the exact results of each stream, and what that means in every run against
 this server.
 */
module UnaryResults {
  import opened Protocol
  import opened ServerMachine
  import opened ServerInvariant
  import opened ClientModel
  import opened Results
  import opened Composed
  import opened ComposedInvariant
  import opened EndToEnd
  import opened Unary
  import opened UnaryAnswers
  import opened Provenance
  import opened StreamResults

  // ---- One stream ----

  /** The results for a stream's own replies: its data, and its failure if it failed. */
  function Answers(target: string, index: nat, tr: seq<Reply>): seq<Ret> {
    if tr == [] then []
    else
      (match tr[0]
       case DataReply(_, p) => [Ret(target, index, Some(p), None)]
       case CloseReply(_, st) => if st.code == 0 then [] else [Ret(target, index, None, Some(Failed(st)))]
       case _ => [])
      + Answers(target, index, tr[1..])
  }

  /** The last data in a stream's replies. */
  function LastData(tr: seq<Reply>): Option<Payload> {
    if tr == [] then None
    else
      var n := |tr| - 1;
      if tr[n].DataReply? then Some(tr[n].payload) else LastData(tr[..n])
  }

  function Or(a: Option<Payload>, b: Option<Payload>): Option<Payload> {
    if a.Some? then a else b
  }

  lemma {:induction false} LastDataFirst(tr: seq<Reply>)
    requires tr != []
    ensures LastData(tr) == Or(LastData(tr[1..]), if tr[0].DataReply? then Some(tr[0].payload) else None)
  {
    var n := |tr| - 1;
    if n > 0 {
      assert tr[1..][n - 1] == tr[n] && tr[1..][..n - 1] == tr[..n][1..];
      if !tr[n].DataReply? {
        LastDataFirst(tr[..n]);
      }
    }
  }

  lemma {:induction false} UnderCount(out: seq<Ret>, i: nat)
    ensures |Under(out, i)| == Count(out, i)
  {
    if out != [] {
      UnderCount(out[..|out| - 1], i);
    }
  }

  /** One turn of the loop, with what it hands out. */
  lemma TurnGives(ids: map<Id, Ret>, r: Reply)
    requires !Offends(ids.Keys, AnsweredIn(ids), r) && forall id <- ids :: ids[id].error == None
    ensures var t, x := InvokeReply(ids, r), r.ids[0];
            && x in ids && t.out == Answers(ids[x].target, ids[x].index, [r])
            && t.ids == (if r.DataReply? then ids[x := ids[x].(resp := Some(r.payload))] else ids - {x})
  {
    hide InvokeReply;
    assert r.ids == [r.ids[0]];
    AnswerOne(Call([], "", false, true), ids, r.ids[0], r);
    assert [r][1..] == [];
  }

  /** What the loop hands out for stream id, and what it keeps for it. */
  ghost predicate Gives(ids: map<Id, Ret>, log: seq<Reply>, id: Id, t: Taken)
    requires id in ids
  {
    var tr := Share(ids, log, id);
    && Under(t.out, ids[id].index) == Answers(ids[id].target, ids[id].index, tr)
    && (id in t.ids ==> t.ids[id] == ids[id].(resp := Or(LastData(tr), ids[id].resp)))
  }

  lemma GivesAtOnce(ids: map<Id, Ret>, log: seq<Reply>, id: Id)
    requires OneByOne(log) && id in ids && (log == [] || Offends(ids.Keys, AnsweredIn(ids), log[0]))
    ensures Gives(ids, log, id, Collect(ids, log))
  {
    hide InvokeReply;
    assert Stop(ids, log) == 0 && log[..0] == [] && Share(ids, log, id) == [];
    if log != [] {
      Turn(ids, log[0]);
    }
  }

  lemma AnswersFirst(target: string, index: nat, r: Reply, rest: seq<Reply>)
    ensures Answers(target, index, [r] + rest) == Answers(target, index, [r]) + Answers(target, index, rest)
  {
    var tr := [r] + rest;
    assert tr[1..] == rest && [r][1..] == [];
  }

  /** The first reply, about another stream or about this one, which stays open. */
  lemma GivesFirst(ids: map<Id, Ret>, log: seq<Reply>, id: Id, t: Taken, rest: Taken)
    requires log != [] && !Offends(ids.Keys, AnsweredIn(ids), log[0]) && id in ids && DistinctIndices(ids)
    requires forall x <- ids :: ids[x].error == None
    requires var ids' := InvokeReply(ids, log[0]).ids; id in ids' && Gives(ids', log[1..], id, rest)
    requires t.out == InvokeReply(ids, log[0]).out + rest.out && t.ids == rest.ids
    ensures Gives(ids, log, id, t)
  {
    hide InvokeReply, Share, Answers, Under, LastData;
    var r := log[0];
    TurnGives(ids, r);
    StopStep(ids, log, id);
    var x, first, i := r.ids[0], InvokeReply(ids, r).out, ids[id].index;
    UnderSplit(first, rest.out, i);
    AnswersShort(ids[x].target, ids[x].index, r);
    UnderShort(first, i);
    var tr' := Share(InvokeReply(ids, r).ids, log[1..], id);
    assert [] + tr' == tr' && [] + Under(rest.out, i) == Under(rest.out, i);
    if x == id {
      AnswersFirst(ids[id].target, i, r, tr');
      LastDataFirst([r] + tr');
      assert ([r] + tr')[1..] == tr';
    }
  }

  lemma AnswersShort(target: string, index: nat, r: Reply)
    ensures var out := Answers(target, index, [r]); |out| <= 1 && (out != [] ==> out[0].index == index)
  {
    assert [r][1..] == [];
  }

  /** The first reply closes this stream. */
  lemma GivesClosed(ids: map<Id, Ret>, log: seq<Reply>, id: Id, t: Taken, rest: Taken)
    requires OneByOne(log) && log != [] && !Offends(ids.Keys, AnsweredIn(ids), log[0]) && id in ids && DistinctIndices(ids)
    requires log[0].CloseReply? && log[0].ids[0] == id && forall x <- ids :: ids[x].error == None
    requires rest == Collect(InvokeReply(ids, log[0]).ids, log[1..])
    requires t.out == InvokeReply(ids, log[0]).out + rest.out && t.ids == rest.ids
    ensures Gives(ids, log, id, t)
  {
    hide InvokeReply, Share, Answers, Under, LastData, Count, Collect;
    var r, i := log[0], ids[id].index;
    var first := InvokeReply(ids, r);
    TurnGives(ids, r);
    StopStep(ids, log, id);
    NoShare(first.ids, log[1..], id);
    NoStream(first.ids, log[1..], i);
    UnderCount(rest.out, i);
    UnderSplit(first.out, rest.out, i);
    AnswersShort(ids[id].target, i, r);
    UnderShort(first.out, i);
    assert [r] + [] == [r] && first.out + [] == first.out && Under(rest.out, i) == [];
  }

  /** For any replies, one stream at a time. */
  lemma {:induction false} CollectGives(ids: map<Id, Ret>, log: seq<Reply>, id: Id)
    requires OneByOne(log) && id in ids && DistinctIndices(ids) && forall x <- ids :: ids[x].error == None
    ensures Gives(ids, log, id, Collect(ids, log))
    decreases |log|
  {
    hide Gives;
    if log == [] || Offends(ids.Keys, AnsweredIn(ids), log[0]) {
      GivesAtOnce(ids, log, id);
    } else {
      hide InvokeReply, Collect, Answers;
      var first := InvokeReply(ids, log[0]);
      TurnGives(ids, log[0]);
      CollectTurn(ids, log);
      NextStanding(ids, log[0]);
      if id in first.ids {
        CollectGives(first.ids, log[1..], id);
        GivesFirst(ids, log, id, Collect(ids, log), Collect(first.ids, log[1..]));
      } else {
        GivesClosed(ids, log, id, Collect(ids, log), Collect(first.ids, log[1..]));
      }
    }
  }

  /** A stream that is left over gets its last response and the error. */
  lemma UnderLeftOver(ids: map<Id, Ret>, order: seq<Id>, err: Option<RetError>, i: nat)
    requires Lists(order, ids.Keys) && DistinctIndices(ids)
    ensures (forall id <- ids :: ids[id].index != i) ==> Under(LeftOver(ids, order, err), i) == []
    ensures forall id <- ids :: ids[id].index == i ==>
              Under(LeftOver(ids, order, err), i) == [Ret(ids[id].target, i, ids[id].resp, err)]
  {
    var out := LeftOver(ids, order, err);
    assert forall k :: 0 <= k < |order| ==> order[k] in order && out[k].index == ids[order[k]].index;
    if forall id <- ids :: ids[id].index != i {
      UnderAbsent(out, i);
    }
    forall id <- ids | ids[id].index == i
      ensures Under(out, i) == [Ret(ids[id].target, i, ids[id].resp, err)]
    {
      var k :| 0 <= k < |order| && order[k] == id;
      UnderUnique(out, k);
    }
  }

  /** The results of a stream: those of its own replies, and if it is left over one more, with
      its last response and the error that ended the loop. */
  ghost predicate HasResults(got: seq<Ret>, ids: map<Id, Ret>, log: seq<Reply>, id: Id, err: Option<RetError>)
    requires id in ids
  {
    var target, i, tr := ids[id].target, ids[id].index, Share(ids, log, id);
    Under(got, i) ==
    Answers(target, i, tr) + if EndsClosed(tr) || StoppedBy(ids, log, id) then [] else [Ret(target, i, LastData(tr), err)]
  }

  /** For any replies that speak of one stream at a time and wherever the connection ends: the
      exact results under the index of each stream. */
  lemma ResultsExactly(errors: seq<Ret>, ids: map<Id, Ret>, log: seq<Reply>, order: seq<Id>, err: Option<RetError>, id: Id)
    requires OneByOne(log) && id in ids && DistinctIndices(ids) && Lists(order, Collect(ids, log).ids.Keys)
    requires (forall e <- errors :: e.index != ids[id].index) && forall x <- ids :: ids[x].resp == None && ids[x].error == None
    ensures HasResults(Emission(errors, Collect(ids, log), order, err), ids, log, id, err)
  {
    hide Collect, LeftOver, Under, Share, StoppedBy, Answers, LastData, Count;
    var t, i := Collect(ids, log), ids[id].index;
    CollectTells(ids, log, id);
    CollectGives(ids, log, id);
    CollectKeeps(ids, log);
    UnderSplit(errors + t.out, LeftOver(t.ids, order, err), i);
    UnderSplit(errors, t.out, i);
    UnderAbsent(errors, i);
    UnderLeftOver(t.ids, order, err, i);
    assert [] + Under(t.out, i) == Under(t.out, i);
    if id !in t.ids {
      assert forall x <- t.ids :: t.ids[x].index != i;
    }
  }

  // ---- Why the loop ends ----

  /** What is wrong with the reply that stops the loop. */
  function Reason(ids: map<Id, Ret>, log: seq<Reply>): string
    requires Stop(ids, log) < |log|
  {
    var r := log[Stop(ids, log)];
    if r.DataReply? then "unexpected stream id received for StreamData"
    else if !Single(r) then "unexpected answer on stream"
    else if r.ids[0] in ids && !EndsClosed(Share(ids, log, r.ids[0])) then "Got a non OK error code for a target we've already responded"
    else "unexpected stream id received for ServerClose"
  }

  /** The error for the streams left over: an internal error with the reason why the loop
      stopped, or because the connection was lost. */
  function LoopError(ids: map<Id, Ret>, log: seq<Reply>): RetError {
    Failed(Status(13, if Stop(ids, log) < |log| then Reason(ids, log) else "can't get response data"))
  }

  lemma OffendsBecause(ids: map<Id, Ret>, log: seq<Reply>)
    requires OneByOne(log) && log != [] && Offends(ids.Keys, AnsweredIn(ids), log[0])
    ensures Stop(ids, log) == 0 && InvokeReply(ids, log[0]).end == Unexpected(Reason(ids, log))
  {
    var r := log[0];
    assert Stop(ids, log) == 0 && log[..0] == [];
    if Single(r) {
      assert r.ids == [r.ids[0]] && r.ids[0] in r.ids;
      assert Share(ids, log, r.ids[0]) == [];
    }
  }

  lemma ReasonStep(ids: map<Id, Ret>, log: seq<Reply>)
    requires OneByOne(log) && log != [] && !Offends(ids.Keys, AnsweredIn(ids), log[0]) && Stop(ids, log) < |log|
    ensures var ids' := InvokeReply(ids, log[0]).ids; Stop(ids', log[1..]) < |log[1..]| && Reason(ids, log) == Reason(ids', log[1..])
  {
    hide InvokeReply, Share, Stop, Cut, Offends;
    var ids', rest := InvokeReply(ids, log[0]).ids, log[1..];
    StopStep(ids, log, 0);
    var r := log[Stop(ids, log)];
    assert r == rest[Stop(ids', rest)];
    if Single(r) {
      Turn(ids, log[0]);
      StopStep(ids, log, r.ids[0]);
      StillOpen(ids, log, r.ids[0]);
    }
  }

  lemma StillOpen(ids: map<Id, Ret>, log: seq<Reply>, id: Id)
    requires OneByOne(log) && log != [] && !Offends(ids.Keys, AnsweredIn(ids), log[0])
    ensures var ids' := InvokeReply(ids, log[0]).ids;
            (id in ids && !EndsClosed(Share(ids, log, id))) <==> (id in ids' && !EndsClosed(Share(ids', log[1..], id)))
  {
    hide InvokeReply, Share, Stop;
    Turn(ids, log[0]);
    StopStep(ids, log, id);
    var ids' := InvokeReply(ids, log[0]).ids;
    var tr' := Share(ids', log[1..], id);
    assert [] + tr' == tr';
    if log[0].ids[0] == id {
      if log[0].CloseReply? {
        NoShare(ids', log[1..], id);
      }
      assert tr' != [] ==> ([log[0]] + tr')[|tr'|] == tr'[|tr'| - 1];
    }
  }

  /** While a stream is open, the loop has ended with an error exactly if a reply stopped it,
      and then with the reason that this reply gives. */
  lemma {:induction false} WhyEnded(ids: map<Id, Ret>, log: seq<Reply>)
    requires OneByOne(log) && Collect(ids, log).ids != map[]
    ensures Collect(ids, log).end == if Stop(ids, log) < |log| then Unexpected(Reason(ids, log)) else Fine
    decreases |log|
  {
    hide InvokeReply, Reason, Stop;
    if log != [] {
      if Offends(ids.Keys, AnsweredIn(ids), log[0]) {
        OffendsBecause(ids, log);
      } else {
        Turn(ids, log[0]);
        CollectTurn(ids, log);
        StopStep(ids, log, 0);
        WhyEnded(InvokeReply(ids, log[0]).ids, log[1..]);
        if Stop(ids, log) < |log| {
          ReasonStep(ids, log);
        }
      }
    }
  }

  // ---- Calls against this server ----

  /** What setup left, index by index. */
  ghost predicate LeftInOrder(base: Setup) {
    && DistinctIndices(base.ids) && (forall id <- base.ids :: base.ids[id].resp == None && base.ids[id].error == None)
    && (forall id, e :: id in base.ids && e in base.errors ==> base.ids[id].index != e.index)
    && (forall j, k :: 0 <= j < k < |base.errors| ==> base.errors[j].index != base.errors[k].index)
  }

  lemma OnlyOne(base: Setup, i: nat)
    requires Partitioned(base, i)
    ensures forall a, b :: a in base.ids && b in base.ids && base.ids[a].index == base.ids[b].index ==> a == b
    ensures forall j, k :: 0 <= j < k < |base.errors| ==> base.errors[j].index != base.errors[k].index
    ensures forall id, e :: id in base.ids && e in base.errors && base.ids[id].index == i ==> e.index != i
  {}

  lemma LeftSo(call: Call, s: System)
    requires SetupTold(call, s) && SetupLeft(call, s.client.base)
    ensures LeftInOrder(s.client.base)
  {
    hide SetupAfter, Partitioned;
    var base := s.client.base;
    SetupConserves(call.targets, s.server.replies[..s.client.since]);
    forall id <- base.ids
      ensures forall e <- base.errors :: e.index != base.ids[id].index
    {
      OnlyOne(base, base.ids[id].index);
    }
    if id :| id in base.ids {
      OnlyOne(base, base.ids[id].index);
    }
    if base.errors != [] {
      assert base.errors[0] in base.errors;
      OnlyOne(base, base.errors[0].index);
    }
  }

  lemma LoopLogPlain(s: System, n: nat)
    requires Plain(s.server.replies) && s.client.since <= n <= |s.server.replies|
    ensures OneByOne(LoopLog(s, n))
  {
    forall k | 0 <= k < |LoopLog(s, n)|
      ensures Single(LoopLog(s, n)[k]) || LoopLog(s, n)[k].StartReply?
    {
      assert LoopLog(s, n)[k] == s.server.replies[s.client.since + k] && LoopLog(s, n)[k] in s.server.replies;
    }
  }

  lemma EndsWithLoopError(ids: map<Id, Ret>, log: seq<Reply>, err: Option<RetError>)
    requires OneByOne(log) && EndsWith(Collect(ids, log), err)
    ensures Collect(ids, log).ids == map[] || err == Some(LoopError(ids, log))
  {
    hide Collect, Reason, Stop;
    if Collect(ids, log).ids != map[] {
      WhyEnded(ids, log);
    }
  }

  /** The error does not matter where nothing is left over. */
  lemma WhateverError(got: seq<Ret>, ids: map<Id, Ret>, log: seq<Reply>, id: Id, err: Option<RetError>, err': Option<RetError>)
    requires OneByOne(log) && id in ids && DistinctIndices(ids) && HasResults(got, ids, log, id, err)
    requires Collect(ids, log).ids == map[] || err == err'
    ensures HasResults(got, ids, log, id, err')
  {
    hide Collect, Share, StoppedBy, Answers, LastData, Under, Count;
    CollectTells(ids, log, id);
  }

  /** In every run of a unary call against this server, once its loop has stopped: under the index
      of each stream that setup left open the caller has the results of its own replies, and if
      it was still open one more, with its last response and exactly the error that ended the
      loop; under the index of each failed target, its failure. */
  lemma ResultsOfUnary(c: Config, call: Call, run: seq<Action>, id: Id)
    requires |call.targets| < NONCE_LIMIT && Reached(c, call, run).Some? && call.unary
    requires StoppedAt(Reached(c, call, run).value).Some?
    ensures var s := Reached(c, call, run).value; var n, base := StoppedAt(s).value, s.client.base;
            && s.client.since <= n <= |s.server.replies|
            && SetupAfter(call.targets, s.server.replies[..s.client.since]) == Success(base)
            && (id in base.ids ==>
                  HasResults(s.client.got, base.ids, LoopLog(s, n), id, Some(LoopError(base.ids, LoopLog(s, n)))))
            && (forall e <- base.errors :: Under(s.client.got, e.index) == [e])
  {
    hide Reached, Ledger, SysInv, Collect, Emission, HasResults, Under, LoopError, SetupAfter, SetupLeft;
    var s := Reached(c, call, run).value;
    LedgerHolds(c, call, run);
    StoppedEmitted(call, s);
    AlwaysAccounted(c, call, run);
    LeftSo(call, s);
    ReachedInv(c, call, run);
    SetupSilent(c, call, s);
    var n, base := StoppedAt(s).value, s.client.base;
    var log := LoopLog(s, n);
    LoopLogPlain(s, n);
    var t := Collect(base.ids, log);
    var order, err :| Lists(order, t.ids.Keys) && EndsWith(t, err) && s.client.got == Emission(base.errors, t, order, err);
    EndsWithLoopError(base.ids, log, err);
    if id in base.ids {
      ResultsExactly(base.errors, base.ids, log, order, err, id);
      WhateverError(s.client.got, base.ids, log, id, err, Some(LoopError(base.ids, log)));
    }
    forall e <- base.errors
      ensures Under(s.client.got, e.index) == [e]
    {
      FailedOnly(base, log, order, err, e);
    }
  }

  lemma FailedOnly(base: Setup, log: seq<Reply>, order: seq<Id>, err: Option<RetError>, e: Ret)
    requires OneByOne(log) && LeftInOrder(base) && e in base.errors && Lists(order, Collect(base.ids, log).ids.Keys)
    ensures Under(Emission(base.errors, Collect(base.ids, log), order, err), e.index) == [e]
  {
    hide Collect, LeftOver, Under, Count;
    var t := Collect(base.ids, log);
    CollectKeeps(base.ids, log);
    NoStream(base.ids, log, e.index);
    UnderCount(t.out, e.index);
    var k :| 0 <= k < |base.errors| && base.errors[k] == e;
    UnderUnique(base.errors, k);
    UnderLeftOver(t.ids, order, err, e.index);
    UnderSplit(base.errors + t.out, LeftOver(t.ids, order, err), e.index);
    UnderSplit(base.errors, t.out, e.index);
  }

  // ---- No result is empty ----

  ghost predicate Speaks(got: seq<Ret>) {
    forall r <- got :: r.resp.Some? || r.error.Some?
  }

  lemma TurnSpeaks(ids: map<Id, Ret>, r: Reply)
    ensures Speaks(InvokeReply(ids, r).out)
  {
    hide InvokeReply, OpenPrefix;
    TurnReads(ids, r);
  }

  lemma {:induction false} CollectSpeaks(ids: map<Id, Ret>, replies: seq<Reply>)
    ensures Speaks(Collect(ids, replies).out)
    decreases |replies|
  {
    if replies != [] {
      hide InvokeReply;
      TurnSpeaks(ids, replies[0]);
      CollectSpeaks(InvokeReply(ids, replies[0]).ids, replies[1..]);
    }
  }

  /** For any replies whatever: if the failures of setup have an error, every result on the channel
      has a response or an error if and only if the loop ended with an error or every stream
      left over has a response. */
  lemma EmptyExactly(errors: seq<Ret>, ids: map<Id, Ret>, replies: seq<Reply>, order: seq<Id>, err: Option<RetError>)
    requires Speaks(errors) && Lists(order, Collect(ids, replies).ids.Keys)
    ensures Speaks(Emission(errors, Collect(ids, replies), order, err)) <==>
            err.Some? || forall id <- Collect(ids, replies).ids :: Collect(ids, replies).ids[id].resp.Some?
  {
    hide Collect;
    CollectSpeaks(ids, replies);
    var t := Collect(ids, replies);
    var left, all := LeftOver(t.ids, order, err), Emission(errors, t, order, err);
    assert forall k :: 0 <= k < |order| ==> order[k] in order && left[k] in all;
  }

  lemma AnswerSpeaks(call: Call, ids: map<Id, Ret>, r: Reply)
    requires Single(r) || r.StartReply?
    ensures Speaks(Answer(call, ids, r).out)
  {
    hide Answer, CloseError;
    if Single(r) {
      assert r.ids == [r.ids[0]];
      AnswerOne(call, ids, r.ids[0], r);
    } else {
      StartUnexpected(call, ids, r);
    }
  }

  lemma LeftOverSpeaks(ids: map<Id, Ret>, order: seq<Id>, err: Option<RetError>)
    requires Lists(order, ids.Keys) && (err.Some? || ids == map[])
    ensures Speaks(LeftOver(ids, order, err))
  {
    if ids == map[] {
      NothingListed(order);
    }
  }

  lemma RecvSpeaks(c: Config, call: Call, s: System, order: seq<Id>)
    requires |call.targets| < NONCE_LIMIT && SysInv(c, call, s) && Speaks(s.client.got) && Can(c, call, s, RecvNext(order))
    ensures Speaks(Do(c, call, s, RecvNext(order)).client.got)
  {
    hide SysInv, Answer, LeftOver, Inv, Matched;
    SetupHasNone(c, call, s);
    NextKind(s.server, s.client.consumed);
    var r := s.server.replies[s.client.consumed];
    var t := Answer(call, s.client.phase.ids, r);
    AnswerSpeaks(call, s.client.phase.ids, r);
    if !t.end.Fine? && call.unary {
      LeftOverSpeaks(t.ids, order, Some(ChanErr(t.end)));
    }
  }

  lemma StepSpeaks(c: Config, call: Call, s: System, a: Action)
    requires |call.targets| < NONCE_LIMIT && SysInv(c, call, s) && SetupTold(call, s) && Speaks(s.client.got) && Can(c, call, s, a)
    ensures Speaks(Do(c, call, s, a).client.got)
  {
    hide SysInv, Enabled, Apply, Accept, Answer, LeftOver, SetupAfter;
    match a
    case ShipErrors => SetupConserves(call.targets, s.server.replies[..s.client.since]);
    case RecvNext(order) => RecvSpeaks(c, call, s, order);
    case EndOfReplies(order) =>
      if call.unary {
        EofNothingOpen(c, call, s);
        LeftOverSpeaks(s.client.phase.ids, order, None);
      }
    case Breaks(order) =>
      if Looping(call, s.client) {
        LeftOverSpeaks(s.client.phase.ids, order, Some(CONNECTION_LOST));
      }
    case _ =>
  }

  /** In every run, streaming or unary, every result has a response or an error. */
  lemma {:induction false} NoEmptyResult(c: Config, call: Call, run: seq<Action>)
    requires |call.targets| < NONCE_LIMIT && Reached(c, call, run).Some?
    ensures forall r <- Reached(c, call, run).value.client.got :: r.resp.Some? || r.error.Some?
  {
    if run != [] {
      hide Can, Do, SysInv, SetupTold;
      var n := |run| - 1;
      NoEmptyResult(c, call, run[..n]);
      ReachedInv(c, call, run[..n]);
      AlwaysAccounted(c, call, run[..n]);
      StepSpeaks(c, call, Reached(c, call, run[..n]).value, run[n]);
    }
  }
}
