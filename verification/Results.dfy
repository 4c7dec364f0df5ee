/**
 What the results of the client library say, for any peer: where the recorded
 failures of setup come from, and what RecvMsg makes of a reply.
 */
module Results {
  import opened Protocol
  import opened ClientModel

  // ---- Results by index ----

  /** The results that carry index i, in order. */
  function Under(out: seq<Ret>, i: nat): seq<Ret> {
    if out == [] then []
    else
      var n := |out| - 1;
      Under(out[..n], i) + if out[n].index == i then [out[n]] else []
  }

  lemma {:induction false} UnderSplit(a: seq<Ret>, b: seq<Ret>, i: nat)
    ensures Under(a + b, i) == Under(a, i) + Under(b, i)
  {
    if b == [] {
      assert a + b == a;
    } else {
      var n := |b| - 1;
      assert (a + b)[..|a + b| - 1] == a + b[..n];
      UnderSplit(a, b[..n], i);
    }
  }

  lemma UnderShort(out: seq<Ret>, i: nat)
    requires |out| <= 1
    ensures Under(out, i) == if out != [] && out[0].index == i then out else []
  {}

  lemma {:induction false} UnderAbsent(out: seq<Ret>, i: nat)
    requires forall r <- out :: r.index != i
    ensures Under(out, i) == []
  {
    if out != [] {
      UnderAbsent(out[..|out| - 1], i);
      assert out[|out| - 1] in out;
    }
  }

  lemma {:induction false} UnderUnique(out: seq<Ret>, k: nat)
    requires k < |out| && forall j, l :: 0 <= j < l < |out| ==> out[j].index != out[l].index
    ensures Under(out, out[k].index) == [out[k]]
  {
    var n := |out| - 1;
    if k == n {
      assert forall r <- out[..n] :: r.index != out[k].index;
      UnderAbsent(out[..n], out[k].index);
    } else {
      UnderUnique(out[..n], k);
    }
  }

  // ---- What a close means to the caller ----

  /** The status with which the proxy ends a dry run that passed, in a call that asked for one. */
  ghost predicate PassedDryRun(dryRun: bool, st: Status) {
    dryRun && st.code == 10 && exists i :: 0 <= i <= |st.message| && "authz dry run passed" <= st.message[i..]
  }

  /** The error of a terminal result: EOF for code 0, and otherwise the same code with the
      same message, which is reworded only for a dry run that passed. */
  ghost predicate TellsClose(dryRun: bool, st: Status, e: RetError) {
    && (e == EndOfStream <==> st.code == 0)
    && (st.code != 0 ==>
          e.Failed? && e.status.code == st.code
          && e.status.message == if PassedDryRun(dryRun, st) then "Aborted by proxy" else st.message)
  }

  lemma {:induction false} ContainsExactly(s: string, sub: string)
    ensures Contains(s, sub) <==> exists i :: 0 <= i <= |s| && sub <= s[i..]
  {
    assert s[0..] == s;
    if s != [] {
      ContainsExactly(s[1..], sub);
      assert forall i :: 0 <= i <= |s[1..]| ==> s[1..][i..] == s[i + 1..];
      if i :| 0 < i <= |s| && sub <= s[i..] {
        assert s[1..][i - 1..] == s[i..];
      }
      if i :| 0 <= i <= |s[1..]| && sub <= s[1..][i..] {
        assert sub <= s[i + 1..];
      }
    }
  }

  lemma CloseTells(dryRun: bool, st: Status)
    ensures TellsClose(dryRun, st, CloseError(dryRun, st))
  {
    hide Contains;
    ContainsExactly(st.message, "authz dry run passed");
  }

  /** What a result for a stream with these labels must be, given the reply. */
  ghost predicate Reads(dryRun: bool, ret: Ret, r: Reply, x: Ret) {
    && x.target == ret.target && x.index == ret.index
    && match r
       case DataReply(_, p) => x.resp == Some(p) && x.error == None
       case CloseReply(_, st) => x.resp == None && x.error.Some? && TellsClose(dryRun, st, x.error.value)
       case _ => false
  }

  lemma {:induction false} DataReads(dryRun: bool, ids: map<Id, Ret>, list: seq<Id>, p: Payload)
    ensures var out := RecvData(ids, list, p).out;
            forall k :: 0 <= k < |out| ==> list[k] in ids && Reads(dryRun, ids[list[k]], DataReply(list, p), out[k])
    decreases |list|
  {
    if list != [] && list[0] in ids {
      var ids' := ids[list[0] := ids[list[0]].(resp := Some(p), error := None)];
      DataReads(dryRun, ids', list[1..], p);
      var out, rest := RecvData(ids, list, p).out, RecvData(ids', list[1..], p).out;
      assert forall k :: 0 < k < |out| ==> out[k] == rest[k - 1] && list[k] == list[1..][k - 1];
    }
  }

  lemma {:induction false} ClosedReads(dryRun: bool, ids: map<Id, Ret>, list: seq<Id>, st: Status, e: RetError)
    requires TellsClose(dryRun, st, e)
    ensures var out := RecvClosed(ids, list, e).out;
            forall k :: 0 <= k < |out| ==> list[k] in ids && Reads(dryRun, ids[list[k]], CloseReply(list, st), out[k])
    decreases |list|
  {
    hide TellsClose;
    if list != [] && list[0] in ids {
      var ids' := ids - {list[0]};
      ClosedReads(dryRun, ids', list[1..], st, e);
      var out, rest := RecvClosed(ids, list, e).out, RecvClosed(ids', list[1..], e).out;
      assert forall k :: 0 < k < |out| ==> out[k] == rest[k - 1] && list[k] == list[1..][k - 1];
    }
  }

  /** Against any peer: RecvMsg hands out one result per stream that the reply reaches, in
      order, with that stream's labels: the data, or the end that the close stands for. */
  lemma ReplyReads(dryRun: bool, ids: map<Id, Ret>, r: Reply)
    ensures var out, reached := RecvReply(dryRun, ids, r).out, Touched(ids.Keys, r);
            |out| == |reached| && forall k :: 0 <= k < |out| ==> reached[k] in ids && Reads(dryRun, ids[reached[k]], r, out[k])
  {
    hide TellsClose, CloseError;
    match r
    case DataReply(list, p) =>
      DataReads(dryRun, ids, list, p);
      DataTouches(ids, list, p);
    case CloseReply(list, st) =>
      CloseTells(dryRun, st);
      if forall id <- list :: id in ids {
        ClosedReads(dryRun, ids, list, st, CloseError(dryRun, st));
        ClosedTouches(ids, {}, list, CloseError(dryRun, st));
      }
    case _ =>
  }

  lemma {:induction false} OpenPrefixAll(open: set<Id>, list: seq<Id>)
    ensures OpenPrefix(open, list) <= list && forall id <- OpenPrefix(open, list) :: id in open
    ensures |OpenPrefix(open, list)| == |list| <==> forall id <- list :: id in open
    decreases |list|
  {
    if list != [] && list[0] in open {
      OpenPrefixAll(open, list[1..]);
      assert list == [list[0]] + list[1..];
    }
  }

  lemma {:induction false} DataEnds(ids: map<Id, Ret>, list: seq<Id>, p: Payload)
    ensures RecvData(ids, list, p).end.Fine? <==> forall id <- list :: id in ids
    decreases |list|
  {
    if list != [] && list[0] in ids {
      DataEnds(ids[list[0] := ids[list[0]].(resp := Some(p), error := None)], list[1..], p);
      assert list == [list[0]] + list[1..];
    }
  }

  lemma {:induction false} ClosedEnds(ids: map<Id, Ret>, list: seq<Id>, e: RetError)
    ensures RecvClosed(ids, list, e).end.Fine? || RecvClosed(ids, list, e).end.Crashed?
    decreases |list|
  {
    if list != [] && list[0] in ids {
      ClosedEnds(ids - {list[0]}, list[1..], e);
    }
  }

  /** Against any peer: RecvMsg takes a reply without an error if and only if it is data for open
      streams, or a close of open streams that names none of them twice. */
  lemma FineExactly(dryRun: bool, ids: map<Id, Ret>, r: Reply)
    ensures RecvReply(dryRun, ids, r).end.Fine? <==>
            (r.DataReply? || (r.CloseReply? && !Repeats(r.ids))) && forall id <- r.ids :: id in ids
  {
    hide RecvData, RecvClosed, Repeats, CloseError;
    match r
    case DataReply(list, p) => DataEnds(ids, list, p);
    case CloseReply(list, st) =>
      ClosedEnds(ids, list, CloseError(dryRun, st));
      ClosedCrashes(ids, list, CloseError(dryRun, st));
    case _ =>
  }

  // ---- What one turn of the unary loop does ----

  /** The results of the reached streams, each with the update. */
  ghost predicate EachUpdated(ids: map<Id, Ret>, reached: seq<Id>, update: Ret -> Ret, out: seq<Ret>) {
    |out| == |reached| && forall k :: 0 <= k < |reached| ==> reached[k] in ids && out[k] == update(ids[reached[k]])
  }

  lemma EachUpdatedMore(ids: map<Id, Ret>, ids': map<Id, Ret>, x: Id, rest: seq<Id>, update: Ret -> Ret, out: seq<Ret>)
    requires EachUpdated(ids', rest, update, out) && x in ids && forall id <- rest :: id in ids && update(ids'[id]) == update(ids[id])
    ensures EachUpdated(ids, [x] + rest, update, [update(ids[x])] + out)
  {
    var reached, all := [x] + rest, [update(ids[x])] + out;
    forall k | 0 <= k < |reached|
      ensures reached[k] in ids && all[k] == update(ids[reached[k]])
    {
      if k > 0 {
        assert rest[k - 1] in rest;
      }
    }
  }

  function Responds(p: Payload): Ret -> Ret {
    (r: Ret) => r.(resp := Some(p))
  }

  function Fails(st: Status): Ret -> Ret {
    (r: Ret) => r.(error := Some(Failed(st)))
  }

  /** Each listed stream gets the response, up to the first that is not open. */
  ghost predicate Answered(ids: map<Id, Ret>, list: seq<Id>, p: Payload, t: Taken) {
    var reached := OpenPrefix(ids.Keys, list);
    && EachUpdated(ids, reached, Responds(p), t.out) && (t.end.Fine? <==> |reached| == |list|)
    && t.ids.Keys == ids.Keys && (forall id <- ids :: t.ids[id] == if id in reached then ids[id].(resp := Some(p)) else ids[id])
  }

  function SilentIn(ids: map<Id, Ret>): set<Id> {
    set id | id in ids && ids[id].resp.None?
  }

  /** Each listed stream gets the failure, up to the first that has answered, which is dropped. */
  ghost predicate FailedUpTo(ids: map<Id, Ret>, list: seq<Id>, st: Status, t: Taken) {
    var silent := OpenPrefix(SilentIn(ids), list);
    && |silent| <= |list| && EachUpdated(ids, silent, Fails(st), t.out) && (t.end.Fine? <==> |silent| == |list|)
    && t.ids.Keys == (if |silent| == |list| then ids.Keys else ids.Keys - {list[|silent|]})
  }

  lemma {:induction false} DataAnswers(ids: map<Id, Ret>, list: seq<Id>, p: Payload)
    ensures Answered(ids, list, p, InvokeData(ids, list, p))
    decreases |list|
  {
    if list != [] && list[0] in ids {
      hide EachUpdated;
      var ids' := ids[list[0] := ids[list[0]].(resp := Some(p))];
      DataAnswers(ids', list[1..], p);
      assert ids'.Keys == ids.Keys;
      var rest := OpenPrefix(ids.Keys, list[1..]);
      OpenPrefixAll(ids.Keys, list[1..]);
      assert forall id <- [list[0]] + rest :: id == list[0] || id in rest;
      EachUpdatedMore(ids, ids', list[0], rest, Responds(p), InvokeData(ids', list[1..], p).out);
    }
  }

  lemma {:induction false} FailureStops(ids: map<Id, Ret>, list: seq<Id>, st: Status)
    requires forall id <- list :: id in ids
    ensures FailedUpTo(ids, list, st, InvokeFailed(ids, list, st))
    decreases |list|
  {
    if list != [] && list[0] in SilentIn(ids) {
      hide EachUpdated;
      var ids' := ids[list[0] := ids[list[0]].(error := Some(Failed(st)))];
      FailureStops(ids', list[1..], st);
      assert SilentIn(ids') == SilentIn(ids) && ids'.Keys == ids.Keys;
      var rest := OpenPrefix(SilentIn(ids), list[1..]);
      OpenPrefixAll(SilentIn(ids), list[1..]);
      EachUpdatedMore(ids, ids', list[0], rest, Fails(st), InvokeFailed(ids', list[1..], st).out);
      assert |rest| < |list[1..]| ==> list[1 + |rest|] == list[1..][|rest|];
    }
  }

  /** Against any peer, for replies about any number of streams: data answers the listed streams
      up to the first unknown one; a close with an unknown stream changes nothing; a clean
      close drops the listed streams; a failing one fails them up to the first that has
      answered, and drops all of them if none has. */
  lemma TurnReads(ids: map<Id, Ret>, r: Reply)
    ensures var t := InvokeReply(ids, r);
            match r
            case DataReply(list, p) => Answered(ids, list, p, t)
            case CloseReply(list, st) =>
              var keys := set id | id in list;
              if exists id <- list :: id !in ids then t.ids == ids && t.out == [] && t.end.Unexpected?
              else if st.code == 0 then t == Taken(ids - keys, [], Fine)
              else if forall id <- list :: ids[id].resp.None? then
                t.end.Fine? && t.ids == ids - keys && EachUpdated(ids, list, Fails(st), t.out)
              else t.end.Unexpected? && FailedUpTo(ids, list, st, t)
            case _ => t.ids == ids && t.out == [] && t.end.Unexpected?
  {
    hide InvokeData, InvokeFailed, EachUpdated, OpenPrefix;
    match r
    case DataReply(list, p) => DataAnswers(ids, list, p);
    case CloseReply(list, st) =>
      if (forall id <- list :: id in ids) && st.code != 0 {
        FailureStops(ids, list, st);
        OpenPrefixAll(SilentIn(ids), list);
        FailedOthers(ids, list, st);
        if |OpenPrefix(SilentIn(ids), list)| == |list| {
          assert OpenPrefix(SilentIn(ids), list) == list;
        }
      }
    case _ =>
  }

  /** A failing close touches no stream that it does not list, and never crashes. */
  lemma {:induction false} FailedOthers(ids: map<Id, Ret>, list: seq<Id>, st: Status)
    requires forall id <- list :: id in ids
    ensures var t := InvokeFailed(ids, list, st);
            !t.end.Crashed? && forall id <- t.ids :: id in ids && (id !in list ==> t.ids[id] == ids[id])
    decreases |list|
  {
    if list != [] && ids[list[0]].resp.None? {
      FailedOthers(ids[list[0] := ids[list[0]].(error := Some(Failed(st)))], list[1..], st);
    }
  }

  // ---- Where the failures of setup come from ----

  /** A start reply opened stream id under the labels of ret. */
  ghost predicate Announced(log: seq<Reply>, id: Id, ret: Ret) {
    exists r <- log :: r.StartReply? && !r.result.ErrorStatus? && r.target == ret.target && r.nonce == ret.index && IdOf(r.result) == id
  }

  /** The failure is that of a start reply with its labels, or of a failing close of a stream
      that was announced with them; it carries that reply's status. */
  ghost predicate BlamedOn(log: seq<Reply>, r: Reply, e: Ret) {
    match r
    case StartReply(target, nonce, ErrorStatus(st)) => target == e.target && nonce == e.index && e.error == Some(Failed(st))
    case CloseReply(ids, st) => st.code != 0 && e.error == Some(Failed(st)) && exists id <- ids :: Announced(log, id, e)
    case _ => false
  }

  ghost predicate Caused(log: seq<Reply>, e: Ret) {
    exists r <- log :: BlamedOn(log, r, e)
  }

  ghost predicate Explained(log: seq<Reply>, s: Setup) {
    && (forall id <- s.ids :: Announced(log, id, s.ids[id]))
    && (forall e <- s.errors :: Caused(log, e))
  }

  lemma AnnouncedGrows(log: seq<Reply>, r: Reply, id: Id, ret: Ret)
    requires Announced(log, id, ret)
    ensures Announced(log + [r], id, ret)
  {}

  lemma CausedGrows(log: seq<Reply>, r: Reply, e: Ret)
    requires Caused(log, e)
    ensures Caused(log + [r], e)
  {
    hide Announced;
    var x :| x in log && BlamedOn(log, x, e);
    if x.CloseReply? {
      var id :| id in x.ids && Announced(log, id, e);
      AnnouncedGrows(log, r, id, e);
    }
    assert x in log + [r] && BlamedOn(log + [r], x, e);
  }

  lemma ExplainedGrows(log: seq<Reply>, r: Reply, s: Setup)
    requires Explained(log, s)
    ensures Explained(log + [r], s)
  {
    hide Announced, Caused;
    forall id <- s.ids
      ensures Announced(log + [r], id, s.ids[id])
    {
      AnnouncedGrows(log, r, id, s.ids[id]);
    }
    forall e <- s.errors
      ensures Caused(log + [r], e)
    {
      CausedGrows(log, r, e);
    }
  }

  lemma SameLabels(log: seq<Reply>, id: Id, a: Ret, b: Ret)
    requires Announced(log, id, a) && a.target == b.target && a.index == b.index
    ensures Announced(log, id, b)
  {}

  lemma {:induction false} CloseExplained(log: seq<Reply>, s: Setup, ids: seq<Id>, r: Reply)
    requires Explained(log, s) && r in log && r.CloseReply? && r.status.code != 0 && forall id <- ids :: id in r.ids
    ensures var res := AcceptClose(s, ids, r.status); res.Success? ==> Explained(log, res.value)
    decreases |ids|
  {
    hide Announced;
    if ids != [] && ids[0] in s.ids {
      var e := s.ids[ids[0]].(error := Some(Failed(r.status)));
      SameLabels(log, ids[0], s.ids[ids[0]], e);
      assert ids[0] in r.ids && BlamedOn(log, r, e) && Caused(log, e);
      CloseExplained(log, s.(ids := s.ids - {ids[0]}, errors := s.errors + [e]), ids[1..], r);
    }
  }

  lemma StartExplained(log: seq<Reply>, targets: seq<string>, s: Setup, r: Reply)
    requires Explained(log, s) && r in log && r.StartReply? && Accept(targets, s, r).Success?
    ensures Explained(log, Accept(targets, s, r).value)
  {
    if r.result.ErrorStatus? {
      var e := Ret(r.target, r.nonce, None, Some(Failed(r.result.status)));
      assert BlamedOn(log, r, e) && Caused(log, e);
    } else {
      assert Announced(log, IdOf(r.result), Ret(r.target, r.nonce, None, None));
    }
  }

  /** Against any peer: every stream that setup opens was announced with its labels, and every
      failure it records carries the status of the start reply or close that caused it. */
  lemma {:induction false} SetupExplained(targets: seq<string>, log: seq<Reply>)
    requires SetupAfter(targets, log).Success?
    ensures Explained(log, SetupAfter(targets, log).value)
  {
    if log != [] {
      hide Explained, AcceptStart, AcceptClose;
      var n := |log| - 1;
      SetupExplained(targets, log[..n]);
      var s := SetupAfter(targets, log[..n]).value;
      ExplainedGrows(log[..n], log[n], s);
      assert log == log[..n] + [log[n]];
      if log[n].StartReply? {
        StartExplained(log, targets, s, log[n]);
      } else {
        CloseExplained(log, s, log[n].ids, log[n]);
      }
    }
  }
}
