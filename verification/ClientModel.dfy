/**
 The client half on values: how createStreams, RecvMsg and invokeOneMany turn
 the replies of the proxy into results for the caller's targets.
 */
module ClientModel {
  import opened Protocol

  /** io.EOF, or a status. */
  datatype RetError = EndOfStream | Failed(status: Status)

  datatype Ret = Ret(target: string, index: nat, resp: Option<Payload>, error: Option<RetError>)

  datatype Result<+T> = Success(value: T) | Refused(reason: string)

  // ---- createStreams ----

  /** Accepted start replies so far, the open streams, and the targets that failed. */
  datatype Setup = Setup(replies: nat, ids: map<Id, Ret>, errors: seq<Ret>)

  const NO_REPLIES := Setup(0, map[], [])

  /** GetStreamId: zero unless the reply carries an id. */
  function IdOf(r: StartResult): Id {
    if r.StreamId? then r.id else 0
  }

  function AcceptStart(targets: seq<string>, s: Setup, target: string, nonce: Nonce, result: StartResult): Result<Setup> {
    if nonce >= |targets| % NONCE_LIMIT then Refused("got back invalid nonce (out of range)")
    else if targets[nonce] != target then Refused("Target/nonce don't match")
    else if IdOf(result) in s.ids then Refused("Duplicate response for target")
    else
      var ret := Ret(target, nonce, None, None);
      if result.ErrorStatus? then
        Success(Setup(s.replies + 1, s.ids, s.errors + [ret.(error := Some(Failed(result.status)))]))
      else
        Success(Setup(s.replies + 1, s.ids[IdOf(result) := ret], s.errors))
  }

  /** Streams that close before any data was sent have failed. */
  function AcceptClose(s: Setup, ids: seq<Id>, status: Status): Result<Setup>
    decreases |ids|
  {
    if ids == [] then Success(s)
    else if ids[0] !in s.ids then Refused("close on invalid stream id")
    else
      AcceptClose(s.(ids := s.ids - {ids[0]}, errors := s.errors + [s.ids[ids[0]].(error := Some(Failed(status)))]),
                  ids[1..], status)
  }

  function Accept(targets: seq<string>, s: Setup, r: Reply): Result<Setup> {
    match r
    case StartReply(target, nonce, result) => AcceptStart(targets, s, target, nonce, result)
    case CloseReply(ids, status) =>
      if status.code == 0 then Refused("close with no data sent and no error?") else AcceptClose(s, ids, status)
    case _ => Refused("unexpected reply")
  }

  /** The state of setup after a log of replies, unless one of them was refused. */
  function SetupAfter(targets: seq<string>, log: seq<Reply>): Result<Setup> {
    if log == [] then Success(NO_REPLIES)
    else
      var n := |log| - 1;
      var before := SetupAfter(targets, log[..n]);
      if before.Refused? then before else Accept(targets, before.value, log[n])
  }

  /** How many start replies a log holds. */
  function StartReplies(log: seq<Reply>): nat {
    if log == [] then 0 else StartReplies(log[..|log| - 1]) + if log[|log| - 1].StartReply? then 1 else 0
  }

  /** No two open streams share an index. */
  ghost predicate DistinctIndices(ids: map<Id, Ret>) {
    forall a, b :: a in ids && b in ids && a != b ==> ids[a].index != ids[b].index
  }

  /** The streams of ids' are some of those of ids, under the same labels. */
  ghost predicate SomeOf(ids': map<Id, Ret>, ids: map<Id, Ret>) {
    forall id <- ids' :: id in ids && ids'[id].index == ids[id].index && ids'[id].target == ids[id].target
  }

  /** The result of a target that the caller can map back to its request. */
  ghost predicate Labelled(targets: seq<string>, r: Ret) {
    r.index < |targets| && r.target == targets[r.index] && r.resp == None
  }

  ghost predicate SetupOk(targets: seq<string>, s: Setup) {
    && |s.ids| + |s.errors| == s.replies
    && (forall id <- s.ids :: Labelled(targets, s.ids[id]) && s.ids[id].error == None)
    && (forall e <- s.errors :: Labelled(targets, e) && e.error.Some?)
  }

  lemma {:induction false} CloseConserves(targets: seq<string>, s: Setup, ids: seq<Id>, status: Status)
    requires SetupOk(targets, s)
    ensures var r := AcceptClose(s, ids, status);
            r.Success? ==> SetupOk(targets, r.value) && r.value.replies == s.replies
    decreases |ids|
  {
    if ids != [] && ids[0] in s.ids {
      var s' := s.(ids := s.ids - {ids[0]}, errors := s.errors + [s.ids[ids[0]].(error := Some(Failed(status)))]);
      assert s'.ids.Keys == s.ids.Keys - {ids[0]};
      assert |s'.ids| == |s.ids| - 1;
      CloseConserves(targets, s', ids[1..], status);
    }
  }

  lemma StartConserves(targets: seq<string>, s: Setup, target: string, nonce: Nonce, result: StartResult)
    requires SetupOk(targets, s) && AcceptStart(targets, s, target, nonce, result).Success?
    ensures var s' := AcceptStart(targets, s, target, nonce, result).value;
            SetupOk(targets, s') && s'.replies == s.replies + 1
  {
    var ret := Ret(target, nonce, None, None);
    assert Labelled(targets, ret);
    if result.ErrorStatus? {
      FailureConserves(targets, s, ret.(error := Some(Failed(result.status))));
    } else {
      OpeningConserves(targets, s, IdOf(result), ret);
    }
  }

  lemma FailureConserves(targets: seq<string>, s: Setup, ret: Ret)
    requires SetupOk(targets, s) && Labelled(targets, ret) && ret.error.Some?
    ensures SetupOk(targets, Setup(s.replies + 1, s.ids, s.errors + [ret]))
  {}

  lemma OpeningConserves(targets: seq<string>, s: Setup, id: Id, ret: Ret)
    requires SetupOk(targets, s) && Labelled(targets, ret) && ret.error == None && id !in s.ids
    ensures SetupOk(targets, Setup(s.replies + 1, s.ids[id := ret], s.errors))
  {
    assert s.ids[id := ret].Keys == s.ids.Keys + {id};
    assert |s.ids[id := ret]| == |s.ids[id := ret].Keys| && |s.ids| == |s.ids.Keys|;
  }

  lemma AcceptConserves(targets: seq<string>, s: Setup, r: Reply)
    requires SetupOk(targets, s) && Accept(targets, s, r).Success?
    ensures SetupOk(targets, Accept(targets, s, r).value)
    ensures Accept(targets, s, r).value.replies == s.replies + if r.StartReply? then 1 else 0
  {
    hide SetupOk, AcceptStart, AcceptClose;
    match r
    case StartReply(target, nonce, result) => StartConserves(targets, s, target, nonce, result);
    case CloseReply(ids, status) => CloseConserves(targets, s, ids, status);
  }

  /** Against any peer: open streams and failed targets add up to the start
      replies accepted, and every one of them is labelled with its own target. */
  lemma {:induction false} SetupConserves(targets: seq<string>, log: seq<Reply>)
    requires SetupAfter(targets, log).Success?
    ensures var s := SetupAfter(targets, log).value; SetupOk(targets, s) && s.replies == StartReplies(log)
  {
    if log != [] {
      var n := |log| - 1;
      SetupConserves(targets, log[..n]);
      AcceptConserves(targets, SetupAfter(targets, log[..n]).value, log[n]);
    }
  }

  // ---- How many targets setup can serve ----

  /** No two start replies carry the same nonce. */
  ghost predicate DistinctStarts(log: seq<Reply>) {
    forall i, j :: 0 <= i < j < |log| && log[i].StartReply? && log[j].StartReply? ==> log[i].nonce != log[j].nonce
  }

  ghost function NoncesIn(log: seq<Reply>): set<nat> {
    set k | 0 <= k < |log| && log[k].StartReply? :: log[k].nonce
  }

  lemma {:induction false} NoncesCounted(log: seq<Reply>)
    requires DistinctStarts(log)
    ensures |NoncesIn(log)| == StartReplies(log)
  {
    if log != [] {
      var n := |log| - 1;
      NoncesCounted(log[..n]);
      NoncesGrow(log);
      hide NoncesIn, DistinctStarts;
    }
  }

  lemma NoncesGrow(log: seq<Reply>)
    requires log != [] && DistinctStarts(log)
    ensures var n := |log| - 1;
            if log[n].StartReply? then NoncesIn(log) == NoncesIn(log[..n]) + {log[n].nonce} && log[n].nonce !in NoncesIn(log[..n])
            else NoncesIn(log) == NoncesIn(log[..n])
  {
    var n := |log| - 1;
    assert forall k :: 0 <= k < n ==> log[..n][k] == log[k];
    assert forall x <- NoncesIn(log[..n]) :: x in NoncesIn(log);
  }

  lemma {:induction false} Pigeonhole(ns: set<nat>, bound: nat)
    requires forall n <- ns :: n < bound
    ensures |ns| <= bound
  {
    if bound > 0 {
      Pigeonhole(ns - {bound - 1}, bound - 1);
      assert ns <= (ns - {bound - 1}) + {bound - 1};
    } else {
      assert ns == {};
    }
  }

  /** Accepted nonces are below the bound, which is a uint32. */
  lemma {:induction false} NoncesBounded(targets: seq<string>, log: seq<Reply>)
    requires SetupAfter(targets, log).Success?
    ensures forall n <- NoncesIn(log) :: n < |targets| % NONCE_LIMIT
  {
    if log != [] {
      var last := |log| - 1;
      NoncesBounded(targets, log[..last]);
      forall n <- NoncesIn(log)
        ensures n < |targets| % NONCE_LIMIT
      {
        var k :| 0 <= k < |log| && log[k].StartReply? && log[k].nonce == n;
        if k < last {
          assert log[..last][k] == log[k];
          assert n in NoncesIn(log[..last]);
        }
      }
    }
  }

  /** With 2^32 targets or more the bound wraps: setup never completes against a peer
      that answers each nonce once. */
  lemma TooManyTargets(targets: seq<string>, log: seq<Reply>)
    requires |targets| >= NONCE_LIMIT && SetupAfter(targets, log).Success? && DistinctStarts(log)
    ensures SetupAfter(targets, log).value.replies < |targets|
  {
    SetupConserves(targets, log);
    NoncesCounted(log);
    NoncesBounded(targets, log);
    Pigeonhole(NoncesIn(log), |targets| % NONCE_LIMIT);
  }

  /** A peer that answers the first n nonces in order, each with a failure. */
  function Refusals(targets: seq<string>, n: nat): seq<Reply>
    requires n <= |targets| < NONCE_LIMIT
  {
    if n == 0 then [] else Refusals(targets, n - 1) + [StartReply(targets[n - 1], n - 1, ErrorStatus(Status(2, "")))]
  }

  lemma {:induction false} RefusalsInOrder(targets: seq<string>, n: nat)
    requires n <= |targets| < NONCE_LIMIT
    ensures |Refusals(targets, n)| == n
    ensures forall k :: 0 <= k < n ==> Refusals(targets, n)[k].StartReply? && Refusals(targets, n)[k].nonce == k
  {
    if n > 0 {
      RefusalsInOrder(targets, n - 1);
    }
  }

  lemma NothingAccepted(targets: seq<string>)
    ensures SetupAfter(targets, []) == Success(NO_REPLIES)
  {}

  lemma SetupAppend(targets: seq<string>, log: seq<Reply>, r: Reply)
    requires SetupAfter(targets, log).Success?
    ensures SetupAfter(targets, log + [r]) == Accept(targets, SetupAfter(targets, log).value, r)
  {
    assert (log + [r])[..|log|] == log;
  }

  lemma OneRefusal(targets: seq<string>, s: Setup, n: nat)
    requires n < |targets| < NONCE_LIMIT && s.ids == map[]
    ensures var r := Accept(targets, s, StartReply(targets[n], n, ErrorStatus(Status(2, ""))));
            r.Success? && r.value.replies == s.replies + 1 && r.value.ids == map[]
  {
    assert |targets| % NONCE_LIMIT == |targets|;
  }

  lemma {:induction false} RefusalsAccepted(targets: seq<string>, n: nat)
    requires n <= |targets| < NONCE_LIMIT
    ensures var r := SetupAfter(targets, Refusals(targets, n)); r.Success? && r.value.replies == n && r.value.ids == map[]
  {
    hide Accept, SetupAfter;
    if n == 0 {
      NothingAccepted(targets);
    } else {
      RefusalsAccepted(targets, n - 1);
      SetupAppend(targets, Refusals(targets, n - 1), StartReply(targets[n - 1], n - 1, ErrorStatus(Status(2, ""))));
      OneRefusal(targets, SetupAfter(targets, Refusals(targets, n - 1)).value, n - 1);
    }
  }

  /** Setup can complete against such a peer exactly below 2^32 targets. */
  lemma SetupCompletesExactly(targets: seq<string>)
    ensures (exists log :: DistinctStarts(log) && SetupAfter(targets, log).Success? && SetupAfter(targets, log).value.replies == |targets|)
            <==> |targets| < NONCE_LIMIT
  {
    if |targets| < NONCE_LIMIT {
      RefusalsInOrder(targets, |targets|);
      RefusalsAccepted(targets, |targets|);
    }
    forall log | DistinctStarts(log) && SetupAfter(targets, log).Success? && SetupAfter(targets, log).value.replies == |targets|
      ensures |targets| < NONCE_LIMIT
    {
      if |targets| >= NONCE_LIMIT {
        TooManyTargets(targets, log);
      }
    }
  }

  // ---- RecvMsg in OneMany context ----

  datatype End = Fine | Unexpected(reason: string) | Crashed

  /** The streams still open, the results handed out, and whether the call failed. */
  datatype Taken = Taken(ids: map<Id, Ret>, out: seq<Ret>, end: End)

  function Prepend(out: seq<Ret>, t: Taken): Taken {
    t.(out := out + t.out)
  }

  function RecvData(ids: map<Id, Ret>, list: seq<Id>, p: Payload): (t: Taken)
    ensures |t.out| <= |list|
    decreases |list|
  {
    if list == [] then Taken(ids, [], Fine)
    else if list[0] !in ids then Taken(ids, [], Unexpected("unexpected stream id received for StreamData"))
    else
      var r := ids[list[0]].(resp := Some(p), error := None);
      var rest := RecvData(ids[list[0] := r], list[1..], p);
      rest.(out := [r] + rest.out)
  }

  /** Closing a stream twice in one message would dereference a removed entry. */
  function RecvClosed(ids: map<Id, Ret>, list: seq<Id>, e: RetError): (t: Taken)
    ensures |t.out| <= |list|
    decreases |list|
  {
    if list == [] then Taken(ids, [], Fine)
    else if list[0] !in ids then Taken(ids, [], Crashed)
    else
      var r := ids[list[0]].(resp := None, error := Some(e));
      var rest := RecvClosed(ids - {list[0]}, list[1..], e);
      rest.(out := [r] + rest.out)
  }

  predicate Contains(s: string, sub: string) {
    sub <= s || (s != [] && Contains(s[1..], sub))
  }

  /** The error a close stands for; a passed dry run gets its own wording. */
  function CloseError(dryRun: bool, st: Status): RetError {
    if st.code == 0 then EndOfStream
    else if dryRun && st.code == CODE_ABORTED && Contains(st.message, "authz dry run passed")
    then Failed(Status(st.code, "Aborted by proxy"))
    else Failed(st)
  }

  function RecvReply(dryRun: bool, ids: map<Id, Ret>, r: Reply): Taken {
    match r
    case DataReply(list, p) => RecvData(ids, list, p)
    case CloseReply(list, st) =>
      if exists id <- list :: id !in ids then Taken(ids, [], Unexpected("unexpected stream id received for ServerClose"))
      else RecvClosed(ids, list, CloseError(dryRun, st))
    case _ => Taken(ids, [], Unexpected("unexpected answer on stream"))
  }

  /** The listed ids before the first that is not open. */
  function OpenPrefix(open: set<Id>, list: seq<Id>): seq<Id>
    decreases |list|
  {
    if list == [] || list[0] !in open then [] else [list[0]] + OpenPrefix(open, list[1..])
  }

  /** The listed ids before the first that was seen before. */
  function FreshPrefix(seen: set<Id>, list: seq<Id>): seq<Id>
    decreases |list|
  {
    if list == [] || list[0] in seen then [] else [list[0]] + FreshPrefix(seen + {list[0]}, list[1..])
  }

  /** The streams that a reply reaches, in order: those before the first unknown id, and
      for a close of open streams those before the first repetition. */
  function Touched(open: set<Id>, r: Reply): seq<Id> {
    match r
    case DataReply(list, _) => OpenPrefix(open, list)
    case CloseReply(list, _) => if exists id <- list :: id !in open then [] else FreshPrefix({}, list)
    case _ => []
  }

  lemma {:induction false} DataTouches(ids: map<Id, Ret>, list: seq<Id>, p: Payload)
    ensures OpenPrefix(ids.Keys, list) == list[..|RecvData(ids, list, p).out|]
    decreases |list|
  {
    if list != [] && list[0] in ids {
      var ids' := ids[list[0] := ids[list[0]].(resp := Some(p), error := None)];
      DataTouches(ids', list[1..], p);
      assert ids'.Keys == ids.Keys;
      assert list[..1 + |RecvData(ids', list[1..], p).out|] == [list[0]] + list[1..][..|RecvData(ids', list[1..], p).out|];
    }
  }

  lemma {:induction false} ClosedTouches(ids: map<Id, Ret>, seen: set<Id>, list: seq<Id>, e: RetError)
    requires forall id <- list :: id in ids <==> id !in seen
    ensures FreshPrefix(seen, list) == list[..|RecvClosed(ids, list, e).out|]
    decreases |list|
  {
    if list != [] && list[0] in ids {
      var ids' := ids - {list[0]};
      ClosedTouches(ids', seen + {list[0]}, list[1..], e);
      assert list[..1 + |RecvClosed(ids', list[1..], e).out|] == [list[0]] + list[1..][..|RecvClosed(ids', list[1..], e).out|];
    }
  }

  ghost predicate Repeats(list: seq<Id>) {
    exists i, j :: 0 <= i < j < |list| && list[i] == list[j]
  }

  lemma RepeatsFirst(list: seq<Id>)
    requires list != []
    ensures Repeats(list) <==> list[0] in list[1..] || Repeats(list[1..])
  {
    var rest := list[1..];
    if Repeats(list) {
      var i, j :| 0 <= i < j < |list| && list[i] == list[j];
      assert rest[j - 1] == list[j];
      if i > 0 {
        assert rest[i - 1] == list[i];
      }
    }
    if list[0] in rest {
      var j :| 0 <= j < |rest| && rest[j] == list[0];
      assert list[j + 1] == list[0];
    }
    if Repeats(rest) {
      var i, j :| 0 <= i < j < |rest| && rest[i] == rest[j];
      assert list[i + 1] == list[j + 1];
    }
  }

  lemma {:induction false} ClosedCrashes(ids: map<Id, Ret>, list: seq<Id>, e: RetError)
    ensures RecvClosed(ids, list, e).end.Crashed? <==> Repeats(list) || exists id <- list :: id !in ids
    decreases |list|
  {
    if list != [] {
      hide Repeats;
      RepeatsFirst(list);
      ClosedCrashes(ids - {list[0]}, list[1..], e);
      assert list == [list[0]] + list[1..];
    } else {
      assert !Repeats(list);
    }
  }

  /** RecvMsg crashes exactly on a close of open streams that names one of them twice. */
  lemma CrashesExactly(dryRun: bool, ids: map<Id, Ret>, r: Reply)
    ensures RecvReply(dryRun, ids, r).end.Crashed? <==> r.CloseReply? && (forall id <- r.ids :: id in ids) && Repeats(r.ids)
  {
    match r
    case CloseReply(list, st) => ClosedCrashes(ids, list, CloseError(dryRun, st));
    case DataReply(list, p) => DataNeverCrashes(ids, list, p);
    case _ =>
  }

  lemma {:induction false} DataNeverCrashes(ids: map<Id, Ret>, list: seq<Id>, p: Payload)
    ensures !RecvData(ids, list, p).end.Crashed?
    decreases |list|
  {
    if list != [] && list[0] in ids {
      DataNeverCrashes(ids[list[0] := ids[list[0]].(resp := Some(p), error := None)], list[1..], p);
    }
  }

  /** The smallest such close. */
  lemma RepeatedCloseCrashes(dryRun: bool, id: Id, ret: Ret, st: Status)
    ensures RecvReply(dryRun, map[id := ret], CloseReply([id, id], st)).end.Crashed?
  {
    var r := CloseReply([id, id], st);
    CrashesExactly(dryRun, map[id := ret], r);
    assert r.ids[0] == r.ids[1];
  }

  // ---- The receive loop of invokeOneMany ----

  function InvokeData(ids: map<Id, Ret>, list: seq<Id>, p: Payload): Taken
    decreases |list|
  {
    if list == [] then Taken(ids, [], Fine)
    else if list[0] !in ids then Taken(ids, [], Unexpected("unexpected stream id received for StreamData"))
    else
      var r := ids[list[0]].(resp := Some(p));
      var rest := InvokeData(ids[list[0] := r], list[1..], p);
      rest.(out := [r] + rest.out)
  }

  /** An error close answers every listed stream that has not answered yet; the
      first one that has stops the loop. */
  function InvokeFailed(ids: map<Id, Ret>, list: seq<Id>, st: Status): Taken
    requires forall id <- list :: id in ids
    decreases |list|
  {
    if list == [] then Taken(ids, [], Fine)
    else if ids[list[0]].resp.Some? then
      Taken(ids - {list[0]}, [], Unexpected("Got a non OK error code for a target we've already responded"))
    else
      var r := ids[list[0]].(error := Some(Failed(st)));
      var rest := InvokeFailed(ids[list[0] := r], list[1..], st);
      rest.(out := [r] + rest.out)
  }

  function InvokeReply(ids: map<Id, Ret>, r: Reply): Taken {
    match r
    case DataReply(list, p) => InvokeData(ids, list, p)
    case CloseReply(list, st) =>
      if exists id <- list :: id !in ids then Taken(ids, [], Unexpected("unexpected stream id received for ServerClose"))
      else
        var failed := if st.code == 0 then Taken(ids, [], Fine) else InvokeFailed(ids, list, st);
        if failed.end.Fine? then failed.(ids := failed.ids - set id | id in list) else failed
    case _ => Taken(ids, [], Unexpected("unexpected answer on stream"))
  }

  // ---- A reply about one stream ----

  lemma DataOne(ids: map<Id, Ret>, id: Id, p: Payload)
    requires id in ids
    ensures var ret := ids[id].(resp := Some(p), error := None); RecvData(ids, [id], p) == Taken(ids[id := ret], [ret], Fine)
    ensures var ret := ids[id].(resp := Some(p)); InvokeData(ids, [id], p) == Taken(ids[id := ret], [ret], Fine)
  {
    assert [id][1..] == [];
    var a, b := ids[id].(resp := Some(p), error := None), ids[id].(resp := Some(p));
    assert [a] + [] == [a] && [b] + [] == [b];
  }

  lemma ClosedOne(ids: map<Id, Ret>, id: Id, e: RetError)
    requires id in ids
    ensures RecvClosed(ids, [id], e) == Taken(ids - {id}, [ids[id].(resp := None, error := Some(e))], Fine)
  {
    assert [id][1..] == [];
    var a := ids[id].(resp := None, error := Some(e));
    assert [a] + [] == [a];
  }

  lemma FailedOne(ids: map<Id, Ret>, id: Id, st: Status)
    requires id in ids
    ensures ids[id].resp.Some? ==> var t := InvokeFailed(ids, [id], st); t.out == [] && t.end.Unexpected? && t.ids == ids - {id}
    ensures ids[id].resp.None? ==>
              var ret := ids[id].(error := Some(Failed(st)));
              InvokeFailed(ids, [id], st) == Taken(ids[id := ret], [ret], Fine) && ids[id := ret] - {id} == ids - {id}
  {
    assert [id][1..] == [];
    var a := ids[id].(error := Some(Failed(st)));
    assert [a] + [] == [a];
  }

  // ---- The end of the loop ----

  /** The results of the streams that are still open when the loop ends. */
  function LeftOver(ids: map<Id, Ret>, order: seq<Id>, err: Option<RetError>): seq<Ret>
    requires forall id <- order :: id in ids
  {
    seq(|order|, k requires 0 <= k < |order| => ids[order[k]].(error := err))
  }

  /** The error that an unexpected reply leaves in chanErr. */
  function ChanErr(end: End): RetError {
    Failed(Status(13, if end.Unexpected? then end.reason else ""))
  }

  const CONNECTION_LOST := Failed(Status(13, "can't get response data"))
}
