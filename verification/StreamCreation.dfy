/**
 The receiving loop of createStreams: replies are taken one at a time until every
 target has answered, each new stream gets a result object, and a stream that
 closes early moves to the errors.
 */
module StreamCreation {
  import opened Protocol
  import opened ClientModel
  import opened ProxyStreams

  datatype Ending = Answered | OutOfReplies | Invalid(reason: string)

  ghost predicate Holds(ids: map<Id, RetObject>, errors: seq<RetObject>, s: Setup)
    reads ids.Values, errors
  {
    && Shows(ids, s.ids)
    && |errors| == |s.errors|
    && (forall k :: 0 <= k < |errors| ==>
          Ret(errors[k].target, errors[k].index, errors[k].resp, errors[k].error) == s.errors[k])
  }

  function Failing(s: Setup, id: Id, status: Status): Setup
    requires id in s.ids
  {
    s.(ids := s.ids - {id}, errors := s.errors + [s.ids[id].(error := Some(Failed(status)))])
  }

  lemma CloseStep(s: Setup, list: seq<Id>, k: nat, status: Status)
    requires k < |list|
    ensures AcceptClose(s, list[k..], status) ==
            if list[k] !in s.ids then Refused("close on invalid stream id")
            else AcceptClose(Failing(s, list[k], status), list[k + 1..], status)
  {
    assert list[k..][0] == list[k] && list[k..][1..] == list[k + 1..];
  }

  lemma CloseEnd(s: Setup, list: seq<Id>, status: Status)
    ensures AcceptClose(s, list[|list|..], status) == Success(s)
  {}

  /** One stream of a close message: its result object moves to the errors. */
  method FailStream(ids0: map<Id, RetObject>, errors0: seq<RetObject>, id: Id, status: Status, ghost s: Setup)
    returns (ids: map<Id, RetObject>, errors: seq<RetObject>)
    requires Separate(ids0, errors0) && Holds(ids0, errors0, s) && id in ids0
    modifies ids0[id]
    ensures Separate(ids, errors) && Holds(ids, errors, Failing(s, id, status))
    ensures ids == ids0 - {id} && errors == errors0 + [ids0[id]]
  {
    var r := ids0[id];
    forall k | 0 <= k < |errors0|
      ensures errors0[k] != r
    {
      assert errors0[k] in errors0;
    }
    r.error := Some(Failed(status));
    ids, errors := ids0 - {id}, errors0 + [r];
  }

  method TakeClose(ids0: map<Id, RetObject>, errors0: seq<RetObject>, list: seq<Id>, status: Status, ghost s0: Setup)
    returns (ids: map<Id, RetObject>, errors: seq<RetObject>, ghost s: Setup, known: bool)
    requires Separate(ids0, errors0) && Holds(ids0, errors0, s0)
    modifies ids0.Values
    ensures Separate(ids, errors) && ids.Values <= ids0.Values && (forall e <- errors :: e in errors0 || e in ids0.Values)
    ensures known ==> Holds(ids, errors, s)
    ensures AcceptClose(s0, list, status) == if known then Success(s) else Refused("close on invalid stream id")
  {
    hide AcceptClose, Holds;
    ids, errors, s, known := ids0, errors0, s0, true;
    assert list[0..] == list;
    for k := 0 to |list|
      invariant Separate(ids, errors) && Holds(ids, errors, s) && (forall id <- ids :: id in ids0 && ids[id] == ids0[id])
      invariant forall e <- errors :: e in errors0 || e in ids0.Values
      invariant AcceptClose(s0, list, status) == AcceptClose(s, list[k..], status)
    {
      CloseStep(s, list, k, status);
      HoldsKeys(ids, errors, s);
      if list[k] !in ids {
        known := false;
        return;
      }
      ids, errors := FailStream(ids, errors, list[k], status, s);
      s := Failing(s, list[k], status);
    }
    CloseEnd(s, list, status);
  }

  lemma HoldsKeys(ids: map<Id, RetObject>, errors: seq<RetObject>, s: Setup)
    requires Holds(ids, errors, s)
    ensures ids.Keys == s.ids.Keys && |ids| == |s.ids| && |errors| == |s.errors|
  {
    assert |ids.Keys| == |ids| && |s.ids.Keys| == |s.ids|;
  }

  /** A start reply: a new result object, open or failed. */
  method TakeStart(targets: seq<string>, ids0: map<Id, RetObject>, errors0: seq<RetObject>,
                   target: string, nonce: Nonce, result: StartResult, ghost s: Setup)
    returns (ids: map<Id, RetObject>, errors: seq<RetObject>, refusal: Option<string>)
    requires Separate(ids0, errors0) && Holds(ids0, errors0, s)
    ensures Separate(ids, errors)
    ensures forall r <- ids.Values :: r in ids0.Values || fresh(r)
    ensures forall e <- errors :: e in errors0 || fresh(e)
    ensures var next := AcceptStart(targets, s, target, nonce, result);
            if refusal.Some? then next == Refused(refusal.value) else next.Success? && Holds(ids, errors, next.value)
  {
    ids, errors, refusal := ids0, errors0, None;
    if nonce >= |targets| % NONCE_LIMIT {
      refusal := Some("got back invalid nonce (out of range)");
      return;
    }
    if targets[nonce] != target {
      refusal := Some("Target/nonce don't match");
      return;
    }
    var id := IdOf(result);
    if id in ids {
      refusal := Some("Duplicate response for target");
      return;
    }
    var r := new RetObject(target, nonce);
    if result.ErrorStatus? {
      r.error := Some(Failed(result.status));
      errors := errors + [r];
    } else {
      ids := ids[id := r];
    }
  }

  method TakeReply(targets: seq<string>, ids0: map<Id, RetObject>, errors0: seq<RetObject>, reply: Reply, ghost s: Setup)
    returns (ids: map<Id, RetObject>, errors: seq<RetObject>, refusal: Option<string>)
    requires Separate(ids0, errors0) && Holds(ids0, errors0, s)
    modifies ids0.Values
    ensures Separate(ids, errors)
    ensures forall r <- ids.Values :: r in ids0.Values || fresh(r)
    ensures forall e <- errors :: e in errors0 || e in ids0.Values || fresh(e)
    ensures var next := Accept(targets, s, reply);
            if refusal.Some? then next == Refused(refusal.value) else next.Success? && Holds(ids, errors, next.value)
  {
    hide Holds, Separate, AcceptStart, AcceptClose;
    ids, errors, refusal := ids0, errors0, Some("unexpected reply");
    match reply {
      case StartReply(target, nonce, result) =>
        ids, errors, refusal := TakeStart(targets, ids, errors, target, nonce, result, s);
      case CloseReply(list, status) =>
        if status.code == 0 {
          refusal := Some("close with no data sent and no error?");
          return;
        }
        ghost var next;
        var known;
        ids, errors, next, known := TakeClose(ids, errors, list, status, s);
        refusal := if known then None else Some("close on invalid stream id");
      case _ =>
    }
  }

  /** Takes replies until every target has answered. The result objects show what the
      replies up to then add up to, one object for each target. */
  method CreateStreams(targets: seq<string>, inbox: seq<Reply>)
    returns (ids: map<Id, RetObject>, errors: seq<RetObject>, ending: Ending, used: nat)
    ensures used <= |inbox|
    ensures forall k :: 0 <= k < used ==>
              SetupAfter(targets, inbox[..k]).Success? && SetupAfter(targets, inbox[..k]).value.replies != |targets|
    ensures match ending
            case Answered =>
              && SetupAfter(targets, inbox[..used]) == Success(Setup(|targets|, ValueMap(ids), Values(errors)))
              && Separate(ids, errors) && |ids| + |errors| == |targets|
            case Invalid(reason) => SetupAfter(targets, inbox[..used]) == Refused(reason)
            case OutOfReplies => used == |inbox| && SetupAfter(targets, inbox).Success?
  {
    hide Holds, Accept, SetupAfter, ValueMap, Values, Separate;
    ids, errors, ending, used := map[], [], OutOfReplies, 0;
    var replies := 0;
    ghost var s := NO_REPLIES;
    NothingYet(targets, inbox);
    while replies != |targets|
      invariant used <= |inbox| && ending.OutOfReplies? && replies == s.replies
      invariant Separate(ids, errors) && Holds(ids, errors, s)
      invariant (forall r <- ids.Values :: fresh(r)) && (forall e <- errors :: fresh(e))
      invariant SetupAfter(targets, inbox[..used]) == Success(s)
      invariant forall k :: 0 <= k < used ==>
                  SetupAfter(targets, inbox[..k]).Success? && SetupAfter(targets, inbox[..k]).value.replies != |targets|
      decreases |inbox| - used
    {
      if used == |inbox| {
        assert inbox[..used] == inbox;
        return;
      }
      var reply := inbox[used];
      SetupStep(targets, inbox, used, s);
      used := used + 1;
      var refusal;
      ids, errors, refusal := TakeReply(targets, ids, errors, reply, s);
      if refusal.Some? {
        ending := Invalid(refusal.value);
        return;
      }
      replies := if reply.StartReply? then replies + 1 else replies;
      s := Accept(targets, s, reply).value;
    }
    ending := Answered;
    Counts(targets, inbox[..used], s);
    HoldsKeys(ids, errors, s);
    HoldsValues(ids, errors, s);
  }

  lemma NothingYet(targets: seq<string>, inbox: seq<Reply>)
    ensures Separate(map[], []) && Holds(map[], [], NO_REPLIES)
    ensures SetupAfter(targets, inbox[..0]) == Success(NO_REPLIES)
  {}

  lemma HoldsValues(ids: map<Id, RetObject>, errors: seq<RetObject>, s: Setup)
    requires Holds(ids, errors, s)
    ensures ValueMap(ids) == s.ids && Values(errors) == s.errors
  {
    Shown(ids, s.ids);
  }

  lemma SetupStep(targets: seq<string>, inbox: seq<Reply>, n: nat, s: Setup)
    requires n < |inbox| && SetupAfter(targets, inbox[..n]) == Success(s)
    ensures var next := Accept(targets, s, inbox[n]);
            && SetupAfter(targets, inbox[..n + 1]) == next
            && (next.Success? ==> next.value.replies == s.replies + if inbox[n].StartReply? then 1 else 0)
  {
    assert inbox[..n + 1][..n] == inbox[..n];
    SetupConserves(targets, inbox[..n]);
    if Accept(targets, s, inbox[n]).Success? {
      AcceptConserves(targets, s, inbox[n]);
    }
  }

  lemma Counts(targets: seq<string>, log: seq<Reply>, s: Setup)
    requires SetupAfter(targets, log) == Success(s)
    ensures |s.ids| + |s.errors| == s.replies
  {
    SetupConserves(targets, log);
  }
}
