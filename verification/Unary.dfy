/**
 invokeOneMany: one request to N targets, and the loop that turns the replies
 into results on the returned channel.
 */
module Unary {
  import opened Protocol
  import opened ClientModel
  import opened Composed

  // ---- The receive loop as a function of the replies ----

  /** Reply after reply, until one is unexpected or no stream is left. */
  function Collect(ids: map<Id, Ret>, replies: seq<Reply>): Taken
    decreases |replies|
  {
    if replies == [] then Taken(ids, [], Fine)
    else
      var t := InvokeReply(ids, replies[0]);
      if !t.end.Fine? || t.ids == map[] then t
      else
        var rest := Collect(t.ids, replies[1..]);
        rest.(out := t.out + rest.out)
  }

  method HandleData(ids0: map<Id, Ret>, list: seq<Id>, p: Payload) returns (ids: map<Id, Ret>, out: seq<Ret>, end: End)
    ensures Taken(ids, out, end) == InvokeData(ids0, list, p)
  {
    ids, out, end := ids0, [], Fine;
    for k := 0 to |list|
      invariant end.Fine? && Prepend(out, InvokeData(ids, list[k..], p)) == InvokeData(ids0, list, p)
    {
      assert list[k..][0] == list[k] && list[k..][1..] == list[k + 1..];
      if list[k] !in ids {
        end := Unexpected("unexpected stream id received for StreamData");
        return;
      }
      ids := ids[list[k] := ids[list[k]].(resp := Some(p))];
      out := out + [ids[list[k]]];
    }
  }

  method HandleFailed(ids0: map<Id, Ret>, list: seq<Id>, st: Status) returns (ids: map<Id, Ret>, out: seq<Ret>, end: End)
    requires forall id <- list :: id in ids0
    ensures Taken(ids, out, end) == InvokeFailed(ids0, list, st)
  {
    ids, out, end := ids0, [], Fine;
    for k := 0 to |list|
      invariant end.Fine? && ids.Keys == ids0.Keys
      invariant Prepend(out, InvokeFailed(ids, list[k..], st)) == InvokeFailed(ids0, list, st)
    {
      assert list[k..][0] == list[k] && list[k..][1..] == list[k + 1..];
      if ids[list[k]].resp.Some? {
        ids := ids - {list[k]};
        end := Unexpected("Got a non OK error code for a target we've already responded");
        return;
      }
      ids := ids[list[k] := ids[list[k]].(error := Some(Failed(st)))];
      out := out + [ids[list[k]]];
    }
  }

  /** One turn of the receive loop. */
  method HandleReply(ids0: map<Id, Ret>, r: Reply) returns (ids: map<Id, Ret>, out: seq<Ret>, end: End)
    ensures Taken(ids, out, end) == InvokeReply(ids0, r)
  {
    ids, out, end := ids0, [], Fine;
    match r
    case DataReply(list, p) =>
      ids, out, end := HandleData(ids0, list, p);
    case CloseReply(list, st) =>
      for k := 0 to |list|
        invariant forall j :: 0 <= j < k ==> list[j] in ids
      {
        if list[k] !in ids {
          end := Unexpected("unexpected stream id received for ServerClose");
          return;
        }
      }
      if st.code != 0 {
        ids, out, end := HandleFailed(ids0, list, st);
        if !end.Fine? {
          return;
        }
      }
      ghost var before := ids;
      for k := 0 to |list|
        invariant ids == before - set j | 0 <= j < k :: list[j]
      {
        ids := ids - {list[k]};
      }
      assert (set j | 0 <= j < |list| :: list[j]) == set id | id in list;
    case _ =>
      end := Unexpected("unexpected answer on stream");
  }

  /** Streams that were never properly closed get the error that ended the loop. */
  method Leftovers(ids: map<Id, Ret>, chanErr: Option<RetError>) returns (out: seq<Ret>, ghost order: seq<Id>)
    ensures Lists(order, ids.Keys) && out == LeftOver(ids, order, chanErr)
    ensures |out| == |order|
    ensures forall k :: 0 <= k < |out| ==> out[k] == Ret(ids[order[k]].target, ids[order[k]].index, ids[order[k]].resp, chanErr)
  {
    var rest := ids.Keys;
    out, order := [], [];
    while rest != {}
      invariant rest <= ids.Keys && Lists(order, ids.Keys - rest) && out == LeftOver(ids, order, chanErr)
      decreases |rest|
    {
      var id :| id in rest;
      out := out + [ids[id].(error := chanErr)];
      order := order + [id];
      rest := rest - {id};
    }
  }

  /** Receive until the stream ends, a reply is unexpected or no stream is left. */
  method Receive(ids0: map<Id, Ret>, replies: seq<Reply>) returns (ids: map<Id, Ret>, out: seq<Ret>, end: End)
    ensures Taken(ids, out, end) == Collect(ids0, replies)
  {
    ids, out, end := ids0, [], Fine;
    for n := 0 to |replies|
      invariant end.Fine? && Prepend(out, Collect(ids, replies[n..])) == Collect(ids0, replies)
    {
      assert replies[n..][0] == replies[n] && replies[n..][1..] == replies[n + 1..];
      CollectStep(ids, replies[n..], out);
      var more;
      ids, more, end := HandleReply(ids, replies[n]);
      out := out + more;
      if !end.Fine? || ids == map[] {
        return;
      }
    }
  }

  /** Everything the channel carries: the failed targets, the results of the loop, and
      the streams left open. */
  ghost function Emission(errors: seq<Ret>, t: Taken, order: seq<Id>, err: Option<RetError>): seq<Ret>
    requires Lists(order, t.ids.Keys)
  {
    errors + t.out + LeftOver(t.ids, order, err)
  }

  /** The error that what is left over gets; `broken` unless the stream ended by EOF. */
  function FinalError(t: Taken, broken: Option<RetError>): Option<RetError> {
    if t.end.Fine? then broken else Some(ChanErr(t.end))
  }

  /** After the results in `before`, one for each stream in `order`: its labels, its last response
      and the error. */
  ghost predicate Ends(out: seq<Ret>, before: seq<Ret>, ids: map<Id, Ret>, order: seq<Id>, err: Option<RetError>) {
    && before <= out && |out| == |before| + |order|
    && forall k :: 0 <= k < |order| ==>
         order[k] in ids && out[|before| + k] == Ret(ids[order[k]].target, ids[order[k]].index, ids[order[k]].resp, err)
  }

  lemma EndsSo(before: seq<Ret>, ids: map<Id, Ret>, order: seq<Id>, left: seq<Ret>, err: Option<RetError>)
    requires Lists(order, ids.Keys) && |left| == |order|
    requires forall k :: 0 <= k < |left| ==> left[k] == Ret(ids[order[k]].target, ids[order[k]].index, ids[order[k]].resp, err)
    ensures Ends(before + left, before, ids, order, err)
  {
    assert forall k :: 0 <= k < |order| ==> order[k] in order;
  }

  lemma {:induction false} DataIsSafe(ids: map<Id, Ret>, list: seq<Id>, p: Payload)
    ensures !InvokeData(ids, list, p).end.Crashed?
    decreases |list|
  {
    if list != [] && list[0] in ids {
      DataIsSafe(ids[list[0] := ids[list[0]].(resp := Some(p))], list[1..], p);
    }
  }

  lemma {:induction false} FailureIsSafe(ids: map<Id, Ret>, list: seq<Id>, st: Status)
    requires forall id <- list :: id in ids
    ensures !InvokeFailed(ids, list, st).end.Crashed?
    decreases |list|
  {
    if list != [] && ids[list[0]].resp.None? {
      FailureIsSafe(ids[list[0] := ids[list[0]].(error := Some(Failed(st)))], list[1..], st);
    }
  }

  /** Unlike RecvMsg, the loop survives a close that names a stream twice. */
  lemma {:induction false} NeverCrashes(ids: map<Id, Ret>, replies: seq<Reply>)
    ensures !Collect(ids, replies).end.Crashed?
    decreases |replies|
  {
    if replies != [] {
      var r := replies[0];
      NeverCrashes(InvokeReply(ids, r).ids, replies[1..]);
      match r
      case DataReply(list, p) => DataIsSafe(ids, list, p);
      case CloseReply(list, st) =>
        if forall id <- list :: id in ids {
          FailureIsSafe(ids, list, st);
        }
      case _ =>
    }
  }

  /** The goroutine: failed targets first, then the replies until the stream ends, then
      whatever was left open. */
  method Invoke(errors: seq<Ret>, ids0: map<Id, Ret>, replies: seq<Reply>, broken: Option<RetError>)
      returns (out: seq<Ret>, ghost order: seq<Id>)
    ensures var t := Collect(ids0, replies);
            Lists(order, t.ids.Keys) && out == Emission(errors, t, order, FinalError(t, broken))
    ensures var t := Collect(ids0, replies);
            Ends(out, errors + t.out, t.ids, order, if t.end.Unexpected? then Some(Failed(Status(13, t.end.reason))) else broken)
  {
    hide Collect, LeftOver, Ends;
    var ids, more, end := Receive(ids0, replies);
    var chanErr := broken;
    if !end.Fine? {
      chanErr := Some(ChanErr(end));
    }
    var left;
    left, order := Leftovers(ids, chanErr);
    out := errors + more + left;
    NeverCrashes(ids0, replies);
    EndsSo(errors + more, ids, order, left, chanErr);
  }

  lemma CollectStep(ids: map<Id, Ret>, replies: seq<Reply>, sofar: seq<Ret>)
    requires replies != []
    ensures var t := InvokeReply(ids, replies[0]);
            Prepend(sofar, Collect(ids, replies)) ==
            if !t.end.Fine? || t.ids == map[] then Prepend(sofar, t) else Prepend(sofar + t.out, Collect(t.ids, replies[1..]))
  {
  }
}
