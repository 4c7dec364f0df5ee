/**
 proxyStream in OneMany context: what a sequence of RecvMsg calls hands to the
 caller, and the class itself, whose Ret objects are updated in place.
 */
module ProxyStreams {
  import opened Protocol
  import opened ClientModel
  import opened Results
  import Composed

  // ---- Calls as functions ----

  datatype State = State(ids: map<Id, Ret>, errors: seq<Ret>, sentErrors: bool)

  /** What the underlying stream's Recv returns. */
  datatype Incoming = Got(reply: Reply) | RecvFails(status: Status)

  datatype Outcome = Returned | ReturnedEof | ReturnedError | Panicked

  datatype Called = Called(state: State, out: seq<Ret>, outcome: Outcome)

  function OutcomeOf(end: End): Outcome {
    match end
    case Fine => Returned
    case Unexpected(_) => ReturnedError
    case Crashed => Panicked
  }

  /** One RecvMsg(*[]*Ret). */
  function RecvCall(dryRun: bool, p: State, inc: Incoming): Called {
    if p.ids == map[] then Called(p, [], ReturnedEof)
    else
      var canned := if p.sentErrors then [] else p.errors;
      var p1 := p.(sentErrors := true);
      match inc
      case RecvFails(_) => Called(p1, canned, ReturnedError)
      case Got(r) =>
        var t := RecvReply(dryRun, p.ids, r);
        Called(p1.(ids := t.ids), canned + t.out, OutcomeOf(t.end))
  }

  /** Against any peer: a call hands out the recorded failures that are due and then, for each
      stream that the reply reaches, the data or the end that the reply stands for. */
  lemma CallReads(dryRun: bool, p: State, inc: Incoming)
    ensures var out := RecvCall(dryRun, p, inc).out;
            var due := if p.sentErrors || p.ids == map[] then [] else p.errors;
            var reached := if p.ids != map[] && inc.Got? then Touched(p.ids.Keys, inc.reply) else [];
            && due <= out && |out| == |due| + |reached|
            && forall k :: 0 <= k < |reached| ==>
                 reached[k] in p.ids && Reads(dryRun, p.ids[reached[k]], inc.reply, out[|due| + k])
  {
    if inc.Got? {
      hide RecvReply, Touched, Reads;
      ReplyReads(dryRun, p.ids, inc.reply);
    }
  }

  /** A sequence of calls, with everything they handed out. */
  function Calls(dryRun: bool, p: State, ins: seq<Incoming>): Called
    decreases |ins|
  {
    if ins == [] then Called(p, [], Returned)
    else
      var first := RecvCall(dryRun, p, ins[0]);
      if first.outcome.Panicked? then first
      else
        var rest := Calls(dryRun, first.state, ins[1..]);
        rest.(out := first.out + rest.out)
  }

  /** The stream behind each result of such a sequence, recorded failures aside. */
  function CallTags(dryRun: bool, p: State, ins: seq<Incoming>): seq<Id>
    decreases |ins|
  {
    if ins == [] then []
    else
      var first := RecvCall(dryRun, p, ins[0]);
      var tags := if p.ids != map[] && ins[0].Got? then Touched(p.ids.Keys, ins[0].reply) else [];
      if first.outcome.Panicked? then tags else tags + CallTags(dryRun, first.state, ins[1..])
  }

  // ---- One reply ----

  /** Results of open streams only, under their own labels; a terminal one is the last
      of its stream and ends it. */
  ghost predicate Orderly(ids: map<Id, Ret>, tags: seq<Id>, out: seq<Ret>, ids': map<Id, Ret>) {
    && |tags| == |out|
    && (forall k :: 0 <= k < |out| ==> tags[k] in ids && out[k].index == ids[tags[k]].index && out[k].target == ids[tags[k]].target)
    && (forall k :: 0 <= k < |out| && out[k].error.Some? ==> tags[k] !in ids')
    && (forall j, k :: 0 <= j < k < |out| && tags[j] == tags[k] ==> out[j].error == None)
  }

  lemma OrderlyJoin(ids: map<Id, Ret>, s: seq<Id>, a: seq<Ret>, mid: map<Id, Ret>, t: seq<Id>, b: seq<Ret>, ids': map<Id, Ret>)
    requires Orderly(ids, s, a, mid) && SomeOf(mid, ids) && Orderly(mid, t, b, ids') && SomeOf(ids', mid)
    ensures Orderly(ids, s + t, a + b, ids') && SomeOf(ids', ids)
  {
    var tags, all, n := s + t, a + b, |a|;
    assert forall k :: 0 <= k < n ==> tags[k] == s[k] && all[k] == a[k];
    assert forall k :: n <= k < |all| ==> tags[k] == t[k - n] && all[k] == b[k - n];
    forall j, k | 0 <= j < k < |all| && tags[j] == tags[k]
      ensures all[j].error == None
    {
      if j < n <= k {
        assert t[k - n] in mid;
      }
    }
  }

  lemma OneOrderly(ids: map<Id, Ret>, id: Id, r: Ret, ids': map<Id, Ret>)
    requires id in ids && r.index == ids[id].index && r.target == ids[id].target && (r.error.Some? ==> id !in ids')
    ensures Orderly(ids, [id], [r], ids')
  {}

  lemma {:induction false} DataOrderly(ids: map<Id, Ret>, list: seq<Id>, p: Payload)
    ensures var t := RecvData(ids, list, p); Orderly(ids, list[..|t.out|], t.out, t.ids) && SomeOf(t.ids, ids)
    decreases |list|
  {
    if list != [] && list[0] in ids {
      hide Orderly;
      var r := ids[list[0]].(resp := Some(p), error := None);
      var mid := ids[list[0] := r];
      var t := RecvData(mid, list[1..], p);
      DataOrderly(mid, list[1..], p);
      OneOrderly(ids, list[0], r, mid);
      OrderlyJoin(ids, [list[0]], [r], mid, list[1..][..|t.out|], t.out, t.ids);
      assert list[..1 + |t.out|] == [list[0]] + list[1..][..|t.out|];
    }
  }

  lemma {:induction false} ClosedOrderly(ids: map<Id, Ret>, list: seq<Id>, e: RetError)
    ensures var t := RecvClosed(ids, list, e); Orderly(ids, list[..|t.out|], t.out, t.ids) && SomeOf(t.ids, ids)
    decreases |list|
  {
    if list != [] && list[0] in ids {
      var r := ids[list[0]].(resp := None, error := Some(e));
      var mid := ids - {list[0]};
      var t := RecvClosed(mid, list[1..], e);
      ClosedOrderly(mid, list[1..], e);
      OneOrderly(ids, list[0], r, mid);
      OrderlyJoin(ids, [list[0]], [r], mid, list[1..][..|t.out|], t.out, t.ids);
      assert list[..1 + |t.out|] == [list[0]] + list[1..][..|t.out|];
    }
  }

  lemma ReplyOrderly(dryRun: bool, ids: map<Id, Ret>, r: Reply)
    ensures var t := RecvReply(dryRun, ids, r); Orderly(ids, Touched(ids.Keys, r), t.out, t.ids) && SomeOf(t.ids, ids)
  {
    match r
    case DataReply(list, p) =>
      DataOrderly(ids, list, p);
      DataTouches(ids, list, p);
    case CloseReply(list, st) =>
      ClosedOrderly(ids, list, CloseError(dryRun, st));
      if forall id <- list :: id in ids {
        ClosedTouches(ids, {}, list, CloseError(dryRun, st));
      }
    case _ =>
  }

  // ---- Runs of calls, against any peer ----

  lemma CallOrderly(dryRun: bool, p: State, inc: Incoming)
    requires p.sentErrors
    ensures var c := RecvCall(dryRun, p, inc);
            var tags := if p.ids != map[] && inc.Got? then Touched(p.ids.Keys, inc.reply) else [];
            && c.state.sentErrors && c.state.errors == p.errors
            && Orderly(p.ids, tags, c.out, c.state.ids) && SomeOf(c.state.ids, p.ids)
  {
    hide RecvReply, Touched;
    if inc.Got? {
      ReplyOrderly(dryRun, p.ids, inc.reply);
      var out := RecvReply(dryRun, p.ids, inc.reply).out;
      assert [] + out == out;
    }
  }

  /** Over any run of calls the open streams only shrink, every result belongs to a
      stream that was open, and a terminal result is its stream's last. */
  lemma {:induction false} CallsOrderly(dryRun: bool, p: State, ins: seq<Incoming>)
    requires p.sentErrors
    ensures var c := Calls(dryRun, p, ins);
            && c.state.sentErrors && c.state.errors == p.errors
            && Orderly(p.ids, CallTags(dryRun, p, ins), c.out, c.state.ids) && SomeOf(c.state.ids, p.ids)
    decreases |ins|
  {
    if ins != [] {
      hide RecvCall, Orderly, Touched;
      var first := RecvCall(dryRun, p, ins[0]);
      CallOrderly(dryRun, p, ins[0]);
      if !first.outcome.Panicked? {
        var rest := Calls(dryRun, first.state, ins[1..]);
        CallsOrderly(dryRun, first.state, ins[1..]);
        OrderlyJoin(p.ids, if p.ids != map[] && ins[0].Got? then Touched(p.ids.Keys, ins[0].reply) else [],
                    first.out, first.state.ids, CallTags(dryRun, first.state, ins[1..]), rest.out, rest.state.ids);
      }
    }
  }

  /** Per index a terminal result is the last. */
  ghost predicate LastOfIndex(out: seq<Ret>) {
    forall j, k :: 0 <= j < k < |out| && out[j].index == out[k].index ==> out[j].error == None
  }

  /** Two streams under one index: close one, then hear from the other. */
  lemma SharedIndexSpeaksAgain(dryRun: bool, p: State, a: Id, b: Id, q: Payload)
    requires p.sentErrors && a in p.ids && b in p.ids && a != b && p.ids[a].index == p.ids[b].index
    ensures !LastOfIndex(Calls(dryRun, p, [Got(CloseReply([a], OK)), Got(DataReply([b], q))]).out)
  {
    hide RecvData, RecvClosed;
    var ins := [Got(CloseReply([a], OK)), Got(DataReply([b], q))];
    var x, y := p.ids[a].(resp := None, error := Some(EndOfStream)), p.ids[b].(resp := Some(q), error := None);
    ClosedOne(p.ids, a, EndOfStream);
    DataOne(p.ids - {a}, b, q);
    var first := RecvCall(dryRun, p, ins[0]);
    assert first == Called(p.(ids := p.ids - {a}), [x], Returned);
    assert b in first.state.ids;
    assert ins[1..] == [ins[1]] && ins[1..][1..] == [];
    assert Calls(dryRun, first.state, ins[1..]).out == [y] by {
      assert RecvCall(dryRun, first.state, ins[1]).out == [y];
    }
    var out := Calls(dryRun, p, ins).out;
    assert out == [x, y];
    assert out[0].index == out[1].index && out[0].error.Some?;
  }

  /** The same holds per index, in every run of calls, if and only if no two open streams
      share one. */
  lemma OrderlyByIndexExactly(dryRun: bool, p: State)
    requires p.sentErrors
    ensures DistinctIndices(p.ids) <==> forall ins :: LastOfIndex(Calls(dryRun, p, ins).out)
  {
    if DistinctIndices(p.ids) {
      forall ins
        ensures LastOfIndex(Calls(dryRun, p, ins).out)
      {
        CallsOrderly(dryRun, p, ins);
      }
    } else {
      var a, b :| a in p.ids && b in p.ids && a != b && p.ids[a].index == p.ids[b].index;
      SharedIndexSpeaksAgain(dryRun, p, a, b, Payload("", []));
    }
  }

  /** Setup completes against a peer that answers one nonce twice under two ids. */
  lemma SharedIndexAccepted()
    ensures var ret := Ret("t", 0, None, None);
            var log := [StartReply("t", 0, StreamId(1)), StartReply("t", 0, StreamId(2))];
            && SetupAfter(["t", "u"], log) == Success(Setup(2, map[1 := ret, 2 := ret], []))
            && !DistinctIndices(map[1 := ret, 2 := ret])
  {
    var ret := Ret("t", 0, None, None);
    var a, b := StartReply("t", 0, StreamId(1)), StartReply("t", 0, StreamId(2));
    SetupAppend(["t", "u"], [], a);
    assert [] + [a] == [a] && [a] + [b] == [a, b];
    assert SetupAfter(["t", "u"], [a]) == Success(Setup(1, map[1 := ret], []));
    SetupAppend(["t", "u"], [a], b);
    var ids := map[1 := ret, 2 := ret];
    assert ids[1].index == ids[2].index;
  }

  /** The recorded failures are handed out first and once, given an open stream. */
  lemma ErrorsOnce(dryRun: bool, p: State, ins: seq<Incoming>)
    requires p.ids != map[] && !p.sentErrors && ins != []
    ensures var c, d := Calls(dryRun, p, ins), Calls(dryRun, p.(sentErrors := true), ins);
            c.out == p.errors + d.out && c.state == d.state && c.outcome == d.outcome
  {
    var first, quiet := RecvCall(dryRun, p, ins[0]), RecvCall(dryRun, p.(sentErrors := true), ins[0]);
    assert first.out == p.errors + quiet.out && first.state == quiet.state && first.outcome == quiet.outcome;
    hide RecvCall;
    if !first.outcome.Panicked? {
      var rest := Calls(dryRun, first.state, ins[1..]);
      assert p.errors + quiet.out + rest.out == p.errors + (quiet.out + rest.out);
    }
  }

  /** Without an open stream every call returns EOF, and the recorded failures are
      never handed out. */
  lemma {:induction false} NothingOpen(dryRun: bool, p: State, ins: seq<Incoming>)
    requires p.ids == map[]
    ensures Calls(dryRun, p, ins).state == p && Calls(dryRun, p, ins).out == []
    ensures ins != [] ==> RecvCall(dryRun, p, ins[0]).outcome == ReturnedEof
    decreases |ins|
  {
    if ins != [] {
      NothingOpen(dryRun, p, ins[1..]);
    }
  }

  lemma CallCases(dryRun: bool, p: State, inc: Incoming)
    ensures var canned, open := if p.sentErrors then [] else p.errors, p.(sentErrors := true);
            RecvCall(dryRun, p, inc) ==
            if p.ids == map[] then Called(p, [], ReturnedEof)
            else if inc.RecvFails? then Called(open, canned, ReturnedError)
            else
              var t := RecvReply(dryRun, p.ids, inc.reply);
              Called(open.(ids := t.ids), canned + t.out, OutcomeOf(t.end))
  {}

  /** What the result object of stream id shows after a reply. */
  function Rewritten(dryRun: bool, ids: map<Id, Ret>, r: Reply, id: Id): Ret
    requires id in ids
  {
    if id !in Touched(ids.Keys, r) then ids[id]
    else if r.DataReply? then ids[id].(resp := Some(r.payload), error := None)
    else if r.CloseReply? then ids[id].(resp := None, error := Some(CloseError(dryRun, r.status)))
    else ids[id]
  }

  lemma {:induction false} DataRewrites(ids: map<Id, Ret>, list: seq<Id>, p: Payload, id: Id)
    requires id in ids
    ensures var t := RecvData(ids, list, p);
            id in t.ids && t.ids[id] == if id in list[..|t.out|] then ids[id].(resp := Some(p), error := None) else ids[id]
    decreases |list|
  {
    if list != [] && list[0] in ids {
      var mid := ids[list[0] := ids[list[0]].(resp := Some(p), error := None)];
      var t := RecvData(mid, list[1..], p);
      DataRewrites(mid, list[1..], p, id);
      assert list[..1 + |t.out|] == [list[0]] + list[1..][..|t.out|];
    }
  }

  lemma {:induction false} ClosedLeaves(ids: map<Id, Ret>, list: seq<Id>, e: RetError, id: Id)
    requires id in ids
    ensures var t := RecvClosed(ids, list, e);
            if id in list[..|t.out|] then id !in t.ids else id in t.ids && t.ids[id] == ids[id]
    decreases |list|
  {
    if list != [] && list[0] in ids {
      var t := RecvClosed(ids - {list[0]}, list[1..], e);
      assert list[..1 + |t.out|] == [list[0]] + list[1..][..|t.out|];
      if id == list[0] {
        ClosedOrderly(ids - {list[0]}, list[1..], e);
      } else {
        ClosedLeaves(ids - {list[0]}, list[1..], e, id);
      }
    }
  }

  // ---- The class ----

  /** A result object: shared between the stream and every caller it was handed to. */
  class RetObject {
    const target: string
    const index: nat
    var resp: Option<Payload>
    var error: Option<RetError>

    constructor (target: string, index: nat)
      ensures this.target == target && this.index == index && resp == None && error == None
    {
      this.target, this.index := target, index;
      resp, error := None, None;
    }

    ghost function Value(): Ret
      reads this
    {
      Ret(target, index, resp, error)
    }
  }

  ghost function Values(rs: seq<RetObject>): seq<Ret>
    reads rs
  {
    seq(|rs|, i requires 0 <= i < |rs| reads rs => rs[i].Value())
  }

  ghost function ValueMap(ids: map<Id, RetObject>): map<Id, Ret>
    reads ids.Values
  {
    map id | id in ids :: ids[id].Value()
  }

  ghost predicate Shows(ids: map<Id, RetObject>, values: map<Id, Ret>)
    reads ids.Values
  {
    ids.Keys == values.Keys && forall id <- ids :: Ret(ids[id].target, ids[id].index, ids[id].resp, ids[id].error) == values[id]
  }

  /** Objects that all got the same response and error, and what they then show. */
  ghost predicate Marked(rs: seq<RetObject>, resp: Option<Payload>, error: Option<RetError>, values: seq<Ret>)
    reads rs
  {
    && |rs| == |values|
    && (forall k :: 0 <= k < |rs| ==> values[k] == Ret(rs[k].target, rs[k].index, resp, error))
    && (forall r <- rs :: r.resp == resp && r.error == error)
  }

  lemma Shown(ids: map<Id, RetObject>, values: map<Id, Ret>)
    requires Shows(ids, values)
    ensures ValueMap(ids) == values
  {}

  lemma ShowsItself(ids: map<Id, RetObject>)
    ensures Shows(ids, ValueMap(ids))
  {}

  lemma ShowsKeys(ids: map<Id, RetObject>, values: map<Id, Ret>)
    requires Shows(ids, values)
    ensures ids.Keys == values.Keys
    ensures forall id <- ids :: values[id].target == ids[id].target && values[id].index == ids[id].index
  {}

  lemma SameKeys(ids: map<Id, RetObject>)
    ensures ValueMap(ids).Keys == ids.Keys && (ValueMap(ids) == map[] <==> ids == map[])
    ensures forall id <- ids :: ValueMap(ids)[id].target == ids[id].target && ValueMap(ids)[id].index == ids[id].index
  {
    assert ValueMap(ids).Keys == ids.Keys;
  }

  lemma ValuesJoin(a: seq<RetObject>, b: seq<RetObject>)
    ensures Values(a + b) == Values(a) + Values(b)
    ensures Values([]) == []
  {}

  lemma NoneMarked(resp: Option<Payload>, error: Option<RetError>)
    ensures Marked([], resp, error, [])
  {}

  lemma MarkedMore(rs: seq<RetObject>, resp: Option<Payload>, error: Option<RetError>, values: seq<Ret>, r: RetObject)
    requires Marked(rs, resp, error, values) && r.resp == resp && r.error == error
    ensures Marked(rs + [r], resp, error, values + [Ret(r.target, r.index, resp, error)])
  {}

  lemma MarkedValues(rs: seq<RetObject>, resp: Option<Payload>, error: Option<RetError>, values: seq<Ret>)
    requires Marked(rs, resp, error, values)
    ensures Values(rs) == values
    ensures forall r <- rs :: r.resp == resp && r.error == error
  {
    forall k | 0 <= k < |rs|
      ensures Values(rs)[k] == values[k]
    {
      assert rs[k] in rs;
    }
  }

  /** The result objects of the first streams of a list. */
  ghost predicate Objects(got: seq<RetObject>, list: seq<Id>, ids: map<Id, RetObject>) {
    |got| <= |list| && forall k :: 0 <= k < |got| ==> list[k] in ids && got[k] == ids[list[k]]
  }

  lemma ObjectsMore(got: seq<RetObject>, list: seq<Id>, ids: map<Id, RetObject>, r: RetObject)
    requires Objects(got, list, ids) && |got| < |list| && list[|got|] in ids && r == ids[list[|got|]]
    ensures Objects(got + [r], list, ids)
  {}

  lemma NoObjects(list: seq<Id>, ids: map<Id, RetObject>)
    ensures Objects([], list, ids)
  {}

  /** Different streams have different result objects, none of them a recorded failure. */
  ghost predicate Separate(ids: map<Id, RetObject>, errors: seq<RetObject>) {
    && (forall a, b :: a in ids && b in ids && a != b ==> ids[a] != ids[b])
    && (forall id, e :: id in ids && e in errors ==> ids[id] != e)
  }

  lemma ErrorsApart(ids: map<Id, RetObject>, errors: seq<RetObject>)
    requires Separate(ids, errors)
    ensures forall k :: 0 <= k < |errors| ==> errors[k] !in ids.Values
  {
    forall k, id | 0 <= k < |errors| && id in ids
      ensures ids[id] != errors[k]
    {
      assert errors[k] in errors;
    }
  }

  lemma DataStep(ids: map<Id, Ret>, list: seq<Id>, k: nat, p: Payload, done: seq<Ret>)
    requires k < |list|
    ensures Prepend(done, RecvData(ids, list[k..], p)) ==
            if list[k] !in ids then Taken(ids, done, Unexpected("unexpected stream id received for StreamData"))
            else
              var r := ids[list[k]].(resp := Some(p), error := None);
              Prepend(done + [r], RecvData(ids[list[k] := r], list[k + 1..], p))
  {
    assert list[k..][0] == list[k] && list[k..][1..] == list[k + 1..];
    if list[k] in ids {
      var r := ids[list[k]].(resp := Some(p), error := None);
      var rest := RecvData(ids[list[k] := r], list[k + 1..], p).out;
      assert done + ([r] + rest) == done + [r] + rest;
    }
  }

  lemma DataEnd(ids: map<Id, Ret>, list: seq<Id>, p: Payload)
    ensures RecvData(ids, list[|list|..], p) == Taken(ids, [], Fine)
  {}

  lemma ClosedStep(ids: map<Id, Ret>, list: seq<Id>, k: nat, e: RetError, done: seq<Ret>)
    requires k < |list|
    ensures Prepend(done, RecvClosed(ids, list[k..], e)) ==
            if list[k] !in ids then Taken(ids, done, Crashed)
            else
              var r := ids[list[k]].(resp := None, error := Some(e));
              Prepend(done + [r], RecvClosed(ids - {list[k]}, list[k + 1..], e))
  {
    assert list[k..][0] == list[k] && list[k..][1..] == list[k + 1..];
    if list[k] in ids {
      var r := ids[list[k]].(resp := None, error := Some(e));
      var rest := RecvClosed(ids - {list[k]}, list[k + 1..], e).out;
      assert done + ([r] + rest) == done + [r] + rest;
    }
  }

  lemma ClosedEnd(ids: map<Id, Ret>, list: seq<Id>, e: RetError)
    ensures RecvClosed(ids, list[|list|..], e) == Taken(ids, [], Fine)
  {}

  class ProxyStream {
    const dryRun: bool
    var ids: map<Id, RetObject>
    var errors: seq<RetObject>
    var sentErrors: bool
    var sendClosed: bool
    var wire: seq<Request>
    var halfClosed: bool

    ghost predicate Valid()
      reads this
    {
      Separate(ids, errors) && (halfClosed ==> sendClosed)
    }

    ghost function View(): State
      reads this, ids.Values, errors
    {
      State(ValueMap(ids), Values(errors), sentErrors)
    }

    constructor (dryRun: bool, ids: map<Id, RetObject>, errors: seq<RetObject>)
      requires Separate(ids, errors)
      ensures Valid() && View() == State(ValueMap(ids), Values(errors), false)
      ensures this.dryRun == dryRun && this.ids == ids && this.errors == errors
      ensures !sendClosed && !halfClosed && wire == []
    {
      this.dryRun, this.ids, this.errors := dryRun, ids, errors;
      sentErrors, sendClosed, halfClosed, wire := false, false, false, [];
    }

    /** CloseSend closes the stream to the proxy the first time, whatever comes of it. */
    method CloseSend(fails: bool) returns (ok: bool)
      requires Valid()
      modifies this`sendClosed, this`halfClosed
      ensures Valid() && sendClosed
      ensures ok == (old(sendClosed) || !fails)
      ensures halfClosed == (old(halfClosed) || (!old(sendClosed) && !fails))
    {
      if sendClosed {
        return true;
      }
      sendClosed := true;
      if fails {
        return false;
      }
      halfClosed := true;
      ok := true;
    }

    /** One request that names every open stream exactly once. */
    method SendMsg(p: Payload, fails: bool) returns (ok: bool, ghost order: seq<Id>)
      requires Valid()
      modifies this`wire
      ensures Valid()
      ensures ok == (!sendClosed && !fails)
      ensures ok ==> Composed.Lists(order, ids.Keys) && wire == old(wire) + [StreamData(order, p)]
      ensures !ok ==> wire == old(wire)
    {
      order := [];
      if sendClosed {
        return false, [];
      }
      var rest := ids.Keys;
      var named: seq<Id> := [];
      while rest != {}
        invariant rest <= ids.Keys && Composed.Lists(named, ids.Keys - rest)
        decreases |rest|
      {
        var id :| id in rest;
        named := named + [id];
        rest := rest - {id};
      }
      if fails {
        return false, [];
      }
      wire := wire + [StreamData(named, p)];
      ok, order := true, named;
    }

    /** Writes a response into the result object of an open stream. */
    method Update(id: Id, p: Payload, ghost values: map<Id, Ret>, ghost got: seq<RetObject>, ghost done: seq<Ret>)
      returns (r: RetObject)
      requires Valid() && id in ids && Shows(ids, values) && Marked(got, Some(p), None, done)
      modifies ids[id]
      ensures r == ids[id] && Shows(ids, values[id := Ret(r.target, r.index, Some(p), None)])
      ensures Marked(got + [r], Some(p), None, done + [Ret(r.target, r.index, Some(p), None)])
    {
      r := ids[id];
      r.resp, r.error := Some(p), None;
      MarkedMore(got, Some(p), None, done, r);
    }

    /** Writes the final error of a stream into its result object and forgets the stream. */
    method Release(id: Id, e: RetError, ghost values: map<Id, Ret>, ghost got: seq<RetObject>, ghost done: seq<Ret>)
      returns (r: RetObject)
      requires Valid() && id in ids && Shows(ids, values) && Marked(got, None, Some(e), done)
      modifies this`ids, ids[id]
      ensures Valid() && ids == old(ids) - {id} && Shows(ids, values - {id})
      ensures r == old(ids)[id] && Marked(got + [r], None, Some(e), done + [Ret(r.target, r.index, None, Some(e))])
    {
      r := ids[id];
      r.resp, r.error := None, Some(e);
      ids := ids - {id};
      MarkedMore(got, None, Some(e), done, r);
    }

    method TakeData(list: seq<Id>, p: Payload) returns (got: seq<RetObject>, end: End)
      requires Valid()
      modifies ids.Values
      ensures Taken(ValueMap(ids), Values(got), end) == RecvData(old(ValueMap(ids)), list, p)
      ensures Objects(got, list, ids)
    {
      hide ValueMap, Values, RecvData, Shows, Marked, Objects, Separate;
      NoObjects(list, ids);
      got, end := [], Fine;
      ghost var values: map<Id, Ret>, done: seq<Ret> := ValueMap(ids), [];
      ShowsItself(ids);
      ghost var goal := RecvData(values, list, p);
      NoneMarked(Some(p), None);
      assert list[0..] == list;
      for k := 0 to |list|
        invariant Shows(ids, values) && Marked(got, Some(p), None, done)
        invariant |got| == k && Objects(got, list, ids)
        invariant end.Fine? && Prepend(done, RecvData(values, list[k..], p)) == goal
      {
        DataStep(values, list, k, p, done);
        ShowsKeys(ids, values);
        if list[k] !in ids {
          end := Unexpected("unexpected stream id received for StreamData");
          break;
        }
        var r := Update(list[k], p, values, got, done);
        ObjectsMore(got, list, ids, r);
        got := got + [r];
        ghost var value := Ret(r.target, r.index, Some(p), None);
        values, done := values[list[k] := value], done + [value];
      }
      if end.Fine? {
        DataEnd(values, list, p);
      }
      Shown(ids, values);
      MarkedValues(got, Some(p), None, done);
    }

    method TakeClosed(list: seq<Id>, e: RetError) returns (got: seq<RetObject>, end: End)
      requires Valid()
      modifies this`ids, ids.Values
      ensures Valid()
      ensures Taken(ValueMap(ids), Values(got), end) == RecvClosed(old(ValueMap(ids)), list, e)
      ensures forall id <- ids :: id in old(ids) && ids[id] == old(ids)[id]
      ensures Objects(got, list, old(ids)) && forall r <- got :: r.resp == None && r.error == Some(e)
    {
      hide ValueMap, Values, RecvClosed, Shows, Marked, Objects, Separate;
      NoObjects(list, ids);
      got, end := [], Fine;
      ghost var values: map<Id, Ret>, done: seq<Ret> := ValueMap(ids), [];
      ShowsItself(ids);
      ghost var goal := RecvClosed(values, list, e);
      NoneMarked(None, Some(e));
      assert list[0..] == list;
      for k := 0 to |list|
        invariant Valid() && Shows(ids, values) && Marked(got, None, Some(e), done)
        invariant forall id <- ids :: id in old(ids) && ids[id] == old(ids)[id]
        invariant |got| == k && Objects(got, list, old(ids))
        invariant end.Fine? && Prepend(done, RecvClosed(values, list[k..], e)) == goal
      {
        ClosedStep(values, list, k, e, done);
        ShowsKeys(ids, values);
        if list[k] !in ids {
          end := Crashed;
          break;
        }
        var r := Release(list[k], e, values, got, done);
        ObjectsMore(got, list, old(ids), r);
        got := got + [r];
        values, done := values - {list[k]}, done + [Ret(r.target, r.index, None, Some(e))];
      }
      if end.Fine? {
        ClosedEnd(values, list, e);
      }
      Shown(ids, values);
      MarkedValues(got, None, Some(e), done);
    }

    /** What one reply does, whatever its kind. */
    method TakeReply(reply: Reply) returns (got: seq<RetObject>, end: End)
      requires Valid()
      modifies this`ids, ids.Values
      ensures Valid()
      ensures Taken(ValueMap(ids), Values(got), end) == RecvReply(dryRun, old(ValueMap(ids)), reply)
      ensures forall id <- ids :: id in old(ids) && ids[id] == old(ids)[id]
      ensures HandsOut(got, Touched(old(ids).Keys, reply), old(ids))
      ensures forall id <- old(ids) :: old(ids)[id].Value() == Rewritten(dryRun, old(ValueMap(ids)), reply, id)
    {
      hide ValueMap, Values, RecvData, RecvClosed, Objects;
      got, end := [], Unexpected("unexpected answer on stream");
      ghost var before := ValueMap(ids);
      SameKeys(ids);
      match reply {
        case DataReply(list, p) =>
          got, end := TakeData(list, p);
          DataObjects(dryRun, before, ids, got, list, p, end);
        case CloseReply(list, st) =>
          if exists id <- list :: id !in ids {
            end := Unexpected("unexpected stream id received for ServerClose");
            NothingTaken(ids, got);
          } else {
            got, end := TakeClosed(list, CloseError(dryRun, st));
            ClosedObjects(dryRun, before, old(ids), ids, got, list, st, end);
          }
        case _ =>
          NothingTaken(ids, got);
      }
    }

    /** The next reply, with a stream open. */
    method ReceiveReply(reply: Reply) returns (canned: seq<RetObject>, got: seq<RetObject>, outcome: Outcome)
      requires Valid() && ids != map[]
      modifies this`ids, this`sentErrors, ids.Values
      ensures Valid() && canned == if old(sentErrors) then [] else errors
      ensures Called(View(), Values(canned + got), outcome) == RecvCall(dryRun, old(View()), Got(reply))
      ensures forall id <- ids :: id in old(ids) && ids[id] == old(ids)[id]
      ensures HandsOut(got, Touched(old(ids).Keys, reply), old(ids))
      ensures forall id <- old(ids) :: old(ids)[id].Value() == Rewritten(dryRun, old(View()).ids, reply, id)
    {
      hide RecvCall, RecvReply, OutcomeOf, ValueMap, Values, Touched, Rewritten, HandsOut, Separate;
      ghost var before := View();
      SameKeys(ids);
      CallCases(dryRun, before, Got(reply));
      ErrorsApart(ids, errors);
      canned := if sentErrors then [] else errors;
      ValuesJoin(canned, []);
      sentErrors := true;
      var end;
      got, end := TakeReply(reply);
      assert Values(errors) == before.errors;
      ValuesJoin(canned, got);
      outcome := OutcomeOf(end);
    }

    /** The recorded failures due now, and the result objects of the next reply. */
    method Receive(inc: Incoming) returns (canned: seq<RetObject>, got: seq<RetObject>, outcome: Outcome)
      requires Valid()
      modifies this`ids, this`sentErrors, ids.Values
      ensures Valid() && canned == if old(sentErrors) || old(ids) == map[] then [] else errors
      ensures Called(View(), Values(canned + got), outcome) == RecvCall(dryRun, old(View()), inc)
      ensures forall id <- ids :: id in old(ids) && ids[id] == old(ids)[id]
      ensures HandsOut(got, CallTags(dryRun, old(View()), [inc]), old(ids))
      ensures forall id <- old(ids) :: old(ids)[id].Value() == AfterCall(dryRun, old(View()).ids, inc, id)
    {
      hide RecvCall, ValueMap, Values, Touched, CallTags, Rewritten, HandsOut, Separate;
      SameKeys(ids);
      TagCases(dryRun, View(), inc);
      if ids != map[] && inc.Got? {
        canned, got, outcome := ReceiveReply(inc.reply);
        return;
      }
      CallCases(dryRun, View(), inc);
      NothingTaken(ids, []);
      canned, got := if sentErrors || ids == map[] then [] else errors, [];
      ValuesJoin(canned, got);
      outcome := if ids == map[] then ReturnedEof else ReturnedError;
      sentErrors := sentErrors || ids != map[];
    }

    /** RecvMsg(*[]*Ret) does what RecvCall says. It appends the stream's own objects, and
        every object shows afterwards what the reply wrote to it, whoever holds it. */
    method RecvMsg(m: seq<RetObject>, inc: Incoming) returns (out: seq<RetObject>, outcome: Outcome, ghost got: seq<RetObject>)
      requires Valid()
      modifies this`ids, this`sentErrors, ids.Values
      ensures Valid() && m <= out
      ensures Called(View(), Values(out[|m|..]), outcome) == RecvCall(dryRun, old(View()), inc)
      ensures forall id <- ids :: id in old(ids) && ids[id] == old(ids)[id]
      ensures out == m + (if old(sentErrors) || old(ids) == map[] then [] else errors) + got
      ensures HandsOut(got, CallTags(dryRun, old(View()), [inc]), old(ids))
      ensures forall id <- old(ids) :: old(ids)[id].Value() == AfterCall(dryRun, old(View()).ids, inc, id)
    {
      hide RecvCall, ValueMap, Values, CallTags, AfterCall, HandsOut, Separate;
      var canned, taken;
      canned, taken, outcome := Receive(inc);
      out, got := m + canned + taken, taken;
      assert out[|m|..] == canned + taken;
    }
  }

  /** What a result object shows after a call. */
  function AfterCall(dryRun: bool, ids: map<Id, Ret>, inc: Incoming, id: Id): Ret
    requires id in ids
  {
    if inc.Got? then Rewritten(dryRun, ids, inc.reply, id) else ids[id]
  }

  lemma TagCases(dryRun: bool, p: State, inc: Incoming)
    ensures CallTags(dryRun, p, [inc]) == if p.ids != map[] && inc.Got? then Touched(p.ids.Keys, inc.reply) else []
  {
    assert [inc][1..] == [];
  }

  /** A result handed out earlier keeps its value over a later call exactly if that
      call's reply does not reach its stream, or writes what is there already. */
  lemma KeepsExactly(dryRun: bool, ids: map<Id, Ret>, inc: Incoming, id: Id)
    requires id in ids
    ensures AfterCall(dryRun, ids, inc, id) == ids[id] <==>
            || inc.RecvFails? || id !in Touched(ids.Keys, inc.reply)
            || (inc.reply.DataReply? && ids[id].resp == Some(inc.reply.payload) && ids[id].error == None)
            || (inc.reply.CloseReply? && ids[id].resp == None && ids[id].error == Some(CloseError(dryRun, inc.reply.status)))
  {
    assert inc.Got? && id in Touched(ids.Keys, inc.reply) ==> inc.reply.DataReply? || inc.reply.CloseReply?;
  }

  /** Two messages on one stream: the second call changes what the first returned. */
  method FirstResultChanges(target: string, p: Payload, q: Payload) returns (first: RetObject, second: RetObject, ghost was: Ret)
    ensures was.resp == Some(p) && first == second && first.resp == Some(q)
  {
    hide RecvCall, ValueMap, Values, Rewritten, CallTags, AfterCall;
    var r := new RetObject(target, 0);
    var s := new ProxyStream(false, map[1 := r], []);
    SameKeys(s.ids);
    OneStream(s, ValueMap(s.ids), p);
    var out, outcome, got := s.RecvMsg([], Got(DataReply([1], p)));
    first := out[0];
    was := first.Value();
    SameKeys(s.ids);
    OneStream(s, ValueMap(s.ids), q);
    var out', outcome', got' := s.RecvMsg([], Got(DataReply([1], q)));
    second := out'[0];
  }

  lemma OneStream(s: ProxyStream, ids: map<Id, Ret>, p: Payload)
    requires s.ids.Keys == {1} && ids == ValueMap(s.ids)
    ensures RecvCall(false, s.View(), Got(DataReply([1], p))).state.ids.Keys == {1}
    ensures CallTags(false, s.View(), [Got(DataReply([1], p))]) == [1]
    ensures AfterCall(false, ids, Got(DataReply([1], p)), 1) == ids[1].(resp := Some(p), error := None)
  {
    hide RecvData;
    DataOne(ids, 1, p);
    DataTouches(ids, [1], p);
    assert OpenPrefix(ids.Keys, [1]) == [1];
    TagCases(false, s.View(), Got(DataReply([1], p)));
  }

  /** The result objects of the streams listed, in order. */
  ghost predicate HandsOut(got: seq<RetObject>, tags: seq<Id>, ids: map<Id, RetObject>) {
    |got| == |tags| && forall k :: 0 <= k < |tags| ==> tags[k] in ids && got[k] == ids[tags[k]]
  }

  lemma NothingTaken(ids: map<Id, RetObject>, got: seq<RetObject>)
    requires got == []
    ensures HandsOut(got, [], ids) && Values(got) == []
    ensures forall id <- ids :: id in ValueMap(ids) && ids[id].Value() == ValueMap(ids)[id]
  {}

  lemma DataObjects(dryRun: bool, before: map<Id, Ret>, ids: map<Id, RetObject>, got: seq<RetObject>, list: seq<Id>, p: Payload, end: End)
    requires before.Keys == ids.Keys && Taken(ValueMap(ids), Values(got), end) == RecvData(before, list, p) && Objects(got, list, ids)
    ensures HandsOut(got, Touched(before.Keys, DataReply(list, p)), ids)
    ensures forall id <- ids :: ids[id].Value() == Rewritten(dryRun, before, DataReply(list, p), id)
  {
    hide RecvData, OpenPrefix;
    DataTouches(before, list, p);
    forall id <- ids
      ensures ids[id].Value() == Rewritten(dryRun, before, DataReply(list, p), id)
    {
      DataRewrites(before, list, p, id);
      assert ValueMap(ids)[id] == ids[id].Value();
    }
  }

  lemma ClosedObjects(dryRun: bool, before: map<Id, Ret>, ids: map<Id, RetObject>, ids': map<Id, RetObject>,
                      got: seq<RetObject>, list: seq<Id>, st: Status, end: End)
    requires before.Keys == ids.Keys && (forall id <- list :: id in ids)
    requires forall id <- ids :: before[id].target == ids[id].target && before[id].index == ids[id].index
    requires forall id <- ids' :: id in ids && ids'[id] == ids[id]
    requires Taken(ValueMap(ids'), Values(got), end) == RecvClosed(before, list, CloseError(dryRun, st)) && Objects(got, list, ids)
    requires forall r <- got :: r.resp == None && r.error == Some(CloseError(dryRun, st))
    ensures HandsOut(got, Touched(before.Keys, CloseReply(list, st)), ids)
    ensures forall id <- ids :: ids[id].Value() == Rewritten(dryRun, before, CloseReply(list, st), id)
  {
    hide RecvClosed, FreshPrefix;
    ClosedTouches(before, {}, list, CloseError(dryRun, st));
    var n := |got|;
    assert n == |RecvClosed(before, list, CloseError(dryRun, st)).out|;
    forall id <- ids
      ensures ids[id].Value() == Rewritten(dryRun, before, CloseReply(list, st), id)
    {
      ClosedLeaves(before, list, CloseError(dryRun, st), id);
      if id in list[..n] {
        var k :| 0 <= k < n && list[k] == id;
        assert got[k] == ids[id] && got[k] in got;
      } else {
        assert ValueMap(ids')[id] == ids[id].Value();
      }
    }
  }
}
