/**
 TargetStreamSet as the object that the dispatch goroutine updates in place: a map
 to shared TargetStream objects, the ids and nonce pairs used so far, and the wait
 group. Each method is proved against the value-level operation of module StreamSets.
 */
module TargetStreamSets {
  import opened Protocol
  import opened NonceKeys
  import opened TargetStreams
  import opened StreamSets

  /** Which arm of the select in Send is taken. */
  datatype Choice = ToQueue | SeesDone(error: Status)

  class TargetStream {
    var state: Stream
    var closeOnce: bool

    /** The request channel was closed exactly if the once-guard has fired. */
    ghost predicate Valid()
      reads this
    {
      closeOnce == state.inbox.closed
    }

    constructor (info: Info)
      ensures Valid() && state == NewStream(info)
    {
      state, closeOnce := NewStream(info), false;
    }

    method CloseSend()
      requires Valid()
      modifies this
      ensures Valid() && state == Shut(old(state))
    {
      if !closeOnce {
        closeOnce := true;
        assert !state.inbox.closed;
        state := Shut(state);
      }
    }

    /** The goroutine that Add starts for a new stream. */
    method Go(announced: bool)
      requires Valid()
      modifies this
      ensures Valid() && state == old(state).(run := Running, announced := announced)
    {
      state := state.(run := Running, announced := announced);
    }

    method ClientCancel()
      requires Valid()
      modifies this
      ensures Valid() && state == Cancel(old(state))
    {
      state := Cancel(state);
    }

    /** Writing to a closed channel panics. */
    method Send(p: Payload, choice: Choice) returns (problem: Option<Problem>)
      requires Valid()
      modifies this
      ensures Valid()
      ensures state == if problem.None? then Push(old(state), p) else old(state)
      ensures problem == Arm(old(state), choice)
    {
      problem := Arm(state, choice);
      if problem.None? {
        state := Push(state, p);
      }
    }
  }

  datatype Added = Reuse | Replied(reply: Reply)

  class TargetStreamSet {
    const methods: map<string, Method>
    var streams: map<Id, TargetStream>
    var closedStreams: set<Id>
    var noncePairs: set<string>
    var wg: nat
    ghost var removed: map<Id, Stream>

    ghost predicate Valid()
      reads this, streams.Values
    {
      && removed.Keys == closedStreams
      && (forall a, b :: a in streams && b in streams && a != b ==> streams[a] != streams[b])
      && (forall id <- streams :: streams[id].Valid())
    }

    ghost function View(): StreamSet
      reads this, streams.Values
    {
      StreamSet(map id | id in streams :: streams[id].state, removed, noncePairs, wg)
    }

    constructor (methods: map<string, Method>)
      ensures Valid() && View() == EMPTY && this.methods == methods
    {
      this.methods := methods;
      streams, closedStreams, noncePairs, wg, removed := map[], {}, {}, 0, map[];
    }

    method Empty() returns (b: bool)
      ensures b <==> View().streams == map[]
    {
      b := streams == map[];
      assert View().streams.Keys == streams.Keys;
    }

    method Has(id: Id) returns (b: bool)
      requires Valid()
      ensures (b <==> id in View().streams) && (b <==> id in streams)
    {
      b := id in streams;
    }

    method Get(id: Id) returns (st: Stream)
      requires Valid() && id in View().streams
      ensures id in streams && st == View().streams[id] && st == streams[id].state
    {
      st := streams[id].state;
    }

    method Knows(id: Id) returns (b: bool)
      requires Valid()
      ensures b <==> id in Issued(View())
    {
      b := id in streams || id in closedStreams;
    }

    ghost predicate Displays(values: map<Id, Stream>)
      reads this, streams.Values
    {
      streams.Keys == values.Keys && forall id <- streams :: streams[id].state == values[id]
    }

    lemma DisplaysItself()
      ensures Displays(View().streams)
    {}

    lemma Displayed(values: map<Id, Stream>)
      requires Displays(values)
      ensures View() == StreamSet(values, removed, noncePairs, wg)
    {}

    lemma DisplaysKeys(values: map<Id, Stream>)
      requires Displays(values)
      ensures streams.Keys == values.Keys
    {}

    method Register(id: Id, stream: TargetStream, pair: string, announced: bool, ghost values: map<Id, Stream>)
      requires Valid() && Displays(values) && id !in streams && stream !in streams.Values && stream.Valid()
      modifies this`streams, this`noncePairs, this`wg, stream
      ensures Valid() && Displays(values[id := old(stream.state).(run := Running, announced := announced)])
      ensures streams == old(streams)[id := stream] && noncePairs == old(noncePairs) + {pair} && wg == old(wg) + 1
    {
      streams := streams[id := stream];
      noncePairs := noncePairs + {pair};
      wg := wg + 1;
      stream.Go(announced);
    }

    /** A pair is used up only by a start that succeeds. `announced` says which arm the
        select of sendReply took. */
    method Add(target: string, methodName: string, nonce: Nonce, dryRun: bool, newId: Id, announced: bool)
      returns (r: Added)
      requires Valid() && newId !in View().streams
      modifies this
      ensures Valid() && fresh(streams.Values - old(streams.Values))
      ensures r.Reuse? <==> Key(target, nonce) in old(View()).pairs
      ensures r.Replied? ==>
                r.reply == StartReply(target, nonce, if methodName in methods then StreamId(newId) else ErrorStatus(Status(3, "unknown method")))
      ensures View() == if r.Replied? && methodName in methods
                        then Started(old(View()), newId, Info(target, nonce, methods[methodName], dryRun), announced)
                        else old(View())
    {
      hide NewStream, Started, Displays;
      var pair := Key(target, nonce);
      if pair in noncePairs {
        return Reuse;
      }
      if methodName !in methods {
        return Replied(StartReply(target, nonce, ErrorStatus(Status(3, "unknown method"))));
      }
      var info := Info(target, nonce, methods[methodName], dryRun);
      ghost var before := View();
      DisplaysItself();
      var stream := new TargetStream(info);
      Register(newId, stream, pair, announced, before.streams);
      Displayed(before.streams[newId := NewStream(info).(run := Running, announced := announced)]);
      StartedIs(before, newId, info, announced);
      return Replied(StartReply(target, nonce, StreamId(newId)));
    }

    /** A stream's own goroutines have changed its state, not its request channel. */
    method Put(id: Id, st: Stream)
      requires Valid() && id in streams && st.inbox.closed == streams[id].state.inbox.closed
      modifies streams[id]
      ensures Valid() && View() == old(View()).(streams := old(View()).streams[id := st])
    {
      ghost var before := View().streams;
      streams[id].state := st;
      assert View().streams == before[id := st];
    }

    /** wg.Done, which every stream's goroutine ends with. */
    method Done()
      requires Valid()
      modifies this`wg
      ensures Valid() && View() == old(View()).(wg := if old(View()).wg == 0 then 0 else old(View()).wg - 1)
    {
      wg := if wg == 0 then 0 else wg - 1;
    }

    /** doneChan only ever carries the id of an open stream. */
    method Remove(id: Id)
      requires Valid() && id in streams
      modifies this
      ensures Valid() && streams == old(streams) - {id}
      ensures id in old(View()).streams && View() == Without(old(View()), id).(wg := old(View()).wg)
    {
      removed := removed[id := Finish(streams[id].state)];
      streams := streams - {id};
      closedStreams := closedStreams + {id};
    }

    method CloseOne(id: Id, ghost values: map<Id, Stream>)
      requires Valid() && Displays(values) && id in streams && id in values
      modifies streams[id]
      ensures Valid() && Displays(values[id := Shut(values[id])])
    {
      streams[id].CloseSend();
    }

    method ClientClose(ids: seq<Id>)
      requires Valid()
      modifies streams.Values
      ensures Valid() && View() == old(View()).(streams := ShutListed(old(View()).streams, ids))
    {
      hide Displays, Valid, ShutListed;
      ghost var before := View().streams;
      DisplaysItself();
      ShutNone(before, ids);
      for k := 0 to |ids|
        invariant Valid() && Displays(ShutListed(before, ids[..k]))
      {
        DisplaysKeys(ShutListed(before, ids[..k]));
        ShutMore(before, ids, k);
        if ids[k] in streams {
          CloseOne(ids[k], ShutListed(before, ids[..k]));
        }
      }
      assert ids[..|ids|] == ids;
      Displayed(ShutListed(before, ids));
    }

    method ClientCloseAll()
      requires Valid()
      modifies streams.Values
      ensures Valid() && View() == old(View()).(streams := ShutAll(old(View()).streams))
    {
      hide Displays, Valid, ShutAll, ShutBut;
      ghost var before := View().streams;
      DisplaysItself();
      DisplaysKeys(before);
      ShutEnds(before);
      var rest := streams.Keys;
      while rest != {}
        invariant Valid() && rest <= before.Keys == streams.Keys && Displays(ShutBut(before, rest))
        decreases |rest|
      {
        var id :| id in rest;
        ShutOneMore(before, rest, id);
        CloseOne(id, ShutBut(before, rest));
        rest := rest - {id};
      }
      Displayed(ShutAll(before));
    }

    method CancelOne(id: Id, ghost values: map<Id, Stream>)
      requires Valid() && Displays(values) && id in streams && id in values
      modifies streams[id]
      ensures Valid() && Displays(values[id := Cancel(values[id])])
    {
      streams[id].ClientCancel();
    }

    method ClientCancel(ids: seq<Id>) returns (ok: bool)
      requires Valid()
      modifies streams.Values
      ensures Valid()
      ensures var known := Known(old(View()), ids);
              && View() == old(View()).(streams := CancelListed(old(View()).streams, known))
              && ok == (known == ids)
    {
      hide Displays, CancelListed, Known;
      ghost var t := View();
      DisplaysItself();
      CancelNone(t.streams, ids);
      for k := 0 to |ids|
        invariant Valid() && Displays(CancelListed(t.streams, ids[..k]))
        invariant ids[..k] <= Known(t, ids)
      {
        DisplaysKeys(CancelListed(t.streams, ids[..k]));
        CancelMore(t.streams, ids, k);
        KnownReaches(t, ids, k);
        if ids[k] !in streams {
          if ids[k] in closedStreams {
            continue;
          }
          Displayed(CancelListed(t.streams, ids[..k]));
          return false;
        }
        CancelOne(ids[k], CancelListed(t.streams, ids[..k]));
      }
      assert ids[..|ids|] == ids;
      KnownIsPrefix(t, ids);
      Displayed(CancelListed(t.streams, ids));
      ok := true;
    }

    method Checks(ids: seq<Id>, typeName: string) returns (checked: Checked)
      requires Valid()
      ensures checked == Validate(View(), ids, typeName)
    {
      var open: seq<Id> := [];
      ghost var t := View();
      for k := 0 to |ids|
        invariant open == OpenOf(t, ids[..k]) && Validate(t, ids[..k], typeName) == Cleared(open)
      {
        assert ids[..k + 1][..k] == ids[..k];
        var id := ids[k];
        if id !in streams {
          if id in closedStreams {
            continue;
          }
          StaysBlocked(t, ids, k + 1, typeName);
          return Blocked(NoSuchStream(id));
        }
        if streams[id].state.info.rpc.requestType != typeName {
          StaysBlocked(t, ids, k + 1, typeName);
          return Blocked(WrongType(id));
        }
        open := open + [id];
      }
      assert ids[..|ids|] == ids;
      return Cleared(open);
    }

    method SendOne(id: Id, p: Payload, choice: Choice, ghost values: map<Id, Stream>) returns (problem: Option<Problem>)
      requires Valid() && Displays(values) && id in streams && id in values
      modifies streams[id]
      ensures Valid() && Displays(if problem.None? then values[id := Push(values[id], p)] else values)
      ensures problem == Arm(values[id], choice)
    {
      problem := streams[id].Send(p, choice);
    }

    /** All checks first, then one delivery per open occurrence. */
    method Send(decodable: bool, ids: seq<Id>, p: Payload, choices: nat -> Choice)
      returns (problem: Option<Problem>, ghost open: seq<Id>, ghost count: nat)
      requires Valid()
      modifies streams.Values
      ensures Valid()
      ensures SendOutcome(old(View()), decodable, ids, p, choices, View(), problem, open, count)
    {
      hide Displays, PushEach, Arm, View, Validate, Sendable, OpenOf, Valid;
      ghost var t := View();
      open, count := [], 0;
      if !decodable {
        return Some(Undecodable), open, count;
      }
      ValidateAccepts(t, ids, p.typeName);
      OpenOfOpen(t, ids);
      var checked := Checks(ids, p.typeName);
      if checked.Blocked? {
        return Some(checked.problem), open, count;
      }
      open := checked.ids;
      DisplaysItself();
      Displayed(t.streams);
      PushNone(t.streams, open, p);
      for k := 0 to |checked.ids|
        invariant count == k && Valid() && Displays(PushEach(t.streams, open[..k], p))
        invariant forall j :: 0 <= j < k ==> Arm(t.streams[open[j]], choices(j)) == None
      {
        DisplaysKeys(PushEach(t.streams, open[..k], p));
        PushMore(t.streams, open, k, p, choices(k));
        problem := SendOne(checked.ids[k], p, choices(k), PushEach(t.streams, open[..k], p));
        if problem.Some? {
          Displayed(PushEach(t.streams, open[..k], p));
          return;
        }
        count := k + 1;
      }
      Displayed(PushEach(t.streams, open[..|open|], p));
      problem := None;
    }
  }

  /** What the chosen arm of a stream's Send comes to. */
  function Arm(st: Stream, choice: Choice): Option<Problem> {
    match choice
    case SeesDone(e) => Some(TornDown(e))
    case ToQueue => if st.inbox.closed then Some(SentOnClosed) else None
  }

  /** One copy of p for each occurrence in ids. */
  function PushEach(streams: map<Id, Stream>, ids: seq<Id>, p: Payload): map<Id, Stream> {
    map id | id in streams ::
      var copies := Copies(ids, id, p);
      streams[id].(inbox := streams[id].inbox.(queue := streams[id].inbox.queue + copies,
                                               enqueued := streams[id].inbox.enqueued + copies))
  }

  /** Before the first delivery nothing has changed. After it every listed open
      occurrence has one copy in list order, up to the first that is not accepted. */
  ghost predicate SendOutcome(t: StreamSet, decodable: bool, ids: seq<Id>, p: Payload, choices: nat -> Choice,
                              t': StreamSet, problem: Option<Problem>, open: seq<Id>, count: nat)
  {
    if !decodable then problem == Some(Undecodable) && t' == t
    else if !Sendable(t, ids, p.typeName) then
      problem.Some? && Validate(t, ids, p.typeName) == Blocked(problem.value) && t' == t
    else
      && open == OpenOf(t, ids) && count <= |open| && (forall id <- open :: id in t.streams)
      && t' == t.(streams := PushEach(t.streams, open[..count], p))
      && (forall k :: 0 <= k < count ==> Arm(t.streams[open[k]], choices(k)) == None)
      && problem == (if count == |open| then None else Arm(t.streams[open[count]], choices(count)))
      && (count < |open| ==> problem.Some?)
  }

  // ---- The loops, one step at a time ----

  lemma StartedIs(t: StreamSet, id: Id, info: Info, announced: bool)
    ensures Started(t, id, info, announced) ==
            StreamSet(t.streams[id := NewStream(info).(run := Running, announced := announced)], t.closed,
                      t.pairs + {Key(info.target, info.nonce)}, t.wg + 1)
  {}

  lemma ShutNone(streams: map<Id, Stream>, ids: seq<Id>)
    ensures ShutListed(streams, ids[..0]) == streams
  {}

  lemma ShutMore(streams: map<Id, Stream>, ids: seq<Id>, k: nat)
    requires k < |ids|
    ensures var now, next := ShutListed(streams, ids[..k]), ShutListed(streams, ids[..k + 1]);
            now.Keys == next.Keys == streams.Keys && next == if ids[k] in now then now[ids[k] := Shut(now[ids[k]])] else now
  {
    assert ids[..k + 1] == ids[..k] + [ids[k]];
  }

  ghost function ShutBut(streams: map<Id, Stream>, rest: set<Id>): map<Id, Stream> {
    map id | id in streams :: if id in rest then streams[id] else Shut(streams[id])
  }

  lemma ShutEnds(streams: map<Id, Stream>)
    ensures ShutBut(streams, streams.Keys) == streams && ShutBut(streams, {}) == ShutAll(streams)
  {}

  lemma ShutOneMore(streams: map<Id, Stream>, rest: set<Id>, id: Id)
    requires id in rest && rest <= streams.Keys
    ensures var now := ShutBut(streams, rest);
            id in now && ShutBut(streams, rest - {id}) == now[id := Shut(now[id])]
  {}

  lemma CancelNone(streams: map<Id, Stream>, ids: seq<Id>)
    ensures CancelListed(streams, ids[..0]) == streams
  {}

  lemma CancelMore(streams: map<Id, Stream>, ids: seq<Id>, k: nat)
    requires k < |ids|
    ensures var now, next := CancelListed(streams, ids[..k]), CancelListed(streams, ids[..k + 1]);
            now.Keys == next.Keys == streams.Keys && next == if ids[k] in now then now[ids[k] := Cancel(now[ids[k]])] else now
  {
    assert ids[..k + 1] == ids[..k] + [ids[k]];
  }

  lemma KnownReaches(t: StreamSet, ids: seq<Id>, k: nat)
    requires k < |ids| && ids[..k] <= Known(t, ids)
    ensures if ids[k] in Issued(t) then ids[..k + 1] <= Known(t, ids) else Known(t, ids) == ids[..k]
  {
    KnownIsPrefix(t, ids);
    var known := Known(t, ids);
    if |known| == k {
      assert known == ids[..k];
    } else {
      assert known[k] == ids[k] && known[k] in known;
    }
  }

  lemma {:induction false} StaysBlocked(t: StreamSet, ids: seq<Id>, k: nat, typeName: string)
    requires k <= |ids| && Validate(t, ids[..k], typeName).Blocked?
    ensures Validate(t, ids, typeName) == Validate(t, ids[..k], typeName)
  {
    if k < |ids| {
      var n := |ids| - 1;
      assert ids[..n][..k] == ids[..k];
      StaysBlocked(t, ids[..n], k, typeName);
    } else {
      assert ids[..k] == ids;
    }
  }

  lemma PushNone(streams: map<Id, Stream>, ids: seq<Id>, p: Payload)
    ensures PushEach(streams, ids[..0], p) == streams
  {
    forall id | id in streams
      ensures PushEach(streams, ids[..0], p)[id] == streams[id]
    {
      assert streams[id].inbox.queue + [] == streams[id].inbox.queue;
      assert streams[id].inbox.enqueued + [] == streams[id].inbox.enqueued;
    }
  }

  lemma PushMore(streams: map<Id, Stream>, ids: seq<Id>, k: nat, p: Payload, choice: Choice)
    requires k < |ids| && ids[k] in streams
    ensures var now := PushEach(streams, ids[..k], p);
            && ids[k] in now && now.Keys == streams.Keys
            && PushEach(streams, ids[..k + 1], p) == now[ids[k] := Push(now[ids[k]], p)]
            && Arm(now[ids[k]], choice) == Arm(streams[ids[k]], choice)
  {
    assert ids[..k + 1] == ids[..k] + [ids[k]];
    forall id | id in streams
      ensures PushEach(streams, ids[..k + 1], p)[id] ==
              PushEach(streams, ids[..k], p)[ids[k] := Push(PushEach(streams, ids[..k], p)[ids[k]], p)][id]
    {
      CopiesConcat(ids[..k], [ids[k]], id, p);
      var copies := Copies(ids[..k], id, p);
      assert streams[id].inbox.queue + (copies + [p]) == streams[id].inbox.queue + copies + [p];
      assert streams[id].inbox.enqueued + (copies + [p]) == streams[id].inbox.enqueued + copies + [p];
      assert copies + [] == copies;
    }
  }
}
