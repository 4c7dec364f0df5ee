/**
 The data of a TargetStreamSet as a value, and what each of its operations does
 to that value. `closed` keeps the final record of every removed stream, so the
 issued ids are exactly the keys of the two maps.
 */
module StreamSets {
  import opened Protocol
  import opened NonceKeys
  import opened TargetStreams

  datatype StreamSet = StreamSet(streams: map<Id, Stream>, closed: map<Id, Stream>, pairs: set<string>, wg: nat)

  const EMPTY := StreamSet(map[], map[], {}, 0)

  function Issued(t: StreamSet): set<Id> {
    t.streams.Keys + t.closed.Keys
  }

  /** The record of an issued stream, open or closed. */
  function At(t: StreamSet, id: Id): Stream
    requires id in Issued(t)
  {
    if id in t.streams then t.streams[id] else t.closed[id]
  }

  function PairOf(info: Info): string {
    Key(info.target, info.nonce)
  }

  /** A started stream: registered, its pair used up, one more goroutine to wait for. */
  function WithStream(t: StreamSet, id: Id, info: Info): StreamSet {
    t.(streams := t.streams[id := NewStream(info)], pairs := t.pairs + {PairOf(info)}, wg := t.wg + 1)
  }

  /** Add as a whole: the stream is registered and its goroutine has started. */
  function Started(t: StreamSet, id: Id, info: Info, announced: bool): StreamSet {
    var t' := WithStream(t, id, info);
    t'.(streams := t'.streams[id := NewStream(info).(run := Running, announced := announced)])
  }

  function Finish(st: Stream): Stream {
    st.(run := Finished)
  }

  /** The dispatcher received id on doneChan. */
  function Without(t: StreamSet, id: Id): StreamSet
    requires id in t.streams
  {
    t.(streams := t.streams - {id}, closed := t.closed[id := Finish(t.streams[id])], wg := if t.wg == 0 then 0 else t.wg - 1)
  }

  datatype Problem = Undecodable | NoSuchStream(id: Id) | WrongType(id: Id) | TornDown(status: Status) | SentOnClosed
  datatype Checked = Cleared(ids: seq<Id>) | Blocked(problem: Problem)

  /** What stands in the way of sending a message of type typeName to id, if anything. */
  function Obstacle(t: StreamSet, id: Id, typeName: string): Option<Problem> {
    if id in t.streams then
      if t.streams[id].info.rpc.requestType == typeName then None else Some(WrongType(id))
    else if id in t.closed then None
    else Some(NoSuchStream(id))
  }

  /** The listed ids that are still open, in list order. */
  function OpenOf(t: StreamSet, ids: seq<Id>): seq<Id> {
    if ids == [] then []
    else
      var n := |ids| - 1;
      OpenOf(t, ids[..n]) + (if ids[n] in t.streams then [ids[n]] else [])
  }

  /** The first listed id with an obstacle decides; without one all open ids are accepted. */
  function Validate(t: StreamSet, ids: seq<Id>, typeName: string): Checked {
    if ids == [] then Cleared([])
    else
      var n := |ids| - 1;
      var before := Validate(t, ids[..n], typeName);
      var o := Obstacle(t, ids[n], typeName);
      if before.Blocked? then before
      else if o.Some? then Blocked(o.value)
      else Cleared(OpenOf(t, ids))
  }

  function Shut(st: Stream): Stream {
    st.(inbox := st.inbox.(closed := true))
  }

  /** CloseSend on the listed streams that are open; others are ignored. */
  function ShutListed(streams: map<Id, Stream>, ids: seq<Id>): map<Id, Stream> {
    map id | id in streams :: if id in ids then Shut(streams[id]) else streams[id]
  }

  function ShutAll(streams: map<Id, Stream>): map<Id, Stream> {
    map id | id in streams :: Shut(streams[id])
  }

  function Cancel(st: Stream): Stream {
    st.(cancelled := true)
  }

  function CancelListed(streams: map<Id, Stream>, ids: seq<Id>): map<Id, Stream> {
    map id | id in streams :: if id in ids then Cancel(streams[id]) else streams[id]
  }

  /** The listed ids before the first one that was never issued. */
  function Known(t: StreamSet, ids: seq<Id>): seq<Id> {
    if ids == [] || ids[0] !in Issued(t) then [] else [ids[0]] + Known(t, ids[1..])
  }

  /** reqChan <- p */
  function Push(st: Stream, p: Payload): Stream {
    st.(inbox := st.inbox.(queue := st.inbox.queue + [p], enqueued := st.inbox.enqueued + [p]))
  }

  // ---- Validation, characterised ----

  /** Every listed id was issued, and every open one takes messages of this type. */
  predicate Sendable(t: StreamSet, ids: seq<Id>, typeName: string) {
    forall id <- ids :: id in Issued(t) && (id in t.streams ==> t.streams[id].info.rpc.requestType == typeName)
  }

  lemma {:induction false} ValidateAccepts(t: StreamSet, ids: seq<Id>, typeName: string)
    ensures Sendable(t, ids, typeName) ==> Validate(t, ids, typeName) == Cleared(OpenOf(t, ids))
    ensures Validate(t, ids, typeName).Cleared? ==> Sendable(t, ids, typeName)
  {
    if ids != [] {
      var n := |ids| - 1;
      ValidateAccepts(t, ids[..n], typeName);
      assert ids == ids[..n] + [ids[n]];
    }
  }

  lemma {:induction false} OpenOfOpen(t: StreamSet, ids: seq<Id>)
    ensures forall id <- OpenOf(t, ids) :: id in ids && id in t.streams
  {
    if ids != [] {
      OpenOfOpen(t, ids[..|ids| - 1]);
    }
  }

  lemma {:induction false} CopiesConcat(a: seq<Id>, b: seq<Id>, id: Id, p: Payload)
    ensures Copies(a + b, id, p) == Copies(a, id, p) + Copies(b, id, p)
  {
    if a == [] {
      assert a + b == b;
    } else {
      CopiesConcat(a[1..], b, id, p);
      assert (a + b)[1..] == a[1..] + b;
    }
  }

  /** Dropping the closed ids loses no copy for an open one. */
  lemma {:induction false} OpenOfCopies(t: StreamSet, ids: seq<Id>, id: Id, p: Payload)
    requires id in t.streams
    ensures Copies(OpenOf(t, ids), id, p) == Copies(ids, id, p)
  {
    if ids != [] {
      var n := |ids| - 1;
      OpenOfCopies(t, ids[..n], id, p);
      CopiesConcat(OpenOf(t, ids[..n]), if ids[n] in t.streams then [ids[n]] else [], id, p);
      CopiesConcat(ids[..n], [ids[n]], id, p);
      assert ids == ids[..n] + [ids[n]];
    }
  }

  lemma {:induction false} KnownIsPrefix(t: StreamSet, ids: seq<Id>)
    ensures Known(t, ids) <= ids
    ensures forall id <- Known(t, ids) :: id in Issued(t)
    ensures Known(t, ids) == ids <==> forall id <- ids :: id in Issued(t)
    ensures Known(t, ids) != ids ==> ids[|Known(t, ids)|] !in Issued(t)
  {
    if ids != [] && ids[0] in Issued(t) {
      KnownIsPrefix(t, ids[1..]);
    }
  }
}
