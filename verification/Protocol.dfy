/**
 The messages of the client/proxy protocol ("gRPC over gRPC") and the small
 vocabulary shared by both halves.
 */
module Protocol {

  datatype Option<+T> = None | Some(value: T)

  /** A stream identifier (uint64 on the wire; only its identity matters here). */
  type Id = nat

  const NONCE_LIMIT: nat := 0x1_0000_0000

  /** The client-chosen correlation value of StartStream, a uint32. */
  type Nonce = n: nat | n < NONCE_LIMIT witness 0

  /** A packed message: the name of its type and its encoded content. */
  datatype Payload = Payload(typeName: string, content: seq<nat>)

  /** A gRPC status; code 0 is OK, and an absent status reads as code 0. */
  datatype Status = Status(code: nat, message: string)

  const OK := Status(0, "")
  const CODE_ABORTED: nat := 10

  /** A non-nil error, seen as the status it converts to. */
  type Failure = s: Status | s.code != 0 witness Status(2, "")

  /** fmt.Errorf("prefix: %w", e): the code survives, the text is prefixed. */
  function Wrap(prefix: string, e: Failure): Failure {
    Status(e.code, prefix + e.message)
  }

  datatype Request =
    | StartStream(target: string, methodName: string, nonce: Nonce, dryRun: bool)
    | StreamData(ids: seq<Id>, payload: Payload)
    | ClientClose(ids: seq<Id>)
    | ClientCancel(ids: seq<Id>)
    | UnknownRequest

  datatype StartResult = StreamId(id: Id) | ErrorStatus(status: Status) | NoResult

  datatype Reply =
    | StartReply(target: string, nonce: Nonce, result: StartResult)
    | DataReply(ids: seq<Id>, payload: Payload)
    | CloseReply(ids: seq<Id>, status: Status)
    | UnknownReply

  /** Whether reply r speaks about stream id. */
  predicate Mentions(r: Reply, id: Id) {
    match r
    case StartReply(_, _, StreamId(x)) => x == id
    case DataReply(ids, _) => id in ids
    case CloseReply(ids, _) => id in ids
    case _ => false
  }

  /** The part of a reply log that speaks about stream id, in order. */
  function Project(log: seq<Reply>, id: Id): seq<Reply> {
    if log == [] then []
    else
      var n := |log| - 1;
      Project(log[..n], id) + (if Mentions(log[n], id) then [log[n]] else [])
  }

  lemma ProjectAppend(log: seq<Reply>, r: Reply, id: Id)
    ensures Project(log + [r], id) == Project(log, id) + (if Mentions(r, id) then [r] else [])
  {
    assert (log + [r])[..|log|] == log;
  }

  lemma {:induction false} ProjectSplit(a: seq<Reply>, b: seq<Reply>, id: Id)
    ensures Project(a + b, id) == Project(a, id) + Project(b, id)
  {
    if b == [] {
      assert a + b == a;
    } else {
      var n := |b| - 1;
      assert a + b == (a + b[..n]) + [b[n]];
      ProjectSplit(a, b[..n], id);
      ProjectAppend(a + b[..n], b[n], id);
    }
  }

  /** A mentioning reply sits somewhere in the projection. */
  lemma {:induction false} ProjectHas(log: seq<Reply>, k: nat, id: Id)
    requires k < |log| && Mentions(log[k], id)
    ensures log[k] in Project(log, id)
  {
    var n := |log| - 1;
    if k < n {
      assert log[..n][k] == log[k];
      ProjectHas(log[..n], k, id);
    }
  }

  /** The payload once for every occurrence of id in ids. */
  function Copies(ids: seq<Id>, id: Id, p: Payload): seq<Payload> {
    if ids == [] then []
    else (if ids[0] == id then [p] else []) + Copies(ids[1..], id, p)
  }

  /** Everything a request trace asks to be queued for stream id, in order. */
  function Requested(trace: seq<Request>, id: Id): seq<Payload> {
    if trace == [] then []
    else
      var n := |trace| - 1;
      Requested(trace[..n], id) +
      (if trace[n].StreamData? then Copies(trace[n].ids, id, trace[n].payload) else [])
  }

  lemma RequestedAppend(trace: seq<Request>, r: Request, id: Id)
    ensures Requested(trace + [r], id) ==
            Requested(trace, id) + (if r.StreamData? then Copies(r.ids, id, r.payload) else [])
  {
    assert (trace + [r])[..|trace|] == trace;
  }

  lemma {:induction false} CopiesAbsent(ids: seq<Id>, id: Id, p: Payload)
    requires id !in ids
    ensures Copies(ids, id, p) == []
  {
    if ids != [] {
      CopiesAbsent(ids[1..], id, p);
    }
  }
}
