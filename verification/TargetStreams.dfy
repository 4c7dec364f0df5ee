/**
 One TargetStream: the request channel, the two goroutines of Run (the sender,
 which also dials, and the receiver), the error slots, and the phases of Run.
 Each StreamEvent is one atomic move of one of these goroutines; how streams and
 the dispatcher interleave is the business of module ServerMachine.

 Beside the source's own fields the records carry their history (what was
 queued, judged, delivered, received, reported), so that a property of a whole
 run can be read off a state.
 */
module TargetStreams {
  import opened Protocol

  datatype Method = Method(requestType: string, clientStreams: bool, serverStreams: bool)

  /** What StartStream fixed for the life of the stream. */
  datatype Info = Info(target: string, nonce: Nonce, rpc: Method, dryRun: bool)

  /** reqChan; `enqueued` is everything ever put on it. */
  datatype Inbox = Inbox(queue: seq<Payload>, closed: bool, enqueued: seq<Payload>)

  datatype SenderPhase =
    | Dialing
    | Selecting
    | Authorizing(req: Payload)
    | Delivering(req: Payload)
    | SenderDone

  datatype Verdict = Verdict(payload: Payload, approved: bool)

  /** The goroutine that dials, authorises and forwards requests, with what it
      took off reqChan, what Eval said, and what it passed to the target's SendMsg. */
  datatype Sender = Sender(phase: SenderPhase, taken: seq<Payload>, verdicts: seq<Verdict>, delivered: seq<Payload>)

  datatype ReceiverPhase = NotStarted | Receiving | Forwarding(payload: Payload, last: bool) | ReceiverDone

  /** The goroutine that reads the target (started once connected), with what it
      received, what it wrote to replyChan, and the empty reply it made up for a
      target that ended without one, if it did. */
  datatype Receiver = Receiver(phase: ReceiverPhase, received: seq<Payload>, forwarded: seq<Payload>, madeUp: seq<Payload>)

  /** errChan (capacity one) and the first error kept by the errgroup, with every
      CloseWith call and every error a goroutine returned, in order. */
  datatype Errors = Errors(slot: Option<Failure>, group: Option<Failure>,
                           closeWiths: seq<Failure>, returned: seq<Failure>, connErr: Option<Failure>)

  datatype RunPhase = Starting | Running | Closing(status: Status) | HandingOff | Finished

  datatype Stream = Stream(
    info: Info, inbox: Inbox, snd: Sender, rcv: Receiver, err: Errors,
    cancelled: bool,            // the stream's own cancelFunc has run
    dialed: bool,               // grpcConn != nil
    run: RunPhase,
    announced: bool,            // its StartStreamReply was written
    closeSent: Option<Status>)  // its ServerClose was written

  function NewStream(info: Info): Stream {
    Stream(info, Inbox([], false, []), Sender(Dialing, [], [], []), Receiver(NotStarted, [], [], []),
           Errors(None, None, [], [], None), false, false, Starting, false, None)
  }

  datatype SendResult = Accepted | Eof | Broken(error: Failure)

  datatype StreamEvent =
    | DialFails(error: Failure)
    | NewStreamFails(error: Failure)
    | Connects
    | SeesCancel(error: Failure)
    | Takes
    | SeesClosed(closeError: Option<Failure>)
    | InputFails(error: Failure)
    | Judges(refusal: Option<Failure>)
    | Delivers(outcome: SendResult)
    | Gets(payload: Payload)
    | TargetEnds
    | TargetFails(error: Failure, cardinality: bool, empty: Payload)
    | PackFails(error: Failure)
    | GroupEnds(closeError: Option<Failure>)

  const DRY_RUN_PASSED: Failure := Status(CODE_ABORTED, "authz dry run passed")

  // ---- CloseWith and the errgroup ----

  function Fill(slot: Option<Failure>, e: Failure): Option<Failure> {
    if slot.None? then Some(e) else slot
  }

  /** The first error takes the slot and cancels the stream; later ones are dropped. */
  function CloseWith(st: Stream, e: Failure): Stream {
    st.(err := st.err.(slot := Fill(st.err.slot, e), closeWiths := st.err.closeWiths + [e]),
        cancelled := st.cancelled || st.err.slot.None?)
  }

  /** A goroutine of the group returns e. */
  function Reports(st: Stream, e: Failure): Stream {
    st.(err := st.err.(group := Fill(st.err.group, e), returned := st.err.returned + [e]))
  }

  function SenderStops(st: Stream): Stream {
    st.(snd := st.snd.(phase := SenderDone))
  }

  function ReceiverStops(st: Stream): Stream {
    st.(rcv := st.rcv.(phase := ReceiverDone))
  }

  /** The group's context: a child of the stream's, cancelled by the first error. */
  predicate GroupCtxDone(st: Stream, ctxDone: bool) {
    ctxDone || st.cancelled || st.err.group.Some?
  }

  // ---- One move of one goroutine ----

  predicate CanStep(st: Stream, ctxDone: bool, e: StreamEvent) {
    && st.run == Running
    && match e
       case DialFails(_) => st.snd.phase.Dialing?
       case NewStreamFails(_) => st.snd.phase.Dialing?
       case Connects => st.snd.phase.Dialing?
       case SeesCancel(_) => st.snd.phase.Selecting? && GroupCtxDone(st, ctxDone)
       case Takes => st.snd.phase.Selecting? && st.inbox.queue != []
       case SeesClosed(_) => st.snd.phase.Selecting? && st.inbox.queue == [] && st.inbox.closed
       case InputFails(_) => st.snd.phase.Authorizing?
       case Judges(_) => st.snd.phase.Authorizing?
       case Delivers(_) => st.snd.phase.Delivering?
       case Gets(_) => st.rcv.phase.Receiving?
       case TargetEnds => st.rcv.phase.Receiving?
       case TargetFails(_, _, _) => st.rcv.phase.Receiving?
       case PackFails(_) => st.rcv.phase.Receiving?
       case GroupEnds(_) => st.snd.phase.SenderDone? && (st.rcv.phase.NotStarted? || st.rcv.phase.ReceiverDone?)
  }

  function DialError(e: Failure): Failure { Wrap("could not connect to target from the proxy: ", e) }
  function SendError(e: Failure): Failure { Wrap("Proxy could not send request to target: ", e) }
  function RecvError(e: Failure): Failure { Wrap("proxy could not receive response from the target: ", e) }

  function Judged(st: Stream, refusal: Option<Failure>): Stream
    requires st.snd.phase.Authorizing?
  {
    var req := st.snd.phase.req;
    st.(snd := st.snd.(verdicts := st.snd.verdicts + [Verdict(req, refusal.None?)],
                       phase := if refusal.Some? || st.info.dryRun then SenderDone else Delivering(req)))
  }

  /** Eval has spoken: a refusal closes the stream, a dry run stops here, and
      otherwise the request is next in line for the target. */
  function Judge(st: Stream, refusal: Option<Failure>): Stream
    requires st.snd.phase.Authorizing?
  {
    if refusal.Some? then Reports(CloseWith(Judged(st, refusal), refusal.value), refusal.value)
    else if st.info.dryRun then CloseWith(Judged(st, refusal), DRY_RUN_PASSED)
    else Judged(st, refusal)
  }

  function Sent(st: Stream, outcome: SendResult): Stream
    requires st.snd.phase.Delivering?
  {
    var again := outcome.Accepted? && st.info.rpc.clientStreams;
    st.(snd := st.snd.(delivered := st.snd.delivered + [st.snd.phase.req],
                       phase := if again then Selecting else SenderDone),
        cancelled := st.cancelled || !outcome.Accepted?)
  }

  /** SendMsg was called; EOF and errors cancel the stream, and only a real error is reported. */
  function Deliver(st: Stream, outcome: SendResult): Stream
    requires st.snd.phase.Delivering?
  {
    if outcome.Broken? then Reports(Sent(st, outcome), SendError(outcome.error)) else Sent(st, outcome)
  }

  function Receives(st: Stream, p: Payload): Stream {
    st.(rcv := st.rcv.(phase := Forwarding(p, false), received := st.rcv.received + [p]))
  }

  /** A client-streaming target ended without its reply: an empty one stands in for it. */
  function MakesUp(st: Stream, empty: Payload): Stream {
    st.(rcv := st.rcv.(phase := Forwarding(empty, true), madeUp := [empty]))
  }

  /** group.Wait returns: pick the final status and get ready to write ServerClose. */
  function EndGroup(st: Stream, closeError: Option<Failure>): Stream {
    var connErr := if st.dialed then closeError else None;
    var err := if st.err.group.None? then connErr else st.err.group;
    var final := if st.err.slot.Some? then st.err.slot else err;
    st.(err := st.err.(connErr := connErr, slot := None), run := Closing(if final.Some? then final.value else OK))
  }

  function Step(st: Stream, ctxDone: bool, e: StreamEvent): Stream
    requires CanStep(st, ctxDone, e)
  {
    match e
    case DialFails(err) =>
      SenderStops(Reports(st.(cancelled := true), DialError(err)))
    case NewStreamFails(err) =>
      SenderStops(Reports(st.(dialed := true, cancelled := true), DialError(err)))
    case Connects =>
      st.(dialed := true, snd := st.snd.(phase := Selecting), rcv := st.rcv.(phase := Receiving))
    case SeesCancel(err) => SenderStops(Reports(st, err))
    case Takes =>
      var req := st.inbox.queue[0];
      st.(snd := st.snd.(phase := Authorizing(req), taken := st.snd.taken + [req]),
          inbox := st.inbox.(queue := st.inbox.queue[1..]))
    case SeesClosed(closeError) =>
      if st.info.rpc.clientStreams && closeError.Some?
      then SenderStops(Reports(CloseWith(st, closeError.value), closeError.value))
      else SenderStops(st)
    case InputFails(err) => SenderStops(Reports(CloseWith(st, err), err))
    case Judges(refusal) => Judge(st, refusal)
    case Delivers(outcome) => Deliver(st, outcome)
    case Gets(p) => Receives(st, p)
    case TargetEnds => ReceiverStops(st)
    case TargetFails(err, cardinality, empty) =>
      if st.info.rpc.clientStreams && !st.info.rpc.serverStreams && cardinality
      then MakesUp(st, empty)
      else ReceiverStops(Reports(CloseWith(st, err), RecvError(err)))
    case PackFails(err) => ReceiverStops(Reports(st, err))
    case GroupEnds(closeError) => EndGroup(st, closeError)
  }

  // ---- What holds of a stream in every run ----

  /** The final status as documented: the first CloseWith error, else the first
      error a goroutine returned, else the connection's close error, else OK. */
  function FinalStatus(err: Errors): Status {
    if err.closeWiths != [] then err.closeWiths[0]
    else if err.returned != [] then err.returned[0]
    else if err.connErr.Some? then err.connErr.value
    else OK
  }

  /** Verdicts and deliveries follow what was taken off the queue; nothing is
      delivered unapproved, nothing is taken after a refusal, a dry run delivers
      nothing and a method without client streaming at most one message. */
  ghost predicate SenderOk(info: Info, s: Sender) {
    && |s.delivered| <= |s.verdicts| <= |s.taken|
    && (forall k :: 0 <= k < |s.verdicts| ==> s.verdicts[k].payload == s.taken[k])
    && (forall k :: 0 <= k < |s.delivered| ==> s.verdicts[k] == Verdict(s.delivered[k], true))
    && (forall k :: 0 <= k < |s.verdicts| && !s.verdicts[k].approved ==>
          k == |s.taken| - 1 && s.phase.SenderDone?)
    && (info.dryRun ==> s.delivered == [] && !s.phase.Delivering?)
    && (!info.rpc.clientStreams ==> |s.delivered| <= if s.phase.SenderDone? then 1 else 0)
    && match s.phase
       case Dialing => s.taken == []
       case Selecting => |s.delivered| == |s.taken|
       case Authorizing(r) => |s.delivered| == |s.verdicts| == |s.taken| - 1 && s.taken[|s.verdicts|] == r
       case Delivering(r) => |s.delivered| + 1 == |s.taken| == |s.verdicts| && s.verdicts[|s.delivered|] == Verdict(r, true)
       case SenderDone => true
  }

  ghost predicate ReceiverOk(r: Receiver) {
    && r.received + r.madeUp == r.forwarded + (if r.phase.Forwarding? then [r.phase.payload] else [])
    && (r.madeUp != [] ==> |r.madeUp| == 1 && (r.phase.ReceiverDone? || (r.phase.Forwarding? && r.phase.last)))
  }

  /** A reply is made up only for a method that streams requests and not replies, and
      a request approved in a dry run was followed by its CloseWith. */
  ghost predicate ModeOk(st: Stream) {
    && (st.rcv.madeUp != [] ==> st.info.rpc.clientStreams && !st.info.rpc.serverStreams)
    && (st.info.dryRun && (exists v :: v in st.snd.verdicts && v.approved) ==> DRY_RUN_PASSED in st.err.closeWiths)
  }

  ghost predicate RunOk(st: Stream) {
    && (st.err.group == if st.err.returned == [] then None else Some(st.err.returned[0]))
    && (st.snd.phase.Dialing? ==> st.rcv.phase.NotStarted?)
    && match st.run
       case Starting => st == NewStream(st.info)
       case Running =>
         && (st.err.slot == if st.err.closeWiths == [] then None else Some(st.err.closeWiths[0]))
         && st.closeSent == None && st.err.connErr == None
       case _ =>
         && st.snd.phase.SenderDone? && (st.rcv.phase.NotStarted? || st.rcv.phase.ReceiverDone?)
         && st.closeSent == (if st.run.Closing? then None else Some(FinalStatus(st.err)))
         && (st.run.Closing? ==> st.run.status == FinalStatus(st.err))
  }

  ghost predicate StreamOk(st: Stream) {
    && st.inbox.enqueued == st.snd.taken + st.inbox.queue
    && SenderOk(st.info, st.snd) && ReceiverOk(st.rcv) && RunOk(st) && ModeOk(st)
  }

  /** What no move of the stream's own goroutines touches. */
  ghost predicate SameOutside(a: Stream, b: Stream) {
    && a.info == b.info && a.inbox.closed == b.inbox.closed && a.inbox.enqueued == b.inbox.enqueued
    && a.announced == b.announced && a.rcv.forwarded == b.rcv.forwarded && a.closeSent == b.closeSent
    && (a.run.Starting? <==> b.run.Starting?) && (a.run.Finished? <==> b.run.Finished?)
  }

  /** A running stream in good order. */
  ghost predicate Live(st: Stream) {
    StreamOk(st) && st.run.Running?
  }

  /** b is a running stream in good order, reached from a by its own goroutines. */
  ghost predicate Leads(a: Stream, b: Stream) {
    Live(b) && SameOutside(a, b)
  }

  lemma {:induction false} CloseWithLeads(st: Stream, e: Failure)
    requires Live(st)
    ensures Leads(st, CloseWith(st, e)) && CloseWith(st, e).snd == st.snd && CloseWith(st, e).rcv == st.rcv
  {
  }

  lemma {:induction false} ReportsLeads(st: Stream, e: Failure)
    requires Live(st)
    ensures Leads(st, Reports(st, e)) && Reports(st, e).snd == st.snd && Reports(st, e).rcv == st.rcv
  {
  }

  lemma {:induction false} SenderStopsLeads(st: Stream)
    requires Live(st)
    ensures Leads(st, SenderStops(st))
  {
  }

  lemma {:induction false} ReceiverStopsLeads(st: Stream)
    requires Live(st) && st.rcv.phase.Receiving?
    ensures Leads(st, ReceiverStops(st))
  {
  }

  lemma {:induction false} ReceivesLeads(st: Stream, p: Payload)
    requires Live(st) && st.rcv.phase.Receiving?
    ensures Leads(st, Receives(st, p))
  {
    hide SenderOk;
    assert st.rcv.received + [] == st.rcv.received && st.rcv.received + [p] + [] == st.rcv.received + [p];
  }

  lemma {:induction false} MakesUpLeads(st: Stream, empty: Payload)
    requires Live(st) && st.rcv.phase.Receiving? && st.info.rpc.clientStreams && !st.info.rpc.serverStreams
    ensures Leads(st, MakesUp(st, empty))
  {
    hide SenderOk;
    assert st.rcv.received + [] == st.rcv.received;
  }

  lemma {:induction false} JudgedOk(st: Stream, refusal: Option<Failure>)
    requires Live(st) && st.snd.phase.Authorizing?
    ensures SenderOk(st.info, Judged(st, refusal).snd)
  {
  }

  lemma {:induction false} JudgeLeads(st: Stream, refusal: Option<Failure>)
    requires Live(st) && st.snd.phase.Authorizing?
    ensures Leads(st, Judge(st, refusal))
  {
    hide SenderOk;
    JudgedOk(st, refusal);
    var judged := Judged(st, refusal);
    if refusal.Some? {
      assert forall v <- judged.snd.verdicts :: v.approved ==> v in st.snd.verdicts;
      assert Live(judged);
      CloseWithLeads(judged, refusal.value);
      ReportsLeads(CloseWith(judged, refusal.value), refusal.value);
    } else if st.info.dryRun {
      var closing := CloseWith(judged, DRY_RUN_PASSED);
      assert closing.err.closeWiths[|st.err.closeWiths|] == DRY_RUN_PASSED;
    }
  }

  lemma {:induction false} DeliverLeads(st: Stream, outcome: SendResult)
    requires Live(st) && st.snd.phase.Delivering?
    ensures Leads(st, Deliver(st, outcome))
  {
    var sent := Sent(st, outcome);
    assert Live(sent);
    if outcome.Broken? {
      ReportsLeads(sent, SendError(outcome.error));
    }
  }

  /** The context and the connection are not part of what Live says. */
  lemma {:induction false} CancelledLeads(st: Stream, dialed: bool)
    requires Live(st)
    ensures Leads(st, st.(dialed := dialed, cancelled := true))
  {
    hide SenderOk;
  }

  lemma {:induction false} StopLeads(st: Stream, a: Stream, err: Failure)
    requires Live(st) && Leads(st, a)
    ensures Leads(st, SenderStops(Reports(a, err)))
  {
    hide StreamOk;
    ReportsLeads(a, err);
    SenderStopsLeads(Reports(a, err));
  }

  lemma {:induction false} ConnectsLeads(st: Stream)
    requires Live(st) && st.snd.phase.Dialing?
    ensures Leads(st, st.(dialed := true, snd := st.snd.(phase := Selecting), rcv := st.rcv.(phase := Receiving)))
  {
  }

  lemma {:induction false} TakesLeads(st: Stream)
    requires Live(st) && st.snd.phase.Selecting? && st.inbox.queue != []
    ensures var req := st.inbox.queue[0];
            Leads(st, st.(snd := st.snd.(phase := Authorizing(req), taken := st.snd.taken + [req]),
                          inbox := st.inbox.(queue := st.inbox.queue[1..])))
  {
    assert st.inbox.queue == [st.inbox.queue[0]] + st.inbox.queue[1..];
  }

  /** The ways the sender gives up. */
  lemma {:induction false} GivesUpLeads(st: Stream, ctxDone: bool, e: StreamEvent)
    requires Live(st) && CanStep(st, ctxDone, e)
    requires e.DialFails? || e.NewStreamFails? || e.SeesCancel? || e.SeesClosed? || e.InputFails?
    ensures Leads(st, Step(st, ctxDone, e))
  {
    hide Leads, StreamOk, CloseWith, Reports, SenderStops;
    Itself(st);
    match e
    case DialFails(err) =>
      CancelledLeads(st, st.dialed);
      assert st.(dialed := st.dialed, cancelled := true) == st.(cancelled := true);
      StopLeads(st, st.(cancelled := true), DialError(err));
    case NewStreamFails(err) =>
      CancelledLeads(st, true);
      StopLeads(st, st.(dialed := true, cancelled := true), DialError(err));
    case SeesCancel(err) => StopLeads(st, st, err);
    case SeesClosed(closeError) =>
      if st.info.rpc.clientStreams && closeError.Some? {
        CloseWithLeads(st, closeError.value);
        StopLeads(st, CloseWith(st, closeError.value), closeError.value);
      } else {
        SenderStopsLeads(st);
      }
    case InputFails(err) =>
      CloseWithLeads(st, err);
      StopLeads(st, CloseWith(st, err), err);
  }

  lemma {:induction false} Itself(st: Stream)
    requires Live(st)
    ensures Leads(st, st)
  {
  }

  lemma {:induction false} RecvFailsLeads(st: Stream, err: Failure)
    requires Live(st) && st.rcv.phase.Receiving?
    ensures Leads(st, ReceiverStops(Reports(CloseWith(st, err), RecvError(err))))
  {
    hide StreamOk;
    CloseWithLeads(st, err);
    ReportsLeads(CloseWith(st, err), RecvError(err));
    ReceiverStopsLeads(Reports(CloseWith(st, err), RecvError(err)));
  }

  lemma {:induction false} PackFailsLeads(st: Stream, err: Failure)
    requires Live(st) && st.rcv.phase.Receiving?
    ensures Leads(st, ReceiverStops(Reports(st, err)))
  {
    hide StreamOk;
    ReportsLeads(st, err);
    ReceiverStopsLeads(Reports(st, err));
  }

  lemma {:induction false} ReceiverLeads(st: Stream, ctxDone: bool, e: StreamEvent)
    requires Live(st) && CanStep(st, ctxDone, e)
    requires e.Gets? || e.TargetEnds? || e.TargetFails? || e.PackFails?
    ensures Leads(st, Step(st, ctxDone, e))
  {
    hide Leads, StreamOk, CloseWith, Reports, ReceiverStops, Receives, MakesUp;
    match e
    case Gets(p) => ReceivesLeads(st, p);
    case TargetEnds => ReceiverStopsLeads(st);
    case TargetFails(err, cardinality, empty) =>
      if st.info.rpc.clientStreams && !st.info.rpc.serverStreams && cardinality {
        MakesUpLeads(st, empty);
      } else {
        RecvFailsLeads(st, err);
      }
    case PackFails(err) => PackFailsLeads(st, err);
  }

  lemma {:induction false} EndGroupKeepsOk(st: Stream, closeError: Option<Failure>)
    requires Live(st) && CanStep(st, true, GroupEnds(closeError))
    ensures StreamOk(EndGroup(st, closeError)) && SameOutside(st, EndGroup(st, closeError))
  {
  }

  lemma {:induction false} StepKeepsOk(st: Stream, ctxDone: bool, e: StreamEvent)
    requires StreamOk(st) && CanStep(st, ctxDone, e)
    ensures StreamOk(Step(st, ctxDone, e))
    ensures SameOutside(st, Step(st, ctxDone, e))
  {
    hide StreamOk, Judge, Deliver, EndGroup, Receives, MakesUp, Reports, CloseWith, SenderStops, ReceiverStops;
    match e
    case Connects => ConnectsLeads(st);
    case Takes => TakesLeads(st);
    case Judges(refusal) => JudgeLeads(st, refusal);
    case Delivers(outcome) => DeliverLeads(st, outcome);
    case GroupEnds(closeError) => EndGroupKeepsOk(st, closeError);
    case Gets(_) => ReceiverLeads(st, ctxDone, e);
    case TargetEnds => ReceiverLeads(st, ctxDone, e);
    case TargetFails(_, _, _) => ReceiverLeads(st, ctxDone, e);
    case PackFails(_) => ReceiverLeads(st, ctxDone, e);
    case _ => GivesUpLeads(st, ctxDone, e);
  }
}
