/**
 Shutdown terminates: once the client has half-closed, every event but a further
 message from a target uses up a bounded amount of work, and until the reply
 channel is closed some such event is always possible.
 */
module Shutdown {
  import opened Protocol
  import opened TargetStreams
  import opened StreamSets
  import opened ServerMachine
  import opened ServerInvariant
  import opened ServerTheorems

  // ---- The work left ----

  function SenderWork(phase: SenderPhase, queued: nat): nat {
    match phase
    case Dialing => 3 * queued + 4
    case Selecting => 3 * queued + 1
    case Authorizing(_) => 3 * queued + 3
    case Delivering(_) => 3 * queued + 2
    case SenderDone => 0
  }

  function ReceiverWork(phase: ReceiverPhase): nat {
    match phase
    case NotStarted => 0
    case Receiving => 2
    case Forwarding(_, last) => if last then 1 else 3
    case ReceiverDone => 0
  }

  function StreamWork(st: Stream): nat {
    match st.run
    case Starting => 3 + SenderWork(st.snd.phase, |st.inbox.queue|) + ReceiverWork(st.rcv.phase)
    case Running => 3 + SenderWork(st.snd.phase, |st.inbox.queue|) + ReceiverWork(st.rcv.phase)
    case Closing(_) => 2
    case HandingOff => 1
    case Finished => 0
  }

  ghost function Total(streams: map<Id, Stream>): nat
    decreases |streams|
  {
    if streams == map[] then 0
    else
      var id :| id in streams;
      StreamWork(streams[id]) + Total(streams - {id})
  }

  lemma {:induction false} TotalSplit(streams: map<Id, Stream>, id: Id)
    requires id in streams
    ensures Total(streams) == StreamWork(streams[id]) + Total(streams - {id})
    decreases |streams|
  {
    var x :| x in streams && Total(streams) == StreamWork(streams[x]) + Total(streams - {x});
    if x != id {
      TotalSplit(streams - {x}, id);
      TotalSplit(streams - {id}, x);
      assert streams - {x} - {id} == streams - {id} - {x};
    }
  }

  lemma TotalPut(streams: map<Id, Stream>, id: Id, st: Stream)
    requires id in streams
    ensures Total(streams[id := st]) == Total(streams) - StreamWork(streams[id]) + StreamWork(st)
  {
    TotalSplit(streams, id);
    TotalSplit(streams[id := st], id);
    assert streams[id := st] - {id} == streams - {id};
  }

  function Flag(b: bool): nat {
    if b then 0 else 1
  }

  ghost function Work(s: Server): nat {
    Total(s.table.streams) + Flag(!Active(s.dispatch)) + Flag(s.ctxDone) + Flag(s.replyClosed)
  }

  /** A target sends one more message. */
  predicate TargetSpeaks(e: Event) {
    e.Local? && e.move.Gets?
  }

  lemma SenderWorks(st: Stream, ctxDone: bool, e: StreamEvent)
    requires CanStep(st, ctxDone, e) && (st.snd.phase.Dialing? ==> st.rcv.phase.NotStarted?)
    requires e.DialFails? || e.NewStreamFails? || e.Connects? || e.SeesCancel? || e.SeesClosed? || e.InputFails?
    ensures StreamWork(Step(st, ctxDone, e)) < StreamWork(st)
  {
  }

  lemma JudgeWorks(st: Stream, refusal: Option<Failure>)
    requires st.run.Running? && st.snd.phase.Authorizing?
    ensures StreamWork(Judge(st, refusal)) < StreamWork(st)
  {}

  lemma DeliverWorks(st: Stream, outcome: SendResult)
    requires st.run.Running? && st.snd.phase.Delivering?
    ensures StreamWork(Deliver(st, outcome)) < StreamWork(st)
  {}

  lemma RequestWorks(st: Stream, ctxDone: bool, e: StreamEvent)
    requires CanStep(st, ctxDone, e) && (e.Takes? || e.Judges? || e.Delivers?)
    ensures StreamWork(Step(st, ctxDone, e)) < StreamWork(st)
  {
    hide Judge, Deliver;
    match e
    case Takes =>
    case Judges(refusal) => JudgeWorks(st, refusal);
    case Delivers(outcome) => DeliverWorks(st, outcome);
  }

  lemma ReceiverWorks(st: Stream, ctxDone: bool, e: StreamEvent)
    requires CanStep(st, ctxDone, e) && (e.Gets? || e.TargetEnds? || e.PackFails?)
    ensures StreamWork(Step(st, ctxDone, e)) <= StreamWork(st) + if e.Gets? then 1 else -1
  {
  }

  lemma EndGroupWorks(st: Stream, closeError: Option<Failure>)
    requires st.run.Running?
    ensures StreamWork(EndGroup(st, closeError)) < StreamWork(st)
  {}

  lemma EndingWorks(st: Stream, ctxDone: bool, e: StreamEvent)
    requires CanStep(st, ctxDone, e) && (e.TargetFails? || e.GroupEnds?)
    ensures StreamWork(Step(st, ctxDone, e)) < StreamWork(st)
  {
    hide EndGroup;
    if e.GroupEnds? {
      EndGroupWorks(st, e.closeError);
    }
  }

  lemma StepWorks(st: Stream, ctxDone: bool, e: StreamEvent)
    requires CanStep(st, ctxDone, e) && (st.snd.phase.Dialing? ==> st.rcv.phase.NotStarted?)
    ensures StreamWork(Step(st, ctxDone, e)) <= StreamWork(st) + if e.Gets? then 1 else -1
  {
    hide Step, CanStep;
    match e
    case Takes => RequestWorks(st, ctxDone, e);
    case Judges(_) => RequestWorks(st, ctxDone, e);
    case Delivers(_) => RequestWorks(st, ctxDone, e);
    case Gets(_) => ReceiverWorks(st, ctxDone, e);
    case TargetEnds => ReceiverWorks(st, ctxDone, e);
    case TargetFails(_, _, _) => EndingWorks(st, ctxDone, e);
    case PackFails(_) => ReceiverWorks(st, ctxDone, e);
    case GroupEnds(_) => EndingWorks(st, ctxDone, e);
    case _ => SenderWorks(st, ctxDone, e);
  }

  /** Half-closed, or dispatch has returned. */
  predicate WindingDown(s: Server) {
    !s.requestsOpen || s.dispatch.Stopped?
  }

  /** From then on each event takes at least one unit of work away, and a
      message from a target adds at most one. */
  lemma EventWorks(c: Config, s: Server, e: Event)
    requires Central(s) && WindingDown(s) && Enabled(c, s, e)
    requires forall id <- s.table.streams :: s.table.streams[id].snd.phase.Dialing? ==> s.table.streams[id].rcv.phase.NotStarted?
    ensures WindingDown(Apply(c, s, e))
    ensures Work(Apply(c, s, e)) <= Work(s) + if TargetSpeaks(e) then 1 else -1
  {
    hide Step, CanStep, Total;
    var m := s.table.streams;
    match e
    case Local(id, move) =>
      StepWorks(m[id], s.ctxDone, move);
      TotalPut(m, id, Step(m[id], s.ctxDone, move));
    case Forward(id) => TotalPut(m, id, Forwarded(m[id]));
    case WriteClose(id) => TotalPut(m, id, CloseWritten(m[id]));
    case HandOff(id) => TotalSplit(m, id);
    case Abandon(id) => TotalPut(m, id, Finish(m[id]));
    case CancelContext =>
    case SeeContext(_) =>
    case CloseReplies =>
    case _ =>
  }

  // ---- Some event is always possible ----

  const CANCELLED: Failure := Status(1, "context canceled")

  /** The next move of an unfinished stream that is to end. */
  function NextMove(s: Server, id: Id): Event
    requires Open(s, id)
  {
    var st := s.table.streams[id];
    match st.run
    case Running =>
      (match st.snd.phase
       case Dialing => Local(id, Connects)
       case Selecting =>
         if st.inbox.queue != [] then Local(id, Takes)
         else if st.inbox.closed then Local(id, SeesClosed(None))
         else Local(id, SeesCancel(CANCELLED))
       case Authorizing(_) => Local(id, Judges(None))
       case Delivering(_) => Local(id, Delivers(Accepted))
       case SenderDone =>
         (match st.rcv.phase
          case Receiving => Local(id, TargetEnds)
          case Forwarding(_, _) => Forward(id)
          case _ => Local(id, GroupEnds(None))))
    case Closing(_) => WriteClose(id)
    case _ => if s.dispatch.Idle? then HandOff(id) else Abandon(id)
  }

  lemma NextMovePossible(c: Config, s: Server, id: Id)
    requires Central(s) && WindingDown(s) && Open(s, id) && Placed(c, s, id)
    requires !s.table.streams[id].run.Finished?
    ensures Enabled(c, s, NextMove(s, id)) && !TargetSpeaks(NextMove(s, id))
  {
    hide SenderOk;
  }

  lemma CentralAfter(c: Config, run: seq<Event>)
    requires After(c, run).Some?
    ensures var s := After(c, run).value; Central(s) && Counted(s.table)
    ensures var m := After(c, run).value.table.streams; forall id <- m :: m[id].snd.phase.Dialing? ==> m[id].rcv.phase.NotStarted?
  {
    hide Central, Counted;
    AfterInv(c, run);
    var s := After(c, run).value;
    forall id <- s.table.streams
      ensures s.table.streams[id].snd.phase.Dialing? ==> s.table.streams[id].rcv.phase.NotStarted?
    {
      assert Placed(c, s, id);
    }
  }

  lemma SomeMove(c: Config, s: Server)
    requires Central(s) && Counted(s.table) && WindingDown(s) && !s.replyClosed
    requires forall id <- s.table.streams :: Placed(c, s, id)
    ensures exists e :: Enabled(c, s, e) && !TargetSpeaks(e) && !e.CancelContext?
  {
    hide StreamOk, Placed;
    if id :| id in Unfinished(s.table) {
      NextMovePossible(c, s, id);
    } else if s.dispatch.Idle? {
      var id :| id in s.table.streams;
      assert id !in Unfinished(s.table);
      FinishedMeansDone(c, s, id);
      assert Enabled(c, s, SeeContext(OK));
    } else {
      assert Unfinished(s.table) == {};
      assert Enabled(c, s, CloseReplies);
    }
  }

  lemma FinishedMeansDone(c: Config, s: Server, id: Id)
    requires Open(s, id) && Placed(c, s, id) && s.table.streams[id].run.Finished?
    ensures s.ctxDone
  {
  }

  /** Until replyChan is closed, somebody other than the targets' messages can move. */
  lemma Progress(c: Config, run: seq<Event>)
    requires After(c, run).Some? && WindingDown(After(c, run).value) && !After(c, run).value.replyClosed
    ensures exists e :: Enabled(c, After(c, run).value, e) && !TargetSpeaks(e) && !e.CancelContext?
  {
    hide Placed;
    var s := After(c, run).value;
    CentralAfter(c, run);
    forall id <- s.table.streams
      ensures Placed(c, s, id)
    {
      AfterStream(c, run, id);
    }
    SomeMove(c, s);
  }

  function Speeches(es: seq<Event>): nat {
    if es == [] then 0 else Speeches(es[..|es| - 1]) + if TargetSpeaks(es[|es| - 1]) then 1 else 0
  }

  /** A run cannot go on for long after half-close, or after dispatch has returned
      with requests still open: its length is bounded by the work left then and twice the number of messages the targets still send. */
  lemma {:induction false} ShutdownTerminates(c: Config, run: seq<Event>, more: seq<Event>)
    requires After(c, run).Some? && WindingDown(After(c, run).value) && After(c, run + more).Some?
    ensures |more| + Work(After(c, run + more).value) <= Work(After(c, run).value) + 2 * Speeches(more)
    ensures WindingDown(After(c, run + more).value)
  {
    if more == [] {
      assert run + more == run;
    } else {
      var n := |more| - 1;
      assert (run + more)[..|run + more| - 1] == run + more[..n];
      ShutdownTerminates(c, run, more[..n]);
      CentralAfter(c, run + more[..n]);
      EventWorks(c, After(c, run + more[..n]).value, more[n]);
    }
  }
}
