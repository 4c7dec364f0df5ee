/**
 How many results the caller of invokeOneMany gets for a target, whatever the
 replies are, and what that means for calls against this server.
 */
module UnaryAnswers {
  import opened Protocol
  import opened ServerMachine
  import opened ServerInvariant
  import opened ClientModel
  import opened Composed
  import opened ComposedInvariant
  import opened EndToEnd
  import opened Unary

  // ---- Counting ----

  /** How many results carry index i. */
  function Count(out: seq<Ret>, i: nat): nat {
    if out == [] then 0 else Count(out[..|out| - 1], i) + if out[|out| - 1].index == i then 1 else 0
  }

  lemma {:induction false} CountSplit(a: seq<Ret>, b: seq<Ret>, i: nat)
    ensures Count(a + b, i) == Count(a, i) + Count(b, i)
  {
    if b == [] {
      assert a + b == a;
    } else {
      var n := |b| - 1;
      assert (a + b)[..|a + b| - 1] == a + b[..n];
      CountSplit(a, b[..n], i);
    }
  }

  lemma CountShort(out: seq<Ret>, i: nat)
    requires |out| <= 1
    ensures Count(out, i) == if out != [] && out[0].index == i then 1 else 0
  {
  }

  lemma {:induction false} CountAbsent(out: seq<Ret>, i: nat)
    requires forall e <- out :: e.index != i
    ensures Count(out, i) == 0
  {
    if out != [] {
      CountAbsent(out[..|out| - 1], i);
      assert out[|out| - 1] in out;
    }
  }

  lemma {:induction false} CountUnique(out: seq<Ret>, k: nat)
    requires k < |out| && forall j, l :: 0 <= j < l < |out| ==> out[j].index != out[l].index
    ensures Count(out, out[k].index) == 1
  {
    var n := |out| - 1;
    if k == n {
      assert forall e <- out[..n] :: e.index != out[k].index;
      CountAbsent(out[..n], out[k].index);
    } else {
      CountUnique(out[..n], k);
    }
  }

  /** A stream that is left over gets one result. */
  lemma {:induction false} CountLeftOver(ids: map<Id, Ret>, order: seq<Id>, err: Option<RetError>, i: nat)
    requires Lists(order, ids.Keys) && DistinctIndices(ids)
    ensures Count(LeftOver(ids, order, err), i) == if exists id :: id in ids && ids[id].index == i then 1 else 0
  {
    var out := LeftOver(ids, order, err);
    assert forall k :: 0 <= k < |order| ==> order[k] in order && out[k].index == ids[order[k]].index;
    if id :| id in ids && ids[id].index == i {
      var k :| 0 <= k < |order| && order[k] == id;
      CountUnique(out, k);
    } else {
      CountAbsent(out, i);
    }
  }

  // ---- Where the loop stops, read off the replies ----

  /** Replies of which each concerns at most one stream. */
  ghost predicate OneByOne(log: seq<Reply>) {
    forall k :: 0 <= k < |log| ==> Single(log[k]) || log[k].StartReply? || log[k].UnknownReply?
  }

  /** The loop does not survive a reply about no open stream, or a failure of a stream
      that has answered. */
  predicate Offends(open: set<Id>, answered: set<Id>, r: Reply) {
    !Single(r) || r.ids[0] !in open || (r.CloseReply? && r.status.code != 0 && r.ids[0] in answered)
  }

  /** How many replies come before the first that offends. */
  function Cut(open: set<Id>, answered: set<Id>, log: seq<Reply>): nat
    decreases |log|
  {
    if log == [] || Offends(open, answered, log[0]) then 0
    else
      var x := log[0].ids[0];
      1 + Cut(if log[0].CloseReply? then open - {x} else open, if log[0].DataReply? then answered + {x} else answered - {x}, log[1..])
  }

  lemma {:induction false} CutBound(open: set<Id>, answered: set<Id>, log: seq<Reply>)
    ensures Cut(open, answered, log) <= |log|
    decreases |log|
  {
    if log != [] && !Offends(open, answered, log[0]) {
      var x := log[0].ids[0];
      CutBound(if log[0].CloseReply? then open - {x} else open, if log[0].DataReply? then answered + {x} else answered - {x}, log[1..]);
    }
  }

  function AnsweredIn(ids: map<Id, Ret>): set<Id> {
    set id | id in ids && ids[id].resp.Some?
  }

  function Stop(ids: map<Id, Ret>, log: seq<Reply>): (n: nat)
    ensures n <= |log|
  {
    CutBound(ids.Keys, AnsweredIn(ids), log);
    Cut(ids.Keys, AnsweredIn(ids), log)
  }

  /** The replies about stream id that the loop got to. */
  function Share(ids: map<Id, Ret>, log: seq<Reply>, id: Id): seq<Reply> {
    Project(log[..Stop(ids, log)], id)
  }

  /** The reply that stops the loop is about stream id. */
  predicate StoppedBy(ids: map<Id, Ret>, log: seq<Reply>, id: Id) {
    Stop(ids, log) < |log| && Single(log[Stop(ids, log)]) && log[Stop(ids, log)].ids[0] == id
  }

  function DataIn(tr: seq<Reply>): nat {
    if tr == [] then 0 else (if tr[0].DataReply? then 1 else 0) + DataIn(tr[1..])
  }

  predicate EndsClosed(tr: seq<Reply>) {
    tr != [] && tr[|tr| - 1].CloseReply?
  }

  predicate EndsFailed(tr: seq<Reply>) {
    EndsClosed(tr) && tr[|tr| - 1].status.code != 0
  }

  // ---- The loop against the replies ----

  /** One turn of the loop. */
  lemma Turn(ids: map<Id, Ret>, r: Reply)
    requires Single(r) || r.StartReply? || r.UnknownReply?
    ensures var t := InvokeReply(ids, r);
            if Offends(ids.Keys, AnsweredIn(ids), r) then
              t.out == [] && t.end.Unexpected? && t.ids == ids - (if Single(r) then {r.ids[0]} else {})
            else
              var x := r.ids[0];
              && x in ids && t.end.Fine?
              && t.ids == (if r.DataReply? then ids[x := ids[x].(resp := Some(r.payload))] else ids - {x})
              && |t.out| == (if r.DataReply? || r.status.code != 0 then 1 else 0)
              && (t.out != [] ==> t.out[0].index == ids[x].index)
  {
    if Single(r) {
      assert r.ids == [r.ids[0]];
      hide InvokeReply;
      AnswerOne(Call([], "", false, true), ids, r.ids[0], r);
    } else {
      assert ids - {} == ids;
    }
  }

  lemma NextStanding(ids: map<Id, Ret>, r: Reply)
    requires !Offends(ids.Keys, AnsweredIn(ids), r)
    ensures var t, x := InvokeReply(ids, r), r.ids[0];
            && t.ids.Keys == (if r.CloseReply? then ids.Keys - {x} else ids.Keys)
            && AnsweredIn(t.ids) == (if r.DataReply? then AnsweredIn(ids) + {x} else AnsweredIn(ids) - {x})
            && SomeOf(t.ids, ids) && (DistinctIndices(ids) ==> DistinctIndices(t.ids))
  {
    hide InvokeReply;
    Turn(ids, r);
  }

  lemma StopStep(ids: map<Id, Ret>, log: seq<Reply>, id: Id)
    requires log != [] && !Offends(ids.Keys, AnsweredIn(ids), log[0])
    ensures var t := InvokeReply(ids, log[0]);
            && Stop(ids, log) == 1 + Stop(t.ids, log[1..])
            && Share(ids, log, id) == (if log[0].ids[0] == id then [log[0]] else []) + Share(t.ids, log[1..], id)
            && (StoppedBy(ids, log, id) <==> StoppedBy(t.ids, log[1..], id))
  {
    hide InvokeReply, Project;
    NextStanding(ids, log[0]);
    var t, rest := InvokeReply(ids, log[0]), log[1..];
    var n := Stop(t.ids, rest);
    assert log[..1 + n] == [log[0]] + rest[..n];
    ProjectSplit([log[0]], rest[..n], id);
    ProjectOne(log[0], id);
  }

  lemma ProjectOne(r: Reply, id: Id)
    requires Single(r)
    ensures Project([r], id) == if r.ids[0] == id then [r] else []
  {
    ProjectAppend([], r, id);
    assert [] + [r] == [r];
    assert r.ids == [r.ids[0]];
  }

  /** With nothing open the loop does nothing more. */
  lemma NothingMore(log: seq<Reply>)
    requires OneByOne(log)
    ensures Collect(map[], log).out == [] && Collect(map[], log).ids == map[]
  {
    if log != [] {
      Turn(map[], log[0]);
    }
  }

  lemma CollectTurn(ids: map<Id, Ret>, log: seq<Reply>)
    requires OneByOne(log) && log != [] && !Offends(ids.Keys, AnsweredIn(ids), log[0])
    ensures var t := InvokeReply(ids, log[0]); var rest := Collect(t.ids, log[1..]);
            Collect(ids, log).out == t.out + rest.out && Collect(ids, log).ids == rest.ids
  {
    hide InvokeReply;
    Turn(ids, log[0]);
    if InvokeReply(ids, log[0]).ids == map[] {
      NothingMore(log[1..]);
    }
  }

  /** A stream that is not open has no share. */
  lemma {:induction false} NoShare(ids: map<Id, Ret>, log: seq<Reply>, id: Id)
    requires id !in ids && OneByOne(log)
    ensures Share(ids, log, id) == []
    decreases |log|
  {
    if log != [] && !Offends(ids.Keys, AnsweredIn(ids), log[0]) {
      hide Share, InvokeReply, Offends;
      StopStep(ids, log, id);
      Turn(ids, log[0]);
      NoShare(InvokeReply(ids, log[0]).ids, log[1..], id);
    }
  }

  /** An index without an open stream gets nothing from the loop. */
  lemma {:induction false} NoStream(ids: map<Id, Ret>, log: seq<Reply>, i: nat)
    requires OneByOne(log) && forall id <- ids :: ids[id].index != i
    ensures Count(Collect(ids, log).out, i) == 0 && forall id <- Collect(ids, log).ids :: id in ids
    decreases |log|
  {
    hide InvokeReply, Count;
    CountShort([], i);
    if log != [] {
      Turn(ids, log[0]);
      if !Offends(ids.Keys, AnsweredIn(ids), log[0]) {
        var t := InvokeReply(ids, log[0]);
        CollectTurn(ids, log);
        NoStream(t.ids, log[1..], i);
        CountSplit(t.out, Collect(t.ids, log[1..]).out, i);
        CountShort(t.out, i);
      }
    }
  }

  /** What the loop got to of one stream: data, then perhaps its close; a failure only
      of a stream that has not answered. */
  ghost predicate InShape(tr: seq<Reply>, answered: bool) {
    && (forall k :: 0 <= k < |tr| ==> tr[k].DataReply? || (tr[k].CloseReply? && k == |tr| - 1))
    && (EndsFailed(tr) ==> |tr| == 1 && !answered)
  }

  /** What the loop makes of stream id. */
  ghost predicate Told(ids: map<Id, Ret>, log: seq<Reply>, id: Id, t: Taken)
    requires id in ids
  {
    var tr := Share(ids, log, id);
    && InShape(tr, ids[id].resp.Some?)
    && (id in t.ids <==> !EndsClosed(tr) && !StoppedBy(ids, log, id))
    && (StoppedBy(ids, log, id) && !EndsClosed(tr) ==> ids[id].resp.Some? || tr != [])
    && Count(t.out, ids[id].index) == DataIn(tr) + if EndsFailed(tr) then 1 else 0
  }

  /** The first reply, about another stream or about this one. */
  lemma ToldFirst(ids: map<Id, Ret>, log: seq<Reply>, id: Id, t: Taken, first: seq<Ret>, rest: Taken)
    requires log != [] && !Offends(ids.Keys, AnsweredIn(ids), log[0]) && id in ids
    requires var ids' := InvokeReply(ids, log[0]).ids; id in ids' && Told(ids', log[1..], id, rest)
    requires first == InvokeReply(ids, log[0]).out && t.out == first + rest.out && t.ids == rest.ids
    requires DistinctIndices(ids)
    ensures Told(ids, log, id, t)
  {
    hide InvokeReply, Share, StoppedBy, Count;
    var r := log[0];
    Turn(ids, r);
    StopStep(ids, log, id);
    CountSplit(first, rest.out, ids[id].index);
    CountShort(first, ids[id].index);
    var tr, tr' := Share(ids, log, id), Share(InvokeReply(ids, r).ids, log[1..], id);
    if r.ids[0] == id {
      assert tr == [r] + tr' && tr[1..] == tr';
      assert tr' != [] ==> tr[|tr| - 1] == tr'[|tr'| - 1];
      assert forall k :: 0 < k < |tr| ==> tr[k] == tr'[k - 1];
    } else {
      assert [] + tr' == tr';
    }
  }

  /** The first reply closes this stream. */
  lemma ToldClosed(ids: map<Id, Ret>, log: seq<Reply>, id: Id, t: Taken, rest: Taken)
    requires OneByOne(log) && log != [] && !Offends(ids.Keys, AnsweredIn(ids), log[0]) && id in ids && DistinctIndices(ids)
    requires log[0].CloseReply? && log[0].ids[0] == id
    requires rest == Collect(InvokeReply(ids, log[0]).ids, log[1..])
    requires t.out == InvokeReply(ids, log[0]).out + rest.out && t.ids == rest.ids
    ensures Told(ids, log, id, t)
  {
    hide InvokeReply, Share, StoppedBy, Count, Collect;
    var r := log[0];
    var first := InvokeReply(ids, r);
    Turn(ids, r);
    StopStep(ids, log, id);
    NoShare(first.ids, log[1..], id);
    NoStream(first.ids, log[1..], ids[id].index);
    CountSplit(first.out, rest.out, ids[id].index);
    CountShort(first.out, ids[id].index);
    var tr := Share(ids, log, id);
    assert tr == [r] + [] == [r] && tr[1..] == [];
    assert DataIn(tr) == 0;
    assert InShape(tr, ids[id].resp.Some?);
    assert id !in t.ids;
    assert Count(t.out, ids[id].index) == if EndsFailed(tr) then 1 else 0;
  }

  /** For any replies, one stream at a time. */
  lemma {:induction false} CollectTells(ids: map<Id, Ret>, log: seq<Reply>, id: Id)
    requires OneByOne(log) && id in ids && DistinctIndices(ids)
    ensures Told(ids, log, id, Collect(ids, log))
    decreases |log|
  {
    hide Told;
    if log == [] || Offends(ids.Keys, AnsweredIn(ids), log[0]) {
      ToldAtOnce(ids, log, id);
    } else {
      hide InvokeReply, Collect;
      var first := InvokeReply(ids, log[0]);
      Turn(ids, log[0]);
      CollectTurn(ids, log);
      NextStanding(ids, log[0]);
      if id in first.ids {
        CollectTells(first.ids, log[1..], id);
        assert forall x <- first.ids :: first.ids[x].index == ids[x].index;
        ToldFirst(ids, log, id, Collect(ids, log), first.out, Collect(first.ids, log[1..]));
      } else {
        ToldClosed(ids, log, id, Collect(ids, log), Collect(first.ids, log[1..]));
      }
    }
  }

  lemma ToldAtOnce(ids: map<Id, Ret>, log: seq<Reply>, id: Id)
    requires OneByOne(log) && id in ids && (log == [] || Offends(ids.Keys, AnsweredIn(ids), log[0]))
    ensures Told(ids, log, id, Collect(ids, log))
  {
    hide InvokeReply;
    assert Stop(ids, log) == 0 && log[..0] == [] && Share(ids, log, id) == [];
    if log != [] {
      Turn(ids, log[0]);
    }
  }

  // ---- Exactly one result ----

  /** Read off the replies: silent to the end, or answered and then failed, or failed
      without an answer, or answered once and closed. */
  ghost predicate OneResult(ids: map<Id, Ret>, log: seq<Reply>, id: Id) {
    var tr := Share(ids, log, id);
    || (tr == [] && !StoppedBy(ids, log, id))
    || (|tr| == 1 && tr[0].DataReply? && StoppedBy(ids, log, id))
    || (|tr| == 1 && tr[0].CloseReply? && tr[0].status.code != 0)
    || (|tr| == 2 && tr[0].DataReply? && tr[1].CloseReply? && tr[1].status.code == 0)
  }

  /** The results of stream id: its data, its failure, and one more if it is left over. */
  lemma ResultsOfStream(errors: seq<Ret>, ids: map<Id, Ret>, log: seq<Reply>, order: seq<Id>, err: Option<RetError>, id: Id)
    requires OneByOne(log) && id in ids && DistinctIndices(ids) && Lists(order, Collect(ids, log).ids.Keys)
    requires forall e <- errors :: e.index != ids[id].index
    ensures var tr := Share(ids, log, id);
            Count(Emission(errors, Collect(ids, log), order, err), ids[id].index) ==
            DataIn(tr) + (if EndsFailed(tr) then 1 else 0) + (if EndsClosed(tr) || StoppedBy(ids, log, id) then 0 else 1)
  {
    hide Collect, LeftOver, Count, Share, StoppedBy;
    var t, i := Collect(ids, log), ids[id].index;
    CollectTells(ids, log, id);
    CollectKeeps(ids, log);
    CountSplit(errors + t.out, LeftOver(t.ids, order, err), i);
    CountSplit(errors, t.out, i);
    CountAbsent(errors, i);
    CountLeftOver(t.ids, order, err, i);
  }

  /** The streams left over are some of those there were. */
  lemma {:induction false} CollectKeeps(ids: map<Id, Ret>, log: seq<Reply>)
    requires OneByOne(log)
    ensures SomeOf(Collect(ids, log).ids, ids) && (DistinctIndices(ids) ==> DistinctIndices(Collect(ids, log).ids))
    decreases |log|
  {
    hide InvokeReply;
    if log != [] {
      Turn(ids, log[0]);
      if !Offends(ids.Keys, AnsweredIn(ids), log[0]) {
        CollectTurn(ids, log);
        NextStanding(ids, log[0]);
        CollectKeeps(InvokeReply(ids, log[0]).ids, log[1..]);
      }
    }
  }

  lemma {:induction false} DataInAll(tr: seq<Reply>)
    ensures (forall k :: 0 <= k < |tr| ==> tr[k].DataReply?) ==> DataIn(tr) == |tr|
    ensures tr != [] && !tr[|tr| - 1].DataReply? ==> DataIn(tr) == DataIn(tr[..|tr| - 1])
  {
    if |tr| > 1 {
      DataInAll(tr[1..]);
      assert tr[..|tr| - 1][1..] == tr[1..][..|tr| - 2];
      assert tr[1..][|tr| - 2] == tr[|tr| - 1];
    }
  }

  lemma OneResultExactly(ids: map<Id, Ret>, log: seq<Reply>, id: Id)
    requires id in ids && ids[id].resp == None && InShape(Share(ids, log, id), false)
    requires StoppedBy(ids, log, id) && !EndsClosed(Share(ids, log, id)) ==> Share(ids, log, id) != []
    ensures var tr := Share(ids, log, id);
            OneResult(ids, log, id) <==>
            DataIn(tr) + (if EndsFailed(tr) then 1 else 0) + (if EndsClosed(tr) || StoppedBy(ids, log, id) then 0 else 1) == 1
  {
    hide Share, StoppedBy;
    var tr := Share(ids, log, id);
    DataInAll(tr);
    if EndsClosed(tr) {
      DataInAll(tr[..|tr| - 1]);
    }
  }

  /** For any replies that speak of one stream at a time, however they interleave and
      wherever the connection ends: the channel carries exactly one result for index i
      if and only if its stream, if it has one, was silent to the end, or answered and
      then failed, or failed without an answer, or answered once and closed. */
  lemma ExactlyOneAnswer(setup: Setup, log: seq<Reply>, order: seq<Id>, err: Option<RetError>, i: nat)
    requires Partitioned(setup, i) && OneByOne(log) && (forall id <- setup.ids :: setup.ids[id].resp == None)
    requires Lists(order, Collect(setup.ids, log).ids.Keys)
    ensures Count(Emission(setup.errors, Collect(setup.ids, log), order, err), i) == 1 <==>
            forall id <- setup.ids :: setup.ids[id].index == i ==> OneResult(setup.ids, log, id)
  {
    hide Collect, LeftOver, Count, OneResult, Share, StoppedBy;
    var ids, t := setup.ids, Collect(setup.ids, log);
    if id :| id in ids && ids[id].index == i {
      ResultsOfStream(setup.errors, ids, log, order, err, id);
      CollectTells(ids, log, id);
      OneResultExactly(ids, log, id);
    } else {
      var k :| 0 <= k < |setup.errors| && setup.errors[k].index == i;
      CountUnique(setup.errors, k);
      NoStream(ids, log, i);
      CollectKeeps(ids, log);
      CountLeftOver(t.ids, order, err, i);
      CountSplit(setup.errors + t.out, LeftOver(t.ids, order, err), i);
      CountSplit(setup.errors, t.out, i);
    }
  }

  /** If every stream's replies are complete and none fails after an answer, the loop
      ends with nothing left over. */
  lemma NothingLeft(ids: map<Id, Ret>, log: seq<Reply>)
    requires OneByOne(log) && DistinctIndices(ids) && forall id <- ids :: EndsClosed(Share(ids, log, id))
    ensures Collect(ids, log).ids == map[]
  {
    hide Collect, Share, StoppedBy, Count;
    CollectKeeps(ids, log);
    forall id <- ids
      ensures id !in Collect(ids, log).ids
    {
      CollectTells(ids, log, id);
    }
    assert Collect(ids, log).ids.Keys == {};
  }

  // ---- Complete exchanges ----

  /** Replies about open streams only, each stream's in good order: data, then perhaps
      its close, and no failure after an answer. */
  ghost predicate InOrder(ids: map<Id, Ret>, log: seq<Reply>) {
    && (forall k :: 0 <= k < |log| ==> Single(log[k]) && log[k].ids[0] in ids)
    && (forall id <- ids :: InShape(Project(log, id), ids[id].resp.Some?))
  }

  lemma ProjectHead(log: seq<Reply>, id: Id)
    requires log != [] && Single(log[0])
    ensures Project(log, id) == (if log[0].ids[0] == id then [log[0]] else []) + Project(log[1..], id)
  {
    assert log == [log[0]] + log[1..];
    ProjectSplit([log[0]], log[1..], id);
    ProjectOne(log[0], id);
  }

  lemma ShapeHead(r: Reply, rest: seq<Reply>, answered: bool)
    requires Single(r)
    ensures InShape([r] + rest, answered) <==>
            if r.DataReply? then InShape(rest, true) else rest == [] && !(answered && r.status.code != 0)
  {
    var tr := [r] + rest;
    assert tr[0] == r && forall k :: 0 < k < |tr| ==> tr[k] == rest[k - 1];
    assert forall k :: 0 <= k < |rest| ==> rest[k] == tr[k + 1];
    if rest != [] {
      assert tr[|tr| - 1] == rest[|rest| - 1];
    }
  }

  /** A log in order does not stop the loop at its first reply. */
  lemma InOrderFirst(ids: map<Id, Ret>, log: seq<Reply>)
    requires log != [] && InOrder(ids, log)
    ensures !Offends(ids.Keys, AnsweredIn(ids), log[0])
  {
    hide InShape, Project;
    var x := log[0].ids[0];
    ProjectHead(log, x);
    ShapeHead(log[0], Project(log[1..], x), ids[x].resp.Some?);
  }

  /** One stream's share of the rest of the log, before and after a turn. */
  lemma ShapeAfter(ids: map<Id, Ret>, log: seq<Reply>, id: Id)
    requires log != [] && !Offends(ids.Keys, AnsweredIn(ids), log[0]) && id in ids
    ensures var t, x := InvokeReply(ids, log[0]).ids, log[0].ids[0];
            InShape(Project(log, id), ids[id].resp.Some?) <==>
            if id in t then InShape(Project(log[1..], id), t[id].resp.Some?) else Project(log[1..], id) == []
  {
    hide InvokeReply, InShape, Project;
    Turn(ids, log[0]);
    ProjectHead(log, id);
    if log[0].ids[0] == id {
      ShapeHead(log[0], Project(log[1..], id), ids[id].resp.Some?);
    } else {
      assert [] + Project(log[1..], id) == Project(log[1..], id);
    }
  }

  lemma {:induction false} Unmentioned(log: seq<Reply>, id: Id)
    requires forall k :: 0 <= k < |log| ==> Single(log[k])
    ensures Project(log, id) == [] <==> forall k :: 0 <= k < |log| && Single(log[k]) ==> log[k].ids[0] != id
  {
    if log != [] {
      ProjectHead(log, id);
      Unmentioned(log[1..], id);
      assert forall k :: 0 < k < |log| ==> log[k] == log[1..][k - 1];
      assert forall k :: 0 <= k < |log[1..]| ==> log[1..][k] == log[k + 1];
    }
  }

  lemma InOrderTurn(ids: map<Id, Ret>, log: seq<Reply>)
    requires log != [] && !Offends(ids.Keys, AnsweredIn(ids), log[0])
    ensures InOrder(ids, log) <==> InOrder(InvokeReply(ids, log[0]).ids, log[1..])
  {
    hide InvokeReply, InShape, Project;
    var t, rest, x := InvokeReply(ids, log[0]).ids, log[1..], log[0].ids[0];
    Turn(ids, log[0]);
    assert forall k :: 0 < k < |log| ==> log[k] == rest[k - 1];
    assert forall k :: 0 <= k < |rest| ==> rest[k] == log[k + 1];
    forall id <- ids
      ensures InShape(Project(log, id), ids[id].resp.Some?) <==>
              if id in t then InShape(Project(rest, id), t[id].resp.Some?) else Project(rest, id) == []
    {
      ShapeAfter(ids, log, id);
    }
    if forall k :: 0 <= k < |rest| ==> Single(rest[k]) {
      Unmentioned(rest, x);
    }
  }

  /** The loop reads all of a log exactly if the log is in order. */
  lemma {:induction false} ReadsAllExactly(ids: map<Id, Ret>, log: seq<Reply>)
    requires OneByOne(log)
    ensures Stop(ids, log) == |log| <==> InOrder(ids, log)
    ensures InOrder(ids, log) ==> Collect(ids, log).end.Fine?
    decreases |log|
  {
    hide InOrder, InvokeReply;
    if log == [] {
      NothingToRead(ids);
    } else if Offends(ids.Keys, AnsweredIn(ids), log[0]) {
      assert Stop(ids, log) == 0;
      if InOrder(ids, log) {
        InOrderFirst(ids, log);
      }
    } else {
      Turn(ids, log[0]);
      StopStep(ids, log, 0);
      InOrderTurn(ids, log);
      ReadsAllExactly(InvokeReply(ids, log[0]).ids, log[1..]);
    }
  }

  lemma NothingToRead(ids: map<Id, Ret>)
    ensures InOrder(ids, [])
  {}

  /** A unary exchange: one answer and a clean close, or just a failure. */
  ghost predicate OneAnswer(tr: seq<Reply>) {
    || (|tr| == 2 && tr[0].DataReply? && tr[1].CloseReply? && tr[1].status.code == 0)
    || (|tr| == 1 && tr[0].CloseReply? && tr[0].status.code != 0)
  }

  /** If every stream's replies are in order up to its close, in whatever interleaving,
      nothing is left over, and index i gets exactly one result if and only if its
      stream, if it has one, had one answer and a clean close or just a failure. */
  lemma CompleteAnswers(setup: Setup, log: seq<Reply>, order: seq<Id>, err: Option<RetError>, i: nat)
    requires Partitioned(setup, i) && (forall id <- setup.ids :: setup.ids[id].resp == None)
    requires InOrder(setup.ids, log) && forall id <- setup.ids :: EndsClosed(Project(log, id))
    requires Lists(order, Collect(setup.ids, log).ids.Keys)
    ensures Collect(setup.ids, log).ids == map[] && Collect(setup.ids, log).end.Fine?
    ensures Count(Emission(setup.errors, Collect(setup.ids, log), order, err), i) == 1 <==>
            forall id <- setup.ids :: setup.ids[id].index == i ==> OneAnswer(Project(log, id))
  {
    hide Collect, Emission, Count, Project, InShape;
    ReadsAllExactly(setup.ids, log);
    assert log[..|log|] == log;
    assert forall id <- setup.ids :: Share(setup.ids, log, id) == Project(log, id) && !StoppedBy(setup.ids, log, id);
    NothingLeft(setup.ids, log);
    ExactlyOneAnswer(setup, log, order, err, i);
  }

  /** So if each open stream has one answer and a clean close, or just a failure, then in
      any interleaving every index gets exactly one result and no stream is left open. */
  lemma EveryIndexOnce(setup: Setup, log: seq<Reply>, order: seq<Id>, err: Option<RetError>, i: nat)
    requires Partitioned(setup, i) && (forall id <- setup.ids :: setup.ids[id].resp == None)
    requires forall k :: 0 <= k < |log| ==> Single(log[k]) && log[k].ids[0] in setup.ids
    requires forall id <- setup.ids :: OneAnswer(Project(log, id))
    requires Lists(order, Collect(setup.ids, log).ids.Keys)
    ensures Count(Emission(setup.errors, Collect(setup.ids, log), order, err), i) == 1
    ensures Collect(setup.ids, log).ids == map[] && Collect(setup.ids, log).end.Fine?
  {
    hide Collect, Emission, Count, Project, InShape, EndsClosed;
    forall id <- setup.ids
      ensures InShape(Project(log, id), setup.ids[id].resp.Some?) && EndsClosed(Project(log, id))
    {
      AnswerInShape(Project(log, id));
    }
    CompleteAnswers(setup, log, order, err, i);
  }

  // ---- A target that answers and then fails ----

  /** Streams 1 and 2, for indices 0 and 1. */
  function TwoStreams(a: Option<Payload>, b: Option<Payload>): map<Id, Ret> {
    map[1 := Ret("a", 0, a, None), 2 := Ret("b", 1, b, None)]
  }

  lemma TwoAnswers(p: Payload, q: Payload, st: Status)
    requires st.code != 0
    ensures var log := [DataReply([1], p), DataReply([2], q), CloseReply([1], st)];
            var ids := TwoStreams(None, None);
            && Share(ids, log, 1) == [log[0]] && Share(ids, log, 2) == [log[1]]
            && StoppedBy(ids, log, 1) && !StoppedBy(ids, log, 2)
  {
    hide InvokeReply, Share, StoppedBy;
    var log := [DataReply([1], p), DataReply([2], q), CloseReply([1], st)];
    var ids0, ids1, ids2 := TwoStreams(None, None), TwoStreams(Some(p), None), TwoStreams(Some(p), Some(q));
    Turn(ids0, log[0]);
    assert InvokeReply(ids0, log[0]).ids == ids1;
    assert log[1..] == [log[1], log[2]] && log[1..][1..] == [log[2]];
    Turn(ids1, log[1]);
    assert InvokeReply(ids1, log[1]).ids == ids2;
    forall id | id == 1 || id == 2
      ensures Share(ids0, log, id) == [log[id - 1]] && (StoppedBy(ids0, log, id) <==> id == 1)
    {
      StopStep(ids0, log, id);
      StopStep(ids1, log[1..], id);
      StopsHere(ids2, log[2], id);
    }
  }

  lemma StopsHere(ids: map<Id, Ret>, r: Reply, id: Id)
    requires Single(r) && Offends(ids.Keys, AnsweredIn(ids), r)
    ensures Share(ids, [r], id) == [] && (StoppedBy(ids, [r], id) <==> r.ids[0] == id)
  {
    assert Stop(ids, [r]) == 0 && [r][..0] == [];
  }

  /** The target that answers and then fails gets its one result; another that has
      answered and is still open then gets its answer twice. */
  lemma AnsweredTwice(p: Payload, q: Payload, st: Status, order: seq<Id>, err: Option<RetError>)
    requires st.code != 0
    requires var log := [DataReply([1], p), DataReply([2], q), CloseReply([1], st)];
             Lists(order, Collect(TwoStreams(None, None), log).ids.Keys)
    ensures var log := [DataReply([1], p), DataReply([2], q), CloseReply([1], st)];
            var out := Emission([], Collect(TwoStreams(None, None), log), order, err);
            Count(out, 0) == 1 && Count(out, 1) == 2
  {
    hide Share, StoppedBy, Collect, Count, Emission;
    var log := [DataReply([1], p), DataReply([2], q), CloseReply([1], st)];
    var ids := TwoStreams(None, None);
    TwoAnswers(p, q, st);
    assert forall r <- log :: Single(r);
    assert [log[0]][1..] == [] && [log[1]][1..] == [];
    ResultsOfStream([], ids, log, order, err, 1);
    ResultsOfStream([], ids, log, order, err, 2);
  }

  // ---- Calls against this server ----

  /** The replies of the server that the loop reads, up to position n. */
  function LoopLog(s: System, n: nat): seq<Reply>
    requires s.client.since <= n <= |s.server.replies|
  {
    s.server.replies[s.client.since..n]
  }

  ghost predicate SetupLeft(call: Call, base: Setup) {
    && (forall i :: 0 <= i < |call.targets| ==> Partitioned(base, i))
    && (forall id <- base.ids :: base.ids[id].resp == None)
  }

  /** A unary call between setup and the end of its loop. */
  ghost predicate InLoop(s: System) {
    var cl := s.client;
    && cl.phase.Ready? && cl.errors == cl.base.errors && cl.since <= cl.consumed <= |s.server.replies|
    && (if cl.sentErrors then
          Taken(cl.phase.ids, cl.got, Fine) == Prepend(cl.errors, Collect(cl.base.ids, LoopLog(s, cl.consumed)))
        else cl.phase.ids == cl.base.ids && cl.consumed == cl.since && cl.got == [])
  }

  /** The error for what is left over: that of the unexpected reply, else of the connection.
      An EOF leaves nothing over. */
  ghost predicate EndsWith(t: Taken, err: Option<RetError>) {
    t.ids == map[] || err == if t.end.Fine? then Some(CONNECTION_LOST) else Some(ChanErr(t.end))
  }

  /** The results are what the goroutine puts on the channel for these replies. */
  ghost predicate Emitted(s: System, n: nat)
    requires s.client.since <= n <= |s.server.replies|
  {
    var t := Collect(s.client.base.ids, LoopLog(s, n));
    exists order, err :: Lists(order, t.ids.Keys) && EndsWith(t, err) && s.client.got == Emission(s.client.base.errors, t, order, err)
  }

  ghost predicate Ledger(call: Call, s: System) {
    var cl := s.client;
    && (call.unary && cl.phase.Ready? ==> SetupLeft(call, cl.base) && InLoop(s))
    && (cl.phase.SettingUp? ==> cl.ended == None && !cl.sentErrors && cl.got == [])
    && (cl.phase.Ready? ==> cl.ended == None)
    && (cl.ended.Some? ==>
          && cl.phase.Gone? && SetupLeft(call, cl.base)
          && cl.since <= cl.ended.value <= |s.server.replies| && Emitted(s, cl.ended.value))
  }

  /** One more reply, when the loop is still going. */
  lemma {:induction false} CollectAppend(ids: map<Id, Ret>, log: seq<Reply>, r: Reply)
    requires Collect(ids, log).end.Fine? && Collect(ids, log).ids != map[]
    ensures Collect(ids, log + [r]) == Prepend(Collect(ids, log).out, InvokeReply(Collect(ids, log).ids, r))
    decreases |log|
  {
    hide InvokeReply;
    if log == [] {
      assert log + [r] == [r] && [r][1..] == [];
      var t := InvokeReply(ids, r);
      assert t.out + [] == t.out && [] + t.out == t.out;
    } else {
      var first, rest := InvokeReply(ids, log[0]), log[1..];
      assert (log + [r])[0] == log[0] && (log + [r])[1..] == rest + [r];
      CollectAppend(first.ids, rest, r);
      var more := InvokeReply(Collect(ids, log).ids, r).out;
      assert first.out + (Collect(first.ids, rest).out + more) == first.out + Collect(first.ids, rest).out + more;
    }
  }

  /** More replies of the server change nothing that was recorded. */
  lemma LedgerServer(call: Call, s: System, s': System)
    requires Ledger(call, s) && s'.client == s.client && s.server.replies <= s'.server.replies
    ensures Ledger(call, s')
  {
    hide SetupLeft, Collect, Emission;
    forall n | s.client.since <= n <= |s.server.replies|
      ensures LoopLog(s', n) == LoopLog(s, n)
    {}
    if s.client.ended.Some? {
      assert LoopLog(s', s.client.ended.value) == LoopLog(s, s.client.ended.value);
    }
  }

  /** What the client does besides receiving. */
  lemma LedgerQuiet(call: Call, s: System, s': System)
    requires Ledger(call, s) && s'.server == s.server
    requires s'.client == s.client.(phase := s'.client.phase, wire := s'.client.wire, messages := s'.client.messages,
                                    starts := s'.client.starts, startsOver := s'.client.startsOver,
                                    closedIds := s'.client.closedIds, halfClosed := s'.client.halfClosed, consumed := s'.client.consumed)
    requires (s'.client.phase == s.client.phase && s'.client.consumed == s.client.consumed)
             || (s.client.phase.SettingUp? && !s'.client.phase.Ready?) || (s.client.ended == None && s'.client.phase.Gone?)
    ensures Ledger(call, s')
  {
    hide SetupLeft, Collect, Emission;
    forall n | s.client.since <= n <= |s.server.replies|
      ensures LoopLog(s', n) == LoopLog(s, n)
    {}
    if s.client.ended.Some? {
      assert LoopLog(s', s.client.ended.value) == LoopLog(s, s.client.ended.value);
    }
  }

  lemma LedgerSetupDone(call: Call, s: System, s': System)
    requires Ledger(call, s) && s.client.phase.SettingUp? && s.client.consumed <= |s.server.replies|
    requires SetupLeft(call, s.client.phase.setup)
    requires s' == s.(client := s.client.(phase := Ready(s.client.phase.setup.ids), errors := s.client.phase.setup.errors,
                                          base := s.client.phase.setup, since := s.client.consumed))
    ensures Ledger(call, s')
  {
    hide SetupLeft, Collect, Emission;
  }

  lemma LedgerShipErrors(call: Call, s: System, s': System)
    requires Ledger(call, s) && s.client.phase.Ready? && !s.client.sentErrors
    requires s' == s.(client := s.client.(got := s.client.got + s.client.errors, sentErrors := true))
    ensures Ledger(call, s')
  {
    hide SetupLeft, Emission;
    if call.unary {
      assert LoopLog(s', s'.client.consumed) == [];
      assert Collect(s.client.base.ids, []) == Taken(s.client.base.ids, [], Fine);
      assert s'.client.got == s.client.errors + [];
    }
  }

  /** The loop so far, and one more reply. */
  lemma LoopTakes(call: Call, s: System)
    requires call.unary && InLoop(s) && s.client.sentErrors && s.client.phase.ids != map[] && s.client.consumed < |s.server.replies|
    ensures var cl, n := s.client, s.client.consumed; var r := s.server.replies[n];
            && Collect(cl.base.ids, LoopLog(s, n + 1)) ==
               Prepend(Collect(cl.base.ids, LoopLog(s, n)).out, InvokeReply(cl.phase.ids, r))
            && cl.got == cl.errors + Collect(cl.base.ids, LoopLog(s, n)).out
  {
    hide Collect, InvokeReply;
    var n := s.client.consumed;
    assert LoopLog(s, n + 1) == LoopLog(s, n) + [s.server.replies[n]];
    CollectAppend(s.client.base.ids, LoopLog(s, n), s.server.replies[n]);
  }

  lemma LedgerEnds(call: Call, s: System, s': System, ids: map<Id, Ret>, got: seq<Ret>, order: seq<Id>, err: Option<RetError>, at: nat)
    requires call.unary && SetupLeft(call, s.client.base) && s.client.since <= at <= |s.server.replies| && Lists(order, ids.Keys)
    requires var t := Collect(s.client.base.ids, LoopLog(s, at)); t.ids == ids && got == s.client.base.errors + t.out && EndsWith(t, err)
    requires s' == s.(client := LoopEnds(s.client.(got := got), ids, order, err, at))
    ensures Ledger(call, s')
  {
    hide SetupLeft, Collect, LeftOver;
    var t := Collect(s.client.base.ids, LoopLog(s, at));
    assert LoopLog(s', at) == LoopLog(s, at);
    assert s'.client.got == Emission(s'.client.base.errors, t, order, err);
  }

  lemma LedgerRecv(call: Call, s: System, s': System, order: seq<Id>)
    requires Ledger(call, s) && s.client.phase.Ready? && s.client.sentErrors && s.client.phase.ids != map[]
    requires s.client.consumed < |s.server.replies|
    requires var t := Answer(call, s.client.phase.ids, s.server.replies[s.client.consumed]);
             call.unary && !t.end.Fine? ==> Lists(order, t.ids.Keys)
    requires s' == s.(client := AfterRecv(call, s.client, s.server.replies[s.client.consumed], order))
    ensures Ledger(call, s')
  {
    hide SetupLeft, Collect, InvokeReply, RecvReply, LeftOver, Emission;
    if call.unary {
      LoopTakes(call, s);
      var cl, n := s.client, s.client.consumed;
      var t, before := InvokeReply(cl.phase.ids, s.server.replies[n]), Collect(cl.base.ids, LoopLog(s, n));
      assert cl.errors + before.out + t.out == cl.errors + (before.out + t.out);
      if t.end.Fine? {
        assert LoopLog(s', n + 1) == LoopLog(s, n + 1);
      } else {
        LedgerEnds(call, s, s', t.ids, cl.got + t.out, order, Some(ChanErr(t.end)), n + 1);
      }
    }
  }

  lemma LedgerBreaks(call: Call, s: System, s': System, order: seq<Id>, err: Option<RetError>)
    requires Ledger(call, s) && Looping(call, s.client) && Lists(order, s.client.phase.ids.Keys)
    requires s.client.phase.ids == map[] || err == Some(CONNECTION_LOST)
    requires s' == s.(client := LoopEnds(s.client, s.client.phase.ids, order, err, s.client.consumed))
    ensures Ledger(call, s')
  {
    hide SetupLeft, Collect, LeftOver;
    LedgerEnds(call, s, s', s.client.phase.ids, s.client.got, order, err, s.client.consumed);
  }

  lemma SetupIsLeft(c: Config, call: Call, run: seq<Action>)
    requires |call.targets| < NONCE_LIMIT && Reached(c, call, run).Some? && Can(c, call, Reached(c, call, run).value, SetupDone)
    ensures var s := Reached(c, call, run).value;
            SetupLeft(call, s.client.phase.setup) && s.client.consumed <= |s.server.replies|
  {
    hide Reached, Can, Partitioned, SysInv;
    CanFinish(c, call, Reached(c, call, run).value);
    forall i | 0 <= i < |call.targets|
      ensures Partitioned(Reached(c, call, run).value.client.phase.setup, i)
    {
      SetupPartitions(c, call, run, i);
    }
    ReachedInv(c, call, run);
    SetupSilent(c, call, Reached(c, call, run).value);
  }

  lemma CanFinish(c: Config, call: Call, s: System)
    requires |call.targets| < NONCE_LIMIT && Can(c, call, s, SetupDone)
    ensures s.client.phase.SettingUp?
  {}

  lemma SetupSilent(c: Config, call: Call, s: System)
    requires |call.targets| < NONCE_LIMIT && SysInv(c, call, s)
    ensures s.client.consumed <= |s.server.replies| && Plain(s.server.replies)
    ensures s.client.phase.SettingUp? ==> forall id <- s.client.phase.setup.ids :: s.client.phase.setup.ids[id].resp == None
  {
    hide Inv, Opened, Named, Collected, Attributed, Complete, WireShape, Tracking, Accounted;
  }

  lemma RepliesGrow(c: Config, s: Server, e: Event)
    requires Enabled(c, s, e)
    ensures s.replies <= Apply(c, s, e).replies
  {
    hide Apply, Enabled;
    EventLogGrows(c, s, e);
  }

  lemma LedgerServerStep(c: Config, call: Call, s: System, a: Action)
    requires |call.targets| < NONCE_LIMIT && Can(c, call, s, a) && Ledger(call, s) && (a.ServerMoves? || a.ServerHandles?)
    ensures Ledger(call, Do(c, call, s, a))
  {
    hide Ledger, Enabled, Apply;
    RepliesGrow(c, s.server, if a.ServerMoves? then a.e else Handle(s.client.wire[|s.server.handled|], a.newId));
    LedgerServer(call, s, Do(c, call, s, a));
  }

  lemma LedgerEndStep(c: Config, call: Call, s: System, a: Action)
    requires |call.targets| < NONCE_LIMIT && SysInv(c, call, s) && Can(c, call, s, a) && Ledger(call, s) && (a.EndOfReplies? || a.Breaks?)
    ensures Ledger(call, Do(c, call, s, a))
  {
    hide Ledger, LeftOver, SysInv, Enabled, Apply, Accept, Answer, AfterRecv, AfterSetupRecv;
    var s' := Do(c, call, s, a);
    LedgerFlags(call, s);
    if a.EndOfReplies? && call.unary {
      EofNothingOpen(c, call, s);
      LedgerBreaks(call, s, s', a.order, None);
    } else if a.Breaks? && Looping(call, s.client) {
      LedgerBreaks(call, s, s', a.order, Some(CONNECTION_LOST));
    } else if s.client.phase.Gone? {
      assert s' == s;
    } else {
      LedgerQuiet(call, s, s');
    }
  }

  lemma LedgerQuietStep(c: Config, call: Call, s: System, a: Action)
    requires |call.targets| < NONCE_LIMIT && Can(c, call, s, a) && Ledger(call, s)
    requires a.SendStart? || a.StartsEnd? || a.SetupRecv? || a.SendMsg? || a.CloseClients? || a.CloseSend?
    ensures Ledger(call, Do(c, call, s, a))
  {
    hide Ledger, Accept, Enabled, Apply, Answer, AfterRecv, LoopEnds, Lists;
    LedgerFlags(call, s);
    LedgerQuiet(call, s, Do(c, call, s, a));
  }

  lemma LedgerStep(c: Config, call: Call, run: seq<Action>, a: Action)
    requires |call.targets| < NONCE_LIMIT && Reached(c, call, run).Some? && Can(c, call, Reached(c, call, run).value, a)
    requires Ledger(call, Reached(c, call, run).value)
    ensures Ledger(call, Do(c, call, Reached(c, call, run).value, a))
  {
    hide Reached, Ledger, Enabled, Apply, Accept, Answer, LoopEnds, SysInv;
    var s := Reached(c, call, run).value;
    match a
    case ServerMoves(_) => LedgerServerStep(c, call, s, a);
    case ServerHandles(_) => LedgerServerStep(c, call, s, a);
    case SetupDone =>
      SetupIsLeft(c, call, run);
      LedgerSetupDone(call, s, Do(c, call, s, a));
    case ShipErrors => LedgerShipErrors(call, s, Do(c, call, s, a));
    case RecvNext(order) => LedgerRecv(call, s, Do(c, call, s, a), order);
    case EndOfReplies(_) =>
      ReachedInv(c, call, run);
      LedgerEndStep(c, call, s, a);
    case Breaks(_) =>
      ReachedInv(c, call, run);
      LedgerEndStep(c, call, s, a);
    case _ => LedgerQuietStep(c, call, s, a);
  }

  lemma LedgerFlags(call: Call, s: System)
    requires Ledger(call, s)
    ensures !s.client.phase.Gone? ==> s.client.ended == None
  {}

  lemma {:induction false} LedgerHolds(c: Config, call: Call, run: seq<Action>)
    requires |call.targets| < NONCE_LIMIT && Reached(c, call, run).Some?
    ensures Ledger(call, Reached(c, call, run).value)
  {
    if run != [] {
      hide Can, Do, Ledger;
      var n := |run| - 1;
      LedgerHolds(c, call, run[..n]);
      LedgerStep(c, call, run[..n], run[n]);
    }
  }

  /** Where the loop of a unary call stopped reading, once it has. */
  function StoppedAt(s: System): Option<nat> {
    if s.client.ended.Some? then s.client.ended
    else if s.client.phase.Ready? && s.client.sentErrors && s.client.phase.ids == map[] then Some(s.client.consumed)
    else None
  }

  lemma StoppedEmitted(call: Call, s: System)
    requires Ledger(call, s) && call.unary && StoppedAt(s).Some?
    ensures SetupLeft(call, s.client.base) && s.client.since <= StoppedAt(s).value <= |s.server.replies|
    ensures Emitted(s, StoppedAt(s).value)
  {
    hide SetupLeft, Collect;
    if s.client.ended.None? {
      var t := Collect(s.client.base.ids, LoopLog(s, s.client.consumed));
      assert LeftOver(t.ids, [], None) == [];
      assert s.client.got == s.client.base.errors + t.out + [];
      assert Lists([], t.ids.Keys) && EndsWith(t, None) && s.client.got == Emission(s.client.base.errors, t, [], None);
    }
  }

  /** In every run of a unary call against this server, once its loop has stopped: the
      caller has exactly one result for target i if and only if its stream, if it got
      one, was silent, answered and failed, failed, or answered once and closed. */
  lemma UnaryEndToEnd(c: Config, call: Call, run: seq<Action>, i: nat)
    requires |call.targets| < NONCE_LIMIT && Reached(c, call, run).Some? && call.unary && i < |call.targets|
    requires StoppedAt(Reached(c, call, run).value).Some?
    ensures var s := Reached(c, call, run).value; var n := StoppedAt(s).value;
            && s.client.since <= n <= |s.server.replies|
            && (Count(s.client.got, i) == 1 <==>
                forall id <- s.client.base.ids :: s.client.base.ids[id].index == i ==> OneResult(s.client.base.ids, LoopLog(s, n), id))
  {
    hide Reached, Ledger, SysInv, Collect, Emission, Partitioned, OneResult, Count;
    var s := Reached(c, call, run).value;
    LedgerHolds(c, call, run);
    StoppedEmitted(call, s);
    ReachedInv(c, call, run);
    SetupSilent(c, call, s);
    var n := StoppedAt(s).value;
    var log, base := LoopLog(s, n), s.client.base;
    forall k | 0 <= k < |log|
      ensures Single(log[k]) || log[k].StartReply?
    {
      assert log[k] == s.server.replies[s.client.since + k] && log[k] in s.server.replies;
    }
    var t := Collect(base.ids, log);
    var order, err :| Lists(order, t.ids.Keys) && s.client.got == Emission(base.errors, t, order, err);
    ExactlyOneAnswer(base, log, order, err, i);
  }

  /** In particular every target has exactly one result if each open stream of the call
      answered once and closed, or just failed. */
  lemma UnaryOnceEach(c: Config, call: Call, run: seq<Action>, i: nat)
    requires |call.targets| < NONCE_LIMIT && Reached(c, call, run).Some? && call.unary && i < |call.targets|
    requires StoppedAt(Reached(c, call, run).value).Some?
    requires var s := Reached(c, call, run).value; var n := StoppedAt(s).value; var ids := s.client.base.ids;
             && s.client.since <= n <= |s.server.replies|
             && (forall k :: 0 <= k < |LoopLog(s, n)| ==> Single(LoopLog(s, n)[k]) && LoopLog(s, n)[k].ids[0] in ids)
             && (forall id <- ids :: OneAnswer(Project(LoopLog(s, n), id)))
    ensures Count(Reached(c, call, run).value.client.got, i) == 1
  {
    hide Reached, Ledger, Project, Count, LoopLog, OneResult, OneAnswer, Partitioned, Emitted;
    var s := Reached(c, call, run).value;
    UnaryEndToEnd(c, call, run, i);
    LedgerHolds(c, call, run);
    StoppedEmitted(call, s);
    AnswersAreResults(s.client.base.ids, LoopLog(s, StoppedAt(s).value));
  }

  lemma AnswersAreResults(ids: map<Id, Ret>, log: seq<Reply>)
    requires (forall k :: 0 <= k < |log| ==> Single(log[k]) && log[k].ids[0] in ids)
    requires forall id <- ids :: ids[id].resp == None && OneAnswer(Project(log, id))
    ensures forall id <- ids :: OneResult(ids, log, id)
  {
    hide Project, Stop, InShape;
    forall id <- ids
      ensures InShape(Project(log, id), ids[id].resp.Some?)
    {
      AnswerInShape(Project(log, id));
    }
    ReadsAllExactly(ids, log);
    assert log[..|log|] == log;
    forall id <- ids
      ensures OneResult(ids, log, id)
    {
      assert Share(ids, log, id) == Project(log, id);
    }
  }

  lemma AnswerInShape(tr: seq<Reply>)
    requires OneAnswer(tr)
    ensures InShape(tr, false) && EndsClosed(tr)
  {}
}
