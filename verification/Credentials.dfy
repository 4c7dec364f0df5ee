/**
 MultiIdentityCredentials: client credentials that reload their certificates. The
 lock is held only while fields are read or written, so refreshes, overrides and
 clones interleave; the step system below has one step per locked section and per
 call to a loader.
 */
module Credentials {
  import opened Protocol

  datatype Identity = Identity(loaderName: string, cert: string)

  /** credentials.NewTLS: what it was built from, and the overriding server name. */
  datatype Inner = Inner(identities: seq<Identity>, rootCAs: string, serverName: string)

  datatype Creds = Creds(identities: seq<Identity>, inner: Inner, serverName: string, rootCAs: string)

  function BuildInnerCreds(ids: seq<Identity>, rootCAs: string): Inner {
    Inner(ids, rootCAs, "")
  }

  function NewCreds(ids: seq<Identity>, rootCAs: string): Creds {
    Creds(ids, BuildInnerCreds(ids, rootCAs), "", rootCAs)
  }

  /** The locked section of a refresh. */
  function Installed(c: Creds, ids: seq<Identity>, rootCAs: string): Creds {
    var inner := BuildInnerCreds(ids, rootCAs);
    Creds(ids, if c.serverName != "" then inner.(serverName := c.serverName) else inner, c.serverName, rootCAs)
  }

  function Overridden(c: Creds, name: string): Creds {
    c.(serverName := name, inner := c.inner.(serverName := name))
  }

  /** The inner credentials are built from exactly the stored identities, roots and name. */
  predicate Consistent(c: Creds) {
    c.inner == Inner(c.identities, c.rootCAs, c.serverName)
  }

  function Names(ids: seq<Identity>): seq<string> {
    seq(|ids|, i requires 0 <= i < |ids| => ids[i].loaderName)
  }

  function Certs(ids: seq<Identity>): seq<string> {
    seq(|ids|, i requires 0 <= i < |ids| => ids[i].cert)
  }

  // ---- Interleaved runs ----

  /** A refresh under way: whose it is, the identities it saw, and those loaded so far. */
  datatype Refresh = Refresh(owner: nat, seen: seq<Identity>, loaded: seq<Identity>)

  /** The original and its clones, and the refreshes started so far; an ended one is None. */
  datatype State = State(objects: seq<Creds>, refreshes: map<nat, Option<Refresh>>)

  datatype Step =
    | Begin(r: nat, owner: nat)          // some loader reports new certificates
    | Load(r: nat, cert: string)
    | Abort(r: nat)                       // a loader failed
    | Install(r: nat, rootCAs: string)
    | OverrideName(owner: nat, name: string)
    | MakeClone(owner: nat)

  predicate UnderWay(s: State, r: nat) {
    r in s.refreshes && s.refreshes[r].Some?
  }

  predicate Enabled(loaders: nat, s: State, e: Step) {
    match e
    case Begin(r, o) => o < |s.objects| && r !in s.refreshes
    case Load(r, _) =>
      UnderWay(s, r) && |s.refreshes[r].value.loaded| < loaders && |s.refreshes[r].value.loaded| < |s.refreshes[r].value.seen|
    case Abort(r) => UnderWay(s, r)
    case Install(r, _) =>
      UnderWay(s, r) && |s.refreshes[r].value.loaded| == loaders && s.refreshes[r].value.owner < |s.objects|
    case OverrideName(o, _) => o < |s.objects|
    case MakeClone(o) => o < |s.objects|
  }

  function Loaded(f: Refresh, cert: string): Refresh
    requires |f.loaded| < |f.seen|
  {
    f.(loaded := f.loaded + [Identity(f.seen[|f.loaded|].loaderName, cert)])
  }

  function Apply(loaders: nat, s: State, e: Step): State
    requires Enabled(loaders, s, e)
  {
    match e
    case Begin(r, o) => s.(refreshes := s.refreshes[r := Some(Refresh(o, s.objects[o].identities, []))])
    case Load(r, cert) => s.(refreshes := s.refreshes[r := Some(Loaded(s.refreshes[r].value, cert))])
    case Abort(r) => s.(refreshes := s.refreshes[r := None])
    case Install(r, rootCAs) =>
      var f := s.refreshes[r].value;
      State(s.objects[f.owner := Installed(s.objects[f.owner], f.loaded, rootCAs)], s.refreshes[r := None])
    case OverrideName(o, name) => s.(objects := s.objects[o := Overridden(s.objects[o], name)])
    case MakeClone(o) => s.(objects := s.objects + [s.objects[o]])
  }

  function After(ids: seq<Identity>, rootCAs: string, run: seq<Step>): Option<State> {
    if run == [] then Some(State([NewCreds(ids, rootCAs)], map[]))
    else
      var n := |run| - 1;
      var before := After(ids, rootCAs, run[..n]);
      if before.Some? && Enabled(|ids|, before.value, run[n]) then Some(Apply(|ids|, before.value, run[n])) else None
  }

  // ---- Consistency ----

  ghost predicate Sound(ids: seq<Identity>, s: State) {
    && (forall k :: 0 <= k < |s.objects| ==> Consistent(s.objects[k]) && Names(s.objects[k].identities) == Names(ids))
    && (forall r :: UnderWay(s, r) ==>
          && Names(s.refreshes[r].value.seen) == Names(ids)
          && |s.refreshes[r].value.loaded| <= |ids|
          && Names(s.refreshes[r].value.loaded) == Names(ids)[..|s.refreshes[r].value.loaded|])
  }

  lemma ApplySound(ids: seq<Identity>, s: State, e: Step)
    requires Sound(ids, s) && Enabled(|ids|, s, e)
    ensures Sound(ids, Apply(|ids|, s, e))
  {
    if e.Load? {
      var f := s.refreshes[e.r].value;
      var g := Loaded(f, e.cert);
      assert Names(f.seen)[|f.loaded|] == f.seen[|f.loaded|].loaderName;
      assert Names(g.loaded) == Names(f.loaded) + [Names(ids)[|f.loaded|]];
      assert Names(ids)[..|f.loaded| + 1] == Names(ids)[..|f.loaded|] + [Names(ids)[|f.loaded|]];
    } else if e.Install? {
      var f := s.refreshes[e.r].value;
      assert Names(ids)[..|ids|] == Names(ids);
    }
  }

  /** In every run, of every object: the inner credentials match what is stored, and
      the loader names and their order are those of construction. */
  lemma {:induction false} AlwaysConsistent(ids: seq<Identity>, rootCAs: string, run: seq<Step>)
    requires After(ids, rootCAs, run).Some?
    ensures Sound(ids, After(ids, rootCAs, run).value)
  {
    if run != [] {
      var n := |run| - 1;
      AlwaysConsistent(ids, rootCAs, run[..n]);
      ApplySound(ids, After(ids, rootCAs, run[..n]).value, run[n]);
    }
  }

  // ---- The state, read off the trace ----

  /** What refresh r loaded, in order. */
  function CertsLoaded(run: seq<Step>, r: nat): seq<string> {
    if run == [] then []
    else
      var n := |run| - 1;
      CertsLoaded(run[..n], r) + if run[n].Load? && run[n].r == r then [run[n].cert] else []
  }

  function OwnerOf(run: seq<Step>, r: nat): Option<nat> {
    if run == [] then None
    else
      var n := |run| - 1;
      if run[n].Begin? && run[n].r == r then Some(run[n].owner) else OwnerOf(run[..n], r)
  }

  function ObjectsIn(run: seq<Step>): nat {
    if run == [] then 1 else ObjectsIn(run[..|run| - 1]) + if run[|run| - 1].MakeClone? then 1 else 0
  }

  /** One whole batch of certificates, the roots loaded after it, and a server name. */
  datatype Holding = Holding(certs: seq<string>, rootCAs: string, serverName: string)

  /** What object o should hold: the batch of the last refresh of it that completed and
      the name of its last override, a clone starting with those of its original. */
  function Expected(ids: seq<Identity>, rootCAs: string, run: seq<Step>, o: nat): Holding {
    if run == [] then Holding(Certs(ids), rootCAs, "")
    else
      var n := |run| - 1;
      var before := Expected(ids, rootCAs, run[..n], o);
      match run[n]
      case Install(r, roots) =>
        if OwnerOf(run[..n], r) == Some(o) then before.(certs := CertsLoaded(run[..n], r), rootCAs := roots) else before
      case OverrideName(p, name) => if p == o then before.(serverName := name) else before
      case MakeClone(p) => if o == ObjectsIn(run[..n]) then Expected(ids, rootCAs, run[..n], p) else before
      case _ => before
  }

  function Held(c: Creds): Holding {
    Holding(Certs(c.identities), c.rootCAs, c.serverName)
  }

  ghost predicate Traced(ids: seq<Identity>, rootCAs: string, run: seq<Step>, s: State) {
    && |s.objects| == ObjectsIn(run)
    && (forall o :: 0 <= o < |s.objects| ==> Held(s.objects[o]) == Expected(ids, rootCAs, run, o))
    && (forall r :: UnderWay(s, r) ==>
          OwnerOf(run, r) == Some(s.refreshes[r].value.owner) && Certs(s.refreshes[r].value.loaded) == CertsLoaded(run, r))
    && (forall r :: r !in s.refreshes ==> CertsLoaded(run, r) == [])
  }

  lemma ApplyTraced(ids: seq<Identity>, rootCAs: string, run: seq<Step>, s: State, e: Step)
    requires Traced(ids, rootCAs, run, s) && Enabled(|ids|, s, e)
    ensures Traced(ids, rootCAs, run + [e], Apply(|ids|, s, e))
  {
    var run' := run + [e];
    var s' := Apply(|ids|, s, e);
    assert run'[..|run|] == run && run'[|run|] == e;
    forall r | UnderWay(s', r)
      ensures OwnerOf(run', r) == Some(s'.refreshes[r].value.owner)
      ensures Certs(s'.refreshes[r].value.loaded) == CertsLoaded(run', r)
    {
      if e.Load? && e.r == r {
        var f := s.refreshes[r].value;
        assert Certs(Loaded(f, e.cert).loaded) == Certs(f.loaded) + [e.cert];
      } else if e.Begin? && e.r == r {
        assert Certs([]) == [];
      } else {
        assert UnderWay(s, r);
      }
    }
    forall o | 0 <= o < |s'.objects|
      ensures Held(s'.objects[o]) == Expected(ids, rootCAs, run', o)
    {
      assert o < |s.objects| ==> Held(s.objects[o]) == Expected(ids, rootCAs, run, o);
    }
  }

  /** In every run, every object holds exactly what the trace says: certificates and
      roots of one refresh, never a mixture, and the last override of its name. */
  lemma {:induction false} HoldsWhatTraceSays(ids: seq<Identity>, rootCAs: string, run: seq<Step>)
    requires After(ids, rootCAs, run).Some?
    ensures Traced(ids, rootCAs, run, After(ids, rootCAs, run).value)
  {
    if run == [] {
    } else {
      var n := |run| - 1;
      HoldsWhatTraceSays(ids, rootCAs, run[..n]);
      ApplyTraced(ids, rootCAs, run[..n], After(ids, rootCAs, run[..n]).value, run[n]);
      assert run[..n] + [run[n]] == run;
    }
  }

  // ---- A refresh that does not complete ----

  predicate StepOf(e: Step, r: nat) {
    match e
    case Begin(q, _) => q == r
    case Load(q, _) => q == r
    case Abort(q) => q == r
    case Install(q, _) => q == r
    case OverrideName(_, _) => false
    case MakeClone(_) => false
  }

  function Erased(run: seq<Step>, r: nat): seq<Step> {
    if run == [] then []
    else
      var n := |run| - 1;
      Erased(run[..n], r) + if StepOf(run[n], r) then [] else [run[n]]
  }

  lemma ApplyErased(loaders: nat, s: State, s': State, e: Step, r: nat)
    requires s' == s.(refreshes := s.refreshes - {r}) && Enabled(loaders, s, e) && !(e.Install? && e.r == r)
    ensures StepOf(e, r) ==> s' == Apply(loaders, s, e).(refreshes := Apply(loaders, s, e).refreshes - {r})
    ensures !StepOf(e, r) ==>
              && Enabled(loaders, s', e)
              && Apply(loaders, s', e) == Apply(loaders, s, e).(refreshes := Apply(loaders, s, e).refreshes - {r})
  {
    var t := Apply(loaders, s, e);
    if StepOf(e, r) {
      assert t.refreshes - {r} == s.refreshes - {r};
    } else if e.Begin? || e.Load? || e.Abort? || e.Install? {
      assert Apply(loaders, s', e).refreshes == t.refreshes - {r};
    }
  }

  /** A refresh that never installs might as well not have run. */
  lemma {:induction false} FailedRefreshLeavesNothing(ids: seq<Identity>, rootCAs: string, run: seq<Step>, r: nat)
    requires After(ids, rootCAs, run).Some?
    requires forall k :: 0 <= k < |run| && run[k].Install? ==> run[k].r != r
    ensures var s, t := After(ids, rootCAs, run), After(ids, rootCAs, Erased(run, r));
            t.Some? && t.value == s.value.(refreshes := s.value.refreshes - {r})
  {
    if run == [] {
      var none: map<nat, Option<Refresh>> := map[];
      assert none - {r} == none;
    } else {
      var n := |run| - 1;
      FailedRefreshLeavesNothing(ids, rootCAs, run[..n], r);
      var w := Erased(run[..n], r);
      ApplyErased(|ids|, After(ids, rootCAs, run[..n]).value, After(ids, rootCAs, w).value, run[n], r);
      if StepOf(run[n], r) {
        assert w + [] == w;
      } else {
        assert (w + [run[n]])[..|w|] == w;
      }
    }
  }
}
