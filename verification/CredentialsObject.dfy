/**
 MultiIdentityCredentials as an object, one call at a time, and the choice of the
 identity to present in a handshake.
 */
module CredentialsObject {
  import opened Protocol
  import opened Credentials

  datatype LoadResult = Loads(text: string) | LoadFails

  /** The identities with new certificates under the old names. */
  function Renewed(ids: seq<Identity>, certs: seq<LoadResult>): seq<Identity>
    requires |certs| == |ids| && forall i :: 0 <= i < |ids| ==> certs[i].Loads?
  {
    seq(|ids|, i requires 0 <= i < |ids| => Identity(ids[i].loaderName, certs[i].text))
  }

  class MultiIdentityCredentials {
    var identities: seq<Identity>
    var creds: Inner
    var serverName: string
    var rootCAs: string

    ghost function View(): Creds
      reads this
    {
      Creds(identities, creds, serverName, rootCAs)
    }

    ghost predicate Valid()
      reads this
    {
      Consistent(View())
    }

    constructor (ids: seq<Identity>, rootCAs: string)
      ensures Valid() && View() == NewCreds(ids, rootCAs)
    {
      identities, creds, serverName, this.rootCAs := ids, BuildInnerCreds(ids, rootCAs), "", rootCAs;
    }

    method OverrideServerName(name: string)
      requires Valid()
      modifies this
      ensures Valid() && View() == Overridden(old(View()), name)
    {
      serverName := name;
      creds := creds.(serverName := name);
    }

    /** The copy shares nothing that either object changes. */
    method Clone() returns (m: MultiIdentityCredentials)
      requires Valid()
      ensures fresh(m) && m.Valid() && m.View() == View()
    {
      m := new MultiIdentityCredentials(identities, rootCAs);
      m.serverName := serverName;
      m.creds := creds;
    }

    /** All of the new certificates and roots, or none of them. */
    method RefreshIfNeeded(refreshed: seq<bool>, certs: seq<LoadResult>, roots: LoadResult) returns (ok: bool)
      requires Valid() && |refreshed| == |certs| == |identities|
      modifies this
      ensures Valid()
      ensures var needed := exists i :: 0 <= i < |refreshed| && refreshed[i];
              var loads := roots.Loads? && forall i :: 0 <= i < |certs| ==> certs[i].Loads?;
              && ok == (!needed || loads)
              && View() == if needed && loads then Installed(old(View()), Renewed(old(identities), certs), roots.text) else old(View())
      ensures |identities| == |old(identities)|
      ensures ok && (exists i :: 0 <= i < |refreshed| && refreshed[i]) ==>
                rootCAs == roots.text
                && forall i :: 0 <= i < |certs| ==> identities[i] == Identity(old(identities)[i].loaderName, certs[i].text)
    {
      var anyRefreshed := false;
      for i := 0 to |refreshed|
        invariant !anyRefreshed && forall j :: 0 <= j < i ==> !refreshed[j]
      {
        if refreshed[i] {
          anyRefreshed := true;
          break;
        }
      }
      if !anyRefreshed {
        return true;
      }
      var renewed: seq<Identity> := [];
      for i := 0 to |certs|
        invariant |renewed| == i && forall j :: 0 <= j < i ==> certs[j].Loads?
        invariant forall j :: 0 <= j < i ==> renewed[j] == Identity(identities[j].loaderName, certs[j].text)
      {
        if certs[i].LoadFails? {
          return false;
        }
        renewed := renewed + [Identity(identities[i].loaderName, certs[i].text)];
      }
      if roots.LoadFails? {
        return false;
      }
      assert renewed == Renewed(identities, certs);
      creds := BuildInnerCreds(renewed, roots.text);
      identities := renewed;
      rootCAs := roots.text;
      if serverName != "" {
        creds := creds.(serverName := serverName);
      }
      ok := true;
    }
  }

  // ---- A refresh on its own, among interleaved runs ----

  function Texts(certs: seq<LoadResult>): seq<string>
    requires forall i :: 0 <= i < |certs| ==> certs[i].Loads?
  {
    seq(|certs|, i requires 0 <= i < |certs| => certs[i].text)
  }

  /** Begin and one Load per certificate. */
  function LoadSteps(r: nat, owner: nat, certs: seq<string>): seq<Step> {
    if certs == [] then [Begin(r, owner)] else LoadSteps(r, owner, certs[..|certs| - 1]) + [Load(r, certs[|certs| - 1])]
  }

  lemma AfterMore(ids: seq<Identity>, rootCAs: string, run: seq<Step>, e: Step)
    requires After(ids, rootCAs, run).Some? && Enabled(|ids|, After(ids, rootCAs, run).value, e)
    ensures After(ids, rootCAs, run + [e]) == Some(Apply(|ids|, After(ids, rootCAs, run).value, e))
  {
    assert (run + [e])[..|run|] == run;
  }

  /** The state s with refresh r of object o under way, and the certificates it has loaded. */
  function InProgress(s: State, r: nat, o: nat, certs: seq<LoadResult>): State
    requires o < |s.objects| && |certs| <= |s.objects[o].identities| && forall i :: 0 <= i < |certs| ==> certs[i].Loads?
  {
    var seen := s.objects[o].identities;
    s.(refreshes := s.refreshes[r := Some(Refresh(o, seen, Renewed(seen[..|certs|], certs)))])
  }

  lemma LoadOne(loaders: nat, s: State, r: nat, o: nat, certs: seq<LoadResult>)
    requires o < |s.objects| && 0 < |certs| <= |s.objects[o].identities| == loaders && forall i :: 0 <= i < |certs| ==> certs[i].Loads?
    ensures var n := |certs| - 1; var e := Load(r, certs[n].text);
            Enabled(loaders, InProgress(s, r, o, certs[..n]), e)
            && Apply(loaders, InProgress(s, r, o, certs[..n]), e) == InProgress(s, r, o, certs)
  {
    var n, seen := |certs| - 1, s.objects[o].identities;
    assert Renewed(seen[..n + 1], certs) == Renewed(seen[..n], certs[..n]) + [Identity(seen[n].loaderName, certs[n].text)];
  }

  lemma BeginOne(loaders: nat, s: State, r: nat, o: nat)
    requires o < |s.objects| && r !in s.refreshes
    ensures Enabled(loaders, s, Begin(r, o)) && Apply(loaders, s, Begin(r, o)) == InProgress(s, r, o, [])
  {
    assert Renewed(s.objects[o].identities[..0], []) == [];
  }

  lemma {:induction false} LoadsInTurn(ids: seq<Identity>, rootCAs: string, run: seq<Step>, r: nat, o: nat, certs: seq<LoadResult>)
    requires After(ids, rootCAs, run).Some?
    requires o < |After(ids, rootCAs, run).value.objects| && r !in After(ids, rootCAs, run).value.refreshes
    requires |certs| <= |ids| == |After(ids, rootCAs, run).value.objects[o].identities|
    requires forall i :: 0 <= i < |certs| ==> certs[i].Loads?
    ensures After(ids, rootCAs, run + LoadSteps(r, o, Texts(certs))) == Some(InProgress(After(ids, rootCAs, run).value, r, o, certs))
  {
    hide After, Enabled, Apply, InProgress;
    var s := After(ids, rootCAs, run).value;
    if certs == [] {
      BeginOne(|ids|, s, r, o);
      AfterMore(ids, rootCAs, run, Begin(r, o));
      assert Texts(certs) == [];
    } else {
      var n := |certs| - 1;
      LoadsInTurn(ids, rootCAs, run, r, o, certs[..n]);
      assert Texts(certs)[..n] == Texts(certs[..n]);
      var before := run + LoadSteps(r, o, Texts(certs[..n]));
      LoadOne(|ids|, s, r, o, certs);
      AfterMore(ids, rootCAs, before, Load(r, certs[n].text));
      assert run + LoadSteps(r, o, Texts(certs)) == before + [Load(r, certs[n].text)];
    }
  }

  /** From any reachable state, a refresh that runs through is Begin, one Load per loader in
      order, and Install, and it leaves its object with what RefreshIfNeeded installs. */
  lemma RefreshIsRun(ids: seq<Identity>, rootCAs: string, run: seq<Step>, r: nat, o: nat, certs: seq<LoadResult>, roots: string)
    requires After(ids, rootCAs, run).Some?
    requires o < |After(ids, rootCAs, run).value.objects| && r !in After(ids, rootCAs, run).value.refreshes
    requires |certs| == |ids| && forall i :: 0 <= i < |certs| ==> certs[i].Loads?
    ensures |After(ids, rootCAs, run).value.objects[o].identities| == |ids|
    ensures var s, s' := After(ids, rootCAs, run).value, After(ids, rootCAs, run + LoadSteps(r, o, Texts(certs)) + [Install(r, roots)]);
            s'.Some? && s'.value.objects == s.objects[o := Installed(s.objects[o], Renewed(s.objects[o].identities, certs), roots)]
  {
    hide After;
    AlwaysConsistent(ids, rootCAs, run);
    var s := After(ids, rootCAs, run).value;
    assert |Names(s.objects[o].identities)| == |Names(ids)|;
    LoadsInTurn(ids, rootCAs, run, r, o, certs);
    assert s.objects[o].identities[..|certs|] == s.objects[o].identities;
    AfterMore(ids, rootCAs, run + LoadSteps(r, o, Texts(certs)), Install(r, roots));
  }

  // ---- Which identity to present ----

  /** A certificate of the chain parses and was issued by an acceptable CA. */
  predicate ChainMatches(chain: seq<Option<string>>, acceptable: seq<string>) {
    exists i :: 0 <= i < |chain| && chain[i].Some? && chain[i].value in acceptable
  }

  method ChainMatchesAcceptableCAs(chain: seq<Option<string>>, acceptable: seq<string>) returns (b: bool)
    ensures b <==> ChainMatches(chain, acceptable)
  {
    for i := 0 to |chain|
      invariant forall j :: 0 <= j < i ==> !(chain[j].Some? && chain[j].value in acceptable)
    {
      if chain[i].Some? && chain[i].value in acceptable {
        return true;
      }
    }
    return false;
  }

  /** k is the least index that satisfies p. */
  ghost predicate Least(p: seq<bool>, k: nat) {
    k < |p| && p[k] && forall j :: 0 <= j < k ==> !p[j]
  }

  /** The least index of the first tier that is not empty: certificates the handshake
      supports, then chains with an acceptable issuer, then the first identity. Only an
      empty list of identities is an error. */
  method SelectIdentity(acceptable: seq<string>, supported: seq<bool>, chains: seq<seq<Option<string>>>) returns (k: Option<nat>)
    requires |supported| == |chains|
    ensures k.None? <==> |chains| == 0
    ensures k.Some? ==> k.value < |chains|
    ensures k.Some? && (acceptable == [] || |chains| == 1) ==> k.value == 0
    ensures k.Some? && acceptable != [] && |chains| > 1 ==>
              var matching := seq(|chains|, i requires 0 <= i < |chains| => ChainMatches(chains[i], acceptable));
              if true in supported then Least(supported, k.value)
              else if true in matching then Least(matching, k.value)
              else k.value == 0
  {
    if |chains| == 0 {
      return None;
    }
    if |acceptable| == 0 || |chains| == 1 {
      return Some(0);
    }
    for i := 0 to |supported|
      invariant forall j :: 0 <= j < i ==> !supported[j]
    {
      if supported[i] {
        return Some(i);
      }
    }
    ghost var matching := seq(|chains|, i requires 0 <= i < |chains| => ChainMatches(chains[i], acceptable));
    for i := 0 to |chains|
      invariant forall j :: 0 <= j < i ==> !matching[j]
    {
      var matches := ChainMatchesAcceptableCAs(chains[i], acceptable);
      if matches {
        assert matching[i];
        return Some(i);
      }
    }
    return Some(0);
  }
}
