/**
 Target addresses, host[:port][;duration]: the command line completes them, the
 client library takes them apart again. Durations are read and written by a pair
 of functions about which only the round trip is assumed.
 */
module Targets {
  import opened Protocol
  import opened NonceKeys

  // ---- Strings ----

  /** strings.Split(s, ";") */
  function Split(s: string): (parts: seq<string>)
    ensures |parts| >= 1
  {
    if s == "" then [""]
    else
      var rest := Split(s[1..]);
      if s[0] == ';' then [""] + rest else [[s[0]] + rest[0]] + rest[1..]
  }

  /** strings.LastIndex of one character. */
  function LastIndex(s: string, c: char): int {
    if s == "" then -1 else if s[|s| - 1] == c then |s| - 1 else LastIndex(s[..|s| - 1], c)
  }

  predicate HasPort(s: string) {
    LastIndex(s, ']') < LastIndex(s, ':')
  }

  lemma {:induction false} SplitWhole(s: string)
    requires ';' !in s
    ensures Split(s) == [s]
  {
    if s != "" {
      SplitWhole(s[1..]);
      assert [s[0]] + s[1..] == s;
    }
  }

  lemma {:induction false} SplitPair(a: string, b: string)
    requires ';' !in a && ';' !in b
    ensures Split(a + ";" + b) == [a, b]
  {
    var s := a + ";" + b;
    if a == "" {
      SplitWhole(b);
      assert s[1..] == b;
    } else {
      SplitPair(a[1..], b);
      assert s[1..] == a[1..] + ";" + b && s[0] == a[0];
      assert [a[0]] + a[1..] == a;
    }
  }

  /** One part or two parts put together again give the address, and hold no separator. */
  lemma {:induction false} SplitJoins(s: string)
    ensures |Split(s)| == 1 ==> Split(s)[0] == s && ';' !in s
    ensures |Split(s)| == 2 ==> s == Split(s)[0] + ";" + Split(s)[1] && ';' !in Split(s)[0] && ';' !in Split(s)[1]
  {
    if s != "" {
      SplitJoins(s[1..]);
      assert s == [s[0]] + s[1..];
      var rest := Split(s[1..]);
      if s[0] == ';' {
        assert |rest| == 1 ==> s == "" + ";" + rest[0];
      } else {
        assert |rest| == 2 ==> s == ([s[0]] + rest[0]) + ";" + rest[1];
      }
    }
  }

  lemma {:induction false} LastIndexBound(s: string, c: char)
    ensures -1 <= LastIndex(s, c) < |s|
    ensures c !in s ==> LastIndex(s, c) == -1
  {
    if s != "" && s[|s| - 1] != c {
      LastIndexBound(s[..|s| - 1], c);
    }
  }

  lemma {:induction false} LastIndexAfter(s: string, t: string, c: char)
    ensures LastIndex(s + t, c) == if c in t then |s| + LastIndex(t, c) else LastIndex(s, c)
  {
    if t == "" {
      assert s + t == s;
    } else {
      var n := |t| - 1;
      LastIndexAfter(s, t[..n], c);
      assert (s + t)[..|s + t| - 1] == s + t[..n];
      assert t == t[..n] + [t[n]];
    }
  }

  /** A colon with no closing bracket after it. */
  ghost predicate ColonAfterBrackets(s: string) {
    exists i :: 0 <= i < |s| && s[i] == ':' && ']' !in s[i..]
  }

  lemma {:induction false} LastIndexIs(s: string, c: char)
    ensures -1 <= LastIndex(s, c) < |s|
    ensures LastIndex(s, c) >= 0 ==> s[LastIndex(s, c)] == c
    ensures forall i :: 0 <= i < |s| && s[i] == c ==> i <= LastIndex(s, c)
  {
    if s != "" && s[|s| - 1] != c {
      LastIndexIs(s[..|s| - 1], c);
      assert forall i :: 0 <= i < |s| - 1 ==> s[..|s| - 1][i] == s[i];
    }
  }

  /** An address has a port if and only if a colon comes after its last bracket; to any other
      one the port is appended. */
  lemma PortExactly(host: string, port: nat)
    ensures HasPort(host) <==> ColonAfterBrackets(host)
    ensures WithPort(host, port) == if ColonAfterBrackets(host) then host else host + ":" + Decimal(port)
  {
    LastIndexIs(host, ':');
    LastIndexIs(host, ']');
    var c, b := LastIndex(host, ':'), LastIndex(host, ']');
    if HasPort(host) {
      assert host[c] == ':' && ']' !in host[c..];
    }
    if i :| 0 <= i < |host| && host[i] == ':' && ']' !in host[i..] {
      assert forall j :: i <= j < |host| ==> host[i..][j - i] == host[j];
    }
  }

  /** An address completed with a port has one. */
  lemma PortAdded(host: string, port: nat)
    ensures HasPort(host + ":" + Decimal(port))
  {
    var tail := ":" + Decimal(port);
    assert host + ":" + Decimal(port) == host + tail;
    DigitsOnly(port, ']');
    assert tail[0] == ':' && ':' in tail && ']' !in tail;
    LastIndexAfter(host, tail, ':');
    LastIndexAfter(host, tail, ']');
    LastIndexBound(host, ']');
    LastIndexAfter("", tail, ':');
    DigitsOnly(port, ':');
    LastIndexAfter(":", Decimal(port), ':');
  }

  // ---- The two parsers ----

  datatype Durations = Durations(parse: string -> Option<int>, show: int -> string)

  /** What time.Duration promises: its own output reads back, and has no semicolon. */
  ghost predicate RoundTrips(d: Durations) {
    forall t: int :: d.parse(d.show(t)) == Some(t) && ';' !in d.show(t)
  }

  datatype Target = Target(hostport: string, timeout: Option<int>)

  /** parseTargets, for one address. */
  function ParseTarget(d: Durations, s: string): Option<Target> {
    var p := Split(s);
    if |p| > 2 || p[0] == "" then None
    else if |p| == 1 then Some(Target(p[0], None))
    else if d.parse(p[1]).None? then None
    else Some(Target(p[0], d.parse(p[1])))
  }

  /** A target is a host without semicolons, or such a host, a semicolon and a duration that parses;
      hosts are not empty, and nothing else is accepted. */
  lemma ParsesExactly(d: Durations, s: string, t: Target)
    ensures ParseTarget(d, s) == Some(t) <==>
            && t.hostport != "" && ';' !in t.hostport
            && if t.timeout.None? then s == t.hostport
               else exists dur :: s == t.hostport + ";" + dur && ';' !in dur && d.parse(dur) == t.timeout
  {
    SplitJoins(s);
    if t.timeout.None? && s == t.hostport && ';' !in s {
      SplitWhole(s);
    }
    if dur :| s == t.hostport + ";" + dur && ';' !in dur && d.parse(dur) == t.timeout && ';' !in t.hostport {
      SplitPair(t.hostport, dur);
    }
  }

  method ParseTargets(d: Durations, targets: seq<string>) returns (hostports: seq<string>, timeouts: seq<Option<int>>, ok: bool)
    ensures ok <==> forall i :: 0 <= i < |targets| ==> ParseTarget(d, targets[i]).Some?
    ensures ok ==> |hostports| == |timeouts| == |targets|
    ensures ok ==> forall i :: 0 <= i < |targets| ==> ParseTarget(d, targets[i]) == Some(Target(hostports[i], timeouts[i]))
  {
    hostports, timeouts, ok := [], [], true;
    for k := 0 to |targets|
      invariant ok && |hostports| == |timeouts| == k
      invariant forall i :: 0 <= i < k ==> ParseTarget(d, targets[i]) == Some(Target(hostports[i], timeouts[i]))
    {
      var t := targets[k];
      var p := Split(t);
      if |t| == 0 || |p| > 2 || p[0] == "" {
        ok := false;
        return;
      }
      var timeout: Option<int> := None;
      if |p| == 2 {
        timeout := d.parse(p[1]);
        if timeout.None? {
          ok := false;
          return;
        }
      }
      hostports, timeouts := hostports + [p[0]], timeouts + [timeout];
    }
  }

  /** ValidateAndAddPortAndTimeout; None stands for the fatal exits. */
  method ValidateAndAddPortAndTimeout(d: Durations, s: string, port: nat, dialTimeout: int) returns (r: Option<string>)
    ensures r == Completed(d, s, port, dialTimeout)
  {
    var p := Split(s);
    if |p| == 0 || |p| > 2 || p[0] == "" {
      return None;
    }
    var completed := s;
    if !HasPort(p[0]) {
      completed := p[0] + ":" + Decimal(port);
      if |p| == 2 {
        completed := completed + ";" + p[1];
      }
    }
    if |p| == 2 {
      if d.parse(p[1]).None? {
        return None;
      }
    } else if dialTimeout != 0 {
      completed := completed + ";" + d.show(dialTimeout);
    }
    SplitJoins(s);
    return Some(completed);
  }

  function WithPort(host: string, port: nat): string {
    if HasPort(host) then host else host + ":" + Decimal(port)
  }

  function Completed(d: Durations, s: string, port: nat, dialTimeout: int): Option<string> {
    var p := Split(s);
    if |p| > 2 || p[0] == "" then None
    else if |p| == 2 then if d.parse(p[1]).None? then None else Some(WithPort(p[0], port) + ";" + p[1])
    else if dialTimeout != 0 then Some(WithPort(p[0], port) + ";" + d.show(dialTimeout))
    else Some(WithPort(p[0], port))
  }

  /** Both accept the same addresses; a completed one parses to the host with a port and
      to its own timeout or the default; and completing again changes nothing. */
  lemma CompletedParses(d: Durations, s: string, port: nat, dialTimeout: int)
    requires RoundTrips(d)
    ensures Completed(d, s, port, dialTimeout).Some? <==> ParseTarget(d, s).Some?
    ensures ParseTarget(d, s).Some? ==>
              var t, done := ParseTarget(d, s).value, Completed(d, s, port, dialTimeout).value;
              && HasPort(WithPort(t.hostport, port))
              && ParseTarget(d, done) == Some(Target(WithPort(t.hostport, port),
                   if t.timeout.None? && dialTimeout != 0 then Some(dialTimeout) else t.timeout))
              && Completed(d, done, port, dialTimeout) == Some(done)
  {
    if ParseTarget(d, s).Some? {
      var p := Split(s);
      SplitJoins(s);
      PortAdded(p[0], port);
      DigitsOnly(port, ';');
      var host := WithPort(p[0], port);
      assert ';' !in host && host != "";
      SplitWhole(host);
      if |p| == 2 {
        SplitPair(host, p[1]);
      } else if dialTimeout != 0 {
        SplitPair(host, d.show(dialTimeout));
      }
    }
  }
}
