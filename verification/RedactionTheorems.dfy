/**
 What redaction promises about the message it returns: path by path, for the
 message as a whole, and about what it still depends on.
 */
module RedactionTheorems {
  import opened Protocol
  import opened Redaction

  lemma RedactedAt(h: string -> string, m: Message, n: nat)
    requires m.Plain?
    ensures Redacted(h, m).Plain? && Redacted(h, m).name == m.name
    ensures n in Redacted(h, m).fields <==> n in m.fields && Kept(m.fields[n])
    ensures n in Redacted(h, m).fields ==>
              var f := m.fields[n];
              Redacted(h, m).fields[n] == Field(f.marked, if f.marked then Masked(h, f.value) else RedactedValue(h, f.value))
  {}

  // ---- Path by path ----

  /** From a message through one of its fields into a message: the field's own, the
      payload of its Any, an element or an entry. */
  datatype Into = Whole | Payload | Index(i: nat) | Entry(k: string)
  datatype Hop = Hop(field: nat, into: Into)

  function Child(v: Value, into: Into): Option<Message> {
    match into
    case Whole => if v.Msg? && v.m.Plain? then Some(v.m) else None
    case Payload => if v.Msg? && v.m.Packed? then Some(v.m.inner) else None
    case Index(i) => if v.MsgList? && i < |v.ms| then Some(v.ms[i]) else None
    case Entry(k) => if v.MsgMap? && k in v.entries then Some(v.entries[k]) else None
  }

  function Next(m: Message, hop: Hop): Option<Message> {
    if m.Plain? && hop.field in m.fields then Child(m.fields[hop.field].value, hop.into) else None
  }

  function FieldAt(m: Message, hops: seq<Hop>, n: nat): Option<Field>
    decreases |hops|
  {
    if hops == [] then if m.Plain? && n in m.fields then Some(m.fields[n]) else None
    else if Next(m, hops[0]).Some? then FieldAt(Next(m, hops[0]).value, hops[1..], n)
    else None
  }

  /** The path enters no marked field. */
  predicate Unmarked(m: Message, hops: seq<Hop>)
    decreases |hops|
  {
    hops != [] && Next(m, hops[0]).Some? ==>
      !m.fields[hops[0].field].marked && Unmarked(Next(m, hops[0]).value, hops[1..])
  }

  /** The hash form of a secret string, or the empty string. */
  predicate IsMask(h: string -> string, s: string, s': string) {
    if s == "" then s' == "" else s' == "REDACTED-" + h(s)
  }

  predicate IsBlobMask(h: string -> string, b: Blob, b': Blob) {
    if b.Nil? then b' == Nil else b' == Blob("REDACTED-" + h(b.data))
  }

  /** What becomes of a field: hashed or cleared if marked, otherwise the same leaf,
      the same elements in number, the same keys. */
  predicate FieldRule(h: string -> string, f: Option<Field>, f': Option<Field>) {
    if f.None? then f' == None
    else if f.value.marked then
      match f.value.value
      case Str(s) => f'.Some? && f'.value.marked && f'.value.value.Str? && IsMask(h, s, f'.value.value.s)
      case StrList(ss) =>
        && f'.Some? && f'.value.marked && f'.value.value.StrList? && |f'.value.value.ss| == |ss|
        && (forall i :: 0 <= i < |ss| ==> IsMask(h, ss[i], f'.value.value.ss[i]))
      case Bytes(b) => f'.Some? && f'.value.marked && f'.value.value.Bytes? && IsBlobMask(h, b, f'.value.value.b)
      case BytesList(bs) =>
        && f'.Some? && f'.value.marked && f'.value.value.BytesList? && |f'.value.value.bs| == |bs|
        && (forall i :: 0 <= i < |bs| ==> IsBlobMask(h, bs[i], f'.value.value.bs[i]))
      case _ => f' == None
    else
      match f.value.value
      case Msg(m) =>
        && f'.Some? && !f'.value.marked && f'.value.value.Msg?
        && f'.value.value.m.Plain? == m.Plain? && (m.Garbled? ==> f' == f)
        && (m.Packed? ==>
              f'.value.value.m.Packed?
              && f'.value.value.m.url == "type.googleapis.com/" + if m.inner.Plain? then m.inner.name else "google.protobuf.Any")
      case MsgList(ms) => f'.Some? && !f'.value.marked && f'.value.value.MsgList? && |f'.value.value.ms| == |ms|
      case MsgMap(es) => f'.Some? && !f'.value.marked && f'.value.value.MsgMap? && f'.value.value.entries.Keys == es.Keys
      case _ => f' == f
  }

  /** Redaction commutes with stepping into an unmarked field, and hides what a marked one holds. */
  lemma NextRedacted(h: string -> string, m: Message, hop: Hop)
    ensures Next(m, hop).None? ==> Next(Redacted(h, m), hop).None?
    ensures Next(m, hop).Some? && m.fields[hop.field].marked ==> Next(Redacted(h, m), hop).None?
    ensures Next(m, hop).Some? && !m.fields[hop.field].marked ==> Next(Redacted(h, m), hop) == Some(Redacted(h, Next(m, hop).value))
  {
    if m.Plain? {
      RedactedAt(h, m, hop.field);
    }
  }

  /** Every path through a message, with nothing left over: an unmarked path leads to
      the field's image, a path into a marked field leads nowhere. */
  lemma {:induction false} RedactedByPath(h: string -> string, m: Message, hops: seq<Hop>, n: nat)
    ensures if Unmarked(m, hops) then FieldRule(h, FieldAt(m, hops, n), FieldAt(Redacted(h, m), hops, n))
            else FieldAt(Redacted(h, m), hops, n) == None
    decreases |hops|
  {
    if hops == [] {
      if m.Plain? {
        RedactedAt(h, m, n);
      }
    } else {
      hide FieldRule;
      NextRedacted(h, m, hops[0]);
      if Next(m, hops[0]).Some? {
        RedactedByPath(h, Next(m, hops[0]).value, hops[1..], n);
      } else {
        NoField(h);
      }
    }
  }

  lemma NoField(h: string -> string)
    ensures FieldRule(h, None, None)
  {}

  // ---- Failure, path by path ----

  /** An unmarked path leads to an unmarked singular Any that does not decode. */
  predicate Stuck(m: Message, hops: seq<Hop>, n: nat) {
    && Unmarked(m, hops) && FieldAt(m, hops, n).Some?
    && var f := FieldAt(m, hops, n).value; !f.marked && f.value.Msg? && f.value.m.Garbled?
  }

  lemma {:induction false} StuckFails(m: Message, hops: seq<Hop>, n: nat)
    requires Stuck(m, hops, n)
    ensures !Decodable(m)
    decreases |hops|
  {
    if hops != [] {
      StuckFails(Next(m, hops[0]).value, hops[1..], n);
      assert !DecodableValue(m.fields[hops[0].field].value);
    }
  }

  /** A path from a child is a path from the message. */
  lemma StuckBelow(m: Message, hop: Hop, hops: seq<Hop>, n: nat)
    requires Next(m, hop).Some? && !m.fields[hop.field].marked && Stuck(Next(m, hop).value, hops, n)
    ensures Stuck(m, [hop] + hops, n)
  {
    assert ([hop] + hops)[0] == hop && ([hop] + hops)[1..] == hops;
  }

  lemma {:induction false} FailsSomewhere(m: Message) returns (hops: seq<Hop>, n: nat)
    requires !Decodable(m)
    ensures Stuck(m, hops, n)
    decreases m
  {
    var x :| x in m.fields && !m.fields[x].marked && !DecodableValue(m.fields[x].value);
    var v := m.fields[x].value;
    var hop: Hop;
    match v {
      case Msg(c) =>
        if c.Garbled? {
          return [], x;
        } else if c.Packed? {
          hop := Hop(x, Into.Payload);
          hops, n := FailsSomewhere(c.inner);
        } else {
          hop := Hop(x, Whole);
          hops, n := FailsSomewhere(c);
        }
      case MsgList(ms) =>
        var i :| 0 <= i < |ms| && !Decodable(ms[i]);
        hop := Hop(x, Index(i));
        hops, n := FailsSomewhere(ms[i]);
      case MsgMap(es) =>
        var k :| k in es && !Decodable(es[k]);
        hop := Hop(x, Entry(k));
        hops, n := FailsSomewhere(es[k]);
    }
    StuckBelow(m, hop, hops, n);
    hops := [hop] + hops;
  }

  /** Redaction fails if and only if some unmarked path leads to an unmarked singular Any that
      does not decode. */
  lemma FailsByPath(m: Message)
    ensures !Decodable(m) <==> exists hops, n :: Stuck(m, hops, n)
  {
    if !Decodable(m) {
      var hops, n := FailsSomewhere(m);
    }
    if hops, n :| Stuck(m, hops, n) {
      StuckFails(m, hops, n);
    }
  }

  // ---- The message as a whole ----

  predicate MaskForm(s: string) {
    s == "" || PREFIX <= s
  }

  predicate BlobMaskForm(b: Blob) {
    b.Nil? || PREFIX <= b.data
  }

  predicate MaskForms(v: Value) {
    match v
    case Str(s) => MaskForm(s)
    case StrList(ss) => forall i :: 0 <= i < |ss| ==> MaskForm(ss[i])
    case Bytes(b) => BlobMaskForm(b)
    case BytesList(bs) => forall i :: 0 <= i < |bs| ==> BlobMaskForm(bs[i])
    case _ => false
  }

  /** No marked field holds anything but masks, inside any Any whatever. */
  predicate Clean(m: Message) {
    match m
    case Plain(_, fields) => forall n <- fields :: CleanField(fields[n])
    case Packed(_, inner) => Clean(inner)
    case Garbled(_, _) => true
  }

  predicate CleanField(f: Field) {
    if f.marked then MaskForms(f.value) else CleanValue(f.value)
  }

  predicate CleanValue(v: Value) {
    match v
    case Msg(m) => Clean(m)
    case MsgList(ms) => forall i :: 0 <= i < |ms| ==> Clean(ms[i])
    case MsgMap(es) => forall k <- es :: Clean(es[k])
    case _ => true
  }

  /** The Anys that the walk passes by unopened (in lists, in maps, inside another
      Any, or the message itself) hold nothing to redact. */
  predicate NothingUnopened(m: Message) {
    match m
    case Plain(_, fields) => forall n <- fields :: fields[n].marked || NothingUnopenedIn(fields[n].value)
    case Packed(_, inner) => Clean(inner)
    case Garbled(_, _) => true
  }

  predicate NothingUnopenedIn(v: Value) {
    match v
    case Msg(m) => if m.Packed? then NothingUnopened(m.inner) else NothingUnopened(m)
    case MsgList(ms) => forall i :: 0 <= i < |ms| ==> NothingUnopened(ms[i])
    case MsgMap(es) => forall k <- es :: NothingUnopened(es[k])
    case _ => true
  }

  /** The result is clean exactly if no unopened Any had anything to redact. */
  lemma {:induction false} CleanExactly(h: string -> string, m: Message)
    ensures Clean(Redacted(h, m)) <==> NothingUnopened(m)
    decreases m, 1
  {
    if m.Plain? {
      var r := Redacted(h, m);
      forall n | n in m.fields
        ensures if m.fields[n].marked then n in r.fields ==> CleanField(r.fields[n])
                else n in r.fields && (CleanField(r.fields[n]) <==> NothingUnopenedIn(m.fields[n].value))
      {
        RedactedAt(h, m, n);
        if m.fields[n].marked {
          if Maskable(m.fields[n].value) {
            MasksAreClean(h, m.fields[n].value);
          }
        } else {
          CleanValueExactly(h, m.fields[n].value);
        }
      }
    }
  }

  lemma MasksAreClean(h: string -> string, v: Value)
    requires Maskable(v)
    ensures MaskForms(Masked(h, v))
  {}

  lemma {:induction false} CleanValueExactly(h: string -> string, v: Value)
    ensures CleanValue(RedactedValue(h, v)) <==> NothingUnopenedIn(v)
    decreases v, 0
  {
    match v
    case Msg(m) =>
      if m.Packed? {
        CleanExactly(h, m.inner);
      } else {
        CleanExactly(h, m);
      }
    case MsgList(ms) =>
      var r := RedactedValue(h, v).ms;
      forall i | 0 <= i < |ms|
        ensures Clean(r[i]) <==> NothingUnopened(ms[i])
      {
        CleanExactly(h, ms[i]);
      }
    case MsgMap(es) =>
      var r := RedactedValue(h, v).entries;
      forall k | k in es
        ensures Clean(r[k]) <==> NothingUnopened(es[k])
      {
        CleanExactly(h, es[k]);
      }
    case _ =>
  }

  /** A secret inside an Any that sits in a list survives. */
  lemma ListedAnySurvives(h: string -> string)
    ensures var secret := Packed("x/Secret", Plain("Secret", map[1 := Field(true, Str("secret"))]));
            var m := Plain("Holder", map[1 := Field(false, MsgList([secret]))]);
            Decodable(m) && Redacted(h, m) == m && !Clean(m)
  {
    var inner := Plain("Secret", map[1 := Field(true, Str("secret"))]);
    var list := MsgList([Packed("x/Secret", inner)]);
    var m := Plain("Holder", map[1 := Field(false, list)]);
    assert RedactedValue(h, list) == list by {
      assert RedactedValue(h, list).ms == [Packed("x/Secret", inner)];
    }
    assert Redacted(h, m).fields == m.fields;
    assert !CleanField(inner.fields[1]);
    assert !Clean(list.ms[0]);
    assert !CleanField(m.fields[1]);
  }

  // ---- What the result depends on ----

  /** Equal hashes, or both empty. */
  predicate SameSecret(h: string -> string, s: string, t: string) {
    (s == "" <==> t == "") && (s != "" ==> h(s) == h(t))
  }

  predicate SameBlob(h: string -> string, a: Blob, b: Blob) {
    a.Nil? == b.Nil? && (a.Blob? ==> h(a.data) == h(b.data))
  }

  predicate SameSecrets(h: string -> string, v: Value, w: Value)
    requires Maskable(v) && Maskable(w)
  {
    match v
    case Str(s) => w.Str? && SameSecret(h, s, w.s)
    case StrList(ss) => w.StrList? && |ss| == |w.ss| && forall i :: 0 <= i < |ss| ==> SameSecret(h, ss[i], w.ss[i])
    case Bytes(b) => w.Bytes? && SameBlob(h, b, w.b)
    case BytesList(bs) => w.BytesList? && |bs| == |w.bs| && forall i :: 0 <= i < |bs| ==> SameBlob(h, bs[i], w.bs[i])
  }

  /** The same type, the same unmarked content, and secrets with the same hashes; other marked
      fields may differ, or be missing from one of the two. */
  predicate Alike(h: string -> string, a: Message, b: Message) {
    if a.Plain? && b.Plain? then
      && a.name == b.name
      && (forall n :: n in a.fields && Kept(a.fields[n]) ==> n in b.fields && Kept(b.fields[n]))
      && (forall n :: n in b.fields && Kept(b.fields[n]) ==> n in a.fields && Kept(a.fields[n]))
      && (forall n <- a.fields :: Kept(a.fields[n]) && n in b.fields ==> AlikeField(h, a.fields[n], b.fields[n]))
    else a == b
  }

  predicate AlikeField(h: string -> string, f: Field, g: Field) {
    Kept(f) && Kept(g) && f.marked == g.marked && if f.marked then SameSecrets(h, f.value, g.value) else AlikeValue(h, f.value, g.value)
  }

  predicate AlikeValue(h: string -> string, v: Value, w: Value) {
    match v
    case Msg(m) =>
      w.Msg? && if m.Packed? && w.m.Packed? then Alike(h, m.inner, w.m.inner) else Alike(h, m, w.m)
    case MsgList(ms) => w.MsgList? && |ms| == |w.ms| && forall i :: 0 <= i < |ms| ==> Alike(h, ms[i], w.ms[i])
    case MsgMap(es) => w.MsgMap? && es.Keys == w.entries.Keys && forall k <- es :: k in w.entries ==> Alike(h, es[k], w.entries[k])
    case _ => v == w
  }

  lemma SecretsExactly(h: string -> string, v: Value, w: Value)
    requires Maskable(v) && Maskable(w)
    ensures SameSecrets(h, v, w) <==> Masked(h, v) == Masked(h, w)
  {
    if v.StrList? && w.StrList? {
      ListsExactly(h, v.ss, w.ss);
    } else if v.BytesList? && w.BytesList? {
      BlobsExactly(h, v.bs, w.bs);
    } else if v.Str? && w.Str? {
      MaskExactly(h, v.s, w.s);
    } else if v.Bytes? && w.Bytes? {
      BlobExactly(h, v.b, w.b);
    }
  }

  lemma MaskExactly(h: string -> string, s: string, t: string)
    ensures SameSecret(h, s, t) <==> MaskStr(h, s) == MaskStr(h, t)
  {
    assert (PREFIX + h(s))[|PREFIX|..] == h(s) && (PREFIX + h(t))[|PREFIX|..] == h(t);
  }

  lemma BlobExactly(h: string -> string, a: Blob, b: Blob)
    ensures SameBlob(h, a, b) <==> MaskBlob(h, a) == MaskBlob(h, b)
  {
    if a.Blob? && b.Blob? {
      assert (PREFIX + h(a.data))[|PREFIX|..] == h(a.data) && (PREFIX + h(b.data))[|PREFIX|..] == h(b.data);
    }
  }

  lemma ListsExactly(h: string -> string, a: seq<string>, b: seq<string>)
    ensures SameSecrets(h, StrList(a), StrList(b)) <==> Masked(h, StrList(a)) == Masked(h, StrList(b))
  {
    var x, y := Masked(h, StrList(a)).ss, Masked(h, StrList(b)).ss;
    forall i | 0 <= i < |a| && i < |b|
      ensures SameSecret(h, a[i], b[i]) <==> x[i] == y[i]
    {
      MaskExactly(h, a[i], b[i]);
    }
    assert |x| == |a| && |y| == |b|;
    assert x == y <==> |a| == |b| && forall i :: 0 <= i < |a| ==> x[i] == y[i];
  }

  lemma BlobsExactly(h: string -> string, a: seq<Blob>, b: seq<Blob>)
    ensures SameSecrets(h, BytesList(a), BytesList(b)) <==> Masked(h, BytesList(a)) == Masked(h, BytesList(b))
  {
    var x, y := Masked(h, BytesList(a)).bs, Masked(h, BytesList(b)).bs;
    forall i | 0 <= i < |a| && i < |b|
      ensures SameBlob(h, a[i], b[i]) <==> x[i] == y[i]
    {
      BlobExactly(h, a[i], b[i]);
    }
    assert |x| == |a| && |y| == |b|;
    assert x == y <==> |a| == |b| && forall i :: 0 <= i < |a| ==> x[i] == y[i];
  }

  /** Two messages redact to the same result exactly if they are alike: the result
      tells secrets apart by their hashes and in no other way. */
  lemma {:induction false} AlikeExactly(h: string -> string, a: Message, b: Message)
    ensures Alike(h, a, b) <==> Redacted(h, a) == Redacted(h, b)
    decreases a, 2
  {
    if a.Plain? && b.Plain? {
      var x, y := Redacted(h, a).fields, Redacted(h, b).fields;
      forall n: nat
        ensures n in x <==> n in a.fields && Kept(a.fields[n])
        ensures n in y <==> n in b.fields && Kept(b.fields[n])
        ensures n in x && n in y ==> (AlikeField(h, a.fields[n], b.fields[n]) <==> x[n] == y[n])
      {
        RedactedAt(h, a, n);
        RedactedAt(h, b, n);
        if n in x && n in y {
          AlikeFieldExactly(h, a.fields[n], b.fields[n]);
        }
      }
      assert x == y <==> x.Keys == y.Keys && forall n <- x :: n in y ==> x[n] == y[n];
    }
  }

  lemma {:induction false} AlikeFieldExactly(h: string -> string, f: Field, g: Field)
    requires Kept(f) && Kept(g)
    ensures AlikeField(h, f, g) <==> RedactedField(h, f) == RedactedField(h, g)
    decreases f, 1
  {
    if f.marked && g.marked {
      SecretsExactly(h, f.value, g.value);
    } else if !f.marked && !g.marked {
      AlikeValueExactly(h, f.value, g.value);
    }
  }

  lemma {:induction false} AlikeValueExactly(h: string -> string, v: Value, w: Value)
    ensures AlikeValue(h, v, w) <==> RedactedValue(h, v) == RedactedValue(h, w)
    decreases v, 0
  {
    match v
    case Msg(m) =>
      if w.Msg? && m.Packed? && w.m.Packed? {
        AlikeExactly(h, m.inner, w.m.inner);
        assert Alike(h, m.inner, w.m.inner) ==> UrlFor(m.inner) == UrlFor(w.m.inner);
      } else if w.Msg? {
        AlikeExactly(h, m, w.m);
      }
    case MsgList(ms) =>
      if w.MsgList? {
        var x, y := RedactedValue(h, v).ms, RedactedValue(h, w).ms;
        forall i | 0 <= i < |ms| && i < |w.ms|
          ensures Alike(h, ms[i], w.ms[i]) <==> x[i] == y[i]
        {
          AlikeExactly(h, ms[i], w.ms[i]);
        }
        assert x == y <==> |x| == |y| && forall i :: 0 <= i < |x| ==> x[i] == y[i];
      }
    case MsgMap(es) =>
      if w.MsgMap? {
        var x, y := RedactedValue(h, v).entries, RedactedValue(h, w).entries;
        assert x.Keys == es.Keys && y.Keys == w.entries.Keys;
        forall k | k in es && k in w.entries
          ensures Alike(h, es[k], w.entries[k]) <==> x[k] == y[k]
        {
          AlikeExactly(h, es[k], w.entries[k]);
        }
        assert x == y <==> x.Keys == y.Keys && forall k <- x :: k in y ==> x[k] == y[k];
      }
    case _ =>
  }

  lemma {:induction false} DecodableKept(h: string -> string, m: Message)
    ensures Decodable(Redacted(h, m)) <==> Decodable(m)
    decreases m, 1
  {
    if m.Plain? {
      var x := Redacted(h, m).fields;
      forall n | n in m.fields && !m.fields[n].marked
        ensures n in x && !x[n].marked && (DecodableValue(x[n].value) <==> DecodableValue(m.fields[n].value))
      {
        RedactedAt(h, m, n);
        DecodableValueKept(h, m.fields[n].value);
      }
      forall n | n in x
        ensures n in m.fields && x[n].marked == m.fields[n].marked
      {
        RedactedAt(h, m, n);
      }
    }
  }

  lemma {:induction false} DecodableValueKept(h: string -> string, v: Value)
    ensures DecodableValue(RedactedValue(h, v)) <==> DecodableValue(v)
    decreases v, 0
  {
    match v
    case Msg(m) =>
      if m.Packed? {
        DecodableKept(h, m.inner);
      } else {
        DecodableKept(h, m);
      }
    case MsgList(ms) =>
      var x := RedactedValue(h, v).ms;
      forall i | 0 <= i < |ms|
        ensures Decodable(x[i]) <==> Decodable(ms[i])
      {
        DecodableKept(h, ms[i]);
      }
    case MsgMap(es) =>
      var x := RedactedValue(h, v).entries;
      forall k | k in es
        ensures Decodable(x[k]) <==> Decodable(es[k])
      {
        DecodableKept(h, es[k]);
      }
    case _ =>
  }

  /** Alike messages also fail alike. */
  lemma AlikeOutcome(h: string -> string, a: Message, b: Message)
    requires Alike(h, a, b)
    ensures Decodable(a) <==> Decodable(b)
  {
    AlikeExactly(h, a, b);
    DecodableKept(h, a);
    DecodableKept(h, b);
  }
}
