/**
 redactFields: masking the debug_redact fields of a message before it is logged.

 A message is a tree of populated fields. An Any is a message of its own, whose
 payload either decodes (`Packed`) or does not (`Garbled`). A map entry's key is a
 string here, and bytes and strings are both sequences of bytes, as in Go. The
 digest is a parameter: nothing is assumed about it.
 */
module Redaction {
  import opened Protocol

  datatype Blob = Nil | Blob(data: string)

  /** A message has the name of its type; an Any has a type URL. */
  datatype Message =
    | Plain(name: string, fields: map<nat, Field>)
    | Packed(url: string, inner: Message)
    | Garbled(url: string, payload: string)

  datatype Field = Field(marked: bool, value: Value)

  /** `Other` is any scalar, or a list or a map of scalars. */
  datatype Value =
    | Str(s: string) | StrList(ss: seq<string>)
    | Bytes(b: Blob) | BytesList(bs: seq<Blob>)
    | Msg(m: Message) | MsgList(ms: seq<Message>) | MsgMap(entries: map<string, Message>)
    | Other(code: int)

  const PREFIX := "REDACTED-"

  // ---- What redaction does to a value ----

  function MaskStr(h: string -> string, s: string): string {
    if s == "" then s else PREFIX + h(s)
  }

  function MaskBlob(h: string -> string, b: Blob): Blob {
    if b.Nil? then b else Blob(PREFIX + h(b.data))
  }

  /** Marked fields of these kinds are hashed; all others are cleared. */
  predicate Maskable(v: Value) {
    v.Str? || v.StrList? || v.Bytes? || v.BytesList?
  }

  function Masked(h: string -> string, v: Value): Value
    requires Maskable(v)
  {
    match v
    case Str(s) => Str(MaskStr(h, s))
    case StrList(ss) => StrList(seq(|ss|, i requires 0 <= i < |ss| => MaskStr(h, ss[i])))
    case Bytes(b) => Bytes(MaskBlob(h, b))
    case BytesList(bs) => BytesList(seq(|bs|, i requires 0 <= i < |bs| => MaskBlob(h, bs[i])))
  }

  predicate Kept(f: Field) {
    !f.marked || Maskable(f.value)
  }

  /** The type URL that packing a message gives it, whatever the URL was before. */
  function UrlFor(m: Message): string {
    "type.googleapis.com/" + if m.Plain? then m.name else "google.protobuf.Any"
  }

  /** The redacted message. An Any outside a singular field is left as it is. */
  function Redacted(h: string -> string, m: Message): Message {
    match m
    case Plain(name, fields) => Plain(name, map n | n in fields && Kept(fields[n]) :: RedactedField(h, fields[n]))
    case Packed(_, _) => m
    case Garbled(_, _) => m
  }

  function RedactedField(h: string -> string, f: Field): Field
    requires Kept(f)
  {
    Field(f.marked, if f.marked then Masked(h, f.value) else RedactedValue(h, f.value))
  }

  function RedactedValue(h: string -> string, v: Value): Value {
    match v
    case Msg(m) => if m.Packed? then Msg(Packed(UrlFor(m.inner), Redacted(h, m.inner))) else Msg(Redacted(h, m))
    case MsgList(ms) => MsgList(seq(|ms|, i requires 0 <= i < |ms| => Redacted(h, ms[i])))
    case MsgMap(es) => MsgMap(map k | k in es :: Redacted(h, es[k]))
    case _ => v
  }

  /** Every Any that redaction unpacks decodes. */
  predicate Decodable(m: Message) {
    m.Plain? ==> forall n <- m.fields :: m.fields[n].marked || DecodableValue(m.fields[n].value)
  }

  predicate DecodableValue(v: Value) {
    match v
    case Msg(m) => !m.Garbled? && if m.Packed? then Decodable(m.inner) else Decodable(m)
    case MsgList(ms) => forall i :: 0 <= i < |ms| ==> Decodable(ms[i])
    case MsgMap(es) => forall k <- es :: Decodable(es[k])
    case _ => true
  }

  // ---- The walk ----

  method RedactSingleField(h: string -> string, v: Value) returns (v': Option<Value>)
    ensures v' == if Maskable(v) then Some(Masked(h, v)) else None
  {
    match v
    case Str(s) => v' := Some(if s != "" then Str(PREFIX + h(s)) else v);
    case StrList(ss) =>
      var list := ss;
      for i := 0 to |ss|
        invariant |list| == |ss| && forall j :: 0 <= j < |ss| ==> list[j] == if j < i then MaskStr(h, ss[j]) else ss[j]
      {
        if list[i] != "" {
          list := list[i := PREFIX + h(list[i])];
        }
      }
      assert list == Masked(h, v).ss;
      v' := Some(StrList(list));
    case Bytes(b) => v' := Some(if b.Nil? then v else Bytes(Blob(PREFIX + h(b.data))));
    case BytesList(bs) =>
      var list := bs;
      for i := 0 to |bs|
        invariant |list| == |bs| && forall j :: 0 <= j < |bs| ==> list[j] == if j < i then MaskBlob(h, bs[j]) else bs[j]
      {
        if !list[i].Nil? {
          list := list[i := Blob(PREFIX + h(list[i].data))];
        }
      }
      assert list == Masked(h, v).bs;
      v' := Some(BytesList(list));
    case _ => v' := None;
  }

  method RedactListField(h: string -> string, ms: seq<Message>) returns (ms': seq<Message>, ok: bool)
    ensures ok <==> DecodableValue(MsgList(ms))
    ensures ok ==> MsgList(ms') == RedactedValue(h, MsgList(ms))
    decreases MsgList(ms), 0
  {
    ms' := ms;
    for i := 0 to |ms|
      invariant |ms'| == |ms| && forall j :: 0 <= j < i ==> Decodable(ms[j])
      invariant forall j :: 0 <= j < |ms| ==> ms'[j] == if j < i then Redacted(h, ms[j]) else ms[j]
    {
      var m', fine := RedactFields(h, ms'[i]);
      if !fine {
        return ms', false;
      }
      ms' := ms'[i := m'];
    }
    ok := true;
  }

  /** Map entries come in no particular order. */
  method RedactMapField(h: string -> string, es: map<string, Message>) returns (es': map<string, Message>, ok: bool)
    ensures ok <==> DecodableValue(MsgMap(es))
    ensures ok ==> MsgMap(es') == RedactedValue(h, MsgMap(es))
    decreases MsgMap(es), 0
  {
    es' := es;
    var rest := es.Keys;
    hide Redacted, Decodable;
    while rest != {}
      invariant rest <= es.Keys == es'.Keys && forall k <- es :: k !in rest ==> Decodable(es[k])
      invariant forall k <- es :: es'[k] == if k in rest then es[k] else Redacted(h, es[k])
      decreases |rest|
    {
      var k :| k in rest;
      var m', fine := RedactFields(h, es[k]);
      if !fine {
        return es', false;
      }
      es', rest := es'[k := m'], rest - {k};
    }
    assert es' == RedactedValue(h, MsgMap(es)).entries;
    ok := true;
  }

  method RedactNestedField(h: string -> string, v: Value) returns (v': Value, ok: bool)
    ensures ok <==> DecodableValue(v)
    ensures ok ==> v' == RedactedValue(h, v)
    decreases v, 1
  {
    v', ok := v, true;
    match v
    case MsgList(ms) =>
      var ms';
      ms', ok := RedactListField(h, ms);
      v' := MsgList(ms');
    case MsgMap(es) =>
      var es';
      es', ok := RedactMapField(h, es);
      v' := MsgMap(es');
    case Msg(m) =>
      match m {
        case Garbled(_, _) => ok := false;
        case Packed(_, inner) =>
          var inner';
          inner', ok := RedactFields(h, inner);
          v' := Msg(Packed(UrlFor(inner'), inner'));
        case Plain(_, _) =>
          var m';
          m', ok := RedactFields(h, m);
          v' := Msg(m');
      }
    case _ =>
  }

  /** The order in which Range visits the fields does not matter. */
  method RedactFields(h: string -> string, m: Message) returns (m': Message, ok: bool)
    ensures ok <==> Decodable(m)
    ensures ok ==> m' == Redacted(h, m)
    decreases m, 1
  {
    if !m.Plain? {
      return m, true;
    }
    var fields, rest := m.fields, m.fields.Keys;
    while rest != {}
      invariant rest <= m.fields.Keys
      invariant forall n <- m.fields :: n !in rest ==> m.fields[n].marked || DecodableValue(m.fields[n].value)
      invariant forall n <- m.fields :: n in fields <==> (n in rest || Kept(m.fields[n]))
      invariant forall n <- fields :: n in m.fields && fields[n] == if n in rest then m.fields[n] else RedactedField(h, m.fields[n])
      decreases |rest|
    {
      var n :| n in rest;
      var f := m.fields[n];
      if f.marked {
        var masked := RedactSingleField(h, f.value);
        fields := if masked.Some? then fields[n := Field(true, masked.value)] else fields - {n};
      } else {
        var nested, fine := RedactNestedField(h, f.value);
        if !fine {
          return Plain(m.name, fields), false;
        }
        fields := fields[n := Field(false, nested)];
      }
      rest := rest - {n};
    }
    return Plain(m.name, fields), true;
  }
}
