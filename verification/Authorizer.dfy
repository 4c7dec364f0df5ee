/**
 Eval of the RPC authorizer: redaction of the input for the log, the hooks, the
 policy, and the hints for a denial. Policies, hooks and codecs are arbitrary.
 */
module Authorizer {
  import opened Protocol
  import opened Redaction
  import opened RedactionTheorems

  // ---- The redacted input ----

  datatype Input = Input(rpc: string, messageType: string, message: string, metadata: Option<map<string, seq<string>>>,
                         peer: string, host: string, environment: string, extensions: string, approvers: seq<string>)

  const NO_INPUT := Input("", "", "", None, "", "", "", "", [])

  /** The type registry, the JSON codec, unicode.ToLower and the digest. */
  datatype Codec = Codec(known: string -> bool, parse: (string, string) -> Option<Message>, render: Message -> Option<string>,
                         lower: char -> char, hash: string -> string)

  datatype Outcome = Visible(input: Input) | Unredactable(reason: string)

  function ToLower(c: Codec, s: string): string {
    seq(|s|, i requires 0 <= i < |s| => c.lower(s[i]))
  }

  predicate IsRedactedMetadata(c: Codec, key: string) {
    ToLower(c, key) == "authorization"
  }

  function VisibleMetadata(c: Codec, md: map<string, seq<string>>): map<string, seq<string>> {
    map k | k in md && !IsRedactedMetadata(c, k) :: md[k]
  }

  /** The input with its secret headers dropped and its message redacted, if it has one. */
  function RedactedInput(c: Codec, input: Input): Outcome {
    var visible := input.(message := "", metadata := if input.metadata.None? then None else Some(VisibleMetadata(c, input.metadata.value)));
    if input.messageType == "" then Visible(visible)
    else if !c.known(input.messageType) then Unredactable("unable to find proto type")
    else
      var m := c.parse(input.messageType, input.message);
      if m.None? then Unredactable("could not marshal input")
      else if !Decodable(m.value) then Unredactable("failed to redact message fields")
      else
        var text := c.render(Redacted(c.hash, m.value));
        if text.None? then Unredactable("error marshalling request for auth") else Visible(visible.(message := text.value))
  }

  method GetRedactedInput(c: Codec, input: Option<Input>) returns (r: Outcome)
    ensures r == if input.None? then Visible(NO_INPUT) else RedactedInput(c, input.value)
  {
    if input.None? {
      return Visible(NO_INPUT);
    }
    var redacted := input.value.(message := "", metadata := None);
    if input.value.metadata.Some? {
      var md := input.value.metadata.value;
      var kept: map<string, seq<string>>, rest := map[], md.Keys;
      while rest != {}
        invariant rest <= md.Keys
        invariant forall k :: k in kept <==> k in md && k !in rest && !IsRedactedMetadata(c, k)
        invariant forall k <- kept :: k in md && kept[k] == md[k]
        decreases |rest|
      {
        var k :| k in rest;
        if !IsRedactedMetadata(c, k) {
          kept := kept[k := md[k]];
        }
        rest := rest - {k};
      }
      assert kept == VisibleMetadata(c, md);
      redacted := redacted.(metadata := Some(kept));
    }
    var typeName := input.value.messageType;
    if typeName == "" {
      return Visible(redacted);
    }
    if !c.known(typeName) {
      return Unredactable("unable to find proto type");
    }
    var m := c.parse(typeName, input.value.message);
    if m.None? {
      return Unredactable("could not marshal input");
    }
    var m', ok := RedactFields(c.hash, m.value);
    if !ok {
      return Unredactable("failed to redact message fields");
    }
    var text := c.render(m');
    if text.None? {
      return Unredactable("error marshalling request for auth");
    }
    return Visible(redacted.(message := text.value));
  }

  /** The key reads "authorization", in whatever spelling. */
  predicate SpellsAuthorization(c: Codec, key: string) {
    |key| == 13 && forall i :: 0 <= i < 13 ==> c.lower(key[i]) == "authorization"[i]
  }

  /** A visible input has no authorization header in any spelling, every other header with its
      values, and the other fields, except for the message, as they were. */
  lemma VisibleHeaders(c: Codec, input: Input)
    requires RedactedInput(c, input).Visible?
    ensures var v := RedactedInput(c, input).input;
            && v.(message := "", metadata := None) == input.(message := "", metadata := None)
            && v.metadata.Some? == input.metadata.Some?
            && (input.metadata.Some? ==>
                  var md, md' := input.metadata.value, v.metadata.value;
                  && (forall k :: k in md' <==> k in md && !SpellsAuthorization(c, k))
                  && (forall k <- md' :: k in md && md'[k] == md[k]))
  {}

  /** An input is visible if and only if it has no message, or one of a known type that parses, in
      which no unmarked path leads to an Any that does not decode, and whose redacted form can
      be rendered; that form is then the visible message. */
  lemma VisibleExactly(c: Codec, input: Input)
    ensures var r, m := RedactedInput(c, input), c.parse(input.messageType, input.message);
            && (r.Visible? <==>
                  input.messageType == "" ||
                  (c.known(input.messageType) && m.Some? && (forall hops, n :: !Stuck(m.value, hops, n))
                   && c.render(Redacted(c.hash, m.value)).Some?))
            && (r.Visible? && input.messageType != "" ==> c.render(Redacted(c.hash, m.value)) == Some(r.input.message))
            && (r.Visible? && input.messageType == "" ==> r.input.message == "")
  {
    hide Decodable, Stuck, VisibleMetadata;
    var m := c.parse(input.messageType, input.message);
    if m.Some? {
      FailsByPath(m.value);
    }
  }

  /** Inputs that differ only in secret headers and in what redaction hides of the message. */
  ghost predicate LooksLike(c: Codec, a: Input, b: Input) {
    && a.(message := "", metadata := None) == b.(message := "", metadata := None)
    && a.metadata.Some? == b.metadata.Some?
    && (a.metadata.Some? ==>
          forall k :: !IsRedactedMetadata(c, k) ==>
            && (k in a.metadata.value <==> k in b.metadata.value)
            && (k in a.metadata.value ==> a.metadata.value[k] == b.metadata.value[k]))
    && (a.messageType != "" ==>
          var x, y := c.parse(a.messageType, a.message), c.parse(b.messageType, b.message);
          x.Some? == y.Some? && (x.Some? ==> Alike(c.hash, x.value, y.value)))
  }

  /** What is logged cannot tell such inputs apart. */
  lemma LogsAlike(c: Codec, a: Input, b: Input)
    requires LooksLike(c, a, b)
    ensures RedactedInput(c, a) == RedactedInput(c, b)
  {
    if a.metadata.Some? {
      assert VisibleMetadata(c, a.metadata.value) == VisibleMetadata(c, b.metadata.value);
    }
    if a.messageType != "" {
      var x, y := c.parse(a.messageType, a.message), c.parse(b.messageType, b.message);
      if x.Some? {
        AlikeOutcome(c.hash, x.value, y.value);
        AlikeExactly(c.hash, x.value, y.value);
      }
    }
  }

  // ---- Eval ----

  datatype HookError = StatusError(status: Status) | PlainError(text: string)
  datatype Hooked = Hooked(input: Input, error: Option<HookError>)
  datatype Judgement = Judgement(allowed: bool) | PolicyError(text: string)
  datatype Hints = Hints(hints: seq<string>) | NoHints(error: string)

  datatype Authorizer = Authorizer(hooks: seq<Input -> Hooked>, policy: Input -> Judgement, denialHints: Input -> Hints)

  /** The input after the first k hooks. */
  function Mutated(hooks: seq<Input -> Hooked>, input: Input, k: nat): Input
    requires k <= |hooks|
  {
    if k == 0 then input else hooks[k - 1](Mutated(hooks, input, k - 1)).input
  }

  function HookFails(hooks: seq<Input -> Hooked>, input: Input, k: nat): Option<HookError>
    requires k < |hooks|
  {
    hooks[k](Mutated(hooks, input, k)).error
  }

  datatype EvalError = PlainFailure(text: string) | StatusFailure(status: Status)

  function HookFailure(e: HookError): EvalError {
    match e
    case StatusError(status) => StatusFailure(status)
    case PlainError(text) => StatusFailure(Status(13, "authz hook error: " + text))
  }

  const DENIED := "Authz policy does not permit this request"

  function Bullets(hints: seq<string>): string {
    if hints == [] then "" else Bullets(hints[..|hints| - 1]) + "  * " + hints[|hints| - 1] + "\n"
  }

  function Denial(h: Hints): string {
    if h.NoHints? || h.hints == [] then DENIED
    else if |h.hints| == 1 then DENIED + ": " + h.hints[0]
    else DENIED + ", there are several reasons why:\n" + Bullets(h.hints)
  }

  /** The input object that hooks may change. */
  class InputObject {
    var value: Input

    constructor (value: Input)
      ensures this.value == value
    {
      this.value := value;
    }
  }

  ghost predicate Redactable(c: Codec, input: Input) {
    RedactedInput(c, input).Visible?
  }

  /** The hooks in order, on the input as the hooks before left it. */
  method RunHooks(hooks: seq<Input -> Hooked>, input: InputObject) returns (failed: Option<HookError>, ghost ran: nat)
    modifies input
    ensures ran <= |hooks| && input.value == Mutated(hooks, old(input.value), ran)
    ensures failed.None? ==> ran == |hooks| && forall k :: 0 <= k < |hooks| ==> HookFails(hooks, old(input.value), k) == None
    ensures failed.Some? ==>
              && ran > 0 && HookFails(hooks, old(input.value), ran - 1) == failed
              && (forall k :: 0 <= k < ran - 1 ==> HookFails(hooks, old(input.value), k) == None)
  {
    ran := 0;
    for k := 0 to |hooks|
      invariant ran == k && input.value == Mutated(hooks, old(input.value), k)
      invariant forall j :: 0 <= j < k ==> HookFails(hooks, old(input.value), j) == None
    {
      var r := hooks[k](input.value);
      input.value := r.input;
      ran := k + 1;
      if r.error.Some? {
        return r.error, ran;
      }
    }
    failed := None;
  }

  method DenialMessage(h: Hints) returns (text: string)
    ensures text == Denial(h)
  {
    if h.NoHints? || |h.hints| == 0 {
      return DENIED;
    }
    if |h.hints| == 1 {
      return DENIED + ": " + h.hints[0];
    }
    var bullets := "";
    for k := 0 to |h.hints|
      invariant bullets == Bullets(h.hints[..k])
    {
      assert h.hints[..k + 1][..k] == h.hints[..k];
      bullets := bullets + "  * " + h.hints[k] + "\n";
    }
    assert h.hints[..|h.hints|] == h.hints;
    return DENIED + ", there are several reasons why:\n" + bullets;
  }

  /** When Eval says yes: never for a nil input, and otherwise only if the log entry can
      be made before and after the hooks, every hook succeeds on the input as the ones
      before left it, and the policy allows the input that the last one left. */
  ghost predicate Permitted(a: Authorizer, c: Codec, input: Input) {
    var final := Mutated(a.hooks, input, |a.hooks|);
    && Redactable(c, input)
    && (forall k :: 0 <= k < |a.hooks| ==> HookFails(a.hooks, input, k) == None)
    && Redactable(c, final)
    && a.policy(final) == Judgement(true)
  }

  method Eval(a: Authorizer, c: Codec, input: InputObject?) returns (err: Option<EvalError>)
    modifies input
    ensures input == null ==> err.Some?
    ensures input != null ==> (err.None? <==> Permitted(a, c, old(input.value)))
    ensures input != null && err.None? ==> input.value == Mutated(a.hooks, old(input.value), |a.hooks|)
    ensures input != null && err.Some? ==> Refusal(a, c, old(input.value), err.value)
  {
    var redacted := GetRedactedInput(c, if input == null then None else Some(input.value));
    if redacted.Unredactable? {
      return Some(PlainFailure("failed to get redacted input: " + redacted.reason));
    }
    if input == null {
      return Some(StatusFailure(Status(3, "policy input cannot be nil")));
    }
    ghost var before := input.value;
    var failed, ran := RunHooks(a.hooks, input);
    if failed.Some? {
      return Some(HookFailure(failed.value));
    }
    redacted := GetRedactedInput(c, Some(input.value));
    if redacted.Unredactable? {
      return Some(PlainFailure("failed to get redacted input post hooks: " + redacted.reason));
    }
    var judgement := a.policy(input.value);
    if judgement.PolicyError? {
      return Some(StatusFailure(Status(13, "authz policy evaluation error: " + judgement.text)));
    }
    if !judgement.allowed {
      var text := DenialMessage(a.denialHints(input.value));
      return Some(StatusFailure(Status(7, text)));
    }
    return None;
  }

  /** The first thing that goes wrong decides the error. */
  ghost predicate Refusal(a: Authorizer, c: Codec, input: Input, err: EvalError) {
    var final := Mutated(a.hooks, input, |a.hooks|);
    if !Redactable(c, input) then err.PlainFailure?
    else if exists k :: 0 <= k < |a.hooks| && HookFails(a.hooks, input, k).Some? then
      exists k :: FirstFailure(a, input, k) && err == HookFailure(HookFails(a.hooks, input, k).value)
    else if !Redactable(c, final) then err.PlainFailure?
    else match a.policy(final)
         case PolicyError(text) => err == StatusFailure(Status(13, "authz policy evaluation error: " + text))
         case Judgement(allowed) => !allowed && err == StatusFailure(Status(7, Denial(a.denialHints(final))))
  }

  ghost predicate FirstFailure(a: Authorizer, input: Input, k: int) {
    && 0 <= k < |a.hooks| && HookFails(a.hooks, input, k).Some?
    && forall j :: 0 <= j < k ==> HookFails(a.hooks, input, j) == None
  }

  /** Hints may fail or change, the verdict and its code do not. */
  lemma HintsDoNotDecide(a: Authorizer, c: Codec, input: Input, other: Input -> Hints, err: EvalError)
    requires Refusal(a, c, input, err)
    ensures var b := a.(denialHints := other);
            && (Permitted(a, c, input) <==> Permitted(b, c, input))
            && exists err' :: Refusal(b, c, input, err') && SameCode(err, err')
  {
    var b := a.(denialHints := other);
    var final := Mutated(a.hooks, input, |a.hooks|);
    if exists k :: 0 <= k < |a.hooks| && HookFails(a.hooks, input, k).Some? {
      if Redactable(c, input) {
        var k :| FirstFailure(a, input, k) && err == HookFailure(HookFails(a.hooks, input, k).value);
        assert FirstFailure(b, input, k);
      }
      assert Refusal(b, c, input, err);
    } else if Redactable(c, input) && Redactable(c, final) && a.policy(final).Judgement? {
      assert Refusal(b, c, input, StatusFailure(Status(7, Denial(other(final)))));
    } else {
      assert Refusal(b, c, input, err);
    }
  }

  predicate SameCode(e: EvalError, f: EvalError) {
    e.StatusFailure? == f.StatusFailure? && (e.StatusFailure? ==> e.status.code == f.status.code)
  }

  // ---- The gate in front of a server stream ----

  /** AuthorizeStream's wrapper: a received message reaches the handler only past Eval. */
  class WrappedStream {
    const authz: Authorizer
    const codec: Codec
    var lastPeer: Option<string>
    ghost var passed: seq<Input>

    ghost predicate Valid()
      reads this
    {
      forall k :: 0 <= k < |passed| ==> Permitted(authz, codec, passed[k])
    }

    constructor (authz: Authorizer, codec: Codec)
      ensures Valid() && this.authz == authz && this.codec == codec && lastPeer == None && passed == []
    {
      this.authz, this.codec, lastPeer, passed := authz, codec, None, [];
    }

    /** `input` is what NewRPCAuthInput made of the received message, if it is a proto message. */
    method RecvMsg(received: bool, input: Option<Input>) returns (ok: bool)
      requires Valid()
      modifies this
      ensures Valid()
      ensures ok <==> received && input.Some? && Permitted(authz, codec, input.value)
      ensures passed == old(passed) + if ok then [input.value] else []
      ensures lastPeer == if ok then Some(Mutated(authz.hooks, input.value, |authz.hooks|).peer) else old(lastPeer)
    {
      if !received || input.None? {
        return false;
      }
      var request := new InputObject(input.value);
      var err := Eval(authz, codec, request);
      if err.Some? {
        return false;
      }
      lastPeer := Some(request.value.peer);
      passed := passed + [input.value];
      ok := true;
    }
  }
}
