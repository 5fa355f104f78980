/** The full message validator: lexical rules for agent ids and message types, a fixed expiry
    window, a small payload-schema checker, and the error list that combines them. */
module Validation {
  import opened Wrappers
  import opened PyStr
  import opened Dicts
  import opened Json
  import Protocol

  /** `is_expired`'s default window, in seconds. */
  const DEFAULT_MAX_AGE := 300

  // ---------------------------------------------------------------------------------------------
  // Lexical rules

  predicate AgentIdChar(c: char) {
    ('a' <= c <= 'z') || ('A' <= c <= 'Z') || ('0' <= c <= '9') || c == '_' || c == '-'
  }

  /** One or more characters of the agent-id class. */
  predicate AgentIdWord(s: string) {
    |s| > 0 && forall i :: 0 <= i < |s| ==> AgentIdChar(s[i])
  }

  /** `re.match` against a pattern anchored by `^…$`: Python's `$` matches at the very end and also
      just before one final newline. */
  predicate IsValidAgentId(s: string) {
    AgentIdWord(s) || (|s| >= 2 && s[|s| - 1] == '\n' && AgentIdWord(s[..|s| - 1]))
  }

  lemma AgentIdWithoutNewline(s: string)
    requires '\n' !in s
    ensures IsValidAgentId(s) <==> (s != [] && forall c :: c in s ==> AgentIdChar(c))
  {
  }

  /** A valid id followed by one newline is still accepted, two newlines are not. */
  lemma AgentIdTrailingNewline(s: string)
    requires AgentIdWord(s)
    ensures IsValidAgentId(s + "\n")
    ensures !IsValidAgentId(s + "\n\n")
  {
    assert (s + "\n")[..|s|] == s;
    assert !AgentIdChar((s + "\n\n")[|s|]);
    assert !AgentIdChar((s + "\n")[|s|]);
  }

  lemma AgentIdRejectsSpace(s: string)
    requires ' ' in s
    ensures !IsValidAgentId(s)
  {
    var i :| 0 <= i < |s| && s[i] == ' ';
    assert !AgentIdChar(s[i]);
    if |s| >= 2 && s[|s| - 1] == '\n' {
      assert i < |s| - 1;
      assert s[..|s| - 1][i] == ' ';
    }
  }

  predicate LowerWordChar(c: char) {
    ('a' <= c <= 'z') || ('0' <= c <= '9') || c == '_'
  }

  /** A full match of `[a-z0-9_]+\.[a-z0-9_]+`: one dot with a non-empty word on each side. */
  predicate DomainAction(t: string) {
    exists i :: 0 < i < |t| - 1 && t[i] == '.' && WordCharsExcept(t, i)
  }

  /** Every character of `t` other than the one at `dot` is a lower-case word character. */
  predicate WordCharsExcept(t: string, dot: int) {
    forall j :: 0 <= j < |t| && j != dot ==> LowerWordChar(t[j])
  }

  /** `re.match(r'^[a-z0-9_]+\.[a-z0-9_]+$', t)`, with `$` again admitting one final newline. */
  predicate MatchesDomainAction(t: string) {
    DomainAction(t) || (|t| >= 1 && t[|t| - 1] == '\n' && DomainAction(t[..|t| - 1]))
  }

  predicate IsValidMessageType(t: string) {
    t in Protocol.MessageTypes || MatchesDomainAction(t) || EndsWith(t, ".response")
  }

  /** The custom-type pattern holds exactly one dot. */
  lemma DomainActionOneDot(t: string)
    requires DomainAction(t)
    ensures Count(t, '.') == 1
    ensures '.' in t
  {
    var i :| 0 < i < |t| - 1 && t[i] == '.' && WordCharsExcept(t, i);
    assert t == t[..i] + ['.'] + t[i + 1..];
    CountAppend(t[..i] + ['.'], t[i + 1..], '.');
    CountAppend(t[..i], ['.'], '.');
    NoDotCount(t[..i]);
    NoDotCount(t[i + 1..]);
    assert Count(['.'], '.') == 1 by { assert ['.'][1..] == []; }
  }

  lemma NoDotCount(s: string)
    requires forall j :: 0 <= j < |s| ==> LowerWordChar(s[j])
    ensures Count(s, '.') == 0
  {
    assert forall j :: 0 <= j < |s| ==> s[j] != '.';
    CountZero(s, '.');
  }

  lemma CountZero(s: string, c: char)
    requires c !in s
    ensures Count(s, c) == 0
  {
    if |s| > 0 {
      assert c !in s[1..];
      CountZero(s[1..], c);
    }
  }

  /** The full validator's type rule is stricter than the boolean one of `Protocol.ValidateMessage`:
      every type it admits that one admits too, and "Proposal.Create" shows the converse fails. */
  lemma ValidTypeIsAccepted(t: string)
    requires IsValidMessageType(t)
    ensures Protocol.TypeAccepted(t)
  {
    Protocol.TypeAcceptedIffDot(t);
    if t !in Protocol.MessageTypes {
      if DomainAction(t) {
        DomainActionOneDot(t);
      } else if |t| >= 1 && t[|t| - 1] == '\n' && DomainAction(t[..|t| - 1]) {
        DomainActionOneDot(t[..|t| - 1]);
        var j :| 0 <= j < |t[..|t| - 1]| && t[..|t| - 1][j] == '.';
        assert t[j] == '.';
      } else {
        assert EndsWith(t, ".response");
        assert t[|t| - 9] == '.';
      }
    }
  }

  lemma CapitalisedTypeRejected()
    ensures Protocol.TypeAccepted("Proposal.Create")
    ensures !IsValidMessageType("Proposal.Create")
  {
    var t := "Proposal.Create";
    Protocol.TypeAcceptedIffDot(t);
    assert t[8] == '.';
    assert !LowerWordChar(t[0]) && t[|t| - 1] == 'e' && t[|t| - 2] == 't';
    assert t !in Protocol.MessageTypes;
    UpperStartRejected(t);
  }

  /** A text that starts with a character outside `[a-z0-9_]`, does not end in ".response" and
      is no standard type is not a valid message type. */
  lemma UpperStartRejected(t: string)
    requires |t| >= 1 && !LowerWordChar(t[0]) && !EndsWith(t, ".response")
    requires t !in Protocol.MessageTypes
    ensures !IsValidMessageType(t)
  {
    assert !DomainAction(t);
    if |t| >= 2 {
      assert !DomainAction(t[..|t| - 1]) by {
        assert t[..|t| - 1][0] == t[0];
      }
    }
  }

  // ---------------------------------------------------------------------------------------------
  // Expiry

  /** `is_expired(message, max_age)` at clock reading `now`: expired when the age exceeds the
      window, when the timestamp does not parse (ValueError), or when it is aware and cannot be
      subtracted from the naive clock (TypeError). The ttl field plays no part. */
  predicate IsExpired(m: Protocol.Message, now: int, parse: Protocol.TimeParser, maxAge: int) {
    match parse(m.timestamp)
    case None => true
    case Some(t) => t.aware || now - t.seconds > maxAge
  }

  lemma ExpiryIgnoresTtl(m: Protocol.Message, ttl: Value, now: int, parse: Protocol.TimeParser, maxAge: int)
    ensures IsExpired(m.(ttl := ttl), now, parse, maxAge) == IsExpired(m, now, parse, maxAge)
  {
  }

  /** The window is strict: a message exactly `maxAge` seconds old is still fresh, one a second
      older is not. */
  lemma ExpiryBoundary(m: Protocol.Message, t: int, parse: Protocol.TimeParser, maxAge: int)
    requires parse(m.timestamp) == Some(Protocol.Instant(t, false))
    ensures !IsExpired(m, t + maxAge, parse, maxAge)
    ensures IsExpired(m, t + maxAge + 1, parse, maxAge)
  {
  }

  // ---------------------------------------------------------------------------------------------
  // Payload schemas

  /** A field schema such as `{"type": "string", "required": true}`. */
  type FieldSchema = Object
  type Schema = Dict<FieldSchema>

  predicate Required(fs: FieldSchema) {
    Truthy(GetOr(fs, "required", Bool(false)))
  }

  function MissingFieldError(payload: Object, entry: (string, FieldSchema)): seq<string> {
    if Required(entry.1) && !HasKey(payload, entry.0) then ["Missing required field: " + entry.0] else []
  }

  /** The first loop of `validate_payload_schema`, over the schema in its order. */
  function MissingFieldErrors(payload: Object, schema: Schema): seq<string> {
    if |schema| == 0 then []
    else MissingFieldErrors(payload, schema[..|schema| - 1]) + MissingFieldError(payload, schema[|schema| - 1])
  }

  /** The wording of the check a value fails against a declared type, if it fails one. Booleans
      pass the "number" check, as Python's bool is an int. */
  function TypeMismatch(expected: Option<Value>, v: Value): Option<string> {
    if expected == Some(Str("string")) && !v.Str? then Some("a string")
    else if expected == Some(Str("number")) && !(v.Int? || v.Float? || v.Bool?) then Some("a number")
    else if expected == Some(Str("boolean")) && !v.Bool? then Some("a boolean")
    else if expected == Some(Str("array")) && !v.Arr? then Some("an array")
    else if expected == Some(Str("object")) && !v.Obj? then Some("an object")
    else None
  }

  function FieldTypeError(schema: Schema, entry: (string, Value)): seq<string> {
    if HasKey(schema, entry.0) then
      match TypeMismatch(Get(Get(schema, entry.0).value, "type"), entry.1)
      case Some(what) => ["Field " + entry.0 + " should be " + what]
      case None => []
    else []
  }

  /** The second loop of `validate_payload_schema`, over the payload in its order. */
  function TypeErrors(payload: Object, schema: Schema): seq<string> {
    if |payload| == 0 then []
    else TypeErrors(payload[..|payload| - 1], schema) + FieldTypeError(schema, payload[|payload| - 1])
  }

  function SchemaErrors(payload: Object, schema: Schema): seq<string> {
    MissingFieldErrors(payload, schema) + TypeErrors(payload, schema)
  }

  /** `validate_payload_schema(payload, schema)`: the missing required fields in schema order, then
      the type errors in payload order. */
  method ValidatePayloadSchema(payload: Object, schema: Schema) returns (errors: seq<string>)
    ensures errors == SchemaErrors(payload, schema)
  {
    var missing := CheckRequiredFields(payload, schema);
    var mistyped := CheckFieldTypes(payload, schema);
    errors := missing + mistyped;
  }

  /** The first loop of `validate_payload_schema`. */
  method CheckRequiredFields(payload: Object, schema: Schema) returns (errors: seq<string>)
    ensures errors == MissingFieldErrors(payload, schema)
  {
    errors := [];
    var i := 0;
    while i < |schema|
      invariant 0 <= i <= |schema|
      invariant errors == MissingFieldErrors(payload, schema[..i])
    {
      var field, fieldSchema := schema[i].0, schema[i].1;
      if Truthy(GetOr(fieldSchema, "required", Bool(false))) && !HasKey(payload, field) {
        errors := errors + ["Missing required field: " + field];
      }
      assert schema[..i + 1][..i] == schema[..i];
      i := i + 1;
    }
    assert schema[..i] == schema;
  }

  /** The second loop of `validate_payload_schema`. */
  method CheckFieldTypes(payload: Object, schema: Schema) returns (errors: seq<string>)
    ensures errors == TypeErrors(payload, schema)
  {
    errors := [];
    var j := 0;
    while j < |payload|
      invariant 0 <= j <= |payload|
      invariant errors == TypeErrors(payload[..j], schema)
    {
      var field, value := payload[j].0, payload[j].1;
      if HasKey(schema, field) {
        var expected := Get(Get(schema, field).value, "type");
        match TypeMismatch(expected, value)
        case Some(what) =>
          errors := errors + ["Field " + field + " should be " + what];
        case None =>
      }
      assert payload[..j + 1][..j] == payload[..j];
      j := j + 1;
    }
    assert payload[..j] == payload;
  }

  /** At most one "Missing required field" error per schema field, and none exactly when every
      required field is present. */
  lemma {:induction false} MissingFieldErrorsMeaning(payload: Object, schema: Schema)
    ensures |MissingFieldErrors(payload, schema)| <= |schema|
    ensures MissingFieldErrors(payload, schema) == [] <==>
      forall i :: 0 <= i < |schema| && Required(schema[i].1) ==> HasKey(payload, schema[i].0)
  {
    if |schema| > 0 {
      var init := schema[..|schema| - 1];
      MissingFieldErrorsMeaning(payload, init);
      assert forall i :: 0 <= i < |init| ==> init[i] == schema[i];
    }
  }

  /** Each "Missing required field" error names a required schema field absent from the
      payload. */
  lemma {:induction false} MissingFieldErrorsNamed(payload: Object, schema: Schema)
    ensures forall e :: e in MissingFieldErrors(payload, schema) ==>
      exists i :: 0 <= i < |schema| && Required(schema[i].1) && !HasKey(payload, schema[i].0) &&
                  e == "Missing required field: " + schema[i].0
  {
    if |schema| > 0 {
      var n := |schema| - 1;
      var init := schema[..n];
      MissingFieldErrorsNamed(payload, init);
      forall e | e in MissingFieldErrors(payload, schema)
        ensures exists i :: 0 <= i < |schema| && Required(schema[i].1) && !HasKey(payload, schema[i].0) &&
                            e == "Missing required field: " + schema[i].0
      {
        if e in MissingFieldErrors(payload, init) {
          var i :| 0 <= i < |init| && Required(init[i].1) && !HasKey(payload, init[i].0) &&
                   e == "Missing required field: " + init[i].0;
          assert init[i] == schema[i];
        } else {
          assert e in MissingFieldError(payload, schema[n]);
        }
      }
    }
  }

  /** Type errors come only from payload fields the schema declares, at most one per field, and
      there are none exactly when every declared field passes its declared type. */
  lemma {:induction false} TypeErrorsMeaning(payload: Object, schema: Schema)
    ensures |TypeErrors(payload, schema)| <= |payload|
    ensures TypeErrors(payload, schema) == [] <==>
      forall i :: 0 <= i < |payload| && HasKey(schema, payload[i].0) ==>
        TypeMismatch(Get(Get(schema, payload[i].0).value, "type"), payload[i].1).None?
  {
    if |payload| > 0 {
      var init := payload[..|payload| - 1];
      TypeErrorsMeaning(init, schema);
      assert forall i :: 0 <= i < |init| ==> init[i] == payload[i];
    }
  }

  /** A declared type outside the five known names never yields an error. */
  lemma UnknownTypeNoError(expected: Option<Value>, v: Value)
    requires expected !in {Some(Str("string")), Some(Str("number")), Some(Str("boolean")),
                           Some(Str("array")), Some(Str("object"))}
    ensures TypeMismatch(expected, v) == None
  {
  }

  // ---------------------------------------------------------------------------------------------
  // The full validator

  function IdErrors(m: Protocol.Message): seq<string> {
    if m.messageId == "" then ["Missing message_id"] else []
  }

  function TypeFieldErrors(m: Protocol.Message): seq<string> {
    if m.messageType == "" then ["Missing message_type"]
    else if !IsValidMessageType(m.messageType) then ["Invalid message_type: " + m.messageType]
    else []
  }

  function SourceErrors(m: Protocol.Message): seq<string> {
    if m.sourceAgent == "" then ["Missing source_agent"]
    else if !IsValidAgentId(m.sourceAgent) then ["Invalid source_agent: " + m.sourceAgent]
    else []
  }

  /** An absent or empty target is not checked. */
  function TargetErrors(m: Protocol.Message): seq<string> {
    if m.targetAgent.Some? && m.targetAgent.value != "" && !IsValidAgentId(m.targetAgent.value)
    then ["Invalid target_agent: " + m.targetAgent.value] else []
  }

  function TimestampErrors(m: Protocol.Message, parse: Protocol.TimeParser): seq<string> {
    if parse(m.timestamp).None? then ["Invalid timestamp format: " + m.timestamp] else []
  }

  function TtlErrors(m: Protocol.Message): seq<string> {
    if !Protocol.TtlValid(m.ttl) then ["Invalid TTL: " + Show(m.ttl)] else []
  }

  function ExpiryErrors(m: Protocol.Message, now: int, parse: Protocol.TimeParser): seq<string> {
    if IsExpired(m, now, parse, DEFAULT_MAX_AGE) then ["Message has expired"] else []
  }

  /** The payload schema applies only when the table is non-empty and has the message's type. */
  function PayloadErrors(m: Protocol.Message, schemas: Dict<Schema>): seq<string> {
    if |schemas| > 0 && HasKey(schemas, m.messageType)
    then SchemaErrors(m.payload, Get(schemas, m.messageType).value) else []
  }

  /** `validate_message(m, schemas)` at clock reading `now`: the findings in the fixed order id,
      type, source, target, timestamp, ttl, expiry, payload schema. */
  function ValidateMessage(m: Protocol.Message, now: int, parse: Protocol.TimeParser, schemas: Dict<Schema>): seq<string> {
    IdErrors(m) + TypeFieldErrors(m) + SourceErrors(m) + TargetErrors(m)
    + TimestampErrors(m, parse) + TtlErrors(m) + ExpiryErrors(m, now, parse) + PayloadErrors(m, schemas)
  }

  /** Every check `validate_message` makes, as one condition. */
  ghost predicate PassesAllChecks(m: Protocol.Message, now: int, parse: Protocol.TimeParser, schemas: Dict<Schema>) {
    && m.messageId != ""
    && IsValidMessageType(m.messageType)
    && IsValidAgentId(m.sourceAgent)
    && (m.targetAgent.None? || m.targetAgent.value == "" || IsValidAgentId(m.targetAgent.value))
    && parse(m.timestamp).Some? && !parse(m.timestamp).value.aware
    && now - parse(m.timestamp).value.seconds <= DEFAULT_MAX_AGE
    && ((m.ttl.Int? && m.ttl.i > 0) || m.ttl == Bool(true))
    && (HasKey(schemas, m.messageType) ==> SchemaErrors(m.payload, Get(schemas, m.messageType).value) == [])
  }

  /** `validate_message` returns no errors exactly when every check passes; an absent target is
      never an error. */
  lemma MessageErrorsEmptyIff(m: Protocol.Message, now: int, parse: Protocol.TimeParser, schemas: Dict<Schema>)
    ensures ValidateMessage(m, now, parse, schemas) == [] <==> PassesAllChecks(m, now, parse, schemas)
  {
    if m.messageType == "" {
      assert !IsValidMessageType(m.messageType) by {
        assert "" !in Protocol.MessageTypes;
      }
    }
    if m.sourceAgent == "" {
      assert !IsValidAgentId(m.sourceAgent);
    }
    match parse(m.timestamp)
    case None =>
    case Some(t) =>
  }

  /** An aware timestamp passes the format check but always counts as expired, however recent. */
  lemma AwareTimestampExpired(m: Protocol.Message, now: int, parse: Protocol.TimeParser, schemas: Dict<Schema>)
    requires parse(m.timestamp).Some? && parse(m.timestamp).value.aware
    ensures TimestampErrors(m, parse) == [] && ExpiryErrors(m, now, parse) == ["Message has expired"]
    ensures "Message has expired" in ValidateMessage(m, now, parse, schemas)
    ensures ValidateMessage(m, now, parse, schemas) != []
  {
  }

  /** An unparsable timestamp is reported twice: as a format error and as expiry. */
  lemma UnparsableTimestampTwoErrors(m: Protocol.Message, now: int, parse: Protocol.TimeParser, schemas: Dict<Schema>)
    requires parse(m.timestamp).None?
    ensures "Invalid timestamp format: " + m.timestamp in ValidateMessage(m, now, parse, schemas)
    ensures "Message has expired" in ValidateMessage(m, now, parse, schemas)
  {
  }

  /** The schema table is consulted only under the message's own type. */
  lemma OtherSchemasIgnored(m: Protocol.Message, now: int, parse: Protocol.TimeParser, schemas: Dict<Schema>)
    requires !HasKey(schemas, m.messageType)
    ensures ValidateMessage(m, now, parse, schemas) == ValidateMessage(m, now, parse, [])
  {
  }
}
