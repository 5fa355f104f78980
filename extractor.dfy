/** The proposal extractor's deterministic part: what it does with the JSON the language model
    returns. The model call itself is an input: the decoded JSON value of the reply, or `None`
    where the chain raises or the reply is not JSON. */
module Extractor {
  import opened Wrappers
  import opened PyStr
  import opened Dicts
  import opened Json

  /** What `extract_content` returns when the chain or the JSON decoding fails. */
  const Failure: Object :=
    [("has_proposal", Bool(false)), ("title", Null), ("main_points", Null), ("background", Null),
     ("suggestions", Null), ("categories", Null)]

  /** `extract_content(text)`, given the decoded reply of the chain: whatever JSON value the reply
      holds, or the failure dict. */
  function ExtractContent(reply: Option<Value>): (c: Value)
    ensures reply.Some? ==> c == reply.value
    ensures reply.None? ==> c == Obj(Failure) && Get(Failure, "has_proposal") == Some(Bool(false))
  {
    match reply
    case Some(v) => v
    case None => Obj(Failure)
  }

  /** `has_proposal_intent(text)`: the reply's `has_proposal`, false when absent, when the
      extraction failed, or when the reply is not a dict (its `get` raises AttributeError, which
      is caught); it never raises. */
  function HasProposalIntent(reply: Option<Value>): (r: Value)
    ensures reply.None? ==> r == Bool(false)
    ensures forall o :: reply == Some(Obj(o)) ==> r == GetOr(o, "has_proposal", Bool(false))
    ensures reply.Some? && !reply.value.Obj? ==> r == Bool(false)
  {
    match ExtractContent(reply)
    case Obj(o) => GetOr(o, "has_proposal", Bool(false))
    case _ => Bool(false)
  }

  /** `for x in v` over a truthy value, each item as an f-string shows it: a list gives its
      items, a string its characters, a dict its keys; None where Python raises TypeError. */
  function Iterated(v: Value): (r: Option<seq<string>>)
    ensures r.None? <==> !(v.Arr? || v.Str? || v.Obj?)
    ensures v.Arr? ==> |r.value| == |v.items|
    ensures v.Str? ==> |r.value| == |v.s|
    ensures v.Obj? ==> |r.value| == |v.fields|
  {
    match v
    case Arr(items) => Some(seq(|items|, i requires 0 <= i < |items| => Show(items[i])))
    case Str(s) => Some(seq(|s|, i requires 0 <= i < |s| => [s[i]]))
    case Obj(fields) => Some(Keys(fields))
    case _ => None
  }

  /** One `- item` line per item, in order. */
  function Bullets(items: seq<string>): (r: seq<string>)
    ensures |r| == |items| && forall i :: 0 <= i < |items| ==> r[i] == "- " + items[i]
  {
    seq(|items|, i requires 0 <= i < |items| => "- " + items[i])
  }

  const PointsHeader: string := "## 主要观点\n"
  const SuggestionsHeader: string := "## 具体建议\n"

  /** The part a truthy `background` gives. */
  function BackgroundPart(v: Value): string {
    "## 背景\n\n" + Show(v) + "\n"
  }

  /** The lines a list field gives: nothing when it is falsy, else its header, one line per item
      and a closing blank part. */
  function Block(header: string, v: Value): Result<seq<string>> {
    if !Truthy(v) then Ok([])
    else
      match Iterated(v)
      case None => Err("TypeError: object is not iterable")
      case Some(items) => Ok([header] + Bullets(items) + ["\n"])
  }

  /** The parts `_format_proposal_content` collects: background, main points, suggestions, and
      the configured input text only when none of them gave anything. */
  function ContentParts(data: Object, inputText: Option<string>): Result<seq<string>> {
    var background := GetOr(data, "background", Null);
    var first := if Truthy(background) then [BackgroundPart(background)] else [];
    var points :- Block(PointsHeader, GetOr(data, "main_points", Null));
    var suggestions :- Block(SuggestionsHeader, GetOr(data, "suggestions", Null));
    var parts := first + points + suggestions;
    Ok(if parts == [] && inputText.Some? then [inputText.value] else parts)
  }

  /** Appending a list field's lines to the parts, as the source's loop does. */
  method AppendBlock(parts: seq<string>, header: string, v: Value) returns (r: Result<seq<string>>)
    ensures Block(header, v).Ok? ==> r == Ok(parts + Block(header, v).value)
    ensures Block(header, v).Err? ==> r.Err?
  {
    if !Truthy(v) {
      assert parts + [] == parts;
      return Ok(parts);
    }
    var items := Iterated(v);
    if items.None? {
      return Err("TypeError: object is not iterable");
    }
    var acc := parts + [header];
    for i := 0 to |items.value|
      invariant acc == parts + [header] + Bullets(items.value[..i])
    {
      BulletsStep(items.value, i);
      acc := acc + ["- " + items.value[i]];
    }
    assert items.value[..|items.value|] == items.value;
    assert Block(header, v) == Ok([header] + Bullets(items.value) + ["\n"]);
    assert acc + ["\n"] == parts + ([header] + Bullets(items.value) + ["\n"]);
    return Ok(acc + ["\n"]);
  }

  /** One more item gives one more line. */
  lemma BulletsStep(items: seq<string>, i: nat)
    requires i < |items|
    ensures Bullets(items[..i + 1]) == Bullets(items[..i]) + ["- " + items[i]]
  {
    assert Bullets(items[..i + 1])[..i] == Bullets(items[..i]);
  }

  /** `ContentParts` in terms of its three pieces. */
  lemma ContentPartsOf(data: Object, inputText: Option<string>, first: seq<string>,
                       points: Result<seq<string>>, suggestions: Result<seq<string>>)
    requires var background := GetOr(data, "background", Null);
      first == if Truthy(background) then [BackgroundPart(background)] else []
    requires points == Block(PointsHeader, GetOr(data, "main_points", Null))
    requires suggestions == Block(SuggestionsHeader, GetOr(data, "suggestions", Null))
    ensures ContentParts(data, inputText).Err? <==> points.Err? || suggestions.Err?
    ensures points.Ok? && suggestions.Ok? ==>
      var parts := first + points.value + suggestions.value;
      ContentParts(data, inputText).value == if parts == [] && inputText.Some? then [inputText.value] else parts
  {
  }

  /** `_format_proposal_content(data)`, `inputText` being the extractor's configured
      `input_text`, if any: the parts joined by line ends. */
  method FormatProposalContent(data: Object, inputText: Option<string>) returns (r: Result<string>)
    ensures ContentParts(data, inputText).Ok? ==> r == Ok(Join(ContentParts(data, inputText).value, "\n"))
    ensures ContentParts(data, inputText).Err? ==> r.Err?
  {
    var parts: seq<string> := [];
    var background := GetOr(data, "background", Null);
    if Truthy(background) {
      parts := parts + [BackgroundPart(background)];
    }
    var points := Block(PointsHeader, GetOr(data, "main_points", Null));
    var suggestions := Block(SuggestionsHeader, GetOr(data, "suggestions", Null));
    ContentPartsOf(data, inputText, parts, points, suggestions);
    var withPoints := AppendBlock(parts, PointsHeader, GetOr(data, "main_points", Null));
    if withPoints.Err? {
      return Err(withPoints.error);
    }
    var withSuggestions := AppendBlock(withPoints.value, SuggestionsHeader, GetOr(data, "suggestions", Null));
    if withSuggestions.Err? {
      return Err(withSuggestions.error);
    }
    assert withSuggestions.value == parts + points.value + suggestions.value;
    parts := withSuggestions.value;
    if parts == [] && inputText.Some? {
      parts := parts + [inputText.value];
    }
    return Ok(Join(parts, "\n"));
  }

  /** Only a truthy list field that cannot be iterated makes the formatting fail. */
  lemma ContentPartsFails(data: Object, inputText: Option<string>)
    ensures var points := GetOr(data, "main_points", Null);
      var suggestions := GetOr(data, "suggestions", Null);
      ContentParts(data, inputText).Err? <==>
        (Truthy(points) && Iterated(points).None?) || (Truthy(suggestions) && Iterated(suggestions).None?)
  {
    var background := GetOr(data, "background", Null);
    var first := if Truthy(background) then [BackgroundPart(background)] else [];
    ContentPartsOf(data, inputText, first, Block(PointsHeader, GetOr(data, "main_points", Null)),
                   Block(SuggestionsHeader, GetOr(data, "suggestions", Null)));
  }

  /** The layout of the parts: the background part first when set; then the main points block,
      one line per point in order; then the suggestions block likewise; the input text only
      when none of the three is set. */
  lemma ContentPartsLayout(data: Object, inputText: Option<string>)
    ensures ContentParts(data, inputText).Ok? ==>
      var parts := ContentParts(data, inputText).value;
      var background := GetOr(data, "background", Null);
      var points := GetOr(data, "main_points", Null);
      var suggestions := GetOr(data, "suggestions", Null);
      var b := if Truthy(background) then 1 else 0;
      var p := if Truthy(points) then |Iterated(points).value| + 2 else 0;
      var s := if Truthy(suggestions) then |Iterated(suggestions).value| + 2 else 0;
      && (Truthy(background) ==> parts[0] == BackgroundPart(background))
      && (Truthy(points) ==>
            parts[b..b + p] == [PointsHeader] + Bullets(Iterated(points).value) + ["\n"])
      && (Truthy(suggestions) ==>
            parts[b + p..b + p + s] == [SuggestionsHeader] + Bullets(Iterated(suggestions).value) + ["\n"])
      && (b + p + s > 0 ==> |parts| == b + p + s)
      && (b + p + s == 0 ==> parts == if inputText.Some? then [inputText.value] else [])
  {
    var background := GetOr(data, "background", Null);
    var first := if Truthy(background) then [BackgroundPart(background)] else [];
    var points := Block(PointsHeader, GetOr(data, "main_points", Null));
    var suggestions := Block(SuggestionsHeader, GetOr(data, "suggestions", Null));
    ContentPartsOf(data, inputText, first, points, suggestions);
    if points.Ok? && suggestions.Ok? {
      ThreePieces(first, points.value, suggestions.value);
    }
  }

  /** Where the three pieces sit in their concatenation. */
  lemma ThreePieces(a: seq<string>, b: seq<string>, c: seq<string>)
    ensures var parts := a + b + c;
      |parts| == |a| + |b| + |c| && parts[..|a|] == a && parts[|a|..|a| + |b|] == b &&
      parts[|a| + |b|..|a| + |b| + |c|] == c
  {
    var parts := a + b + c;
    assert parts[..|a|] == a;
    assert parts[|a|..|a| + |b|] == b;
    assert parts[|a| + |b|..|a| + |b| + |c|] == c;
  }

  /** `extract_and_format(text)`, given the decoded reply: a reply that is not a dict raises
      AttributeError (Err) at `content.get`; otherwise None unless `has_proposal` is truthy, and
      else the title (default "未命名提案"), the formatted content and the categories as tags
      (default empty). */
  function ExtractAndFormat(reply: Option<Value>, inputText: Option<string>): (r: Result<Option<Object>>)
    ensures reply.Some? && !reply.value.Obj? ==> r.Err?
    ensures (reply.None? || reply.value.Obj?) && !Truthy(HasProposalIntent(reply)) ==> r == Ok(None)
  {
    match ExtractContent(reply)
    case Obj(content) =>
      if !Truthy(GetOr(content, "has_proposal", Bool(false))) then Ok(None)
      else
        var parts :- ContentParts(content, inputText);
        Ok(Some(Proposal(GetOr(content, "title", Str("未命名提案")), Join(parts, "\n"),
                         GetOr(content, "categories", Arr([])))))
    case _ => Err("AttributeError: object has no attribute 'get'")
  }

  /** The proposal dict `extract_and_format` returns. */
  function Proposal(title: Value, content: string, tags: Value): (o: Object)
    ensures Keys(o) == ["title", "content", "tags"]
    ensures Get(o, "title") == Some(title) && Get(o, "content") == Some(Str(content)) &&
            Get(o, "tags") == Some(tags)
  {
    var o := [("title", title), ("content", Str(content)), ("tags", tags)];
    assert DistinctKeys(o);
    GetAt(o, 1); GetAt(o, 2);
    o
  }

  /** A failed extraction has no proposal intent and gives no proposal. */
  lemma FailedExtraction(inputText: Option<string>)
    ensures HasProposalIntent(None) == Bool(false)
    ensures ExtractAndFormat(None, inputText) == Ok(None)
  {
  }

  /** The fields of the proposal `extract_and_format` builds. */
  lemma ExtractAndFormatFields(reply: Option<Value>, inputText: Option<string>)
    requires ExtractAndFormat(reply, inputText).Ok? && ExtractAndFormat(reply, inputText).value.Some?
    ensures reply.Some? && reply.value.Obj? && Truthy(GetOr(reply.value.fields, "has_proposal", Bool(false)))
    ensures var o := ExtractAndFormat(reply, inputText).value.value;
      var content := reply.value.fields;
      && Keys(o) == ["title", "content", "tags"]
      && Get(o, "title") == Some(GetOr(content, "title", Str("未命名提案")))
      && Get(o, "content") == Some(Str(Join(ContentParts(content, inputText).value, "\n")))
      && Get(o, "tags") == Some(GetOr(content, "categories", Arr([])))
  {
    assert Get(Failure, "has_proposal") == Some(Bool(false));
  }
}
