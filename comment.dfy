/** A comment on a proposal: its reply and sentiment predicates, the sentiment check, and its
    dict form. */
module Comments {
  import opened Wrappers
  import opened PyStr
  import opened Dicts
  import opened Json
  import opened Records

  datatype Comment = Comment(
    proposalId: string,
    commenterId: string,
    content: string,
    sentiment: string,
    commentId: string,
    createdAt: DateTime,
    parentId: Option<string>,
    isOfficial: bool,
    metadata: Object)

  /** `Comment(proposal_id, commenter_id, content)` with the id and time its default factories
      draw: sentiment "neutral", no parent, not official, empty metadata. */
  function NewComment(proposalId: string, commenterId: string, content: string, commentId: string,
                      now: DateTime): Comment {
    Comment(proposalId, commenterId, content, "neutral", commentId, now, None, false, [])
  }

  predicate IsReply(c: Comment) {
    c.parentId.Some?
  }

  predicate IsPositive(c: Comment) {
    Lower(c.sentiment) == "positive"
  }

  predicate IsNegative(c: Comment) {
    Lower(c.sentiment) == "negative"
  }

  const Sentiments: seq<string> := ["positive", "negative", "neutral", "mixed"]

  /** `Comment.validate_sentiment(s)`: the lower-cased sentiment is one of the four. */
  predicate ValidateSentiment(sentiment: string) {
    Lower(sentiment) in Sentiments
  }

  /** No comment is both positive and negative; either one has a valid sentiment. */
  lemma PositiveNegativeExclusive(c: Comment)
    ensures !(IsPositive(c) && IsNegative(c))
    ensures IsPositive(c) || IsNegative(c) ==> ValidateSentiment(c.sentiment)
  {
  }

  /** The check ignores letter case. */
  lemma ValidateSentimentIgnoresCase(sentiment: string)
    ensures ValidateSentiment(sentiment) <==> ValidateSentiment(Lower(sentiment))
  {
    LowerIdempotent(sentiment);
  }

  /** The keys of `to_dict()`, in order. */
  const DictKeys: seq<string> :=
    ["comment_id", "proposal_id", "commenter_id", "content", "sentiment", "created_at", "parent_id",
     "is_official", "metadata"]

  /** No field name of `to_dict()` occurs twice. */
  lemma DictKeysDistinct()
    ensures forall i, j :: 0 <= i < j < |DictKeys| ==> DictKeys[i] != DictKeys[j]
  {
  }

  /** `to_dict()`: every field under its snake_case name, the time as ISO text, a missing parent
      as null. */
  function ToDict(c: Comment): (d: Object)
    ensures Keys(d) == DictKeys
  {
    [("comment_id", Str(c.commentId)),
     ("proposal_id", Str(c.proposalId)),
     ("commenter_id", Str(c.commenterId)),
     ("content", Str(c.content)),
     ("sentiment", Str(c.sentiment)),
     ("created_at", Str(c.createdAt)),
     ("parent_id", OptStr(c.parentId)),
     ("is_official", Bool(c.isOfficial)),
     ("metadata", Obj(c.metadata))]
  }

  /** `Comment.from_dict(data)`: `created_at` first, then the fields in declaration order; a
      missing required key raises KeyError (Err), the optional ones take the constructor's
      defaults. */
  function FromDict(data: Object, parse: IsoParser): (r: Result<Comment>)
    ensures !HasKey(data, "created_at") ==> r == Err("KeyError: created_at")
  {
    var createdAt :- RequiredTime(data, "created_at", parse);
    var commentId :- RequiredStr(data, "comment_id");
    var proposalId :- RequiredStr(data, "proposal_id");
    var commenterId :- RequiredStr(data, "commenter_id");
    var content :- RequiredStr(data, "content");
    var sentiment :- StrOr(data, "sentiment", "neutral");
    var parentId :- OptionalStr(data, "parent_id");
    var isOfficial :- BoolOr(data, "is_official", false);
    var metadata :- ObjOr(data, "metadata", []);
    Ok(Comment(proposalId, commenterId, content, sentiment, commentId, createdAt, parentId, isOfficial, metadata))
  }

  /** Looking up each field name in `to_dict()` finds that field. */
  lemma {:induction false} ToDictLookups(c: Comment)
    ensures Get(ToDict(c), "comment_id") == Some(Str(c.commentId))
    ensures Get(ToDict(c), "proposal_id") == Some(Str(c.proposalId))
    ensures Get(ToDict(c), "commenter_id") == Some(Str(c.commenterId))
    ensures Get(ToDict(c), "content") == Some(Str(c.content))
    ensures Get(ToDict(c), "sentiment") == Some(Str(c.sentiment))
    ensures Get(ToDict(c), "created_at") == Some(Str(c.createdAt))
    ensures Get(ToDict(c), "parent_id") == Some(OptStr(c.parentId))
    ensures Get(ToDict(c), "is_official") == Some(Bool(c.isOfficial))
    ensures Get(ToDict(c), "metadata") == Some(Obj(c.metadata))
  {
    var d := ToDict(c);
    DictKeysDistinct();
    DistinctKeysOfKeySeq(d, DictKeys);
    GetAt(d, 0); GetAt(d, 1); GetAt(d, 2); GetAt(d, 3); GetAt(d, 4);
    GetAt(d, 5); GetAt(d, 6); GetAt(d, 7); GetAt(d, 8);
  }

  /** A comment is a reply exactly when its dict form has a non-null `parent_id`. */
  lemma IsReplyInDict(c: Comment)
    ensures IsReply(c) <==> Get(ToDict(c), "parent_id").Some? && Get(ToDict(c), "parent_id").value != Null
  {
    ToDictLookups(c);
  }

  /** `from_dict` on a dict whose every field reads back well builds the comment of those fields. */
  lemma FromDictOfFields(data: Object, parse: IsoParser, c: Comment)
    requires RequiredTime(data, "created_at", parse) == Ok(c.createdAt)
    requires RequiredStr(data, "comment_id") == Ok(c.commentId)
    requires RequiredStr(data, "proposal_id") == Ok(c.proposalId)
    requires RequiredStr(data, "commenter_id") == Ok(c.commenterId)
    requires RequiredStr(data, "content") == Ok(c.content)
    requires StrOr(data, "sentiment", "neutral") == Ok(c.sentiment)
    requires OptionalStr(data, "parent_id") == Ok(c.parentId)
    requires BoolOr(data, "is_official", false) == Ok(c.isOfficial)
    requires ObjOr(data, "metadata", []) == Ok(c.metadata)
    ensures FromDict(data, parse) == Ok(c)
  {
  }

  /** Reading back the dict form of a comment gives the comment, field for field. */
  lemma FromDictToDict(c: Comment, parse: IsoParser)
    requires ReadsBack(parse, c.createdAt)
    ensures FromDict(ToDict(c), parse) == Ok(c)
  {
    var d := ToDict(c);
    ToDictLookups(c);
    RequiredTimeOf(d, "created_at", parse, c.createdAt);
    RequiredStrOf(d, "comment_id", c.commentId);
    RequiredStrOf(d, "proposal_id", c.proposalId);
    RequiredStrOf(d, "commenter_id", c.commenterId);
    RequiredStrOf(d, "content", c.content);
    StrOrOf(d, "sentiment", c.sentiment, "neutral");
    OptionalStrOf(d, "parent_id", c.parentId);
    BoolOrOf(d, "is_official", c.isOfficial, false);
    ObjOrOf(d, "metadata", c.metadata, []);
    FromDictOfFields(d, parse, c);
  }

  /** A dict holding the required keys and none of the optional ones yields a comment with the
      constructor's defaults. */
  lemma FromDictDefaults(data: Object, commentId: string, proposalId: string, commenterId: string,
                         content: string, createdAt: DateTime, parse: IsoParser)
    requires ReadsBack(parse, createdAt)
    requires Get(data, "comment_id") == Some(Str(commentId)) && Get(data, "proposal_id") == Some(Str(proposalId))
    requires Get(data, "commenter_id") == Some(Str(commenterId)) && Get(data, "content") == Some(Str(content))
    requires Get(data, "created_at") == Some(Str(createdAt))
    requires !HasKey(data, "sentiment") && !HasKey(data, "parent_id") && !HasKey(data, "is_official") &&
             !HasKey(data, "metadata")
    ensures FromDict(data, parse) == Ok(NewComment(proposalId, commenterId, content, commentId, createdAt))
  {
    RequiredTimeOf(data, "created_at", parse, createdAt);
    RequiredStrOf(data, "comment_id", commentId);
    RequiredStrOf(data, "proposal_id", proposalId);
    RequiredStrOf(data, "commenter_id", commenterId);
    RequiredStrOf(data, "content", content);
    FromDictOfFields(data, parse, NewComment(proposalId, commenterId, content, commentId, createdAt));
  }
}
