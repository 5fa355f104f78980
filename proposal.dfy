/** A proposal: its counters, its status whitelist, attribute updates, and its dict form. The
    dataclass's fields live in a `Proposal` object that the methods update in place; its values
    at one moment are a `ProposalData`. */
module Proposals {
  import opened Wrappers
  import opened Dicts
  import opened Json
  import opened Records

  /** The proposal's fields, in declaration order. */
  datatype ProposalData = ProposalData(
    title: string,
    content: string,
    creatorId: string,
    proposalId: string,
    createdAt: DateTime,
    updatedAt: Option<DateTime>,
    status: string,
    tags: seq<string>,
    categories: seq<string>,
    voteCount: Dict<int>,
    commentCount: int,
    metadata: Object)

  const InitialVoteCount: Dict<int> := [("support", 0), ("oppose", 0)]

  /** `Proposal(title, content, creator_id)` with the id and time its default factories draw. */
  function NewProposal(title: string, content: string, creatorId: string, proposalId: string,
                       now: DateTime): ProposalData {
    ProposalData(title, content, creatorId, proposalId, now, None, "open", [], [], InitialVoteCount, 0, [])
  }

  /** The statuses `close` accepts. */
  const FinalStatuses: seq<string> := ["closed", "approved", "rejected"]

  /** The status `close(final_status)` sets: the requested one when whitelisted, else "closed";
      never "open". */
  function ClosingStatus(finalStatus: string): (r: string)
    ensures r in FinalStatuses && r != "open"
    ensures r == finalStatus || r == "closed"
    ensures finalStatus in FinalStatuses ==> r == finalStatus
  {
    if finalStatus in FinalStatuses then finalStatus else "closed"
  }

  /** The vote counts after `add_vote(vote_type)`: that count one higher, starting from 0 when
      absent, and appended as a new key in that case; every other count unchanged. */
  function CountVote(counts: Dict<int>, voteType: string): (r: Dict<int>)
    ensures Get(r, voteType) == Some(GetOr(counts, voteType, 0) + 1)
    ensures forall k :: k != voteType ==> Get(r, k) == Get(counts, k)
    ensures Keys(r) == if HasKey(counts, voteType) then Keys(counts) else Keys(counts) + [voteType]
    ensures DistinctKeys(counts) ==> DistinctKeys(r)
  {
    var n := GetOr(counts, voteType, 0) + 1;
    PutGetAll(counts, voteType, n);
    PutKeys(counts, voteType, n);
    if DistinctKeys(counts) then PutDistinct(counts, voteType, n); Put(counts, voteType, n)
    else Put(counts, voteType, n)
  }

  /** The attribute names of a proposal's fields. */
  const FieldNames: seq<string> :=
    ["title", "content", "creator_id", "proposal_id", "created_at", "updated_at", "status", "tags",
     "categories", "vote_count", "comment_count", "metadata"]

  /** `getattr(p, name)` for a field, as JSON; None for a name that is not a field. */
  function GetAttr(p: ProposalData, name: string): (r: Option<Value>)
    ensures r.Some? <==> name in FieldNames
  {
    match name
    case "title" => Some(Str(p.title))
    case "content" => Some(Str(p.content))
    case "creator_id" => Some(Str(p.creatorId))
    case "proposal_id" => Some(Str(p.proposalId))
    case "created_at" => Some(Str(p.createdAt))
    case "updated_at" => Some(OptStr(p.updatedAt))
    case "status" => Some(Str(p.status))
    case "tags" => Some(StrList(p.tags))
    case "categories" => Some(StrList(p.categories))
    case "vote_count" => Some(IntDict(p.voteCount))
    case "comment_count" => Some(Int(p.commentCount))
    case "metadata" => Some(Obj(p.metadata))
    case _ => None
  }

  /** The values `update` can store in a field: ones of the field's own kind. No JSON value is a
      datetime, so `created_at` takes none and `updated_at` only null. */
  predicate Settable(name: string, v: Value) {
    match name
    case "title" => v.Str?
    case "content" => v.Str?
    case "creator_id" => v.Str?
    case "proposal_id" => v.Str?
    case "created_at" => false
    case "updated_at" => v.Null?
    case "status" => v.Str?
    case "tags" => v.Arr? && ReadStrList(v.items).Some?
    case "categories" => v.Arr? && ReadStrList(v.items).Some?
    case "vote_count" => v.Obj? && ReadIntDict(v.fields).Some?
    case "comment_count" => v.Int?
    case "metadata" => v.Obj?
    case _ => false
  }

  /** `if hasattr(p, key): setattr(p, key, value)`: the field named `key` takes `value`. */
  function SetAttr(p: ProposalData, key: string, v: Value): ProposalData {
    if !Settable(key, v) then p
    else
      match key
      case "title" => p.(title := v.s)
      case "content" => p.(content := v.s)
      case "creator_id" => p.(creatorId := v.s)
      case "proposal_id" => p.(proposalId := v.s)
      case "updated_at" => p.(updatedAt := None)
      case "status" => p.(status := v.s)
      case "tags" => p.(tags := ReadStrList(v.items).value)
      case "categories" => p.(categories := ReadStrList(v.items).value)
      case "vote_count" => p.(voteCount := ReadIntDict(v.fields).value)
      case "comment_count" => p.(commentCount := v.i)
      case "metadata" => p.(metadata := v.fields)
      case _ => p
  }

  /** After `setattr`, the field reads back as the value stored; a value that cannot be stored,
      or a name that is no field, leaves the proposal as it was. */
  lemma SetAttrGet(p: ProposalData, key: string, v: Value)
    ensures Settable(key, v) ==> GetAttr(SetAttr(p, key, v), key) == Some(v)
    ensures !Settable(key, v) ==> SetAttr(p, key, v) == p
  {
    if Settable(key, v) {
      if key == "tags" || key == "categories" {
        StrListOfReadStrList(v.items);
      } else if key == "vote_count" {
        IntDictOfReadIntDict(v.fields);
      }
    }
  }

  /** `setattr` of one field leaves every other field as it was. */
  lemma SetAttrOther(p: ProposalData, key: string, v: Value, other: string)
    requires other != key
    ensures GetAttr(SetAttr(p, key, v), other) == GetAttr(p, other)
  {
    SetAttrKeeps(p, key, v);
  }

  /** `setattr` of one field leaves each field of another name as it was. */
  lemma SetAttrKeeps(p: ProposalData, key: string, v: Value)
    ensures var q := SetAttr(p, key, v);
      && (key != "title" ==> q.title == p.title)
      && (key != "content" ==> q.content == p.content)
      && (key != "creator_id" ==> q.creatorId == p.creatorId)
      && (key != "proposal_id" ==> q.proposalId == p.proposalId)
      && (key != "created_at" ==> q.createdAt == p.createdAt)
      && (key != "updated_at" ==> q.updatedAt == p.updatedAt)
      && (key != "status" ==> q.status == p.status)
      && (key != "tags" ==> q.tags == p.tags)
      && (key != "categories" ==> q.categories == p.categories)
      && (key != "vote_count" ==> q.voteCount == p.voteCount)
      && (key != "comment_count" ==> q.commentCount == p.commentCount)
      && (key != "metadata" ==> q.metadata == p.metadata)
  {
  }

  /** The `for key, value in kwargs.items()` loop of `update`, applied in order. */
  function Assigned(p: ProposalData, kwargs: Dict<Value>): ProposalData
    decreases |kwargs|
  {
    if |kwargs| == 0 then p else Assigned(SetAttr(p, kwargs[0].0, kwargs[0].1), kwargs[1..])
  }

  /** After the loop, a field named in the keyword arguments holds the value given for it when
      that value can be stored; every other field is as before. */
  lemma {:induction false} AssignedAttr(p: ProposalData, kwargs: Dict<Value>, name: string)
    requires DistinctKeys(kwargs)
    ensures !HasKey(kwargs, name) ==> GetAttr(Assigned(p, kwargs), name) == GetAttr(p, name)
    ensures HasKey(kwargs, name) ==>
      var v := Get(kwargs, name).value;
      GetAttr(Assigned(p, kwargs), name) == if Settable(name, v) then Some(v) else GetAttr(p, name)
    decreases |kwargs|
  {
    if |kwargs| > 0 {
      var (k, v) := kwargs[0];
      var p' := SetAttr(p, k, v);
      var rest := kwargs[1..];
      assert DistinctKeys(rest);
      assert Keys(kwargs) == [k] + Keys(rest);
      AssignedAttr(p', rest, name);
      SetAttrGet(p, k, v);
      if name == k {
        assert !HasKey(rest, name) by {
          forall j | 0 <= j < |rest| ensures Keys(rest)[j] != k {
            assert rest[j] == kwargs[j + 1];
          }
        }
      } else {
        SetAttrOther(p, k, v, name);
      }
    }
  }

  /** The keys of `to_dict()`, in order. */
  const DictKeys: seq<string> :=
    ["proposal_id", "title", "content", "creator_id", "created_at", "updated_at", "status", "tags",
     "categories", "vote_count", "comment_count", "metadata"]

  /** `to_dict()`: the fields in the dict's own order; the times as ISO text, no update time
      as null. */
  function ToDict(p: ProposalData): (d: Object)
    ensures Keys(d) == DictKeys
  {
    [("proposal_id", Str(p.proposalId)),
     ("title", Str(p.title)),
     ("content", Str(p.content)),
     ("creator_id", Str(p.creatorId)),
     ("created_at", Str(p.createdAt)),
     ("updated_at", OptStr(p.updatedAt)),
     ("status", Str(p.status)),
     ("tags", StrList(p.tags)),
     ("categories", StrList(p.categories)),
     ("vote_count", IntDict(p.voteCount)),
     ("comment_count", Int(p.commentCount)),
     ("metadata", Obj(p.metadata))]
  }

  /** No field name of `to_dict()` occurs twice. */
  lemma DictKeysDistinct()
    ensures forall i, j :: 0 <= i < j < |DictKeys| ==> DictKeys[i] != DictKeys[j]
  {
  }

  /** Looking up each field name in `to_dict()` finds that field. */
  lemma {:induction false} ToDictLookups(p: ProposalData)
    ensures Get(ToDict(p), "proposal_id") == Some(Str(p.proposalId))
    ensures Get(ToDict(p), "title") == Some(Str(p.title))
    ensures Get(ToDict(p), "content") == Some(Str(p.content))
    ensures Get(ToDict(p), "creator_id") == Some(Str(p.creatorId))
    ensures Get(ToDict(p), "created_at") == Some(Str(p.createdAt))
    ensures Get(ToDict(p), "updated_at") == Some(OptStr(p.updatedAt))
    ensures Get(ToDict(p), "status") == Some(Str(p.status))
    ensures Get(ToDict(p), "tags") == Some(StrList(p.tags))
    ensures Get(ToDict(p), "categories") == Some(StrList(p.categories))
    ensures Get(ToDict(p), "vote_count") == Some(IntDict(p.voteCount))
    ensures Get(ToDict(p), "comment_count") == Some(Int(p.commentCount))
    ensures Get(ToDict(p), "metadata") == Some(Obj(p.metadata))
  {
    var d := ToDict(p);
    DictKeysDistinct();
    DistinctKeysOfKeySeq(d, DictKeys);
    GetAt(d, 0); GetAt(d, 1); GetAt(d, 2); GetAt(d, 3); GetAt(d, 4); GetAt(d, 5);
    GetAt(d, 6); GetAt(d, 7); GetAt(d, 8); GetAt(d, 9); GetAt(d, 10); GetAt(d, 11);
  }

  /** `updated_at` read back: only a truthy value is parsed; null, "" and an absent key give None. */
  function UpdatedAtOf(data: Object, parse: IsoParser): (r: Result<Option<DateTime>>)
    ensures !HasKey(data, "updated_at") || Get(data, "updated_at") == Some(Null) ==> r == Ok(None)
    ensures forall d: DateTime :: ReadsBack(parse, d) && Get(data, "updated_at") == Some(Str(d)) ==> r == Ok(Some(d))
  {
    match Get<Value>(data, "updated_at")
    case None => Ok(None)
    case Some(v) =>
      if !Truthy(v) then Ok(None)
      else if v.Str? then
        (match parse(v.s)
         case Some(d) => Ok(Some(d))
         case None => Err("ValueError: Invalid isoformat string"))
      else Err("ill-typed field: updated_at")
  }

  /** `Proposal.from_dict(data)`: the two times first, then the fields in keyword order; a
      missing required key (`status` among them) raises KeyError (Err), the optional ones take
      the constructor's defaults. */
  function FromDict(data: Object, parse: IsoParser): (r: Result<ProposalData>)
    ensures !HasKey(data, "created_at") ==> r == Err("KeyError: created_at")
  {
    var createdAt :- RequiredTime(data, "created_at", parse);
    var updatedAt :- UpdatedAtOf(data, parse);
    var proposalId :- RequiredStr(data, "proposal_id");
    var title :- RequiredStr(data, "title");
    var content :- RequiredStr(data, "content");
    var creatorId :- RequiredStr(data, "creator_id");
    var status :- RequiredStr(data, "status");
    var tags :- StrListOr(data, "tags");
    var categories :- StrListOr(data, "categories");
    var voteCount :- IntDictOr(data, "vote_count", InitialVoteCount);
    var commentCount :- IntOr(data, "comment_count", 0);
    var metadata :- ObjOr(data, "metadata", []);
    Ok(ProposalData(title, content, creatorId, proposalId, createdAt, updatedAt, status, tags, categories,
                    voteCount, commentCount, metadata))
  }

  /** `from_dict` on a dict whose every field reads back well builds the proposal of those fields. */
  lemma FromDictOfFields(data: Object, parse: IsoParser, p: ProposalData)
    requires RequiredTime(data, "created_at", parse) == Ok(p.createdAt)
    requires UpdatedAtOf(data, parse) == Ok(p.updatedAt)
    requires RequiredStr(data, "proposal_id") == Ok(p.proposalId)
    requires RequiredStr(data, "title") == Ok(p.title)
    requires RequiredStr(data, "content") == Ok(p.content)
    requires RequiredStr(data, "creator_id") == Ok(p.creatorId)
    requires RequiredStr(data, "status") == Ok(p.status)
    requires StrListOr(data, "tags") == Ok(p.tags)
    requires StrListOr(data, "categories") == Ok(p.categories)
    requires IntDictOr(data, "vote_count", InitialVoteCount) == Ok(p.voteCount)
    requires IntOr(data, "comment_count", 0) == Ok(p.commentCount)
    requires ObjOr(data, "metadata", []) == Ok(p.metadata)
    ensures FromDict(data, parse) == Ok(p)
  {
  }

  /** `from_dict` on a dict holding only the required keys: no update time, no tags or
      categories, zero support and oppose votes, no comments and no metadata. */
  lemma FromDictDefaults(data: Object, proposalId: string, title: string, content: string,
                         creatorId: string, status: string, createdAt: DateTime, parse: IsoParser)
    requires ReadsBack(parse, createdAt) && Get(data, "created_at") == Some(Str(createdAt))
    requires Get(data, "proposal_id") == Some(Str(proposalId)) && Get(data, "title") == Some(Str(title))
    requires Get(data, "content") == Some(Str(content)) && Get(data, "creator_id") == Some(Str(creatorId))
    requires Get(data, "status") == Some(Str(status))
    requires !HasKey(data, "updated_at") && !HasKey(data, "tags") && !HasKey(data, "categories") &&
             !HasKey(data, "vote_count") && !HasKey(data, "comment_count") && !HasKey(data, "metadata")
    ensures FromDict(data, parse) == Ok(NewProposal(title, content, creatorId, proposalId, createdAt).(status := status))
  {
    RequiredTimeOf(data, "created_at", parse, createdAt);
    RequiredStrOf(data, "proposal_id", proposalId);
    RequiredStrOf(data, "title", title);
    RequiredStrOf(data, "content", content);
    RequiredStrOf(data, "creator_id", creatorId);
    RequiredStrOf(data, "status", status);
    FromDictOfFields(data, parse, NewProposal(title, content, creatorId, proposalId, createdAt).(status := status));
  }

  /** The two times of `to_dict()` read back as they were. */
  lemma ToDictReadsBackTimes(p: ProposalData, parse: IsoParser)
    requires ReadsBack(parse, p.createdAt) && (p.updatedAt.Some? ==> ReadsBack(parse, p.updatedAt.value))
    ensures RequiredTime(ToDict(p), "created_at", parse) == Ok(p.createdAt)
    ensures UpdatedAtOf(ToDict(p), parse) == Ok(p.updatedAt)
  {
    var d := ToDict(p);
    ToDictLookups(p);
    if p.updatedAt.Some? {
      assert Get(d, "updated_at") == Some(Str(p.updatedAt.value));
    } else {
      assert Get(d, "updated_at") == Some(Null);
    }
  }

  /** The text fields of `to_dict()` read back as they were. */
  lemma ToDictReadsBackTexts(p: ProposalData)
    ensures RequiredStr(ToDict(p), "proposal_id") == Ok(p.proposalId)
    ensures RequiredStr(ToDict(p), "title") == Ok(p.title)
    ensures RequiredStr(ToDict(p), "content") == Ok(p.content)
    ensures RequiredStr(ToDict(p), "creator_id") == Ok(p.creatorId)
    ensures RequiredStr(ToDict(p), "status") == Ok(p.status)
  {
    var d := ToDict(p);
    ToDictLookups(p);
    RequiredStrOf(d, "proposal_id", p.proposalId);
    RequiredStrOf(d, "title", p.title);
    RequiredStrOf(d, "content", p.content);
    RequiredStrOf(d, "creator_id", p.creatorId);
    RequiredStrOf(d, "status", p.status);
  }

  /** The lists, counts and metadata of `to_dict()` read back as they were. */
  lemma ToDictReadsBackCollections(p: ProposalData)
    ensures StrListOr(ToDict(p), "tags") == Ok(p.tags)
    ensures StrListOr(ToDict(p), "categories") == Ok(p.categories)
    ensures IntDictOr(ToDict(p), "vote_count", InitialVoteCount) == Ok(p.voteCount)
    ensures IntOr(ToDict(p), "comment_count", 0) == Ok(p.commentCount)
    ensures ObjOr(ToDict(p), "metadata", []) == Ok(p.metadata)
  {
    var d := ToDict(p);
    ToDictLookups(p);
    StrListOrOf(d, "tags", p.tags);
    StrListOrOf(d, "categories", p.categories);
    IntDictOrOf(d, "vote_count", p.voteCount, InitialVoteCount);
  }

  /** Reading back the dict form of a proposal gives the proposal, field for field. */
  lemma FromDictToDict(p: ProposalData, parse: IsoParser)
    requires ReadsBack(parse, p.createdAt) && (p.updatedAt.Some? ==> ReadsBack(parse, p.updatedAt.value))
    ensures FromDict(ToDict(p), parse) == Ok(p)
  {
    ToDictReadsBackTimes(p, parse);
    ToDictReadsBackTexts(p);
    ToDictReadsBackCollections(p);
    FromDictOfFields(ToDict(p), parse, p);
  }

  class Proposal {
    var title: string
    var content: string
    var creatorId: string
    var proposalId: string
    var createdAt: DateTime
    var updatedAt: Option<DateTime>
    var status: string
    var tags: seq<string>
    var categories: seq<string>
    var voteCount: Dict<int>
    var commentCount: int
    var metadata: Object

    /** The fields' current values. */
    function Snapshot(): ProposalData
      reads this
    {
      ProposalData(title, content, creatorId, proposalId, createdAt, updatedAt, status, tags, categories,
                   voteCount, commentCount, metadata)
    }

    /** `Proposal(title, content, creator_id)`: open, no votes either way, no comments. */
    constructor (title: string, content: string, creatorId: string, proposalId: string, now: DateTime)
      ensures Snapshot() == NewProposal(title, content, creatorId, proposalId, now)
      ensures IsOpen() && DistinctKeys(voteCount)
    {
      this.title := title;
      this.content := content;
      this.creatorId := creatorId;
      this.proposalId := proposalId;
      createdAt := now;
      updatedAt := None;
      status := "open";
      tags := [];
      categories := [];
      voteCount := InitialVoteCount;
      commentCount := 0;
      metadata := [];
    }

    /** `is_open()`. */
    predicate IsOpen()
      reads this
    {
      status == "open"
    }

    /** `setattr(self, key, value)` for one keyword argument. */
    method SetAttribute(key: string, v: Value)
      modifies this
      ensures Snapshot() == SetAttr(old(Snapshot()), key, v)
    {
      if !Settable(key, v) {
        return;
      }
      match key
      case "title" => title := v.s;
      case "content" => content := v.s;
      case "creator_id" => creatorId := v.s;
      case "proposal_id" => proposalId := v.s;
      case "updated_at" => updatedAt := None;
      case "status" => status := v.s;
      case "tags" => tags := ReadStrList(v.items).value;
      case "categories" => categories := ReadStrList(v.items).value;
      case "vote_count" => voteCount := ReadIntDict(v.fields).value;
      case "comment_count" => commentCount := v.i;
      case "metadata" => metadata := v.fields;
      case _ =>
    }

    /** `update(**kwargs)`: each keyword naming a field sets it, in order, and then the update
        time is the current time `now`, whatever the keywords said. */
    method Update(kwargs: Dict<Value>, now: DateTime)
      modifies this
      ensures Snapshot() == Assigned(old(Snapshot()), kwargs).(updatedAt := Some(now))
    {
      var i := 0;
      while i < |kwargs|
        invariant 0 <= i <= |kwargs|
        invariant Assigned(Snapshot(), kwargs[i..]) == Assigned(old(Snapshot()), kwargs)
      {
        assert kwargs[i..][1..] == kwargs[i + 1..];
        SetAttribute(kwargs[i].0, kwargs[i].1);
        i := i + 1;
      }
      updatedAt := Some(now);
    }

    /** `add_vote(vote_type)`. */
    method AddVote(voteType: string)
      modifies this
      ensures Snapshot() == old(Snapshot()).(voteCount := CountVote(old(voteCount), voteType))
    {
      voteCount := CountVote(voteCount, voteType);
    }

    /** `increment_comment_count()`. */
    method IncrementCommentCount()
      modifies this
      ensures Snapshot() == old(Snapshot()).(commentCount := old(commentCount) + 1)
    {
      commentCount := commentCount + 1;
    }

    /** `close(final_status)`: a whitelisted status or "closed", stamped with the time `now`. */
    method Close(finalStatus: string, now: DateTime)
      modifies this
      ensures Snapshot() == old(Snapshot()).(status := ClosingStatus(finalStatus), updatedAt := Some(now))
      ensures !IsOpen()
    {
      status := ClosingStatus(finalStatus);
      updatedAt := Some(now);
    }
  }
}
