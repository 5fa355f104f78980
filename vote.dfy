/** A vote on a proposal: its kind predicates, the vote-type check, and its dict form. */
module Votes {
  import opened Wrappers
  import opened PyStr
  import opened Dicts
  import opened Json
  import opened Records

  datatype Vote = Vote(
    proposalId: string,
    voterId: string,
    voteType: string,
    reason: Option<string>,
    voteId: string,
    createdAt: DateTime,
    weight: real,
    isOfficial: bool,
    metadata: Object)

  /** `Vote(proposal_id, voter_id, vote_type)` with the id and time its default factories draw:
      no reason, weight 1.0, not official, empty metadata. */
  function NewVote(proposalId: string, voterId: string, voteType: string, voteId: string, now: DateTime): Vote {
    Vote(proposalId, voterId, voteType, None, voteId, now, 1.0, false, [])
  }

  predicate IsSupport(v: Vote) {
    Lower(v.voteType) == "support"
  }

  predicate IsOppose(v: Vote) {
    Lower(v.voteType) == "oppose"
  }

  predicate IsAbstain(v: Vote) {
    Lower(v.voteType) == "abstain"
  }

  const VoteTypes: seq<string> := ["support", "oppose", "abstain"]

  /** `Vote.validate_vote_type(t)`: the lower-cased type is one of the three kinds. */
  predicate ValidateVoteType(voteType: string) {
    Lower(voteType) in VoteTypes
  }

  /** A vote of a valid type is of exactly one kind; a vote of any other type is of none. */
  lemma ExactlyOneKind(v: Vote)
    ensures ValidateVoteType(v.voteType) ==>
      (IsSupport(v) && !IsOppose(v) && !IsAbstain(v)) ||
      (!IsSupport(v) && IsOppose(v) && !IsAbstain(v)) ||
      (!IsSupport(v) && !IsOppose(v) && IsAbstain(v))
    ensures !ValidateVoteType(v.voteType) ==> !IsSupport(v) && !IsOppose(v) && !IsAbstain(v)
  {
  }

  /** The check ignores letter case. */
  lemma ValidateIgnoresCase(voteType: string)
    ensures ValidateVoteType(voteType) <==> ValidateVoteType(Lower(voteType))
  {
    LowerIdempotent(voteType);
  }

  /** The keys of `to_dict()`, in order. */
  const DictKeys: seq<string> :=
    ["vote_id", "proposal_id", "voter_id", "vote_type", "reason", "created_at", "weight", "is_official",
     "metadata"]

  /** No field name of `to_dict()` occurs twice. */
  lemma DictKeysDistinct()
    ensures forall i, j :: 0 <= i < j < |DictKeys| ==> DictKeys[i] != DictKeys[j]
  {
  }

  /** `to_dict()`: every field under its snake_case name, the time as ISO text. */
  function ToDict(v: Vote): (d: Object)
    ensures Keys(d) == DictKeys
  {
    [("vote_id", Str(v.voteId)),
     ("proposal_id", Str(v.proposalId)),
     ("voter_id", Str(v.voterId)),
     ("vote_type", Str(v.voteType)),
     ("reason", OptStr(v.reason)),
     ("created_at", Str(v.createdAt)),
     ("weight", Float(v.weight)),
     ("is_official", Bool(v.isOfficial)),
     ("metadata", Obj(v.metadata))]
  }

  /** `data.get("weight", 1.0)`: a float, or an integer taken at its value. */
  function WeightOr(data: Object): (r: Result<real>)
    ensures !HasKey(data, "weight") ==> r == Ok(1.0)
    ensures forall w :: Get(data, "weight") == Some(Float(w)) ==> r == Ok(w)
  {
    match Get<Value>(data, "weight")
    case None => Ok(1.0)
    case Some(Float(w)) => Ok(w)
    case Some(Int(i)) => Ok(i as real)
    case Some(_) => Err("ill-typed field: weight")
  }

  /** `Vote.from_dict(data)`: `created_at` first, then the fields in declaration order; a missing
      required key raises KeyError (Err), the optional ones take the constructor's defaults. */
  function FromDict(data: Object, parse: IsoParser): (r: Result<Vote>)
    ensures !HasKey(data, "created_at") ==> r == Err("KeyError: created_at")
  {
    var createdAt :- RequiredTime(data, "created_at", parse);
    var voteId :- RequiredStr(data, "vote_id");
    var proposalId :- RequiredStr(data, "proposal_id");
    var voterId :- RequiredStr(data, "voter_id");
    var voteType :- RequiredStr(data, "vote_type");
    var reason :- OptionalStr(data, "reason");
    var weight :- WeightOr(data);
    var isOfficial :- BoolOr(data, "is_official", false);
    var metadata :- ObjOr(data, "metadata", []);
    Ok(Vote(proposalId, voterId, voteType, reason, voteId, createdAt, weight, isOfficial, metadata))
  }

  /** Looking up each field name in `to_dict()` finds that field. */
  lemma {:induction false} ToDictLookups(v: Vote)
    ensures Get(ToDict(v), "vote_id") == Some(Str(v.voteId))
    ensures Get(ToDict(v), "proposal_id") == Some(Str(v.proposalId))
    ensures Get(ToDict(v), "voter_id") == Some(Str(v.voterId))
    ensures Get(ToDict(v), "vote_type") == Some(Str(v.voteType))
    ensures Get(ToDict(v), "reason") == Some(OptStr(v.reason))
    ensures Get(ToDict(v), "created_at") == Some(Str(v.createdAt))
    ensures Get(ToDict(v), "weight") == Some(Float(v.weight))
    ensures Get(ToDict(v), "is_official") == Some(Bool(v.isOfficial))
    ensures Get(ToDict(v), "metadata") == Some(Obj(v.metadata))
  {
    var d := ToDict(v);
    DictKeysDistinct();
    DistinctKeysOfKeySeq(d, DictKeys);
    GetAt(d, 0); GetAt(d, 1); GetAt(d, 2); GetAt(d, 3); GetAt(d, 4);
    GetAt(d, 5); GetAt(d, 6); GetAt(d, 7); GetAt(d, 8);
  }

  /** `from_dict` on a dict whose every field reads back well builds the vote of those fields. */
  lemma FromDictOfFields(data: Object, parse: IsoParser, v: Vote)
    requires RequiredTime(data, "created_at", parse) == Ok(v.createdAt)
    requires RequiredStr(data, "vote_id") == Ok(v.voteId)
    requires RequiredStr(data, "proposal_id") == Ok(v.proposalId)
    requires RequiredStr(data, "voter_id") == Ok(v.voterId)
    requires RequiredStr(data, "vote_type") == Ok(v.voteType)
    requires OptionalStr(data, "reason") == Ok(v.reason)
    requires WeightOr(data) == Ok(v.weight)
    requires BoolOr(data, "is_official", false) == Ok(v.isOfficial)
    requires ObjOr(data, "metadata", []) == Ok(v.metadata)
    ensures FromDict(data, parse) == Ok(v)
  {
  }

  /** Reading back the dict form of a vote gives the vote, field for field. */
  lemma FromDictToDict(v: Vote, parse: IsoParser)
    requires ReadsBack(parse, v.createdAt)
    ensures FromDict(ToDict(v), parse) == Ok(v)
  {
    var d := ToDict(v);
    ToDictLookups(v);
    RequiredTimeOf(d, "created_at", parse, v.createdAt);
    RequiredStrOf(d, "vote_id", v.voteId);
    RequiredStrOf(d, "proposal_id", v.proposalId);
    RequiredStrOf(d, "voter_id", v.voterId);
    RequiredStrOf(d, "vote_type", v.voteType);
    OptionalStrOf(d, "reason", v.reason);
    BoolOrOf(d, "is_official", v.isOfficial, false);
    ObjOrOf(d, "metadata", v.metadata, []);
    assert WeightOr(d) == Ok(v.weight);
    FromDictOfFields(d, parse, v);
  }

  /** A dict holding the required keys and none of the optional ones yields a vote with the
      constructor's defaults. */
  lemma FromDictDefaults(data: Object, voteId: string, proposalId: string, voterId: string, voteType: string,
                         createdAt: DateTime, parse: IsoParser)
    requires ReadsBack(parse, createdAt)
    requires Get(data, "vote_id") == Some(Str(voteId)) && Get(data, "proposal_id") == Some(Str(proposalId))
    requires Get(data, "voter_id") == Some(Str(voterId)) && Get(data, "vote_type") == Some(Str(voteType))
    requires Get(data, "created_at") == Some(Str(createdAt))
    requires !HasKey(data, "reason") && !HasKey(data, "weight") && !HasKey(data, "is_official") &&
             !HasKey(data, "metadata")
    ensures FromDict(data, parse) == Ok(NewVote(proposalId, voterId, voteType, voteId, createdAt))
  {
    RequiredTimeOf(data, "created_at", parse, createdAt);
    RequiredStrOf(data, "vote_id", voteId);
    RequiredStrOf(data, "proposal_id", proposalId);
    RequiredStrOf(data, "voter_id", voterId);
    RequiredStrOf(data, "vote_type", voteType);
    FromDictOfFields(data, parse, NewVote(proposalId, voterId, voteType, voteId, createdAt));
  }
}
