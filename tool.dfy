/** The proposal tool's action dispatch: `create`, `list` and `vote` answer with text built from
    what the proposal manager reports, and unknown actions with the list of supported ones. The
    manager is a parameter, seen through the four operations the tool asks of it; every answer
    records the calls made, in order, so that "the manager is not touched" can be stated. */
module ProposalTool {
  import opened Wrappers
  import opened PyStr
  import opened Dicts
  import Votes

  /** What `create_proposal` returns, as far as the tool reads it. */
  datatype Created = Created(id: string, title: string, description: string)

  /** One entry of `list_proposals`, its vote counts already shown as text. */
  datatype Listed = Listed(id: string, title: string, status: string, votes: string)

  /** The module-level `proposal_manager`: creating, listing, finding a proposal, and voting on
      the proposal found (false where it refuses the vote). */
  datatype Manager = Manager(
    create: (string, string) -> Created,
    list: Option<string> -> seq<Listed>,
    found: string -> bool,
    addVote: (string, string, string) -> bool)

  datatype Call =
    | CreateProposal(title: string, description: string)
    | ListProposals(status: Option<string>)
    | GetProposal(id: string)
    | AddVote(id: string, voter: string, vote: string)

  /** The text `_run` returns with the manager calls made on the way; `view` and `analyze` are
      not part of this model. */
  datatype Outcome = Reply(text: string, calls: seq<Call>) | Unmodelled(action: string)

  const CreateFailed: string := "创建提案失败：标题和描述不能为空"
  const CreatedHead: string := "已创建提案 #"
  const NoProposals: string := "当前没有提案"
  const ListHead: string := "提案列表:\n\n"
  const VoteMissing: string := "投票失败：缺少提案ID或投票选项"
  const VoteRejected: string := "投票失败：您可能已经投过票或提案已关闭"
  const DefaultVoter: string := "default_user"

  /** The words taken as a vote for, and against, once lower-cased. */
  const SupportWords: seq<string> := ["支持", "赞成", "同意", "yes", "support"]
  const OpposeWords: seq<string> := ["反对", "不赞成", "不同意", "no", "oppose"]

  function Spaces(n: nat): string {
    seq(n, _ => ' ')
  }

  /** The reply to a created proposal, with the source's indentation kept. */
  function CreatedText(p: Created): (r: string)
    ensures StartsWith(r, CreatedHead + p.id + "\n")
  {
    var head := CreatedHead + p.id + "\n";
    var r := head + Spaces(12) + "\n" + Spaces(20) + "标题: " + p.title + "\n\n" +
             Spaces(20) + "内容: " + p.description + "\n\n" +
             Spaces(20) + "用户可以使用\"支持\"或\"反对\"进行投票。\n" + Spaces(20);
    assert r == head + r[|head|..];
    r
  }

  function ListLine(p: Listed): string {
    "#" + p.id + " - " + p.title + " (状态: " + p.status + ", 投票数: " + p.votes + ")"
  }

  /** One line per listed proposal, in the manager's order. */
  function ListLines(ps: seq<Listed>): (r: seq<string>)
    ensures |r| == |ps| && forall i :: 0 <= i < |ps| ==> r[i] == ListLine(ps[i])
  {
    seq(|ps|, i requires 0 <= i < |ps| => ListLine(ps[i]))
  }

  function InvalidVote(vote: string): string {
    "投票失败：'" + vote + "' 不是有效的投票选项，请使用'支持'或'反对'"
  }

  function NotFound(id: string): string {
    "投票失败：找不到ID为 " + id + " 的提案"
  }

  function Voted(id: string, vote: string): string {
    "您已成功对提案 #" + id + " 投票: " + vote
  }

  function UnknownAction(action: string): string {
    "未知操作：" + action + "。支持的操作有：create, list, view, vote, analyze。"
  }

  /** The vote-word normalisation: a word for is `support`, a word against `oppose`, anything
      else is refused; what it accepts is a valid vote type. */
  function NormalizeVote(vote: string): (r: Option<string>)
    ensures r == Some("support") <==> vote in SupportWords
    ensures r == Some("oppose") <==> vote in OpposeWords
    ensures r.None? <==> vote !in SupportWords && vote !in OpposeWords
    ensures r.Some? ==> Votes.ValidateVoteType(r.value)
  {
    assert Lower("support") == "support" && Lower("oppose") == "oppose";
    if vote in SupportWords then Some("support")
    else if vote in OpposeWords then Some("oppose")
    else None
  }

  /** The calls the tool may make of the manager: a vote recorded only with a valid vote type
      on a proposal the manager has found, a proposal created only with a title and a
      description. */
  predicate SafeCalls(calls: seq<Call>, m: Manager) {
    && (forall c :: c in calls && c.AddVote? ==> c.id != "" && m.found(c.id) && Votes.ValidateVoteType(c.vote))
    && (forall c :: c in calls && c.CreateProposal? ==> c.title != "" && c.description != "")
  }

  /** `create`: a missing or empty title or description fails without asking the manager;
      otherwise the manager creates exactly one proposal and the reply names it. */
  function Create(kwargs: Dict<string>, m: Manager): (r: Outcome)
    ensures r.Reply? && SafeCalls(r.calls, m)
    ensures var title := GetOr(kwargs, "title", "");
      var description := GetOr(kwargs, "description", "");
      && (title == "" || description == "" <==> r.calls == [])
      && (title == "" || description == "" ==> r.text == CreateFailed)
      && (title != "" && description != "" ==>
            r.calls == [CreateProposal(title, description)] &&
            StartsWith(r.text, CreatedHead + m.create(title, description).id + "\n"))
  {
    var title := GetOr(kwargs, "title", "");
    var description := GetOr(kwargs, "description", "");
    if title == "" || description == "" then Reply(CreateFailed, [])
    else Reply(CreatedText(m.create(title, description)), [CreateProposal(title, description)])
  }

  /** `list`: the manager is asked once with the `status` argument, if any; no proposals gives
      the empty-list text, otherwise one line per proposal under the list heading. */
  function List(kwargs: Dict<string>, m: Manager): (r: Outcome)
    ensures r.Reply? && r.calls == [ListProposals(Get(kwargs, "status"))] && SafeCalls(r.calls, m)
    ensures m.list(Get(kwargs, "status")) == [] ==> r.text == NoProposals
    ensures m.list(Get(kwargs, "status")) != [] ==>
      StartsWith(r.text, ListHead) && r.text[|ListHead|..] == Join(ListLines(m.list(Get(kwargs, "status"))), "\n\n")
  {
    var status := Get(kwargs, "status");
    var proposals := m.list(status);
    if proposals == [] then Reply(NoProposals, [ListProposals(status)])
    else
      var text := ListHead + Join(ListLines(proposals), "\n\n");
      assert text[|ListHead|..] == Join(ListLines(proposals), "\n\n");
      Reply(text, [ListProposals(status)])
  }

  /** `vote`: the vote word is lower-cased and the voter defaults to `default_user`. */
  function CastVote(kwargs: Dict<string>, m: Manager): (r: Outcome)
    ensures r.Reply? && SafeCalls(r.calls, m)
  {
    var id := GetOr(kwargs, "proposal_id", "");
    var voter := GetOr(kwargs, "voter_id", DefaultVoter);
    var vote := Lower(GetOr(kwargs, "vote", ""));
    if id == "" || vote == "" then Reply(VoteMissing, [])
    else
      match NormalizeVote(vote)
      case None => Reply(InvalidVote(vote), [])
      case Some(kind) =>
        if !m.found(id) then Reply(NotFound(id), [GetProposal(id)])
        else if !m.addVote(id, voter, kind) then Reply(VoteRejected, [GetProposal(id), AddVote(id, voter, kind)])
        else Reply(Voted(id, kind), [GetProposal(id), AddVote(id, voter, kind)])
  }

  /** How a vote goes: a missing id or vote fails first; a word that is neither for nor against
      is refused before the proposal is looked up; then an unknown proposal is reported, and
      otherwise the manager's answer to the vote decides between failure and success. */
  lemma VoteFlow(kwargs: Dict<string>, m: Manager)
    ensures var id := GetOr(kwargs, "proposal_id", "");
      var voter := GetOr(kwargs, "voter_id", DefaultVoter);
      var vote := Lower(GetOr(kwargs, "vote", ""));
      var r := CastVote(kwargs, m);
      && (id == "" || vote == "" ==> r == Reply(VoteMissing, []))
      && (id != "" && vote != "" && NormalizeVote(vote).None? ==> r == Reply(InvalidVote(vote), []))
      && (id != "" && NormalizeVote(vote).Some? ==>
            var kind := NormalizeVote(vote).value;
            && r.calls[0] == GetProposal(id)
            && (!m.found(id) ==> r == Reply(NotFound(id), [GetProposal(id)]))
            && (m.found(id) ==> r.calls == [GetProposal(id), AddVote(id, voter, kind)])
            && (m.found(id) && !m.addVote(id, voter, kind) ==> r.text == VoteRejected)
            && (m.found(id) && m.addVote(id, voter, kind) ==> r.text == Voted(id, kind)))
  {
    var vote := Lower(GetOr(kwargs, "vote", ""));
    if NormalizeVote(vote).Some? {
      assert vote != "";
    }
  }

  /** `_run(action, **kwargs)`, its text arguments given as `kwargs`. Whatever the action, the
      calls made of the manager are safe ones. */
  function Run(action: string, kwargs: Dict<string>, m: Manager): (r: Outcome)
    ensures r.Unmodelled? <==> action == "view" || action == "analyze"
    ensures action !in ["create", "list", "view", "vote", "analyze"] ==> r == Reply(UnknownAction(action), [])
    ensures r.Reply? ==> SafeCalls(r.calls, m)
  {
    if action == "create" then Create(kwargs, m)
    else if action == "list" then List(kwargs, m)
    else if action == "view" then Unmodelled(action)
    else if action == "vote" then CastVote(kwargs, m)
    else if action == "analyze" then Unmodelled(action)
    else Reply(UnknownAction(action), [])
  }
}
