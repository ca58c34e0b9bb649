/** The relayer voting protocol of the chain bridge: a threshold vote with expiry, one execution per
    proposal, and outgoing transfers numbered per chain. */
module Chainbridge {
  import opened Results

  type Account = int
  type Chain = int
  type Resource = int

  datatype Proposal = Proposal(chain: Chain, nonce: nat, call: int)

  datatype ProposalStatus = Initiated | Approved | Rejected

  datatype Error =
    | InvalidThreshold
    | InvalidChainId
    | ChainAlreadyWhitelisted
    | ChainNotWhitelisted
    | ResourceDoesNotExist
    | RelayerAlreadyExists
    | RelayerInvalid
    | MustBeRelayer
    | RelayerAlreadyVoted
    | ProposalAlreadyComplete
    | ProposalExpired
    | ProposalDoesNotExist
    | DispatchFailed

  datatype ProposalVotes = ProposalVotes(inFavour: seq<Account>, against: seq<Account>,
                                         status: ProposalStatus, expiry: nat) {
    predicate IsComplete() { status != Initiated }

    predicate HasVoted(who: Account) { who in inFavour || who in against }

    predicate IsExpired(now: nat) { expiry <= now }

    function Push(who: Account, favour: bool): ProposalVotes {
      if favour then this.(inFavour := inFavour + [who]) else this.(against := against + [who])
    }
  }

  /** The verdict that a vote count asks for. */
  function Decide(inFavour: nat, against: nat, total: nat, threshold: nat): ProposalStatus {
    if threshold <= inFavour then Approved
    else if threshold <= total && total < against + threshold then Rejected
    else Initiated
  }

  datatype Config = Config(self: Chain, lifetime: nat)

  /** A successful dispatch, with the votes and the threshold it was based on. */
  datatype Execution = Execution(proposal: Proposal, voters: seq<Account>, threshold: nat)

  datatype Emission = Emission(chain: Chain, nonce: nat)

  datatype State = State(now: nat, votes: map<Proposal, ProposalVotes>, relayers: set<Account>, relayerCount: nat,
                         threshold: nat, nonces: map<Chain, nat>, resources: set<Resource>,
                         executed: seq<Execution>, emitted: seq<Emission>)

  const INITIAL: State := State(0, map[], {}, 0, 1, map[], {}, [], [])

  type Outcome = Result<State, Error>

  datatype Op =
    | SetThreshold(n: nat)
    | SetResource(r: Resource)
    | RemoveResource(r: Resource)
    | WhitelistChain(id: Chain)
    | AddRelayer(who: Account)
    | RemoveRelayer(who: Account)
    | Acknowledge(who: Account, p: Proposal, r: Resource, dispatches: bool)
    | RejectProposal(who: Account, p: Proposal, r: Resource, dispatches: bool)
    | EvalVoteState(p: Proposal, dispatches: bool)
    | Transfer(id: Chain)
    | NextBlock

  /** The record a vote joins: the stored one, or a fresh one that expires after a lifetime. */
  function RecordOf(c: Config, s: State, p: Proposal): ProposalVotes {
    if p in s.votes then s.votes[p] else ProposalVotes([], [], Initiated, s.now + c.lifetime)
  }

  function CommitVote(c: Config, s: State, who: Account, p: Proposal, favour: bool): (r: Outcome)
    ensures r.Ok? ==> r.value == s.(votes := r.value.votes)
  {
    var votes := RecordOf(c, s, p);
    if votes.IsComplete() then Err(ProposalAlreadyComplete)
    else if votes.IsExpired(s.now) then Err(ProposalExpired)
    else if votes.HasVoted(who) then Err(RelayerAlreadyVoted)
    else Ok(s.(votes := s.votes[p := votes.Push(who, favour)]))
  }

  /** Settles a proposal that has the votes; `dispatches` says whether its call succeeds. */
  function TryResolve(s: State, p: Proposal, dispatches: bool): (r: Outcome)
    ensures r.Ok? ==> r.value == s.(votes := r.value.votes, executed := r.value.executed)
  {
    if p !in s.votes then Err(ProposalDoesNotExist)
    else
      var votes := s.votes[p];
      if votes.IsComplete() then Err(ProposalAlreadyComplete)
      else if votes.IsExpired(s.now) then Err(ProposalExpired)
      else
        var status := Decide(|votes.inFavour|, |votes.against|, s.relayerCount, s.threshold);
        var s1 := s.(votes := s.votes[p := votes.(status := status)]);
        if status != Approved then Ok(s1)
        else if !dispatches then Err(DispatchFailed)
        else Ok(s1.(executed := s.executed + [Execution(p, votes.inFavour, s.threshold)]))
  }

  function Vote(c: Config, s: State, who: Account, p: Proposal, favour: bool, dispatches: bool): (r: Outcome)
    ensures r.Ok? ==> r.value == s.(votes := r.value.votes, executed := r.value.executed)
  {
    match CommitVote(c, s, who, p, favour)
    case Err(e) => Err(e)
    case Ok(s1) => TryResolve(s1, p, dispatches)
  }

  /** The gates in front of both vote calls. */
  function VoteCall(c: Config, s: State, who: Account, p: Proposal, r: Resource, favour: bool, dispatches: bool): Outcome {
    if who !in s.relayers then Err(MustBeRelayer)
    else if p.chain !in s.nonces then Err(ChainNotWhitelisted)
    else if r !in s.resources then Err(ResourceDoesNotExist)
    else Vote(c, s, who, p, favour, dispatches)
  }

  function Register(s: State, who: Account): Outcome {
    if who in s.relayers then Err(RelayerAlreadyExists)
    else Ok(s.(relayers := s.relayers + {who}, relayerCount := s.relayerCount + 1))
  }

  function Unregister(s: State, who: Account): Outcome
    requires who in s.relayers ==> s.relayerCount > 0
  {
    if who !in s.relayers then Err(RelayerInvalid)
    else Ok(s.(relayers := s.relayers - {who}, relayerCount := s.relayerCount - 1))
  }

  function Whitelist(c: Config, s: State, id: Chain): Outcome {
    if id == c.self then Err(InvalidChainId)
    else if id in s.nonces then Err(ChainAlreadyWhitelisted)
    else Ok(s.(nonces := s.nonces[id := 0]))
  }

  /** Every kind of outgoing transfer takes the next nonce of its chain. */
  function Emit(s: State, id: Chain): Outcome {
    if id !in s.nonces then Err(ChainNotWhitelisted)
    else
      var nonce := s.nonces[id] + 1;
      Ok(s.(nonces := s.nonces[id := nonce], emitted := s.emitted + [Emission(id, nonce)]))
  }

  predicate CountOk(s: State) {
    s.relayerCount == |s.relayers| && s.threshold > 0
  }

  function Step(c: Config, s: State, op: Op): Outcome
    requires CountOk(s)
  {
    match op
    case SetThreshold(n) => if n == 0 then Err(InvalidThreshold) else Ok(s.(threshold := n))
    case SetResource(r) => Ok(s.(resources := s.resources + {r}))
    case RemoveResource(r) => Ok(s.(resources := s.resources - {r}))
    case WhitelistChain(id) => Whitelist(c, s, id)
    case AddRelayer(who) => Register(s, who)
    case RemoveRelayer(who) => Unregister(s, who)
    case Acknowledge(who, p, r, dispatches) => VoteCall(c, s, who, p, r, true, dispatches)
    case RejectProposal(who, p, r, dispatches) => VoteCall(c, s, who, p, r, false, dispatches)
    case EvalVoteState(p, dispatches) => TryResolve(s, p, dispatches)
    case Transfer(id) => Emit(s, id)
    case NextBlock => Ok(s.(now := s.now + 1))
  }
}
