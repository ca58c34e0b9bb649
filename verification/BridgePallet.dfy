/** The bridge pallet's storage and its calls in place, and what holds of every object they reach. */
module BridgePallet {
  import opened Results
  import opened Chainbridge
  import opened BridgeVoting

  /** The pallet's storage, updated in place. */
  class Bridge {
    const config: Config
    var now: nat
    var votes: map<Proposal, ProposalVotes>
    var relayers: set<Account>
    var relayerCount: nat
    var threshold: nat
    var nonces: map<Chain, nat>
    var resources: set<Resource>
    ghost var executed: seq<Execution>
    ghost var emitted: seq<Emission>
    ghost var trace: seq<Op>

    ghost function Model(): State
      reads this
    {
      State(now, votes, relayers, relayerCount, threshold, nonces, resources, executed, emitted)
    }

    constructor (c: Config)
      ensures config == c && Valid() && trace == []
    {
      config := c;
      now, votes, relayers, relayerCount, threshold := 0, map[], {}, 0, 1;
      nonces, resources, executed, emitted, trace := map[], {}, [], [], [];
    }

    method SetRelayerThreshold(n: nat) returns (r: Result<(), Error>)
      requires CountOk(Model())
      modifies this`threshold
      ensures Reflects(Step(config, old(Model()), SetThreshold(n)), old(Model()), r, Model())
      ensures CountOk(Model())
    {
      if n == 0 { return Err(InvalidThreshold); }
      threshold := n;
      return Ok(());
    }

    method AddWhitelist(id: Chain) returns (r: Result<(), Error>)
      requires CountOk(Model())
      modifies this`nonces
      ensures Reflects(Step(config, old(Model()), WhitelistChain(id)), old(Model()), r, Model())
      ensures CountOk(Model())
    {
      if id == config.self { return Err(InvalidChainId); }
      if id in nonces { return Err(ChainAlreadyWhitelisted); }
      nonces := nonces[id := 0];
      return Ok(());
    }

    method RegisterRelayer(who: Account) returns (r: Result<(), Error>)
      requires CountOk(Model())
      modifies this`relayers, this`relayerCount
      ensures Reflects(Step(config, old(Model()), AddRelayer(who)), old(Model()), r, Model())
      ensures CountOk(Model())
    {
      if who in relayers { return Err(RelayerAlreadyExists); }
      relayers := relayers + {who};
      relayerCount := relayerCount + 1;
      return Ok(());
    }

    method UnregisterRelayer(who: Account) returns (r: Result<(), Error>)
      requires CountOk(Model())
      modifies this`relayers, this`relayerCount
      ensures Reflects(Step(config, old(Model()), RemoveRelayer(who)), old(Model()), r, Model())
      ensures CountOk(Model())
    {
      if who !in relayers { return Err(RelayerInvalid); }
      relayers := relayers - {who};
      relayerCount := relayerCount - 1;
      return Ok(());
    }

    method BumpNonce(id: Chain) returns (r: Result<(), Error>)
      requires CountOk(Model())
      modifies this`nonces, this`emitted
      ensures Reflects(Step(config, old(Model()), Transfer(id)), old(Model()), r, Model())
      ensures CountOk(Model())
    {
      if id !in nonces { return Err(ChainNotWhitelisted); }
      nonces := nonces[id := nonces[id] + 1];
      emitted := emitted + [Emission(id, nonces[id])];
      return Ok(());
    }

    method PushVote(who: Account, p: Proposal, favour: bool) returns (r: Result<(), Error>)
      modifies this`votes
      ensures Reflects(CommitVote(config, old(Model()), who, p, favour), old(Model()), r, Model())
    {
      var v := ProposalVotes([], [], Initiated, now + config.lifetime);
      if p in votes { v := votes[p]; }
      if v.IsComplete() { return Err(ProposalAlreadyComplete); }
      if v.IsExpired(now) { return Err(ProposalExpired); }
      if v.HasVoted(who) { return Err(RelayerAlreadyVoted); }
      if favour {
        v := v.(inFavour := v.inFavour + [who]);
      } else {
        v := v.(against := v.against + [who]);
      }
      votes := votes[p := v];
      return Ok(());
    }

    /** The status is written before the call is dispatched; a failing call undoes the write. */
    method Resolve(p: Proposal, dispatches: bool) returns (r: Result<(), Error>)
      modifies this`votes, this`executed
      ensures Reflects(TryResolve(old(Model()), p, dispatches), old(Model()), r, Model())
    {
      if p !in votes { return Err(ProposalDoesNotExist); }
      var v := votes[p];
      if v.IsComplete() { return Err(ProposalAlreadyComplete); }
      if v.IsExpired(now) { return Err(ProposalExpired); }
      var before := votes;
      if threshold <= |v.inFavour| {
        v := v.(status := Approved);
      } else if threshold <= relayerCount && relayerCount < |v.against| + threshold {
        v := v.(status := Rejected);
      }
      votes := votes[p := v];
      if v.status == Approved {
        if !dispatches {
          votes := before;
          return Err(DispatchFailed);
        }
        executed := executed + [Execution(p, v.inFavour, threshold)];
      }
      return Ok(());
    }

    method CastVote(who: Account, p: Proposal, res: Resource, favour: bool, dispatches: bool) returns (r: Result<(), Error>)
      modifies this`votes, this`executed
      ensures Reflects(VoteCall(config, old(Model()), who, p, res, favour, dispatches), old(Model()), r, Model())
    {
      if who !in relayers { return Err(MustBeRelayer); }
      if p.chain !in nonces { return Err(ChainNotWhitelisted); }
      if res !in resources { return Err(ResourceDoesNotExist); }
      var before := votes;
      r := PushVote(who, p, favour);
      if r.Ok? {
        r := Resolve(p, dispatches);
        if r.Err? { votes := before; }
      }
    }

    /** Any call on the pallet, or the next block. */
    method Handle(op: Op) returns (r: Result<(), Error>)
      requires CountOk(Model())
      modifies this
      ensures Reflects(Step(config, old(Model()), op), old(Model()), r, Model())
      ensures CountOk(Model()) && trace == old(trace)
    {
      hide VoteCall, TryResolve;
      StepCount(config, Model(), op);
      match op
      case SetThreshold(n) => r := SetRelayerThreshold(n);
      case SetResource(res) => resources := resources + {res}; r := Ok(());
      case RemoveResource(res) => resources := resources - {res}; r := Ok(());
      case WhitelistChain(id) => r := AddWhitelist(id);
      case AddRelayer(who) => r := RegisterRelayer(who);
      case RemoveRelayer(who) => r := UnregisterRelayer(who);
      case Acknowledge(who, p, res, dispatches) => r := CastVote(who, p, res, true, dispatches);
      case RejectProposal(who, p, res, dispatches) => r := CastVote(who, p, res, false, dispatches);
      case EvalVoteState(p, dispatches) => r := Resolve(p, dispatches);
      case Transfer(id) => r := BumpNonce(id);
      case NextBlock => now := now + 1; r := Ok(());
    }

    /** The object stands where the calls made on it lead from genesis. */
    ghost predicate Valid()
      reads this
    {
      Model() == Run(config, trace)
    }

    /** A recorded call: whatever was called before, no proposal is dispatched twice or without enough
        different voters, and what is settled stays as it is. */
    method Dispatch(op: Op) returns (r: Result<(), Error>)
      requires Valid()
      modifies this
      ensures Valid() && trace == old(trace) + [op]
      ensures Reflects(Step(config, old(Model()), op), old(Model()), r, Model())
      ensures forall p :: Executions(executed, p) <= 1 && ProposalOk(Model(), p)
      ensures Justified(executed)
      ensures forall p :: Settled(old(Model()), p) ==> p in votes && votes[p] == old(votes)[p]
      ensures forall id :: NoncesOk(Model(), id)
    {
      hide Step, ProposalOk, Justified, NoncesOk, Executions;
      ghost var was, before := Model(), trace;
      r := Handle(op);
      assert (before + [op])[..|before|] == before;
      trace := before + [op];
      forall p ensures Executions(executed, p) <= 1 && ProposalOk(Model(), p) { ExecutedAtMostOnce(config, trace, p); RunKeeps(config, trace, p); }
      ExecutedAtMostOnce(config, trace, Proposal(0, 0, 0));
      forall p | Settled(was, p) ensures p in votes && votes[p] == was.votes[p] { SettledStays(config, before, op, p); }
      forall id ensures NoncesOk(Model(), id) { NoncesHaveNoGaps(config, trace, id); }
    }
  }

  lemma SettledStays(c: Config, before: seq<Op>, op: Op, p: Proposal)
    requires Settled(Run(c, before), p)
    ensures p in Run(c, before + [op]).votes && p in Run(c, before).votes
    ensures Run(c, before + [op]).votes[p] == Run(c, before).votes[p]
  {
    hide Run;
    assert (before + [op])[..|before|] == before;
    SettledRecordsAreFinal(c, before + [op], |before|, p);
  }
}
