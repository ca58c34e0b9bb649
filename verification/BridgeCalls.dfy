/** Which calls of the bridge pallet are accepted, and what each one changes. */
module BridgeCalls {
  import opened Results
  import opened Chainbridge

  /** The record of a proposal as a vote finds it: undecided, not expired and not voted on by this account. */
  predicate OpenFor(c: Config, s: State, p: Proposal, who: Account) {
    if p in s.votes then
      var v := s.votes[p];
      v.status == Initiated && s.now < v.expiry && who !in v.inFavour && who !in v.against
    else c.lifetime > 0
  }

  /** How many votes a proposal has on one side. */
  function Count(s: State, p: Proposal, favour: bool): nat {
    if p !in s.votes then 0 else if favour then |s.votes[p].inFavour| else |s.votes[p].against|
  }

  /** A vote is accepted exactly from a relayer, for a whitelisted chain and a known resource, on a record that is
      open to this account; if the votes for then reach the threshold, the call has to succeed. */
  lemma VoteAcceptedIff(c: Config, s: State, who: Account, p: Proposal, r: Resource, favour: bool, dispatches: bool)
    ensures VoteCall(c, s, who, p, r, favour, dispatches).Ok? <==>
              && who in s.relayers && p.chain in s.nonces && r in s.resources && OpenFor(c, s, p, who)
              && (s.threshold <= Count(s, p, true) + (if favour then 1 else 0) ==> dispatches)
  {
  }

  /** It adds the voter to the one side, keeps the expiry or sets it a lifetime ahead, decides by the new numbers,
      and executes exactly when it approves. */
  lemma VoteEffect(c: Config, s: State, who: Account, p: Proposal, r: Resource, favour: bool, dispatches: bool)
    requires VoteCall(c, s, who, p, r, favour, dispatches).Ok?
    ensures var s' := VoteCall(c, s, who, p, r, favour, dispatches).value;
            && p in s'.votes
            && Count(s', p, favour) == Count(s, p, favour) + 1 && Count(s', p, !favour) == Count(s, p, !favour)
            && s'.votes[p].expiry == (if p in s.votes then s.votes[p].expiry else s.now + c.lifetime)
            && (s'.votes[p].status == Approved <==> s.threshold <= Count(s', p, true))
            && (s'.votes[p].status == Rejected <==>
                  Count(s', p, true) < s.threshold <= s.relayerCount && s.relayerCount < Count(s', p, false) + s.threshold)
            && |s'.executed| == |s.executed| + (if s'.votes[p].status == Approved then 1 else 0)
            && (forall q :: q != p ==> (q in s'.votes <==> q in s.votes) && (q in s.votes ==> s'.votes[q] == s.votes[q]))
  {
  }

  /** A re-evaluation is accepted exactly on an undecided record that is not expired; an approval has to succeed. */
  lemma EvaluationAcceptedIff(s: State, p: Proposal, dispatches: bool)
    ensures TryResolve(s, p, dispatches).Ok? <==>
              && p in s.votes && s.votes[p].status == Initiated && s.now < s.votes[p].expiry
              && (s.threshold <= Count(s, p, true) ==> dispatches)
    ensures TryResolve(s, p, dispatches).Ok? ==>
              var v := TryResolve(s, p, dispatches).value.votes[p];
              v.inFavour == s.votes[p].inFavour && v.against == s.votes[p].against && v.expiry == s.votes[p].expiry
  {
  }

  // ---- administration ----

  lemma RelayersChange(s: State, who: Account)
    requires CountOk(s)
    ensures Register(s, who).Ok? <==> who !in s.relayers
    ensures Register(s, who).Ok? ==> Register(s, who).value.relayers == s.relayers + {who}
    ensures Unregister(s, who).Ok? <==> who in s.relayers
    ensures Unregister(s, who).Ok? ==> Unregister(s, who).value.relayers == s.relayers - {who}
  {
  }

  lemma ThresholdChanges(c: Config, s: State, n: nat)
    requires CountOk(s)
    ensures Step(c, s, SetThreshold(n)).Ok? <==> n > 0
    ensures n > 0 ==> Step(c, s, SetThreshold(n)).value == s.(threshold := n)
  {
  }

  /** A foreign chain can be whitelisted once, and starts at nonce 0; whatever leaves for a chain takes its next nonce. */
  lemma ChainsOpen(c: Config, s: State, id: Chain)
    ensures Whitelist(c, s, id).Ok? <==> id != c.self && id !in s.nonces
    ensures Whitelist(c, s, id).Ok? ==> Whitelist(c, s, id).value == s.(nonces := s.nonces[id := 0])
    ensures Emit(s, id).Ok? <==> id in s.nonces
    ensures Emit(s, id).Ok? ==>
              var s' := Emit(s, id).value;
              s'.nonces == s.nonces[id := s.nonces[id] + 1] && s'.emitted == s.emitted + [Emission(id, s.nonces[id] + 1)]
  {
  }

  lemma ResourcesChange(c: Config, s: State, r: Resource, q: Resource)
    requires CountOk(s)
    ensures Step(c, s, SetResource(r)).Ok? && Step(c, s, RemoveResource(r)).Ok?
    ensures q in Step(c, s, SetResource(r)).value.resources <==> q == r || q in s.resources
    ensures q in Step(c, s, RemoveResource(r)).value.resources <==> q != r && q in s.resources
  {
  }
}
