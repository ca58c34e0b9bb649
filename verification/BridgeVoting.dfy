/** What the bridge's voting protocol guarantees: the order of votes does not matter, and nothing is
    executed twice. */
module BridgeVoting {
  import opened Results
  import opened Chainbridge

  // ---- vote-order confluence ----

  /** What happens to one proposal while relayers and threshold stand still. */
  datatype Turn = Ballot(who: Account, favour: bool) | Evaluate | Tick

  /** Plays the turns in order, with every dispatch succeeding; a rejected call changes nothing. */
  function Play(c: Config, s: State, p: Proposal, turns: seq<Turn>): State {
    if turns == [] then s
    else
      var s1 := Play(c, s, p, turns[..|turns| - 1]);
      var r := PlayOne(c, s1, p, turns[|turns| - 1]);
      if r.Ok? then r.value else s1
  }

  function PlayOne(c: Config, s: State, p: Proposal, turn: Turn): Outcome {
    match turn
    case Ballot(who, favour) => Vote(c, s, who, p, favour, true)
    case Evaluate => TryResolve(s, p, true)
    case Tick => Ok(s.(now := s.now + 1))
  }

  function Side(turns: seq<Turn>, favour: bool): set<Account> {
    set t | t in turns && t.Ballot? && t.favour == favour :: t.who
  }

  /** Blocks that pass after the first ballot. */
  function Elapsed(turns: seq<Turn>): nat {
    if turns == [] then 0
    else
      var init := turns[..|turns| - 1];
      Elapsed(init) + if turns[|turns| - 1].Tick? && Side(init, true) + Side(init, false) != {} then 1 else 0
  }

  predicate NoDuplicates(xs: seq<Account>) {
    forall i, j :: 0 <= i < j < |xs| ==> xs[i] != xs[j]
  }

  function Elements(xs: seq<Account>): set<Account> {
    set x | x in xs
  }

  lemma {:induction false} DistinctSize(xs: seq<Account>)
    requires NoDuplicates(xs)
    ensures |Elements(xs)| == |xs|
  {
    if xs != [] {
      var n := |xs| - 1;
      DistinctSize(xs[..n]);
      assert xs[n] !in xs[..n];
      assert Elements(xs) == Elements(xs[..n]) + {xs[n]};
    }
  }

  lemma SubsetSize(a: set<Account>, b: set<Account>)
    requires a <= b
    ensures |a| <= |b|
  {
    assert b == a + (b - a);
  }

  lemma SideGrows(turns: seq<Turn>, favour: bool)
    requires turns != []
    ensures var init, last := turns[..|turns| - 1], turns[|turns| - 1];
            Side(turns, favour) == if last.Ballot? then With(Side(init, favour), last.who, last.favour == favour) else Side(init, favour)
  {
    var init, last := turns[..|turns| - 1], turns[|turns| - 1];
    assert turns == init + [last];
  }

  /** The record of a proposal after the given ballots, up to the first verdict. */
  predicate Tally(c: Config, s: State, p: Proposal, backers: set<Account>, opponents: set<Account>, elapsed: nat) {
    if backers + opponents == {} then p !in s.votes
    else
      && p in s.votes
      && var v := s.votes[p];
      && v.expiry + elapsed == s.now + c.lifetime
      && v.status == Decide(|backers|, |opponents|, s.relayerCount, s.threshold)
      && (v.status == Initiated ==> Holds(v, backers, opponents))
  }

  predicate SameCommittee(s: State, s': State) {
    s'.relayers == s.relayers && s'.relayerCount == s.relayerCount && s'.threshold == s.threshold
  }

  /** A verdict stands however many more of the remaining relayers vote. */
  lemma VerdictStands(f: nat, a: nat, f': nat, a': nat, n: nat, t: nat)
    requires f <= f' && a <= a' && f' + a' <= n && Decide(f, a, n, t) != Initiated
    ensures Decide(f', a', n, t) == Decide(f, a, n, t)
  {
  }

  lemma PushedOnce(xs: seq<Account>, who: Account)
    requires NoDuplicates(xs) && who !in xs
    ensures NoDuplicates(xs + [who]) && Elements(xs + [who]) == Elements(xs) + {who}
    ensures |Elements(xs) + {who}| == |xs| + 1
  {
    DistinctSize(xs + [who]);
    assert Elements(xs + [who]) == Elements(xs) + {who};
  }

  /** The lists of a record hold exactly these voters, each once. */
  predicate Holds(v: ProposalVotes, B: set<Account>, O: set<Account>) {
    && NoDuplicates(v.inFavour) && Elements(v.inFavour) == B
    && NoDuplicates(v.against) && Elements(v.against) == O
  }

  function With(side: set<Account>, who: Account, joins: bool): set<Account> {
    if joins then side + {who} else side
  }

  lemma PushHolds(v: ProposalVotes, B: set<Account>, O: set<Account>, who: Account, favour: bool)
    requires Holds(v, B, O) && who !in B && who !in O
    ensures !v.HasVoted(who)
    ensures Holds(v.Push(who, favour), With(B, who, favour), With(O, who, !favour))
  {
    PushedOnce(if favour then v.inFavour else v.against, who);
  }

  lemma HoldsCount(v: ProposalVotes, B: set<Account>, O: set<Account>)
    requires Holds(v, B, O)
    ensures |v.inFavour| == |B| && |v.against| == |O|
  {
    DistinctSize(v.inFavour);
    DistinctSize(v.against);
  }

  /** A ballot on an open or fresh record, cast by somebody who has not voted yet. */
  lemma FreshBallot(c: Config, s: State, p: Proposal, B: set<Account>, O: set<Account>, elapsed: nat, who: Account, favour: bool)
    requires Tally(c, s, p, B, O, elapsed) && elapsed < c.lifetime
    requires B + O == {} ==> elapsed == 0
    requires p in s.votes ==> s.votes[p].status == Initiated
    requires who !in B + O
    ensures var r := Vote(c, s, who, p, favour, true);
            r.Ok? && Tally(c, r.value, p, With(B, who, favour), With(O, who, !favour), elapsed)
  {
    hide Holds, Decide, Vote, RecordOf, Tally, With;
    var v := RecordOf(c, s, p);
    OpenRecord(c, s, p, B, O, elapsed);
    PushHolds(v, B, O, who, favour);
    HoldsCount(v.Push(who, favour), With(B, who, favour), With(O, who, !favour));
    VoteLands(c, s, who, p, favour);
    WithIsNonempty(B, O, who, favour);
    RecordTallies(c, Vote(c, s, who, p, favour, true).value, p, With(B, who, favour), With(O, who, !favour), elapsed);
  }

  lemma WithIsNonempty(B: set<Account>, O: set<Account>, who: Account, favour: bool)
    ensures With(B, who, favour) + With(O, who, !favour) != {}
  {
    assert who in With(B, who, favour) + With(O, who, !favour);
  }

  lemma RecordTallies(c: Config, s: State, p: Proposal, B: set<Account>, O: set<Account>, elapsed: nat)
    requires p in s.votes && B + O != {} && s.votes[p].expiry + elapsed == s.now + c.lifetime
    requires s.votes[p].status == Decide(|s.votes[p].inFavour|, |s.votes[p].against|, s.relayerCount, s.threshold)
    requires |s.votes[p].inFavour| == |B| && |s.votes[p].against| == |O|
    requires Holds(s.votes[p].(status := Initiated), B, O)
    ensures Tally(c, s, p, B, O, elapsed)
  {
  }

  lemma OpenRecord(c: Config, s: State, p: Proposal, B: set<Account>, O: set<Account>, elapsed: nat)
    requires Tally(c, s, p, B, O, elapsed) && elapsed < c.lifetime
    requires B + O == {} ==> elapsed == 0
    requires p in s.votes ==> s.votes[p].status == Initiated
    ensures var v := RecordOf(c, s, p);
            v.status == Initiated && v.expiry + elapsed == s.now + c.lifetime && Holds(v, B, O)
  {
    hide Holds;
    if p !in s.votes {
      assert B == {} && O == {} by { assert B <= B + O && O <= B + O; }
      EmptyHolds(RecordOf(c, s, p));
    }
  }

  lemma VoteLands(c: Config, s: State, who: Account, p: Proposal, favour: bool)
    requires var v := RecordOf(c, s, p); v.status == Initiated && !v.IsExpired(s.now) && !v.HasVoted(who)
    ensures var r, v := Vote(c, s, who, p, favour, true), RecordOf(c, s, p).Push(who, favour);
            && r.Ok? && p in r.value.votes
            && r.value.votes[p].(status := Initiated) == v
            && r.value.votes[p] == v.(status := Decide(|v.inFavour|, |v.against|, s.relayerCount, s.threshold))
  {
    hide Decide;
  }

  lemma EmptyHolds(v: ProposalVotes)
    requires v.inFavour == [] && v.against == []
    ensures Holds(v, {}, {})
  {
  }

  /** A ballot that comes after the verdict, or repeats one, is turned away. */
  lemma LateBallot(c: Config, s: State, p: Proposal, B: set<Account>, O: set<Account>, elapsed: nat, who: Account, favour: bool)
    requires Tally(c, s, p, B, O, elapsed) && B + O != {}
    requires s.votes[p].status != Initiated || who in B + O
    ensures Vote(c, s, who, p, favour, true).Err?
  {
  }

  lemma EvaluateTally(c: Config, s: State, p: Proposal, B: set<Account>, O: set<Account>, elapsed: nat)
    requires Tally(c, s, p, B, O, elapsed) && TryResolve(s, p, true).Ok?
    ensures Tally(c, TryResolve(s, p, true).value, p, B, O, elapsed)
  {
    hide Holds;
    HoldsCount(s.votes[p], B, O);
  }

  lemma BallotTally(c: Config, s: State, p: Proposal, B: set<Account>, O: set<Account>, elapsed: nat, who: Account, favour: bool)
    requires CountOk(s) && Tally(c, s, p, B, O, elapsed) && elapsed < c.lifetime
    requires B + O == {} ==> elapsed == 0
    requires var B', O' := With(B, who, favour), With(O, who, !favour); B' !! O' && B' + O' <= s.relayers
    ensures var r := Vote(c, s, who, p, favour, true);
            Tally(c, if r.Ok? then r.value else s, p, With(B, who, favour), With(O, who, !favour), elapsed)
  {
    hide Vote, Holds;
    var B', O' := With(B, who, favour), With(O, who, !favour);
    if B + O == {} || (s.votes[p].status == Initiated && who !in B + O) {
      FreshBallot(c, s, p, B, O, elapsed, who, favour);
    } else {
      LateBallot(c, s, p, B, O, elapsed, who, favour);
      assert who in B' + O';
      if s.votes[p].status != Initiated {
        Counted(s, B, O, B', O');
      } else {
        assert B' == B && O' == O;
      }
    }
  }

  lemma PlayTally(c: Config, s: State, p: Proposal, turns: seq<Turn>, turn: Turn)
    requires turns != [] && turn == turns[|turns| - 1] && CountOk(s)
    requires var init := turns[..|turns| - 1];
             Tally(c, s, p, Side(init, true), Side(init, false), Elapsed(init))
             && (Side(init, true) + Side(init, false) == {} ==> Elapsed(init) == 0)
    requires Side(turns, true) !! Side(turns, false) && Side(turns, true) + Side(turns, false) <= s.relayers
    requires Elapsed(turns) < c.lifetime
    ensures var r := PlayOne(c, s, p, turn);
            var s' := if r.Ok? then r.value else s;
            && SameCommittee(s, s')
            && Tally(c, s', p, Side(turns, true), Side(turns, false), Elapsed(turns))
            && (Side(turns, true) + Side(turns, false) == {} ==> Elapsed(turns) == 0)
  {
    hide Vote, TryResolve, Side, Tally, CountOk, With;
    var init := turns[..|turns| - 1];
    var B, O := Side(init, true), Side(init, false);
    SideGrows(turns, true);
    SideGrows(turns, false);
    if turn.Ballot? {
      BallotTally(c, s, p, B, O, Elapsed(init), turn.who, turn.favour);
      WithIsNonempty(B, O, turn.who, turn.favour);
    } else if turn.Tick? {
      TickTally(c, s, p, B, O, Elapsed(init));
    } else if TryResolve(s, p, true).Ok? {
      EvaluateTally(c, s, p, B, O, Elapsed(init));
    }
  }

  lemma TickTally(c: Config, s: State, p: Proposal, B: set<Account>, O: set<Account>, elapsed: nat)
    requires Tally(c, s, p, B, O, elapsed)
    ensures Tally(c, s.(now := s.now + 1), p, B, O, elapsed + if B + O != {} then 1 else 0)
  {
  }

  lemma Counted(s: State, B: set<Account>, O: set<Account>, B': set<Account>, O': set<Account>)
    requires CountOk(s) && B <= B' && O <= O' && B' !! O' && B' + O' <= s.relayers
    requires Decide(|B|, |O|, s.relayerCount, s.threshold) != Initiated
    ensures Decide(|B'|, |O'|, s.relayerCount, s.threshold) == Decide(|B|, |O|, s.relayerCount, s.threshold)
  {
    SubsetSize(B, B');
    SubsetSize(O, O');
    SubsetSize(B' + O', s.relayers);
    VerdictStands(|B|, |O|, |B'|, |O'|, s.relayerCount, s.threshold);
  }

  /** Played in any order, interleaved with blocks and re-evaluations before expiry, the preferences
      of the relayers lead to the verdict that their numbers ask for. */
  lemma {:induction false} VerdictFollowsNumbers(c: Config, s: State, p: Proposal, turns: seq<Turn>)
    requires CountOk(s) && p !in s.votes
    requires Side(turns, true) !! Side(turns, false) && Side(turns, true) + Side(turns, false) <= s.relayers
    requires Elapsed(turns) < c.lifetime
    ensures var s' := Play(c, s, p, turns);
            && SameCommittee(s, s')
            && Tally(c, s', p, Side(turns, true), Side(turns, false), Elapsed(turns))
            && (Side(turns, true) + Side(turns, false) == {} ==> Elapsed(turns) == 0)
  {
    hide PlayOne, Tally;
    if turns == [] {
      EmptyTally(c, s, p);
    } else {
      var n := |turns| - 1;
      SideGrows(turns, true);
      SideGrows(turns, false);
      VerdictFollowsNumbers(c, s, p, turns[..n]);
      PlayTally(c, Play(c, s, p, turns[..n]), p, turns, turns[n]);
    }
  }

  lemma EmptyTally(c: Config, s: State, p: Proposal)
    requires p !in s.votes
    ensures Tally(c, s, p, {}, {}, 0) && Side([], true) == {} && Side([], false) == {}
  {
  }

  /** Confluence: two schedules of the same preferences end in the same status, and that status is
      Approved iff the votes for reach the threshold, Rejected iff they no longer can although the
      threshold is within the relayer count, and Initiated otherwise. */
  lemma VoteOrderDoesNotMatter(c: Config, s: State, p: Proposal, one: seq<Turn>, two: seq<Turn>)
    requires CountOk(s) && p !in s.votes
    requires Side(one, true) == Side(two, true) && Side(one, false) == Side(two, false)
    requires Side(one, true) !! Side(one, false) && Side(one, true) + Side(one, false) <= s.relayers
    requires Side(one, true) + Side(one, false) != {}
    requires Elapsed(one) < c.lifetime && Elapsed(two) < c.lifetime
    ensures var s1, s2 := Play(c, s, p, one), Play(c, s, p, two);
            && p in s1.votes && p in s2.votes && s1.votes[p].status == s2.votes[p].status
            && var F, A, n, t := |Side(one, true)|, |Side(one, false)|, |s.relayers|, s.threshold;
            && (s1.votes[p].status == Approved <==> F >= t)
            && (s1.votes[p].status == Rejected <==> F < t <= n && n - A < t)
  {
    hide Play, Side, Elapsed;
    VerdictFollowsNumbers(c, s, p, one);
    VerdictFollowsNumbers(c, s, p, two);
  }

  // ---- over every run ----

  function After(c: Config, s: State, op: Op): State
    requires CountOk(s)
  {
    var r := Step(c, s, op);
    if r.Ok? then r.value else s
  }

  /** `RelayerCount` is the size of the relayer set, and the threshold stays positive. */
  lemma StepCount(c: Config, s: State, op: Op)
    requires CountOk(s)
    ensures CountOk(After(c, s, op))
  {
  }

  ghost function Run(c: Config, ops: seq<Op>): (s: State)
    ensures CountOk(s)
  {
    if ops == [] then INITIAL
    else
      var s := Run(c, ops[..|ops| - 1]);
      StepCount(c, s, ops[|ops| - 1]);
      After(c, s, ops[|ops| - 1])
  }

  /** How often `p` was dispatched. */
  function Executions(log: seq<Execution>, p: Proposal): nat {
    if log == [] then 0
    else Executions(log[..|log| - 1], p) + if log[|log| - 1].proposal == p then 1 else 0
  }

  /** Every dispatch had as many different voters as the threshold of that moment. */
  predicate Justified(log: seq<Execution>) {
    forall i :: 0 <= i < |log| ==> NoDuplicates(log[i].voters) && 0 < log[i].threshold <= |log[i].voters|
  }

  /** One vote per relayer: both lists are duplicate-free and they are disjoint. */
  predicate OneVoteEach(v: ProposalVotes) {
    && NoDuplicates(v.inFavour) && NoDuplicates(v.against)
    && forall x :: x in v.inFavour ==> x !in v.against
  }

  predicate ProposalOk(s: State, p: Proposal) {
    && (p in s.votes ==> OneVoteEach(s.votes[p]))
    && Executions(s.executed, p) == if p in s.votes && s.votes[p].status == Approved then 1 else 0
  }

  predicate Settled(s: State, p: Proposal) {
    p in s.votes && (s.votes[p].IsComplete() || s.votes[p].IsExpired(s.now))
  }

  lemma ExecutionsGrow(log: seq<Execution>, e: Execution, p: Proposal)
    ensures Executions(log + [e], p) == Executions(log, p) + if e.proposal == p then 1 else 0
  {
    assert (log + [e])[..|log|] == log;
  }

  lemma CommitKeeps(c: Config, s: State, who: Account, q: Proposal, favour: bool, p: Proposal)
    requires ProposalOk(s, p) && CommitVote(c, s, who, q, favour).Ok?
    ensures ProposalOk(CommitVote(c, s, who, q, favour).value, p)
  {
    if p == q {
      var v := RecordOf(c, s, p);
      PushedOnce(if favour then v.inFavour else v.against, who);
    }
  }

  lemma ResolveKeeps(s: State, q: Proposal, dispatches: bool, p: Proposal)
    requires ProposalOk(s, p) && TryResolve(s, q, dispatches).Ok?
    ensures ProposalOk(TryResolve(s, q, dispatches).value, p)
  {
    ExecutionsGrow(s.executed, Execution(q, s.votes[q].inFavour, s.threshold), p);
  }

  lemma ResolveJustified(s: State, q: Proposal, dispatches: bool)
    requires CountOk(s) && Justified(s.executed) && ProposalOk(s, q) && TryResolve(s, q, dispatches).Ok?
    ensures Justified(TryResolve(s, q, dispatches).value.executed)
  {
  }

  lemma VoteKeeps(c: Config, s: State, who: Account, q: Proposal, favour: bool, dispatches: bool, p: Proposal)
    requires ProposalOk(s, p) && Vote(c, s, who, q, favour, dispatches).Ok?
    ensures ProposalOk(Vote(c, s, who, q, favour, dispatches).value, p)
  {
    hide CommitVote, TryResolve, ProposalOk;
    CommitKeeps(c, s, who, q, favour, p);
    ResolveKeeps(CommitVote(c, s, who, q, favour).value, q, dispatches, p);
  }

  lemma VoteJustified(c: Config, s: State, who: Account, q: Proposal, favour: bool, dispatches: bool)
    requires CountOk(s) && Justified(s.executed) && ProposalOk(s, q) && Vote(c, s, who, q, favour, dispatches).Ok?
    ensures Justified(Vote(c, s, who, q, favour, dispatches).value.executed)
  {
    hide CommitVote, TryResolve, ProposalOk, Justified;
    CommitKeeps(c, s, who, q, favour, q);
    ResolveJustified(CommitVote(c, s, who, q, favour).value, q, dispatches);
  }

  lemma StepKeeps(c: Config, s: State, op: Op, p: Proposal)
    requires CountOk(s) && ProposalOk(s, p)
    ensures ProposalOk(After(c, s, op), p)
  {
    hide Vote, TryResolve, OneVoteEach;
    if Step(c, s, op).Ok? {
      if op.Acknowledge? || op.RejectProposal? {
        VoteKeeps(c, s, op.who, op.p, op.Acknowledge?, op.dispatches, p);
      } else if op.EvalVoteState? {
        ResolveKeeps(s, op.p, op.dispatches, p);
      }
    }
  }

  lemma StepJustified(c: Config, s: State, op: Op)
    requires CountOk(s) && Justified(s.executed) && forall p :: ProposalOk(s, p)
    ensures Justified(After(c, s, op).executed)
  {
    hide Vote, TryResolve, OneVoteEach, Justified;
    if Step(c, s, op).Ok? {
      if op.Acknowledge? || op.RejectProposal? {
        VoteJustified(c, s, op.who, op.p, op.Acknowledge?, op.dispatches);
      } else if op.EvalVoteState? {
        ResolveJustified(s, op.p, op.dispatches);
      }
    }
  }

  lemma {:induction false} RunKeeps(c: Config, ops: seq<Op>, p: Proposal)
    ensures ProposalOk(Run(c, ops), p)
  {
    hide After;
    if ops != [] {
      RunKeeps(c, ops[..|ops| - 1], p);
      StepKeeps(c, Run(c, ops[..|ops| - 1]), ops[|ops| - 1], p);
    }
  }

  lemma {:induction false} RunJustified(c: Config, ops: seq<Op>)
    ensures Justified(Run(c, ops).executed)
  {
    hide After, ProposalOk;
    if ops != [] {
      var s := Run(c, ops[..|ops| - 1]);
      RunJustified(c, ops[..|ops| - 1]);
      forall p ensures ProposalOk(s, p) { RunKeeps(c, ops[..|ops| - 1], p); }
      StepJustified(c, s, ops[|ops| - 1]);
    }
  }

  /** Over every run, with relayers and threshold changing freely: a proposal is dispatched at most
      once, exactly when it stands Approved, and only with `threshold` different voters. */
  lemma ExecutedAtMostOnce(c: Config, ops: seq<Op>, p: Proposal)
    ensures var s := Run(c, ops);
            && Executions(s.executed, p) <= 1
            && (Executions(s.executed, p) == 1 <==> p in s.votes && s.votes[p].status == Approved)
            && (p in s.votes ==> OneVoteEach(s.votes[p]))
            && Justified(s.executed)
            && s.relayerCount == |s.relayers|
  {
    hide Run;
    RunKeeps(c, ops, p);
    RunJustified(c, ops);
  }

  // ---- settled records are final ----

  lemma SettledVote(c: Config, s: State, who: Account, q: Proposal, favour: bool, dispatches: bool, p: Proposal)
    requires Settled(s, p) && Vote(c, s, who, q, favour, dispatches).Ok?
    ensures Settled(Vote(c, s, who, q, favour, dispatches).value, p)
    ensures Vote(c, s, who, q, favour, dispatches).value.votes[p] == s.votes[p]
  {
    assert q != p;
  }

  lemma SettledStep(c: Config, s: State, op: Op, p: Proposal)
    requires CountOk(s) && Settled(s, p)
    ensures Settled(After(c, s, op), p) && After(c, s, op).votes[p] == s.votes[p]
  {
    hide Vote;
    if (op.Acknowledge? || op.RejectProposal?) && Step(c, s, op).Ok? {
      SettledVote(c, s, op.who, op.p, op.Acknowledge?, op.dispatches, p);
    }
  }

  /** A completed or expired record never changes again. */
  lemma {:induction false} SettledRecordsAreFinal(c: Config, ops: seq<Op>, i: nat, p: Proposal)
    requires i <= |ops| && Settled(Run(c, ops[..i]), p)
    ensures Settled(Run(c, ops), p)
    ensures Run(c, ops).votes[p] == Run(c, ops[..i]).votes[p]
    decreases |ops|
  {
    hide After;
    if i < |ops| {
      var n := |ops| - 1;
      assert ops[..n][..i] == ops[..i];
      SettledRecordsAreFinal(c, ops[..n], i, p);
      SettledStep(c, Run(c, ops[..n]), ops[n], p);
    } else {
      assert ops[..i] == ops;
    }
  }

  predicate HasVoted(s: State, p: Proposal, who: Account) { p in s.votes && s.votes[p].HasVoted(who) }

  lemma ResolveAddsNobody(s: State, q: Proposal, dispatches: bool, p: Proposal, who: Account)
    requires TryResolve(s, q, dispatches).Ok?
    ensures HasVoted(TryResolve(s, q, dispatches).value, p, who) <==> HasVoted(s, p, who)
  {
    hide Decide;
  }

  lemma CommitAddsTheVoter(c: Config, s: State, voter: Account, q: Proposal, favour: bool, p: Proposal, who: Account)
    requires CommitVote(c, s, voter, q, favour).Ok?
    ensures HasVoted(CommitVote(c, s, voter, q, favour).value, p, who) <==> HasVoted(s, p, who) || (p == q && who == voter)
  {
  }

  lemma VoteAddsTheVoter(c: Config, s: State, voter: Account, q: Proposal, favour: bool, dispatches: bool, p: Proposal, who: Account)
    requires Vote(c, s, voter, q, favour, dispatches).Ok?
    ensures HasVoted(Vote(c, s, voter, q, favour, dispatches).value, p, who) <==> HasVoted(s, p, who) || (p == q && who == voter)
  {
    hide CommitVote, TryResolve, HasVoted;
    CommitAddsTheVoter(c, s, voter, q, favour, p, who);
    ResolveAddsNobody(CommitVote(c, s, voter, q, favour).value, q, dispatches, p, who);
  }

  /** A name enters the record of a proposal only by that account's own vote while it is a relayer. */
  lemma VotesComeFromRelayers(c: Config, s: State, op: Op, p: Proposal, who: Account)
    requires CountOk(s) && HasVoted(After(c, s, op), p, who) && !HasVoted(s, p, who)
    ensures who in s.relayers && (op.Acknowledge? || op.RejectProposal?) && op.who == who && op.p == p
  {
    hide Vote, TryResolve;
    if Step(c, s, op).Ok? {
      if op.Acknowledge? || op.RejectProposal? {
        VoteAddsTheVoter(c, s, op.who, op.p, op.Acknowledge?, op.dispatches, p, who);
      } else if op.EvalVoteState? {
        ResolveAddsNobody(s, op.p, op.dispatches, p, who);
      }
    }
  }

  // ---- who decides ----

  /** A vote against approves exactly when the votes for already reach the threshold. */
  lemma RejectApprovesIff(c: Config, s: State, who: Account, p: Proposal, r: Resource)
    requires CountOk(s) && VoteCall(c, s, who, p, r, false, true).Ok?
    ensures var s' := VoteCall(c, s, who, p, r, false, true).value;
            && p in s'.votes
            && (s'.votes[p].status == Approved <==> p in s.votes && s.threshold <= |s.votes[p].inFavour|)
  {
  }

  /** Every undecided proposal is short of votes. */
  predicate Undecided(s: State, p: Proposal) {
    p in s.votes && s.votes[p].status == Initiated ==> |s.votes[p].inFavour| < s.threshold
  }

  predicate LowersThreshold(s: State, op: Op) { op.SetThreshold? && 0 < op.n < s.threshold }

  /** No call of the run lowers the threshold in force. */
  ghost predicate NeverLowers(c: Config, ops: seq<Op>) {
    ops == [] || (NeverLowers(c, ops[..|ops| - 1]) && !LowersThreshold(Run(c, ops[..|ops| - 1]), ops[|ops| - 1]))
  }

  lemma ResolveDecides(s: State, q: Proposal, dispatches: bool, p: Proposal)
    requires TryResolve(s, q, dispatches).Ok? && (p != q ==> Undecided(s, p))
    ensures Undecided(TryResolve(s, q, dispatches).value, p)
  {
  }

  lemma VoteDecides(c: Config, s: State, who: Account, q: Proposal, favour: bool, dispatches: bool, p: Proposal)
    requires Vote(c, s, who, q, favour, dispatches).Ok? && Undecided(s, p)
    ensures Undecided(Vote(c, s, who, q, favour, dispatches).value, p)
  {
    hide TryResolve;
    ResolveDecides(CommitVote(c, s, who, q, favour).value, q, dispatches, p);
  }

  lemma StepUndecided(c: Config, s: State, op: Op, p: Proposal)
    requires CountOk(s) && Undecided(s, p) && !LowersThreshold(s, op)
    ensures Undecided(After(c, s, op), p)
  {
    hide Vote, TryResolve;
    if Step(c, s, op).Ok? {
      if op.Acknowledge? || op.RejectProposal? {
        VoteDecides(c, s, op.who, op.p, op.Acknowledge?, op.dispatches, p);
      } else if op.EvalVoteState? {
        ResolveDecides(s, op.p, op.dispatches, p);
      }
    }
  }

  lemma {:induction false} RunsLeaveUndecidedShort(c: Config, ops: seq<Op>, p: Proposal)
    requires NeverLowers(c, ops)
    ensures Undecided(Run(c, ops), p)
  {
    hide After;
    if ops != [] {
      RunsLeaveUndecidedShort(c, ops[..|ops| - 1], p);
      StepUndecided(c, Run(c, ops[..|ops| - 1]), ops[|ops| - 1], p);
    }
  }

  /** As long as no call lowers the threshold, an accepted vote against never approves and never
      executes anything. */
  lemma RejectNeverApproves(c: Config, ops: seq<Op>, who: Account, p: Proposal, r: Resource, dispatches: bool)
    requires NeverLowers(c, ops) && Step(c, Run(c, ops), RejectProposal(who, p, r, dispatches)).Ok?
    ensures var s' := Step(c, Run(c, ops), RejectProposal(who, p, r, dispatches)).value;
            p in s'.votes && s'.votes[p].status != Approved && s'.executed == Run(c, ops).executed
  {
    hide Run;
    RunsLeaveUndecidedShort(c, ops, p);
  }

  /** Two relayers, a threshold of two and a proposal nobody has voted on. */
  predicate TwoRelayers(s: State, p: Proposal) {
    && 1 in s.relayers && 2 in s.relayers && s.threshold == 2
    && p.chain in s.nonces && 5 in s.resources && p !in s.votes
  }

  function Installing(chain: Chain): seq<Op> {
    [] + [WhitelistChain(chain)] + [SetResource(5)] + [AddRelayer(1)] + [AddRelayer(2)] + [SetThreshold(2)]
  }

  function Lowering(p: Proposal): seq<Op> {
    Installing(p.chain) + [Acknowledge(1, p, 5, true)] + [SetThreshold(1)] + [RejectProposal(2, p, 5, true)]
  }

  lemma RunOneMore(c: Config, ops: seq<Op>, op: Op)
    ensures Run(c, ops + [op]) == After(c, Run(c, ops), op)
  {
    assert (ops + [op])[..|ops|] == ops;
  }

  lemma RelayersInstalled(c: Config, p: Proposal)
    requires c.self != p.chain
    ensures TwoRelayers(Run(c, Installing(p.chain)), p)
  {
    var calls: seq<Op> := [];
    assert Run(c, calls) == INITIAL;
    hide Run, Vote, TryResolve, CountOk;
    RunOneMore(c, calls, WhitelistChain(p.chain));
    calls := calls + [WhitelistChain(p.chain)];
    RunOneMore(c, calls, SetResource(5));
    calls := calls + [SetResource(5)];
    RunOneMore(c, calls, AddRelayer(1));
    calls := calls + [AddRelayer(1)];
    RunOneMore(c, calls, AddRelayer(2));
    calls := calls + [AddRelayer(2)];
    RunOneMore(c, calls, SetThreshold(2));
  }

  /** One vote for, the threshold lowered to one, a vote against: the proposal is approved and executed. */
  lemma LoweringApproves(c: Config, s: State, p: Proposal)
    requires CountOk(s) && TwoRelayers(s, p) && c.lifetime > 0
    ensures var s1 := After(c, s, Acknowledge(1, p, 5, true));
            && CountOk(s1)
            && var s2 := After(c, s1, SetThreshold(1));
            && CountOk(s2)
            && var s3 := After(c, s2, RejectProposal(2, p, 5, true));
            && p in s3.votes && s3.votes[p].status == Approved && |s3.executed| == |s.executed| + 1
  {
    StepCount(c, s, Acknowledge(1, p, 5, true));
    var s1 := After(c, s, Acknowledge(1, p, 5, true));
    FirstVoteFor(c, s, p);
    var s2 := s1.(threshold := 1);
    assert After(c, s1, SetThreshold(1)) == s2;
    hide Vote;
    ThenVoteAgainst(c, s2, p);
  }

  lemma FirstVoteFor(c: Config, s: State, p: Proposal)
    requires CountOk(s) && TwoRelayers(s, p) && c.lifetime > 0
    ensures var s1 := After(c, s, Acknowledge(1, p, 5, true));
            s1 == s.(votes := s.votes[p := ProposalVotes([1], [], Initiated, s.now + c.lifetime)])
  {
    hide CommitVote;
    assert RecordOf(c, s, p).Push(1, true) == ProposalVotes([1], [], Initiated, s.now + c.lifetime);
    assert CommitVote(c, s, 1, p, true) == Ok(s.(votes := s.votes[p := ProposalVotes([1], [], Initiated, s.now + c.lifetime)])) by {
      Committed(c, s, 1, p, true);
    }
    var s1 := s.(votes := s.votes[p := ProposalVotes([1], [], Initiated, s.now + c.lifetime)]);
    assert s1.votes[p := s1.votes[p].(status := Initiated)] == s1.votes;
  }

  lemma Committed(c: Config, s: State, who: Account, p: Proposal, favour: bool)
    requires var v := RecordOf(c, s, p); v.status == Initiated && !v.IsExpired(s.now) && !v.HasVoted(who)
    ensures CommitVote(c, s, who, p, favour) == Ok(s.(votes := s.votes[p := RecordOf(c, s, p).Push(who, favour)]))
  {
  }

  lemma ThenVoteAgainst(c: Config, s: State, p: Proposal)
    requires CountOk(s) && 2 in s.relayers && s.threshold == 1 && p.chain in s.nonces && 5 in s.resources
    requires p in s.votes && s.votes[p].inFavour == [1] && s.votes[p].against == []
    requires s.votes[p].status == Initiated && s.now < s.votes[p].expiry
    ensures var s3 := After(c, s, RejectProposal(2, p, 5, true));
            p in s3.votes && s3.votes[p].status == Approved && |s3.executed| == |s.executed| + 1
  {
    hide CommitVote;
    Committed(c, s, 2, p, false);
  }

  /** A run in which a vote against approves and executes. */
  lemma ARejectVoteApproves(c: Config, p: Proposal)
    requires c.self != p.chain && c.lifetime > 0
    ensures var s := Run(c, Lowering(p)); p in s.votes && s.votes[p].status == Approved
  {
    hide Run, After, TwoRelayers;
    var calls := Installing(p.chain);
    RelayersInstalled(c, p);
    LoweringApproves(c, Run(c, calls), p);
    RunOneMore(c, calls, Acknowledge(1, p, 5, true));
    RunOneMore(c, calls + [Acknowledge(1, p, 5, true)], SetThreshold(1));
    RunOneMore(c, calls + [Acknowledge(1, p, 5, true)] + [SetThreshold(1)], RejectProposal(2, p, 5, true));
  }

  // ---- outgoing nonces ----

  function NoncesOf(log: seq<Emission>, id: Chain): seq<nat> {
    if log == [] then []
    else
      var init, last := log[..|log| - 1], log[|log| - 1];
      NoncesOf(init, id) + if last.chain == id then [last.nonce] else []
  }

  predicate NoncesOk(s: State, id: Chain) {
    var ns := NoncesOf(s.emitted, id);
    && (forall i :: 0 <= i < |ns| ==> ns[i] == i + 1)
    && |ns| == if id in s.nonces then s.nonces[id] else 0
  }

  lemma StepNonces(c: Config, s: State, op: Op, id: Chain)
    requires CountOk(s) && NoncesOk(s, id)
    ensures NoncesOk(After(c, s, op), id)
  {
    hide Vote, TryResolve;
    if op.Transfer? && Step(c, s, op).Ok? {
      EmitNonces(s, op.id, id);
    }
  }

  lemma EmitNonces(s: State, to: Chain, id: Chain)
    requires NoncesOk(s, id) && Emit(s, to).Ok?
    ensures NoncesOk(Emit(s, to).value, id)
  {
    var e := Emission(to, s.nonces[to] + 1);
    assert (s.emitted + [e])[..|s.emitted|] == s.emitted;
  }

  /** The nonces emitted for a chain are 1, 2, 3, ... without gaps, over every run. */
  lemma {:induction false} NoncesHaveNoGaps(c: Config, ops: seq<Op>, id: Chain)
    ensures NoncesOk(Run(c, ops), id)
  {
    hide After;
    if ops != [] {
      NoncesHaveNoGaps(c, ops[..|ops| - 1], id);
      StepNonces(c, Run(c, ops[..|ops| - 1]), ops[|ops| - 1], id);
    }
  }
}
