/** The receipt protocol over whole runs: receipts of a user at a dominator open and close strictly
    in turn, and nothing is consumed that was not opened for the same movement. */
module ReceiptProtocol {
  import opened Results
  import opened MapSums
  import opened VerifierTypes
  import opened VerifierState
  import opened VerifierSteps
  import opened Receipts

  /** What the history of one user at one dominator leaves open. */
  datatype Desk = Broken | Closed | Open(receipt: Receipt)

  function Replay(h: History, d: Account, u: Account): Desk {
    match h
    case Genesis => Closed
    case Then(before, ReceiptOpened(d', u', r)) =>
      if (d', u') != (d, u) then Replay(before, d, u)
      else if Replay(before, d, u) == Closed then Open(r) else Broken
    case Then(before, ReceiptConsumed(d', u', r)) =>
      if (d', u') != (d, u) then Replay(before, d, u)
      else if Replay(before, d, u) == Open(r) then Closed else Broken
    case Then(before, ReceiptDropped(d', u', r)) =>
      if (d', u') != (d, u) then Replay(before, d, u)
      else if Replay(before, d, u) == Open(r) then Closed else Broken
    case Then(before, _) => Replay(before, d, u)
  }

  /** Storage agrees with the history. */
  predicate InTurn(s: State, d: Account, u: Account) {
    Replay(s.history, d, u) == if (d, u) in s.receipts then Open(s.receipts[(d, u)]) else Closed
  }

  lemma {:induction false} PaymentsKeepDesk(s: State, d: Account, u: Account, from: nat, to: nat, stake: nat, D: Account, U: Account)
    ensures Replay(PaidHistory(s, d, u, from, to, stake), D, U) == Replay(s.history, D, U)
    decreases (to)
  {
    if from < to {
      PaymentsKeepDesk(s, d, u, from, to - 1, stake, D, U);
    }
  }

  lemma StakingKeepsDesk(c: Config, s: State, op: Op, D: Account, U: Account)
    requires c.Valid() && (op.Stake? || op.Unstake? || op.ClaimShares?) && Step(c, s, op).Ok?
    ensures Replay(Step(c, s, op).value.history, D, U) == Replay(s.history, D, U)
  {
    hide Reserve, Unreserve, Credited, CreditFits, Shares, PaidHistory;
    var was, season := s.StakingOf(op.d, op.u), CurrentSeason(c, s.now, s.dominators[op.d].startFrom);
    if op.Stake? {
      var s1 := Reserve(s, Staked, op.u, c.native, op.x, op.d).value;
      PaymentsKeepDesk(s1, op.d, op.u, was.fromSeason, season, was.amount, D, U);
    } else if op.Unstake? {
      var s1 := MoveToPending(c, s, op.u, op.d, op.x).value;
      PaymentsKeepDesk(s1, op.d, op.u, was.fromSeason, season, was.amount, D, U);
    } else {
      PaymentsKeepDesk(s, op.d, op.u, was.fromSeason, season, was.amount, D, U);
    }
  }

  lemma {:induction false} ReleasesKeepDesk(c: Config, s: State, order: seq<Account>, D: Account, U: Account)
    ensures Replay(ReleaseAll(c, s, order).history, D, U) == Replay(s.history, D, U)
  {
    hide Unreserve;
    if order != [] {
      ReleasesKeepDesk(c, s, order[..|order| - 1], D, U);
    }
  }

  lemma OpenInTurn(s: State, d: Account, u: Account, r: Receipt, D: Account, U: Account)
    requires (d, u) !in s.receipts && InTurn(s, D, U)
    ensures InTurn(OpenReceipt(s, d, u, r), D, U)
  {
  }

  lemma ConsumeInTurn(s: State, d: Account, u: Account, D: Account, U: Account)
    requires (d, u) in s.receipts && InTurn(s, D, U)
    ensures InTurn(ConsumeReceipt(s, d, u), D, U)
  {
  }

  lemma DropInTurn(s: State, d: Account, u: Account, D: Account, U: Account)
    requires InTurn(s, D, U)
    ensures InTurn(DropReceipt(s, d, u), D, U)
  {
  }

  lemma SameInTurn(s: State, s': State, D: Account, U: Account)
    requires InTurn(s, D, U) && s'.history == s.history && s'.receipts == s.receipts
    ensures InTurn(s', D, U)
  {
    hide Replay;
  }

  lemma RevokeInTurn(c: Config, s: State, u: Account, d: Account, t: Token, x: nat, callback: Option<nat>, D: Account, U: Account)
    requires DoRevoke(c, s, u, d, t, x, callback).Ok? && InTurn(s, D, U)
    ensures InTurn(DoRevoke(c, s, u, d, t, x, callback).value, D, U)
  {
    hide FoldStash, Unreserve, InTurn, OpenReceipt, DropReceipt;
    if s.dominators[d].status == Evicted {
      var s1 := FoldStash(s, u, d, t).value;
      var s2 := Unreserve(c, s1, Authorized, u, t, x, d).value;
      SameInTurn(s, s2, D, U);
      DropInTurn(s2, d, u, D, U);
    } else {
      OpenInTurn(s, d, u, Revoke(t, x, s.now, callback), D, U);
    }
  }

  lemma TransferOutInTurn(c: Config, s: State, d: Account, u: Account, t: Token, x: nat, D: Account, U: Account)
    requires (d, u) in s.receipts && ApplyTransferOut(c, s, d, u, t, x).Ok? && InTurn(s, D, U)
    ensures InTurn(ApplyTransferOut(c, s, d, u, t, x).value, D, U)
  {
    hide Unreserve, InTurn, ConsumeReceipt;
    var s1 := Unreserve(c, s, Authorized, u, t, x, d).value;
    SameInTurn(s, s1, D, U);
    ConsumeInTurn(s1, d, u, D, U);
  }

  lemma TransferInInTurn(s: State, d: Account, u: Account, t: Token, x: nat, D: Account, U: Account)
    requires (d, u) in s.receipts && ApplyTransferIn(s, d, u, t, x).Ok? && InTurn(s, D, U)
    ensures InTurn(ApplyTransferIn(s, d, u, t, x).value, D, U)
  {
    hide InTurn, ConsumeReceipt;
    var k := AuthorizedKey(u, t, d);
    var s1 := s.DropReserve(ReserveKey(Stashed, u, t, d)).SetReserve(k, Get(s.reserves, k) + x);
    SameInTurn(s, s1, D, U);
    ConsumeInTurn(s1, d, u, D, U);
  }

  lemma CommandInTurn(c: Config, s: State, d: Account, p: Proof, D: Account, U: Account)
    requires !p.cmd.AskLimit? && !p.cmd.BidLimit?
    requires ApplyCommand(c, s, d, p).Ok? && InTurn(s, D, U)
    ensures InTurn(ApplyCommand(c, s, d, p).value, D, U)
  {
    hide ApplyTransferIn, ApplyTransferOut, InTurn, DropReceipt, CancelAccepted, TransferInAccepted, TransferOutAccepted, RejectOutAccepted;
    if p.cmd.TransferIn? {
      TransferInInTurn(s, d, p.user, p.cmd.token, p.cmd.amount, D, U);
    } else if p.cmd.TransferOut? {
      TransferOutInTurn(c, s, d, p.user, p.cmd.token, p.cmd.amount, D, U);
    } else if !p.cmd.Cancel? {
      DropInTurn(s, d, p.user, D, U);
    }
  }

  lemma VerifyOneInTurn(c: Config, s: State, d: Account, p: Proof, stable: set<Token>, D: Account, U: Account)
    requires c.Valid() && d in s.dominators && InTurn(s, D, U)
    requires VerifyOne(c, s, d, p, stable).Ok?
    ensures InTurn(VerifyOne(c, s, d, p, stable).value, D, U)
  {
    hide ApplyOrder, ApplyCommand, Replay;
    if !p.cmd.AskLimit? && !p.cmd.BidLimit? {
      CommandInTurn(c, s, d, p, D, U);
    }
  }

  lemma {:induction false} VerifyAllInTurn(c: Config, s: State, d: Account, proofs: seq<Proof>, stable: set<Token>, D: Account, U: Account)
    requires c.Valid() && d in s.dominators && InTurn(s, D, U)
    requires VerifyAll(c, s, d, proofs, stable).Ok?
    ensures InTurn(VerifyAll(c, s, d, proofs, stable).value, D, U)
  {
    hide VerifyOne, InTurn;
    if proofs != [] {
      var n := |proofs| - 1;
      VerifyAllInTurn(c, s, d, proofs[..n], stable, D, U);
      VerifyOneInTurn(c, VerifyAll(c, s, d, proofs[..n], stable).value, d, proofs[n], stable, D, U);
    }
  }

  lemma StepInTurn(c: Config, s: State, op: Op, D: Account, U: Account)
    requires c.Valid() && Step(c, s, op).Ok? && InTurn(s, D, U)
    ensures InTurn(Step(c, s, op).value, D, U)
  {
    hide DoStake, DoUnstake, DoClaim, DoRevoke, Reserve, VerifyAll, ReleaseAll;
    if op.Stake? || op.Unstake? || op.ClaimShares? {
      StakingKeepsDesk(c, s, op, D, U);
      QuietStep(c, s, op, U, 0, D);
    } else if op.RevokeFrom? {
      RevokeInTurn(c, s, op.u, op.d, op.t, op.x, op.callback, D, U);
    } else if op.Verify? {
      VerifyAllInTurn(c, s, op.d, op.proofs, op.stable, D, U);
    } else if op.NextBlock? {
      ReleasesKeepDesk(c, Snapshots(c, s.(now := s.now + 1)), op.order, D, U);
      ReleaseAllReceipts(c, Snapshots(c, s.(now := s.now + 1)), op.order);
    }
  }

  /** In every reachable state the receipts of every user at every dominator have opened and closed
      strictly in turn, and the stored receipt is the one the history leaves open. */
  lemma {:induction false} RunsFollowProtocol(c: Config, ops: seq<Op>, d: Account, u: Account)
    requires c.Valid()
    ensures InTurn(Run(c, ops), d, u)
  {
    hide Step;
    if ops != [] {
      var n := |ops| - 1;
      RunsFollowProtocol(c, ops[..n], d, u);
      if Step(c, Run(c, ops[..n]), ops[n]).Ok? {
        StepInTurn(c, Run(c, ops[..n]), ops[n], d, u);
      }
    }
  }

  // ---- counting ----

  function Opened(h: History, d: Account, u: Account, r: Receipt): nat {
    if h.Genesis? then 0
    else Opened(h.before, d, u, r) + if h.last == ReceiptOpened(d, u, r) then 1 else 0
  }

  function Ended(h: History, d: Account, u: Account, r: Receipt): nat {
    if h.Genesis? then 0
    else Ended(h.before, d, u, r)
         + if h.last == ReceiptConsumed(d, u, r) || h.last == ReceiptDropped(d, u, r) then 1 else 0
  }

  lemma {:induction false} TurnsCount(h: History, d: Account, u: Account, r: Receipt)
    requires Replay(h, d, u) != Broken
    ensures Opened(h, d, u, r) == Ended(h, d, u, r) + if Replay(h, d, u) == Open(r) then 1 else 0
  {
    if h.Then? {
      TurnsCount(h.before, d, u, r);
    }
  }

  /** No receipt ends more often than it was opened, and only an open one is still to come. */
  lemma NoReceiptEndsTwice(c: Config, ops: seq<Op>, d: Account, u: Account, r: Receipt)
    requires c.Valid()
    ensures Opened(Run(c, ops).history, d, u, r)
            == Ended(Run(c, ops).history, d, u, r)
               + if (d, u) in Run(c, ops).receipts && Run(c, ops).receipts[(d, u)] == r then 1 else 0
  {
    hide Run;
    RunsFollowProtocol(c, ops, d, u);
    TurnsCount(Run(c, ops).history, d, u, r);
  }

  /** An accepted transfer consumes exactly the open receipt, and that receipt asked for just this. */
  lemma TransfersConsume(c: Config, s: State, d: Account, p: Proof, stable: set<Token>)
    requires c.Valid() && d in s.dominators
    requires VerifyOne(c, s, d, p, stable).Ok? && (p.cmd.TransferIn? || p.cmd.TransferOut?)
    ensures (d, p.user) in s.receipts
    ensures var r := s.receipts[(d, p.user)];
            && r.Authorize? == p.cmd.TransferIn? && r.token == p.cmd.token && r.amount == p.cmd.amount
            && VerifyOne(c, s, d, p, stable).value.history == Then(s.history, ReceiptConsumed(d, p.user, r))
            && VerifyOne(c, s, d, p, stable).value.receipts == s.receipts - {(d, p.user)}
  {
    hide Unreserve, Proves, TransferInAccepted, TransferOutAccepted, ApplyOrder;
  }
}
