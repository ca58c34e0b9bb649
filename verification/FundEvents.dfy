/** Only staking calls and the block hook leave events about staked funds behind. */
module FundEvents {
  import opened Results
  import opened VerifierTypes
  import opened VerifierState
  import opened VerifierSteps
  import opened StakeLedgers

  predicate AboutReceipt(e: Event) { e.ReceiptOpened? || e.ReceiptConsumed? || e.ReceiptDropped? }

  /** A history without its receipt events. */
  function Funds(h: History): History {
    if h.Genesis? then Genesis
    else if AboutReceipt(h.last) then Funds(h.before)
    else Then(Funds(h.before), h.last)
  }

  lemma TransferInFunds(s: State, d: Account, u: Account, t: Token, x: nat)
    requires (d, u) in s.receipts && ApplyTransferIn(s, d, u, t, x).Ok?
    ensures Funds(ApplyTransferIn(s, d, u, t, x).value.history) == Funds(s.history)
  {
  }

  lemma TransferOutFunds(c: Config, s: State, d: Account, u: Account, t: Token, x: nat)
    requires (d, u) in s.receipts && ApplyTransferOut(c, s, d, u, t, x).Ok?
    ensures Funds(ApplyTransferOut(c, s, d, u, t, x).value.history) == Funds(s.history)
  {
    hide Unreserve;
  }

  lemma CommandFunds(c: Config, s: State, d: Account, p: Proof)
    requires !p.cmd.AskLimit? && !p.cmd.BidLimit? && ApplyCommand(c, s, d, p).Ok?
    ensures Funds(ApplyCommand(c, s, d, p).value.history) == Funds(s.history)
  {
    hide ApplyTransferIn, ApplyTransferOut, CancelAccepted, TransferInAccepted, TransferOutAccepted, RejectOutAccepted;
    if p.cmd.TransferIn? {
      TransferInFunds(s, d, p.user, p.cmd.token, p.cmd.amount);
    } else if p.cmd.TransferOut? {
      TransferOutFunds(c, s, d, p.user, p.cmd.token, p.cmd.amount);
    }
  }

  lemma VerifyOneFunds(c: Config, s: State, d: Account, p: Proof, stable: set<Token>)
    requires c.Valid() && d in s.dominators && VerifyOne(c, s, d, p, stable).Ok?
    ensures var s' := VerifyOne(c, s, d, p, stable).value;
            s'.now == s.now && s'.pending == s.pending && Funds(s'.history) == Funds(s.history)
  {
    hide ApplyOrder, ApplyCommand, Proves, Updated, Funds;
    if !p.cmd.AskLimit? && !p.cmd.BidLimit? {
      CommandFunds(c, s, d, p);
    }
  }

  lemma {:induction false} VerifyAllFunds(c: Config, s: State, d: Account, proofs: seq<Proof>, stable: set<Token>)
    requires c.Valid() && d in s.dominators && VerifyAll(c, s, d, proofs, stable).Ok?
    ensures var s' := VerifyAll(c, s, d, proofs, stable).value;
            s'.now == s.now && s'.pending == s.pending && Funds(s'.history) == Funds(s.history)
  {
    hide VerifyOne, Funds;
    if proofs != [] {
      var n := |proofs| - 1;
      VerifyAllFunds(c, s, d, proofs[..n], stable);
      VerifyOneFunds(c, VerifyAll(c, s, d, proofs[..n], stable).value, d, proofs[n], stable);
    }
  }

  lemma RevokeFunds(c: Config, s: State, u: Account, d: Account, t: Token, x: nat, callback: Option<nat>)
    requires DoRevoke(c, s, u, d, t, x, callback).Ok?
    ensures Funds(DoRevoke(c, s, u, d, t, x, callback).value.history) == Funds(s.history)
  {
    hide FoldStash, Unreserve, DropReceipt, OpenReceipt, Funds;
    if s.dominators[d].status == Evicted {
      var s1 := FoldStash(s, u, d, t).value;
      DropFunds(Unreserve(c, s1, Authorized, u, t, x, d).value, d, u);
    } else {
      OpenFunds(s, d, u, Revoke(t, x, s.now, callback));
    }
  }

  lemma DropFunds(s: State, d: Account, u: Account)
    ensures Funds(DropReceipt(s, d, u).history) == Funds(s.history)
  {
  }

  lemma OpenFunds(s: State, d: Account, u: Account, r: Receipt)
    ensures Funds(OpenReceipt(s, d, u, r).history) == Funds(s.history)
  {
  }

  /** Calls outside staking leave the clock, the unstake queue and the record of funds alone. */
  lemma QuietFunds(c: Config, s: State, op: Op)
    requires c.Valid() && Step(c, s, op).Ok? && !IsStaking(op) && !op.NextBlock?
    ensures var s' := Step(c, s, op).value;
            s'.now == s.now && s'.pending == s.pending && Funds(s'.history) == Funds(s.history)
  {
    hide DoRevoke, Reserve, VerifyAll;
    if op.RevokeFrom? {
      RevokeFunds(c, s, op.u, op.d, op.t, op.x, op.callback);
    } else if op.Verify? {
      VerifyAllFunds(c, s, op.d, op.proofs, op.stable);
    }
  }
}
