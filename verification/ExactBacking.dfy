/** Without rejected deposits every reserved unit is promised to exactly one purpose. */
module ExactBacking {
  import opened Results
  import opened VerifierTypes
  import opened VerifierState
  import opened VerifierSteps
  import opened Entries
  import opened Solvency
  import opened Receipts
  import opened Eviction

  /** What the open receipt of `u` at `d` expects to find in the stash of token `t`. */
  function Owed(s: State, d: Account, u: Account, t: Token): nat {
    if (d, u) in s.receipts && s.receipts[(d, u)].Authorize? && s.receipts[(d, u)].token == t
    then s.receipts[(d, u)].amount else 0
  }

  predicate ExactAt(s: State, d: Account, u: Account, t: Token) {
    IsEvicted(s, d) || Stash(s, u, t, d) == Owed(s, d, u, t)
  }

  ghost predicate ExactlyBacked(s: State) {
    && (forall u, t :: Slack(s, u, t) == 0)
    && (forall d, u, t :: ExactAt(s, d, u, t))
  }

  /** No proof of the run gives up a deposit. */
  predicate NoRejectedDeposit(op: Op) {
    op.Verify? ==> forall i :: 0 <= i < |op.proofs| ==> !op.proofs[i].cmd.RejectTransferIn?
  }

  lemma ApplyExact(c: Config, s: State, d: Account, p: Proof, stable: set<Token>, D: Account, U: Account, T: Token)
    requires c.Valid() && d in s.dominators && s.dominators[d].status != Evicted
    requires ExactAt(s, D, U, T) && !p.cmd.RejectTransferIn?
    requires Apply(c, s, d, p, stable).Ok?
    ensures ExactAt(Apply(c, s, d, p, stable).value, D, U, T)
  {
    hide ApplyOrder, ApplyCommand;
    var j := ReserveKey(Stashed, U, T, D);
    if p.cmd.AskLimit? || p.cmd.BidLimit? {
      OrderEntry(c, s, d, p, stable, j);
    } else {
      CommandReceipts(c, s, d, p);
      CommandEntry(c, s, d, p, j);
    }
  }

  lemma VerifyOneExact(c: Config, s: State, d: Account, p: Proof, stable: set<Token>, D: Account, U: Account, T: Token)
    requires c.Valid() && d in s.dominators && s.dominators[d].status != Evicted
    requires ExactAt(s, D, U, T) && !p.cmd.RejectTransferIn?
    requires VerifyOne(c, s, d, p, stable).Ok?
    ensures ExactAt(VerifyOne(c, s, d, p, stable).value, D, U, T)
  {
    hide Apply;
    ApplyExact(c, s, d, p, stable, D, U, T);
    VerifyOneDominator(c, s, d, p, stable, D);
  }

  lemma NothingFreed(c: Config, s: State, d: Account, p: Proof, stable: set<Token>, U: Account, T: Token)
    requires c.Valid() && d in s.dominators && s.dominators[d].status != Evicted
    requires Apply(c, s, d, p, stable).Ok? && ExactAt(s, d, U, T)
    ensures Freed(s, d, p, U, T) == 0
  {
    hide ApplyOrder, ApplyCommand;
    if p.cmd.TransferIn? {
      CommandReceipts(c, s, d, p);
    }
  }

  lemma {:induction false} VerifyAllExact(c: Config, s: State, d: Account, proofs: seq<Proof>, stable: set<Token>)
    requires c.Valid() && d in s.dominators && s.dominators[d].status != Evicted && ExactlyBacked(s)
    requires forall i :: 0 <= i < |proofs| ==> !proofs[i].cmd.RejectTransferIn?
    requires VerifyAll(c, s, d, proofs, stable).Ok?
    ensures ExactlyBacked(VerifyAll(c, s, d, proofs, stable).value)
  {
    hide VerifyOne, Slack, ExactAt, IsEvicted, Freed;
    if proofs != [] {
      var n := |proofs| - 1;
      var s1, s' := VerifyAll(c, s, d, proofs[..n], stable).value, VerifyAll(c, s, d, proofs, stable).value;
      VerifyAllExact(c, s, d, proofs[..n], stable);
      StillLive(c, s, d, proofs[..n], stable);
      forall u, t ensures Slack(s', u, t) == 0 {
        VerifyOneKeepsZero(c, s1, d, proofs[n], stable, u, t);
      }
      forall d', u, t ensures ExactAt(s', d', u, t) {
        VerifyOneExact(c, s1, d, proofs[n], stable, d', u, t);
      }
    }
  }

  lemma StillLive(c: Config, s: State, d: Account, proofs: seq<Proof>, stable: set<Token>)
    requires c.Valid() && d in s.dominators && s.dominators[d].status != Evicted
    requires VerifyAll(c, s, d, proofs, stable).Ok?
    ensures VerifyAll(c, s, d, proofs, stable).value.dominators[d].status != Evicted
  {
    hide VerifyAll;
    VerifyAllDominator(c, s, d, proofs, stable, d);
  }

  lemma VerifyOneKeepsZero(c: Config, s: State, d: Account, p: Proof, stable: set<Token>, U: Account, T: Token)
    requires c.Valid() && d in s.dominators && s.dominators[d].status != Evicted
    requires VerifyOne(c, s, d, p, stable).Ok? && Slack(s, U, T) == 0 && ExactAt(s, d, U, T)
    ensures Slack(VerifyOne(c, s, d, p, stable).value, U, T) == 0
  {
    hide Apply, Freed, Promised;
    ApplySlack(c, s, d, p, stable, U, T);
    NothingFreed(c, s, d, p, stable, U, T);
  }

  lemma StepExact(c: Config, s: State, op: Op, D: Account, U: Account, T: Token)
    requires c.Valid() && Step(c, s, op).Ok? && !op.Verify? && ExactAt(s, D, U, T)
    ensures ExactAt(Step(c, s, op).value, D, U, T)
  {
    hide DoStake, DoUnstake, DoClaim, DoNextBlock, DoRevoke, Reserve, IsEvicted;
    var j := ReserveKey(Stashed, U, T, D);
    StepDominator(c, s, op, D);
    if op.AuthorizeTo? {
      AuthorizeEntry(s, op.u, op.d, op.t, op.x, j);
    } else if op.RevokeFrom? {
      RevokeExact(c, s, op.u, op.d, op.t, op.x, op.callback, D, U, T);
    } else {
      QuietStep(c, s, op, U, T, D);
    }
  }

  lemma RevokeExact(c: Config, s: State, u: Account, d: Account, t: Token, x: nat, callback: Option<nat>, D: Account, U: Account, T: Token)
    requires DoRevoke(c, s, u, d, t, x, callback).Ok? && ExactAt(s, D, U, T)
    ensures ExactAt(DoRevoke(c, s, u, d, t, x, callback).value, D, U, T)
  {
    hide DoRevoke;
    var j := ReserveKey(Stashed, U, T, D);
    RevokeReceipts(c, s, u, d, t, x, callback);
    RevokeDominators(c, s, u, d, t, x, callback);
    if s.dominators[d].status == Evicted {
      EvictedRevokeEntry(c, s, u, d, t, x, callback, j);
    } else {
      PlainRevokeEntry(c, s, u, d, t, x, callback, j);
    }
  }

  lemma StepExactlyBacked(c: Config, s: State, op: Op)
    requires c.Valid() && ExactlyBacked(s) && NoRejectedDeposit(op)
    ensures ExactlyBacked(After(c, s, op))
  {
    hide Step, Slack, ExactAt, VerifyAll;
    var s' := After(c, s, op);
    if Step(c, s, op).Ok? {
      if op.Verify? {
        VerifySteps(c, s, op);
        VerifyAllExact(c, s, op.d, op.proofs, op.stable);
      } else {
        forall u, t ensures Slack(s', u, t) == 0 {
          StepSlack(c, s, op, u, t);
        }
        forall d, u, t ensures ExactAt(s', d, u, t) {
          StepExact(c, s, op, d, u, t);
        }
      }
    }
  }

  /** Equality of reserved balance and promises holds in every run without rejected deposits: the
      only thing that can break it is a TransferIn that drops a stash left over from one. */
  lemma {:induction false} RunsExactlyBacked(c: Config, ops: seq<Op>)
    requires c.Valid()
    requires forall i :: 0 <= i < |ops| ==> NoRejectedDeposit(ops[i])
    ensures ExactlyBacked(Run(c, ops))
  {
    hide Slack, After, NoRejectedDeposit;
    if ops == [] {
      GenesisBacked();
    } else {
      var n := |ops| - 1;
      RunsExactlyBacked(c, ops[..n]);
      StepExactlyBacked(c, Run(c, ops[..n]), ops[n]);
    }
  }
}
