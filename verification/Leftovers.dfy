/** By how much reserved balance exceeds the promises: exactly what TransferIns dropped along the run. */
module Leftovers {
  import opened VerifierTypes
  import opened VerifierState
  import opened VerifierSteps
  import opened Solvency
  import opened Receipts

  /** What the TransferIns of a batch drop of `U`'s stash beyond what their receipts ask for. */
  function DroppedIn(c: Config, s: State, d: Account, proofs: seq<Proof>, stable: set<Token>, U: Account, T: Token): int
    requires c.Valid() && d in s.dominators && VerifyAll(c, s, d, proofs, stable).Ok?
  {
    if proofs == [] then 0
    else
      var n := |proofs| - 1;
      DroppedIn(c, s, d, proofs[..n], stable, U, T)
      + Freed(VerifyAll(c, s, d, proofs[..n], stable).value, d, proofs[n], U, T)
  }

  /** The same over a whole run. */
  ghost function Dropped(c: Config, ops: seq<Op>, U: Account, T: Token): int
    requires c.Valid()
  {
    if ops == [] then 0
    else
      var n := |ops| - 1;
      var s, op := Run(c, ops[..n]), ops[n];
      Dropped(c, ops[..n], U, T)
      + if op.Verify? && op.d in s.dominators && Step(c, s, op).Ok? && VerifyAll(c, s, op.d, op.proofs, op.stable).Ok?
        then DroppedIn(c, s, op.d, op.proofs, op.stable, U, T) else 0
  }

  lemma {:induction false} BatchDrops(c: Config, s: State, d: Account, proofs: seq<Proof>, stable: set<Token>, U: Account, T: Token)
    requires c.Valid() && d in s.dominators && Backed(s) && VerifyAll(c, s, d, proofs, stable).Ok?
    ensures Slack(VerifyAll(c, s, d, proofs, stable).value, U, T) == Slack(s, U, T) + DroppedIn(c, s, d, proofs, stable, U, T)
    ensures DroppedIn(c, s, d, proofs, stable, U, T) >= 0
  {
    hide VerifyOne, Slack, CoveredAt, Freed;
    if proofs != [] {
      var n := |proofs| - 1;
      BatchDrops(c, s, d, proofs[..n], stable, U, T);
      VerifyAllBacked(c, s, d, proofs[..n], stable);
      VerifyOneBacked(c, VerifyAll(c, s, d, proofs[..n], stable).value, d, proofs[n], stable, U, T, d);
    }
  }

  /** Solvency in closed form: after every run, reserved balance minus promises is exactly the total that
      TransferIns dropped, and that is never negative. */
  lemma {:induction false} SlackIsWhatWasDropped(c: Config, ops: seq<Op>, U: Account, T: Token)
    requires c.Valid()
    ensures Slack(Run(c, ops), U, T) == Dropped(c, ops, U, T) >= 0
  {
    hide Step, Slack, VerifyAll, DroppedIn, Backed;
    if ops == [] {
      GenesisBacked();
    } else {
      var n := |ops| - 1;
      var s, op := Run(c, ops[..n]), ops[n];
      SlackIsWhatWasDropped(c, ops[..n], U, T);
      if Step(c, s, op).Ok? {
        if op.Verify? {
          VerifySteps(c, s, op);
          RunsAreBacked(c, ops[..n]);
          BatchDrops(c, s, op.d, op.proofs, op.stable, U, T);
        } else {
          StepSlack(c, s, op, U, T);
        }
      }
    }
  }
}
