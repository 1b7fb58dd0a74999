/** Which escrowed money can still move.  A hold whose creation gave up before recording it, and the hold of an accepted
    contract that names the client's own wallet or none as the freelancer's, stay active for good; every other active
    hold can be settled. */
module EscrowTrap {
  import opened ContractsDb
  import opened Escrow
  import opened EscrowInvariant
  import opened EscrowMessageSteps
  import opened EscrowRuns
  import opened EscrowExample
  import opened EscrowRetry
  import E = EscrowTheorems
  import P = PaymentsDb
  import W = EscrowWakeUp

  predicate IsSettled(s: System, h: nat) {
    h < |s.pay.holds| && !s.pay.holds[h].status.Active?
  }

  // Some continuation releases or transfers hold h.
  ghost predicate CanSettle(s: System, h: nat) {
    exists steps :: CanRun(s, steps) && IsSettled(Run(s, steps), h)
  }

  // Some continuation does so without giving the contract's missing freelancer wallet id to a new wallet.
  ghost predicate CanSettleFresh(s: System, h: nat) {
    && h < |s.pay.holds|
    && exists steps ::
         CanRun(s, steps) && IsSettled(Run(s, steps), h) && Fresh(s, Run(s, steps), s.pay.holds[h].contract)
  }

  // ----- trapped -----

  predicate GaveUp(create: Create) {
    create.pc.GotError? || create.pc.CreateEnded?
  }

  // The contract's creation saw an error or stopped, and no hold id was recorded: cancelled, or PENDING for good.
  predicate Abandoned(s: System, c: nat) {
    && c < |s.con.rows| && c < |s.creates|
    && (s.con.rows[c].status.Cancelled? || (s.con.rows[c].status.Pending? && GaveUp(s.creates[c])))
  }

  lemma GivenUpStays(s: System, step: Step, c: nat)
    requires Enabled(s, step) && c < |s.creates| && GaveUp(s.creates[c])
    ensures c < |Apply(s, step).creates| && GaveUp(Apply(s, step).creates[c])
  {
  }

  lemma CallsSparePending(s: System, step: Step, c: nat)
    requires Enabled(s, step) && (step.Accept? || step.Claim? || step.Finish? || step.Deliver?)
    requires c < |s.con.rows| && s.con.rows[c].status.Pending?
    ensures c < |Apply(s, step).con.rows| && Apply(s, step).con.rows[c] == s.con.rows[c]
  {
  }

  // Only its own creation moves a PENDING contract to HOLD_PENDING.
  lemma PendingIsLeftByRecord(s: System, step: Step, c: nat)
    requires Enabled(s, step) && c < |s.con.rows| && s.con.rows[c].status.Pending? && step != RecordHold(c)
    ensures c < |Apply(s, step).con.rows|
    ensures Apply(s, step).con.rows[c].status.Pending? || Apply(s, step).con.rows[c].status.Cancelled?
  {
    if !E.MovesContracts(step) {
      E.QuietStep(s, step);
    } else if step.Accept? || step.Claim? || step.Finish? || step.Deliver? {
      CallsSparePending(s, step, c);
    }
  }

  lemma CreationsStay(s: System, step: Step)
    requires Enabled(s, step)
    ensures |s.creates| <= |Apply(s, step).creates|
  {
  }

  lemma CancelledStays(s: System, step: Step, c: nat)
    requires Inv(s) && Enabled(s, step) && HasStatus(s, c, Cancelled)
    ensures HasStatus(Apply(s, step), c, Cancelled)
  {
    E.StepGrowsRows(s, step);
    assert RowEvolves(s.con.rows[c], Apply(s, step).con.rows[c]);
  }

  lemma AbandonedStays(s: System, step: Step, c: nat)
    requires Inv(s) && Enabled(s, step) && Abandoned(s, c)
    ensures Abandoned(Apply(s, step), c)
  {
    if s.con.rows[c].status.Cancelled? {
      CreationsStay(s, step);
      CancelledStays(s, step, c);
    } else {
      GivenUpStays(s, step, c);
      PendingIsLeftByRecord(s, step, c);
    }
  }

  lemma {:induction false} AbandonedForever(s: System, steps: seq<Step>, c: nat)
    requires Inv(s) && CanRun(s, steps) && Abandoned(s, c)
    ensures Abandoned(Run(s, steps), c)
    decreases |steps|
  {
    if steps == [] {
    } else {
      AbandonedStays(s, steps[0], c);
      StepKeepsInv(s, steps[0]);
      AbandonedForever(Apply(s, steps[0]), steps[1..], c);
    }
  }

  /** Trapped money: the hold of an abandoned contract is active and never changes again, whatever runs. */
  lemma AbandonedHoldIsTrapped(s: System, steps: seq<Step>, h: nat)
    requires Reachable(s) && CanRun(s, steps) && h < |s.pay.holds| && Abandoned(s, s.pay.holds[h].contract)
    ensures s.pay.holds[h].status.Active?
    ensures h < |Run(s, steps).pay.holds| && Run(s, steps).pay.holds[h] == s.pay.holds[h]
  {
    ReachableInv(s);
    E.PayoutExclusive(s, h);
    AbandonedForever(s, steps, s.pay.holds[h].contract);
    E.SettlementIsFinal(s, steps, h);
    ReachRun(s, steps);
    E.PayoutExclusive(Run(s, steps), h);
  }

  lemma AbandonedCannotSettle(s: System, h: nat)
    requires Reachable(s) && h < |s.pay.holds| && Abandoned(s, s.pay.holds[h].contract)
    ensures !CanSettle(s, h)
  {
    forall steps | CanRun(s, steps) ensures !IsSettled(Run(s, steps), h) {
      AbandonedHoldIsTrapped(s, steps, h);
    }
  }

  lemma StopAbandons(s: System, c: nat)
    requires c < |s.con.rows| && c < |s.creates| && s.con.rows[c].status.Pending?
    ensures Abandoned(Apply(s, StopCreate(c)), c) && Apply(s, StopCreate(c)).pay == s.pay
  {
  }

  /** Between the hold and its record one stop of the process is enough: from every reachable state in which a placed
      hold's contract is still PENDING some continuation traps the hold. */
  lemma UnrecordedHoldCanBeTrapped(s: System, h: nat)
    requires Reachable(s) && h < |s.pay.holds|
    requires var c := s.pay.holds[h].contract; c < |s.con.rows| && s.con.rows[c].status.Pending?
    ensures exists steps :: CanRun(s, steps) && !CanSettle(Run(s, steps), h)
  {
    var c := s.pay.holds[h].contract;
    E.ContractFacts(s, c);
    var stopped := Apply(s, StopCreate(c));
    StopAbandons(s, c);
    ReachNext(s, StopCreate(c));
    AbandonedCannotSettle(stopped, h);
    var one := [StopCreate(c)];
    assert CanRun(s, one) && Run(s, one) == stopped by {
      assert one[1..] == [];
    }
  }

  // ----- free -----

  lemma FinalIsSettled(s: System, h: nat, op: Settlement)
    requires Reachable(s) && h < |s.pay.holds| && HasStatus(s, s.pay.holds[h].contract, Final(op))
    ensures IsSettled(s, h)
  {
    E.HoldFacts(s, h);
    E.ContractFacts(s, s.pay.holds[h].contract);
  }

  // Finishing the contract settles its hold.
  lemma FinishSettles(s: System, h: nat, op: Settlement)
    requires Reachable(s) && h < |s.pay.holds| && CanReachFresh(s, s.pay.holds[h].contract, Final(op))
    ensures CanSettleFresh(s, h)
  {
    var c := s.pay.holds[h].contract;
    var steps :| CanRun(s, steps) && HasStatus(Run(s, steps), c, Final(op)) && Fresh(s, Run(s, steps), c);
    ReachRun(s, steps);
    E.SettlementIsFinal(s, steps, h);
    FinalIsSettled(Run(s, steps), h, op);
  }

  lemma GotHoldCanRecord(s: System, c: nat)
    requires c < |s.con.rows| && c < |s.creates| && s.con.rows[c].status.Pending? && s.creates[c].pc.GotHold?
    ensures CanReachUnseeded(s, c, HoldPending)
  {
    ReachedAlready(Apply(s, RecordHold(c)), c, HoldPending);
    ReachedAfter(s, RecordHold(c), c, HoldPending);
  }

  // A creation that has not given up can still record its hold.
  lemma CreationCanRecord(s: System, h: nat)
    requires Reachable(s) && h < |s.pay.holds|
    requires var c := s.pay.holds[h].contract;
             c < |s.con.rows| && c < |s.creates| && s.con.rows[c].status.Pending? && !GaveUp(s.creates[c])
    ensures CanReachUnseeded(s, s.pay.holds[h].contract, HoldPending)
  {
    var c := s.pay.holds[h].contract;
    E.HoldFacts(s, h);
    if s.creates[c].pc.GotHold? {
      GotHoldCanRecord(s, c);
    } else {
      GotHoldCanRecord(Apply(s, HoldAnswered(c)), c);
      ReachedAfter(s, HoldAnswered(c), c, HoldPending);
    }
  }

  lemma RecordedIsReturned(s: System, c: nat)
    requires Reachable(s) && CanReachUnseeded(s, c, HoldPending)
    ensures CanReachUnseeded(s, c, Declined)
  {
    var first :|
      CanRun(s, first) && HasStatus(Run(s, first), c, HoldPending) && |Run(s, first).pay.wallets| == |s.pay.wallets|;
    ReachRun(s, first);
    W.EscrowCanBeReturned(Run(s, first), c);
    ReachThrough(s, first, c, Declined);
  }

  // Before a contract is accepted its hold can be released unless its creation gave it up.
  lemma UnacceptedCanSettle(s: System, h: nat)
    requires Reachable(s) && h < |s.pay.holds| && s.pay.holds[h].status.Active?
    requires var c := s.pay.holds[h].contract; c < |s.con.rows| && !Abandoned(s, c) && !Payable(s.con.rows[c].status)
    ensures CanSettleFresh(s, h)
  {
    var c := s.pay.holds[h].contract;
    E.HoldFacts(s, h);
    E.ContractFacts(s, c);
    match s.con.rows[c].status {
      case Pending =>
        CreationCanRecord(s, h);
        RecordedIsReturned(s, c);
        UnseededIsFresh(s, c, Declined);
      case Declining =>
        RetryFinishesIff(s, Cancel, c);
      case _ =>
        W.EscrowCanBeReturned(s, c);
        UnseededIsFresh(s, c, Declined);
    }
    FinishSettles(s, h, Cancel);
  }

  lemma PayableCanSettle(s: System, h: nat)
    requires Reachable(s) && h < |s.pay.holds| && s.pay.holds[h].status.Active?
    requires var c := s.pay.holds[h].contract;
             && c < |s.con.rows| && Payable(s.con.rows[c].status)
             && PayeeExists(s, s.con.rows[c]) && PayeeFits(s, Complete, c)
    ensures CanSettleFresh(s, h)
  {
    var c := s.pay.holds[h].contract;
    E.HoldFacts(s, h);
    E.ContractFacts(s, c);
    if s.con.rows[c].status.Active? {
      OpenContractFinishesIff(s, Complete, c);
    } else {
      RetryFinishesIff(s, Complete, c);
    }
    FinishSettles(s, h, Complete);
  }

  // ----- exactly which -----

  // New wallets make a difference only to a contract whose freelancer wallet is missing.
  lemma WithWalletSettlesFresh(s: System, h: nat)
    requires h < |s.pay.holds| && s.pay.holds[h].contract < |s.con.rows|
    requires s.con.rows[s.pay.holds[h].contract].freelancer < |s.pay.wallets|
    ensures CanSettle(s, h) <==> CanSettleFresh(s, h)
  {
    if steps :| CanRun(s, steps) && IsSettled(Run(s, steps), h) {
      assert Fresh(s, Run(s, steps), s.pay.holds[h].contract);
    }
  }

  lemma NoPayeeCannotSettle(s: System, h: nat)
    requires Reachable(s) && h < |s.pay.holds| && s.pay.holds[h].status.Active?
    requires var c := s.pay.holds[h].contract;
             c < |s.con.rows| && Payable(s.con.rows[c].status) && !PayeeExists(s, s.con.rows[c])
    ensures !CanSettleFresh(s, h)
  {
    var c := s.pay.holds[h].contract;
    E.HoldFacts(s, h);
    E.ContractFacts(s, c);
    forall steps | CanRun(s, steps) && Fresh(s, Run(s, steps), c) ensures !IsSettled(Run(s, steps), h) {
      NoPayeeNeverFinishes(s, steps, c);
    }
  }

  /** Exactly which escrowed money can still move: an active hold can be settled unless the creation of its contract gave
      up before recording it, or the contract was accepted and does not name an existing wallet other than the client's. */
  lemma ActiveHoldSettlesIff(s: System, h: nat)
    requires Reachable(s) && h < |s.pay.holds| && s.pay.holds[h].status.Active?
    requires var c := s.pay.holds[h].contract;
             c < |s.con.rows| && Payable(s.con.rows[c].status) ==> PayeeFits(s, Complete, c)
    ensures s.pay.holds[h].contract < |s.con.rows|
    ensures var c := s.pay.holds[h].contract;
            && (CanSettleFresh(s, h) <==>
                  !Abandoned(s, c) && (Payable(s.con.rows[c].status) ==> PayeeExists(s, s.con.rows[c])))
            && ((Payable(s.con.rows[c].status) ==> s.con.rows[c].freelancer < |s.pay.wallets|) ==>
                  (CanSettle(s, h) <==> CanSettleFresh(s, h)))
  {
    E.HoldFacts(s, h);
    var c := s.pay.holds[h].contract;
    if s.con.rows[c].freelancer < |s.pay.wallets| {
      WithWalletSettlesFresh(s, h);
    }
    if Abandoned(s, c) {
      AbandonedCannotSettle(s, h);
    } else if !Payable(s.con.rows[c].status) {
      UnacceptedCanSettle(s, h);
    } else if PayeeExists(s, s.con.rows[c]) {
      PayableCanSettle(s, h);
    } else {
      NoPayeeCannotSettle(s, h);
    }
  }

  /** The trap is real: the hold is placed, its answer is lost, and the compensation cancels the contract.  Half of the
      client's balance stays reserved for a cancelled contract, for good. */
  lemma TrappedHoldExists() returns (s: System)
    ensures Reachable(s) && HasStatus(s, 0, Cancelled)
    ensures |s.pay.holds| == 1 && s.pay.holds[0] == P.Hold(0, 50, P.Active, 0)
    ensures !CanSettle(s, 0)
  {
    var placed := Placed(1);
    PlacedReachable(1);
    ReachNext(placed, HoldFails(0));
    ReachNext(Apply(placed, HoldFails(0)), Compensate(0));
    s := Apply(Apply(placed, HoldFails(0)), Compensate(0));
    AbandonedCannotSettle(s, 0);
  }
}
