/** Retrying a settlement: CompleteContract and CancelContract can be called again from COMPLETING and DECLINING.
    This says exactly when that still finishes the contract. */
module EscrowRetry {
  import opened Wrappers
  import opened Sums
  import opened ContractsDb
  import opened Escrow
  import opened EscrowInvariant
  import opened EscrowMessageSteps
  import opened EscrowRuns
  import opened EscrowExample
  import E = EscrowTheorems
  import P = PaymentsDb
  import T = LedgerTheorems

  // A call for this settlement that has, or is about to be told, the successful answer.
  ghost predicate AnswerInHand(call: Call, op: Settlement, c: nat) {
    call.op == op && call.contract == c && (call.pc.ToFinish? || (call.pc.AwaitReply? && call.http == Answered(P.Done)))
  }

  ghost predicate SomeAnswerInHand(s: System, op: Settlement, c: nat) {
    exists i :: 0 <= i < |s.calls| && AnswerInHand(s.calls[i], op, c)
  }

  ghost predicate HoldStillActive(s: System, c: nat) {
    && c < |s.con.rows| && s.con.rows[c].hold.Some?
    && s.con.rows[c].hold.value < |s.pay.holds| && s.pay.holds[s.con.rows[c].hold.value].status.Active?
  }

  // What a transfer asks of the freelancer's wallet; a release asks nothing.
  ghost predicate PayeeReady(s: System, op: Settlement, c: nat) {
    op.Complete? ==>
      && c < |s.con.rows| && s.con.rows[c].freelancer < |s.pay.wallets| && s.con.rows[c].freelancer != s.con.rows[c].client
      && s.pay.wallets[s.con.rows[c].freelancer].balance + s.con.rows[c].amount <= P.INT64_MAX
  }

  // ----- it can finish -----

  lemma FinishFromAnswer(s: System, i: nat, op: Settlement, c: nat)
    requires i < |s.calls| && AnswerInHand(s.calls[i], op, c) && HasStatus(s, c, Claimed(op))
    ensures CanReachUnseeded(s, c, Final(op))
  {
    if s.calls[i].pc.ToFinish? {
      ReachedAlready(Apply(s, Finish(i)), c, Final(op));
      ReachedAfter(s, Finish(i), c, Final(op));
    } else {
      var told := Apply(s, SettleAnswered(i));
      ReachedAlready(Apply(told, Finish(i)), c, Final(op));
      ReachedAfter(told, Finish(i), c, Final(op));
      ReachedAfter(s, SettleAnswered(i), c, Final(op));
    }
  }

  // The settlement of a hold that is still active is answered with success.
  lemma SettlementSucceeds(s: System, call: Call, c: nat)
    requires Inv(s) && HoldStillActive(s, c) && PayeeReady(s, call.op, c)
    requires call.contract == c && call.hold == s.con.rows[c].hold && call.payee == s.con.rows[c].freelancer
    ensures P.Execute(s.pay, SettleOp(call, 0)).1 == P.Done
  {
    var h := s.con.rows[c].hold.value;
    assert ContractOk(c, s.con.rows[c], s.creates[c], s.pay.holds);
    assert HoldOk(h, s.pay.holds[h], s.con.rows, s.creates);
    if call.op.Complete? {
      T.TransferSucceedsIff(s.pay, h, call.payee, 0);
    }
  }

  lemma SendGoes(s: System, i: nat)
    requires i < |s.calls| && s.calls[i].pc.ToSend? && s.calls[i].hold.Some?
    ensures Enabled(s, Send(i)) && Apply(s, Send(i)) == SetCall(s, i, s.calls[i].(pc := AwaitReply, http := InFlight))
  {
  }

  lemma ArrivalSettles(s: System, i: nat, c: nat)
    requires i < |s.calls| && s.calls[i].http.InFlight? && HoldStillActive(s, c) && s.calls[i].hold == s.con.rows[c].hold
    requires P.Execute(s.pay, SettleOp(s.calls[i], 0)).1 == P.Done
    ensures Enabled(s, SettleArrives(i, 0))
    ensures var arrived := Apply(s, SettleArrives(i, 0));
            && arrived.con == s.con && !HoldStillActive(arrived, c)
            && arrived.calls == s.calls[i := s.calls[i].(http := Answered(P.Done))]
  {
  }

  // The request is sent and carried out: the answer is on its way, and the hold is settled.
  lemma SendIsAnswered(s: System, i: nat, op: Settlement, c: nat)
    requires Inv(s) && i < |s.calls| && c < |s.con.rows| && HoldStillActive(s, c) && PayeeReady(s, op, c)
    requires s.calls[i] == Call(op, c, s.con.rows[c].hold, s.con.rows[c].freelancer, ToSend, Unsent)
    ensures Enabled(s, Send(i)) && Enabled(Apply(s, Send(i)), SettleArrives(i, 0))
    ensures var arrived := Apply(Apply(s, Send(i)), SettleArrives(i, 0));
            && arrived.con == s.con && !HoldStillActive(arrived, c)
            && arrived.calls == s.calls[i := s.calls[i].(pc := AwaitReply, http := Answered(P.Done))]
  {
    SettlementSucceeds(s, s.calls[i], c);
    SendGoes(s, i);
    ArrivalSettles(Apply(s, Send(i)), i, c);
  }

  lemma FinishFromSend(s: System, i: nat, op: Settlement, c: nat)
    requires Inv(s) && i < |s.calls| && HasStatus(s, c, Claimed(op)) && HoldStillActive(s, c) && PayeeReady(s, op, c)
    requires s.calls[i] == Call(op, c, s.con.rows[c].hold, s.con.rows[c].freelancer, ToSend, Unsent)
    ensures CanReachUnseeded(s, c, Final(op))
  {
    var sent := Apply(s, Send(i));
    SendIsAnswered(s, i, op, c);
    var arrived := Apply(sent, SettleArrives(i, 0));
    FinishFromAnswer(arrived, i, op, c);
    ReachedAfter(sent, SettleArrives(i, 0), c, Final(op));
    ReachedAfter(s, Send(i), c, Final(op));
  }

  lemma FinishByRetry(s: System, op: Settlement, c: nat)
    requires Inv(s) && HasStatus(s, c, Claimed(op)) && HoldStillActive(s, c) && PayeeReady(s, op, c)
    ensures CanReachUnseeded(s, c, Final(op))
  {
    var started := Apply(s, StartSettle(op, c));
    StepKeepsInv(s, StartSettle(op, c));
    FinishFromSend(started, |s.calls|, op, c);
    ReachedAfter(s, StartSettle(op, c), c, Final(op));
  }

  // ----- it is stuck -----

  ghost predicate Stuck(s: System, op: Settlement, c: nat) {
    HasStatus(s, c, Claimed(op)) && !HoldStillActive(s, c) && !SomeAnswerInHand(s, op, c)
  }

  lemma CreationSparesOthers(s: System, step: Step, c: nat)
    requires Enabled(s, step) && c < |s.con.rows|
    requires step.StartCreate? || ((step.RecordHold? || step.Compensate?) && step.c != c)
    ensures c < |Apply(s, step).con.rows| && Apply(s, step).con.rows[c] == s.con.rows[c]
  {
  }

  // A claimed contract is past its own creation.
  lemma CreationElsewhere(s: System, step: Step, op: Settlement, c: nat)
    requires Inv(s) && Enabled(s, step) && HasStatus(s, c, Claimed(op))
    requires step.StartCreate? || step.RecordHold? || step.Compensate?
    ensures c < |Apply(s, step).con.rows| && Apply(s, step).con.rows[c] == s.con.rows[c]
  {
    if !step.StartCreate? {
      E.UnfinishedIsPending(s, step.c);
    }
    CreationSparesOthers(s, step, c);
  }

  lemma MoveElsewhere(s: System, step: Step, op: Settlement, c: nat)
    requires Enabled(s, step) && HasStatus(s, c, Claimed(op))
    requires step.Accept? || step.Claim? || step.Deliver? || (step.Finish? && !AnswerInHand(s.calls[step.i], op, c))
    ensures c < |Apply(s, step).con.rows| && Apply(s, step).con.rows[c] == s.con.rows[c]
  {
  }

  // A claimed contract moves on only when a call finishes that very settlement.
  lemma OnlyFinishLeavesClaimed(s: System, step: Step, op: Settlement, c: nat)
    requires Inv(s) && Enabled(s, step) && HasStatus(s, c, Claimed(op))
    requires step.Finish? ==> !AnswerInHand(s.calls[step.i], op, c)
    ensures HasStatus(Apply(s, step), c, Claimed(op))
    ensures Apply(s, step).con.rows[c] == s.con.rows[c]
  {
    if !E.MovesContracts(step) {
      E.QuietStep(s, step);
    } else if step.StartCreate? || step.RecordHold? || step.Compensate? {
      CreationElsewhere(s, step, op, c);
    } else {
      MoveElsewhere(s, step, op, c);
    }
  }

  // The steps a call takes, or that are taken on its request.
  predicate MovesCall(step: Step, i: nat) {
    || (step.Claim? && step.i == i) || (step.Send? && step.i == i) || (step.SettleArrives? && step.i == i)
    || (step.SettleLost? && step.i == i) || (step.SettleAnswered? && step.i == i) || (step.SettleFails? && step.i == i)
    || (step.Finish? && step.i == i) || (step.StopCall? && step.i == i)
  }

  lemma SameCallsStay(s: System, step: Step, i: nat)
    requires Enabled(s, step) && !MovesCall(step, i) && !step.StartSettle? && i < |Apply(s, step).calls|
    ensures i < |s.calls| && Apply(s, step).calls[i] == s.calls[i]
  {
  }

  lemma OtherCallsStay(s: System, step: Step, i: nat)
    requires Enabled(s, step) && !MovesCall(step, i) && i < |Apply(s, step).calls|
    ensures var call := Apply(s, step).calls[i];
            (i < |s.calls| && call == s.calls[i]) || call.pc.ToClaim? || call.pc.ToSend?
  {
    if !step.StartSettle? {
      SameCallsStay(s, step, i);
    }
  }

  lemma ArrivalIsConflict(s: System, step: Step, op: Settlement, c: nat)
    requires Inv(s) && Enabled(s, step) && step.SettleArrives? && Stuck(s, op, c) && s.calls[step.i].contract == c
    ensures P.Execute(s.pay, SettleOp(s.calls[step.i], step.now)).1 != P.Done
  {
    assert CallOk(s.calls[step.i], s.con.rows, s.pay.holds);
  }

  lemma OwnStepBringsNoAnswer(s: System, step: Step, op: Settlement, c: nat, i: nat)
    requires Enabled(s, step) && MovesCall(step, i) && i < |Apply(s, step).calls| && !AnswerInHand(s.calls[i], op, c)
    requires step.SettleArrives? && s.calls[i].contract == c ==> P.Execute(s.pay, SettleOp(s.calls[i], step.now)).1 != P.Done
    ensures !AnswerInHand(Apply(s, step).calls[i], op, c)
  {
  }

  lemma AnswerNeedsArrival(s: System, step: Step, op: Settlement, c: nat, i: nat)
    requires Enabled(s, step) && i < |Apply(s, step).calls| && !SomeAnswerInHand(s, op, c)
    requires step.SettleArrives? && s.calls[step.i].contract == c ==>
               P.Execute(s.pay, SettleOp(s.calls[step.i], step.now)).1 != P.Done
    ensures !AnswerInHand(Apply(s, step).calls[i], op, c)
  {
    assert i < |s.calls| ==> !AnswerInHand(s.calls[i], op, c);
    if MovesCall(step, i) {
      OwnStepBringsNoAnswer(s, step, op, c, i);
    } else {
      OtherCallsStay(s, step, i);
    }
  }

  // A settled hold is answered with a conflict, so no call for the contract comes by a successful answer.
  lemma NoNewAnswer(s: System, step: Step, op: Settlement, c: nat, i: nat)
    requires Inv(s) && Enabled(s, step) && Stuck(s, op, c) && i < |Apply(s, step).calls|
    ensures !AnswerInHand(Apply(s, step).calls[i], op, c)
  {
    if step.SettleArrives? && s.calls[step.i].contract == c {
      ArrivalIsConflict(s, step, op, c);
    }
    AnswerNeedsArrival(s, step, op, c, i);
  }

  lemma ClaimedHasHold(s: System, op: Settlement, c: nat)
    requires Inv(s) && HasStatus(s, c, Claimed(op))
    ensures s.con.rows[c].hold.Some? && s.con.rows[c].hold.value < |s.pay.holds|
  {
    assert ContractOk(c, s.con.rows[c], s.creates[c], s.pay.holds);
  }

  lemma SettledForGood(s: System, s': System, c: nat)
    requires c < |s.con.rows| && s.con.rows[c].hold.Some? && s.con.rows[c].hold.value < |s.pay.holds|
    requires c < |s'.con.rows| && s'.con.rows[c] == s.con.rows[c] && HoldsGrow(s.pay.holds, s'.pay.holds)
    requires !HoldStillActive(s, c)
    ensures !HoldStillActive(s', c)
  {
    assert HoldEvolves(s.pay.holds[s.con.rows[c].hold.value], s'.pay.holds[s.con.rows[c].hold.value]);
  }

  lemma StuckStays(s: System, step: Step, op: Settlement, c: nat)
    requires Inv(s) && Enabled(s, step) && Stuck(s, op, c)
    ensures Stuck(Apply(s, step), op, c)
  {
    var s' := Apply(s, step);
    OnlyFinishLeavesClaimed(s, step, op, c);
    E.StepGrowsHolds(s, step);
    ClaimedHasHold(s, op, c);
    SettledForGood(s, s', c);
    forall i | 0 <= i < |s'.calls| ensures !AnswerInHand(s'.calls[i], op, c) {
      NoNewAnswer(s, step, op, c, i);
    }
  }

  lemma {:induction false} StuckForever(s: System, steps: seq<Step>, op: Settlement, c: nat)
    requires Inv(s) && CanRun(s, steps) && Stuck(s, op, c)
    ensures Stuck(Run(s, steps), op, c)
    decreases |steps|
  {
    if steps == [] {
    } else {
      StuckStays(s, steps[0], op, c);
      StepKeepsInv(s, steps[0]);
      StuckForever(Apply(s, steps[0]), steps[1..], op, c);
    }
  }

  lemma StuckNeverFinishes(s: System, op: Settlement, c: nat)
    requires Inv(s) && Stuck(s, op, c)
    ensures !CanReach(s, c, Final(op))
  {
    forall steps | CanRun(s, steps) ensures !HasStatus(Run(s, steps), c, Final(op)) {
      StuckForever(s, steps, op, c);
    }
  }

  // ----- it cannot be paid -----

  predicate Payable(status: Status) {
    status.Active? || status.Completing?
  }

  // Payments pays out only to an existing wallet other than the client's.  CreateContract asks for no more than an id.
  predicate PayeeExists(s: System, row: Contract) {
    row.freelancer < |s.pay.wallets| && row.freelancer != row.client
  }

  lemma PayableMoves(s: System, step: Step, c: nat)
    requires Inv(s) && Enabled(s, step) && c < |s.con.rows| && Payable(s.con.rows[c].status)
    ensures c < |Apply(s, step).con.rows|
    ensures var row := Apply(s, step).con.rows[c];
            (Payable(row.status) || row.status.Completed?) && row == s.con.rows[c].(status := row.status)
  {
    E.StepGrowsRows(s, step);
    assert RowEvolves(s.con.rows[c], Apply(s, step).con.rows[c]);
  }

  // A paid hold was paid to another existing wallet; without one the contract is unpaid and its hold stays active.
  lemma NoPayeeIsUnpaid(s: System, c: nat)
    requires Reachable(s) && c < |s.con.rows| && !PayeeExists(s, s.con.rows[c])
    requires Payable(s.con.rows[c].status) || s.con.rows[c].status.Completed?
    ensures Payable(s.con.rows[c].status) && HoldStillActive(s, c)
  {
    E.ContractFacts(s, c);
    var h := s.con.rows[c].hold.value;
    E.HoldIdExact(s, c);
    E.HoldFacts(s, h);
  }

  /** An accepted contract that pays the client's own wallet, or one that never exists, is ACTIVE or COMPLETING with its
      hold active after any run: it is never completed, never declined, and its money never comes back. */
  lemma {:induction false} NoPayeeNeverFinishes(s: System, steps: seq<Step>, c: nat)
    requires Reachable(s) && CanRun(s, steps) && c < |s.con.rows| && Payable(s.con.rows[c].status)
    requires !PayeeExists(Run(s, steps), s.con.rows[c])
    ensures var end := Run(s, steps);
            && c < |end.con.rows| && Payable(end.con.rows[c].status)
            && end.con.rows[c].hold == s.con.rows[c].hold && HoldStillActive(end, c)
    decreases |steps|
  {
    if steps == [] {
      NoPayeeIsUnpaid(s, c);
    } else {
      var next := Apply(s, steps[0]);
      ReachableInv(s);
      PayableMoves(s, steps[0], c);
      ReachNext(s, steps[0]);
      RunGrowsWallets(next, steps[1..]);
      NoPayeeIsUnpaid(next, c);
      NoPayeeNeverFinishes(next, steps[1..], c);
    }
  }

  lemma NoPayeeCannotFinish(s: System, c: nat)
    requires Reachable(s) && c < |s.con.rows| && Payable(s.con.rows[c].status) && !PayeeExists(s, s.con.rows[c])
    ensures !CanReachFresh(s, c, Completed) && !CanReachFresh(s, c, Declined)
  {
    forall steps | CanRun(s, steps) && Fresh(s, Run(s, steps), c)
      ensures !HasStatus(Run(s, steps), c, Completed) && !HasStatus(Run(s, steps), c, Declined)
    {
      NoPayeeNeverFinishes(s, steps, c);
    }
  }

  // ----- exactly when it finishes -----

  // No credit of the amount to the freelancer's wallet, if there is one, can overflow.
  ghost predicate PayeeFits(s: System, op: Settlement, c: nat) {
    op.Complete? && c < |s.con.rows| && s.con.rows[c].freelancer < |s.pay.wallets| ==>
      || Sum(s.seeds) <= P.INT64_MAX
      || s.pay.wallets[s.con.rows[c].freelancer].balance + s.con.rows[c].amount <= P.INT64_MAX
  }

  // Payments accepts the settlement of a hold that is still active.
  predicate Acceptable(s: System, op: Settlement, c: nat) {
    op.Complete? ==> c < |s.con.rows| && PayeeExists(s, s.con.rows[c])
  }

  lemma FitsIsReady(s: System, op: Settlement, c: nat)
    requires Reachable(s) && HoldStillActive(s, c) && PayeeFits(s, op, c) && Acceptable(s, op, c)
    ensures PayeeReady(s, op, c)
  {
    if op.Complete? {
      E.HoldIdExact(s, c);
      E.MoneyIsConserved(s, s.con.rows[c].hold.value, s.con.rows[c].freelancer);
    }
  }

  /** Exactly when a claimed contract can still finish.  The source calls the retry idempotent; it is only while the
      hold is active, and only if payments accepts the settlement.  Once the hold is settled, payments answers 409 to
      every further request, so the contract can finish only through a call that has the first answer, and is stuck for
      good if that answer was lost.  A transfer to the client's own wallet is answered 400 every time, and one to a
      wallet that does not exist 404. */
  lemma RetryFinishesIff(s: System, op: Settlement, c: nat)
    requires Reachable(s) && HasStatus(s, c, Claimed(op)) && PayeeFits(s, op, c)
    ensures CanReachFresh(s, c, Final(op)) <==>
            SomeAnswerInHand(s, op, c) || (HoldStillActive(s, c) && Acceptable(s, op, c))
    ensures (op.Complete? ==> s.con.rows[c].freelancer < |s.pay.wallets|) ==>
            (CanReach(s, c, Final(op)) <==> CanReachFresh(s, c, Final(op)))
  {
    ReachableInv(s);
    if s.con.rows[c].freelancer < |s.pay.wallets| {
      WithWalletIsFresh(s, c, Final(op));
    }
    if SomeAnswerInHand(s, op, c) {
      var i :| 0 <= i < |s.calls| && AnswerInHand(s.calls[i], op, c);
      FinishFromAnswer(s, i, op, c);
      UnseededIsFresh(s, c, Final(op));
    } else if !HoldStillActive(s, c) {
      StuckNeverFinishes(s, op, c);
    } else if Acceptable(s, op, c) {
      FitsIsReady(s, op, c);
      FinishByRetry(s, op, c);
      UnseededIsFresh(s, c, Final(op));
    } else {
      NoPayeeCannotFinish(s, c);
    }
  }

  // ----- both ways are open -----

  // Some continuation leaves contract c claimed, settled on the payments side, and stuck.
  ghost predicate CanStrand(s: System, op: Settlement, c: nat) {
    exists steps :: CanRun(s, steps) && Stuck(Run(s, steps), op, c)
  }

  lemma StrandedAlready(s: System, op: Settlement, c: nat)
    requires Stuck(s, op, c)
    ensures CanStrand(s, op, c)
  {
    var steps: seq<Step> := [];
    assert CanRun(s, steps) && Stuck(Run(s, steps), op, c);
  }

  lemma StrandedAfter(s: System, step: Step, op: Settlement, c: nat)
    requires Enabled(s, step) && CanStrand(Apply(s, step), op, c)
    ensures CanStrand(s, op, c)
  {
    var rest :| CanRun(Apply(s, step), rest) && Stuck(Run(Apply(s, step), rest), op, c);
    var steps := [step] + rest;
    assert steps[0] == step && steps[1..] == rest;
    assert CanRun(s, steps) && Stuck(Run(s, steps), op, c);
  }

  // The one call that would be told of the settlement times out.
  lemma StrandFromReply(s: System, i: nat, op: Settlement, c: nat)
    requires i < |s.calls| && s.calls[i].pc.AwaitReply? && HasStatus(s, c, Claimed(op)) && !HoldStillActive(s, c)
    requires forall j | 0 <= j < |s.calls| && j != i :: !AnswerInHand(s.calls[j], op, c)
    ensures CanStrand(s, op, c)
  {
    var left := Apply(s, SettleFails(i));
    StrandedAlready(left, op, c);
    StrandedAfter(s, SettleFails(i), op, c);
  }

  lemma StrandFromSend(s: System, i: nat, op: Settlement, c: nat)
    requires Inv(s) && i < |s.calls| && HasStatus(s, c, Claimed(op)) && HoldStillActive(s, c) && PayeeReady(s, op, c)
    requires s.calls[i] == Call(op, c, s.con.rows[c].hold, s.con.rows[c].freelancer, ToSend, Unsent)
    requires !SomeAnswerInHand(s, op, c)
    ensures CanStrand(s, op, c)
  {
    var sent := Apply(s, Send(i));
    SendIsAnswered(s, i, op, c);
    var arrived := Apply(sent, SettleArrives(i, 0));
    forall j | 0 <= j < |arrived.calls| && j != i ensures !AnswerInHand(arrived.calls[j], op, c) {
      assert arrived.calls[j] == s.calls[j];
    }
    StrandFromReply(arrived, i, op, c);
    StrandedAfter(sent, SettleArrives(i, 0), op, c);
    StrandedAfter(s, Send(i), op, c);
  }

  lemma NobodyAnsweredWhileOpen(s: System, op: Settlement, c: nat)
    requires Inv(s) && HasStatus(s, c, Open(op))
    ensures !SomeAnswerInHand(s, op, c) && HoldStillActive(s, c)
  {
    assert ContractOk(c, s.con.rows[c], s.creates[c], s.pay.holds);
    forall i | 0 <= i < |s.calls| ensures !AnswerInHand(s.calls[i], op, c) {
      assert CallOk(s.calls[i], s.con.rows, s.pay.holds);
    }
  }

  // What StartSettle and Claim make of an open contract.
  function ClaimedState(s: System, op: Settlement, c: nat): System
    requires c < |s.con.rows|
  {
    var row := s.con.rows[c];
    s.(con := s.con.(rows := s.con.rows[c := row.(status := Claimed(op))]),
       calls := s.calls + [Call(op, c, row.hold, row.freelancer, ToSend, Unsent)])
  }

  lemma ClaimFromOpen(s: System, op: Settlement, c: nat)
    requires HasStatus(s, c, Open(op))
    ensures Enabled(s, StartSettle(op, c)) && Enabled(Apply(s, StartSettle(op, c)), Claim(|s.calls|))
    ensures Apply(Apply(s, StartSettle(op, c)), Claim(|s.calls|)) == ClaimedState(s, op, c)
  {
    var call := Call(op, c, s.con.rows[c].hold, s.con.rows[c].freelancer, ToClaim, Unsent);
    assert Apply(s, StartSettle(op, c)).calls == s.calls + [call];
    assert (s.calls + [call])[|s.calls| := call.(pc := ToSend)] == s.calls + [call.(pc := ToSend)];
  }

  lemma TwoStepsKeepInv(s: System, first: Step, second: Step)
    requires Inv(s) && Enabled(s, first) && Enabled(Apply(s, first), second)
    ensures Inv(Apply(Apply(s, first), second))
  {
    StepKeepsInv(s, first);
    StepKeepsInv(Apply(s, first), second);
  }

  // An open contract can be claimed by a new call, about to send its request; nobody holds an answer yet.
  lemma ClaimedIsReady(s: System, op: Settlement, c: nat)
    requires Inv(s) && HasStatus(s, c, Open(op)) && PayeeReady(s, op, c)
    ensures var claimed := ClaimedState(s, op, c);
            && Inv(claimed) && HasStatus(claimed, c, Claimed(op)) && HoldStillActive(claimed, c)
            && PayeeReady(claimed, op, c) && !SomeAnswerInHand(claimed, op, c)
  {
    var claimed := ClaimedState(s, op, c);
    NobodyAnsweredWhileOpen(s, op, c);
    ClaimFromOpen(s, op, c);
    TwoStepsKeepInv(s, StartSettle(op, c), Claim(|s.calls|));
    forall i | 0 <= i < |claimed.calls| ensures !AnswerInHand(claimed.calls[i], op, c) {
      assert i < |s.calls| ==> claimed.calls[i] == s.calls[i];
    }
  }

  /** An ACTIVE contract can always be paid out and completed, and an AWAITING_ACCEPT one always declined with its money
      released: some continuation of every such reachable state does it. */
  lemma OpenContractCanFinish(s: System, op: Settlement, c: nat)
    requires Reachable(s) && HasStatus(s, c, Open(op)) && PayeeReady(s, op, c)
    ensures CanReachUnseeded(s, c, Final(op))
  {
    ReachableInv(s);
    ClaimFromOpen(s, op, c);
    ClaimedIsReady(s, op, c);
    FinishFromSend(ClaimedState(s, op, c), |s.calls|, op, c);
    ReachedAfter(Apply(s, StartSettle(op, c)), Claim(|s.calls|), c, Final(op));
    ReachedAfter(s, StartSettle(op, c), c, Final(op));
  }

  /** Exactly when an open contract can finish: a contract can be declined from every reachable state in which it is
      AWAITING_ACCEPT, and completed from every one in which it is ACTIVE and names an existing wallet other than the
      client's. */
  lemma OpenContractFinishesIff(s: System, op: Settlement, c: nat)
    requires Reachable(s) && HasStatus(s, c, Open(op)) && PayeeFits(s, op, c)
    ensures CanReachFresh(s, c, Final(op)) <==> Acceptable(s, op, c)
    ensures (op.Complete? ==> s.con.rows[c].freelancer < |s.pay.wallets|) ==>
            (CanReach(s, c, Final(op)) <==> CanReachFresh(s, c, Final(op)))
  {
    if s.con.rows[c].freelancer < |s.pay.wallets| {
      WithWalletIsFresh(s, c, Final(op));
    }
    if Acceptable(s, op, c) {
      ReachableInv(s);
      NobodyAnsweredWhileOpen(s, op, c);
      FitsIsReady(s, op, c);
      OpenContractCanFinish(s, op, c);
      UnseededIsFresh(s, c, Final(op));
    } else {
      NoPayeeCannotFinish(s, c);
    }
  }

  /** And every open contract that can finish can also be stranded by one lost answer: paid out or released, but never
      COMPLETED or DECLINED, however often the call is retried.  This is where the promised idempotent retry fails. */
  lemma OpenContractCanBeStranded(s: System, op: Settlement, c: nat)
    requires Reachable(s) && HasStatus(s, c, Open(op)) && PayeeFits(s, op, c) && Acceptable(s, op, c)
    ensures exists steps :: CanRun(s, steps) && Stuck(Run(s, steps), op, c) && !CanReach(Run(s, steps), c, Final(op))
  {
    ReachableInv(s);
    NobodyAnsweredWhileOpen(s, op, c);
    FitsIsReady(s, op, c);
    ClaimFromOpen(s, op, c);
    ClaimedIsReady(s, op, c);
    StrandFromSend(ClaimedState(s, op, c), |s.calls|, op, c);
    StrandedAfter(Apply(s, StartSettle(op, c)), Claim(|s.calls|), op, c);
    StrandedAfter(s, StartSettle(op, c), op, c);
    var steps :| CanRun(s, steps) && Stuck(Run(s, steps), op, c);
    RunKeepsInv(s, steps);
    StuckNeverFinishes(Run(s, steps), op, c);
  }

  // ----- such contracts exist -----

  lemma StuckIsSettled(s: System, op: Settlement, c: nat)
    requires Reachable(s) && Stuck(s, op, c)
    ensures HoldHas(s.pay.holds, s.con.rows[c].hold, Settled(op), Settled(op))
  {
    E.ContractFacts(s, c);
  }

  // A COMPLETING contract whose hold is active, with `payee` as the freelancer's wallet.
  lemma CompletingContractExists(payee: nat) returns (s: System)
    ensures Reachable(s) && HasStatus(s, 0, Completing) && HoldStillActive(s, 0)
    ensures |s.pay.wallets| == 2 && s.con.rows[0].client == 0 && s.con.rows[0].freelancer == payee
    ensures s.seeds == [100, 0]
  {
    var open := Accepted(payee);
    AcceptedReachable(payee);
    ClaimFromOpen(open, Complete, 0);
    ReachNext(open, StartSettle(Complete, 0));
    ReachNext(Apply(open, StartSettle(Complete, 0)), Claim(0));
    s := ClaimedState(open, Complete, 0);
  }

  /** A retry fails although the hold is active: a reachable COMPLETING contract with the client's own wallet as payee,
      which nothing can complete or decline. */
  lemma SelfPaidContractExists() returns (s: System)
    ensures Reachable(s) && HasStatus(s, 0, Completing) && HoldStillActive(s, 0) && PayeeFits(s, Complete, 0)
    ensures s.con.rows[0].freelancer < |s.pay.wallets|
    ensures !CanReach(s, 0, Completed) && !CanReach(s, 0, Declined)
  {
    s := CompletingContractExists(0);
    NoPayeeCannotFinish(s, 0);
    WithWalletIsFresh(s, 0, Completed);
    WithWalletIsFresh(s, 0, Declined);
    assert Sum([100, 0]) == Sum([100]) + 0;
  }

  /** It fails as well for a payee that does not exist: a reachable COMPLETING contract with the id of no wallet. */
  lemma MissingPayeeContractExists() returns (s: System)
    ensures Reachable(s) && HasStatus(s, 0, Completing) && HoldStillActive(s, 0) && PayeeFits(s, Complete, 0)
    ensures s.con.rows[0].freelancer != s.con.rows[0].client
    ensures !CanReachFresh(s, 0, Completed) && !CanReachFresh(s, 0, Declined)
  {
    s := CompletingContractExists(7);
    NoPayeeCannotFinish(s, 0);
  }

  /** The failure is real: there is a reachable system with a contract that has been paid out, is COMPLETING, and can
      never become COMPLETED. */
  lemma RetryIsNotIdempotent() returns (s: System)
    ensures Reachable(s) && HasStatus(s, 0, Completing) && !CanReach(s, 0, Completed)
    ensures s.con.rows[0].hold.Some? && s.con.rows[0].hold.value < |s.pay.holds|
    ensures s.pay.holds[s.con.rows[0].hold.value].status.Transferred?
  {
    var open := Accepted(1);
    AcceptedReachable(1);
    OpenContractCanBeStranded(open, Complete, 0);
    var steps :| CanRun(open, steps) && Stuck(Run(open, steps), Complete, 0) && !CanReach(Run(open, steps), 0, Completed);
    s := Run(open, steps);
    ReachRun(open, steps);
    StuckIsSettled(s, Complete, 0);
  }
}
