/** What the tables of the running system record: one wallet per user, the events of every hold and of every refused hold,
    and the parties of every contract. */
module EscrowRecords {
  import opened Wrappers
  import opened ContractsDb
  import opened Escrow
  import opened EscrowInvariant
  import opened EscrowMessageSteps
  import opened EscrowRuns
  import E = EscrowTheorems
  import P = PaymentsDb
  import L = LedgerInvariants
  import T = LedgerTheorems
  import V = LedgerEvents

  // ----- every step as a ledger transaction, a change of flags, or nothing -----

  predicate Executes(step: Step) {
    step.SeedWallet? || step.HoldArrives? || step.SettleArrives?
  }

  function Executed(s: System, step: Step): P.Op
    requires Executes(step)
    requires step.HoldArrives? ==> step.c < |s.con.rows|
    requires step.SettleArrives? ==> step.i < |s.calls|
  {
    if step.SeedWallet? then P.OpSeed(step.user, step.balance)
    else if step.HoldArrives? then HoldOp(s, step.c, step.heldSeen, step.now)
    else SettleOp(s.calls[step.i], step.now)
  }

  lemma ExecutionIsLedgerStep(s: System, step: Step)
    requires Enabled(s, step) && Executes(step)
    ensures Apply(s, step).pay == P.Execute(s.pay, Executed(s, step)).0
  {
  }

  lemma QuietForPay(s: System, step: Step)
    requires Enabled(s, step) && !Executes(step) && !step.Publish?
    ensures Apply(s, step).pay == s.pay
  {
  }

  lemma PublishKeepsTables(s: System, step: Step)
    requires Inv(s) && Enabled(s, step) && step.Publish?
    ensures Apply(s, step).pay == s.pay.(outbox := Apply(s, step).pay.outbox)
    ensures SameEvents(s.pay.outbox, Apply(s, step).pay.outbox)
  {
    PublishKeepsEvents(s, step.action);
  }

  // ----- users -----

  lemma StepKeepsUsers(s: System, step: Step)
    requires Inv(s) && Enabled(s, step) && T.OneWalletEach(s.pay.wallets)
    ensures T.OneWalletEach(Apply(s, step).pay.wallets)
  {
    if Executes(step) {
      ExecutionIsLedgerStep(s, step);
      T.StepKeepsUsers(s.pay, Executed(s, step));
    } else if step.Publish? {
      PublishKeepsTables(s, step);
    } else {
      QuietForPay(s, step);
    }
  }

  lemma {:induction false} RunKeepsUsers(s: System, steps: seq<Step>)
    requires Inv(s) && CanRun(s, steps) && T.OneWalletEach(s.pay.wallets)
    ensures T.OneWalletEach(Run(s, steps).pay.wallets)
    decreases |steps|
  {
    if steps == [] {
    } else {
      StepKeepsUsers(s, steps[0]);
      StepKeepsInv(s, steps[0]);
      RunKeepsUsers(Apply(s, steps[0]), steps[1..]);
    }
  }

  /** One wallet per user: in no reachable state do two wallets belong to the same user, so no user is seeded twice. */
  lemma OneWalletPerUser(s: System, v: nat, w: nat)
    requires Reachable(s) && v < w < |s.pay.wallets|
    ensures s.pay.wallets[v].user != s.pay.wallets[w].user
  {
    var steps :| CanRun(START, steps) && s == Run(START, steps);
    StartInv();
    RunKeepsUsers(START, steps);
  }

  // ----- events of holds -----

  lemma FlagsKeepAnnounced(l: P.Ledger, l': P.Ledger)
    requires V.AllAnnounced(l) && l' == l.(outbox := l'.outbox) && SameEvents(l.outbox, l'.outbox)
    ensures V.AllAnnounced(l')
  {
    forall h | 0 <= h < |l'.holds| ensures V.Announced(l', h) {
      assert V.Announced(l, h);
      V.FlagsDoNotMatter(l.outbox, l'.outbox, V.OfHold(h));
      if l.holds[h].status.Transferred? {
        var payee: nat :| V.AnnouncesPayment(l, h, payee);
        assert V.AnnouncesPayment(l', h, payee);
      }
    }
  }

  lemma StepAnnounces(s: System, step: Step)
    requires Inv(s) && Enabled(s, step) && V.AllAnnounced(s.pay)
    ensures V.AllAnnounced(Apply(s, step).pay)
  {
    if Executes(step) {
      ExecutionIsLedgerStep(s, step);
      V.StepAnnounces(s.pay, Executed(s, step));
    } else if step.Publish? {
      PublishKeepsTables(s, step);
      FlagsKeepAnnounced(s.pay, Apply(s, step).pay);
    } else {
      QuietForPay(s, step);
    }
  }

  lemma {:induction false} RunAnnounces(s: System, steps: seq<Step>)
    requires Inv(s) && CanRun(s, steps) && V.AllAnnounced(s.pay)
    ensures V.AllAnnounced(Run(s, steps).pay)
    decreases |steps|
  {
    if steps == [] {
    } else {
      StepAnnounces(s, steps[0]);
      StepKeepsInv(s, steps[0]);
      RunAnnounces(Apply(s, steps[0]), steps[1..]);
    }
  }

  lemma ReachableAnnounced(s: System)
    requires Reachable(s)
    ensures V.AllAnnounced(s.pay)
  {
    var steps :| CanRun(START, steps) && s == Run(START, steps);
    StartInv();
    RunAnnounces(START, steps);
  }

  // A hold was paid to one wallet only.
  lemma OnePayee(l: P.Ledger, h: nat, a: nat, b: nat)
    requires h < |l.holds| && L.PaidTo(l, h, a) && L.PaidTo(l, h, b)
    ensures a == b
  {
    assert L.PaidJournal(l.holds[h], h, a)[2].wallet == a;
  }

  /** The events of a hold are a function of its status: one payment.held, one payment.released or payment.transferred when
      it is settled, with the contract's own parties and amount, and nothing else. */
  lemma HoldEventsFollowStatus(s: System, h: nat)
    requires Reachable(s) && h < |s.pay.holds|
    ensures s.pay.holds[h].contract < |s.con.rows|
    ensures var c := s.pay.holds[h].contract;
            var row := s.con.rows[c];
            V.Events(s.pay.outbox, V.OfHold(h)) ==
              [P.PaymentHeld(h, c, row.client, row.amount)] +
              match s.pay.holds[h].status
              case Active => []
              case Released => [P.PaymentReleased(h, c, row.client, row.amount)]
              case Transferred => [P.PaymentTransferred(h, c, row.client, row.freelancer, row.amount)]
  {
    ReachableAnnounced(s);
    E.HoldFacts(s, h);
    assert V.Announced(s.pay, h);
    if s.pay.holds[h].status.Transferred? {
      var payee: nat :| V.AnnouncesPayment(s.pay, h, payee);
      OnePayee(s.pay, h, payee, s.con.rows[s.pay.holds[h].contract].freelancer);
    }
  }

  // ----- events of refused holds -----

  // A contract's one payment.failed event is there exactly when its hold request was refused for lack of funds.
  ghost predicate FailureOk(s: System, c: nat)
    requires c < |s.con.rows| && c < |s.creates|
  {
    V.Events(s.pay.outbox, V.FailedFor(c)) ==
      if s.creates[c].http == Answered(P.Unprocessable) then [P.PaymentFailed(c, s.con.rows[c].client, s.con.rows[c].amount)] else []
  }

  ghost predicate FailuresOk(s: System) {
    |s.creates| == |s.con.rows| && forall c | 0 <= c < |s.creates| :: FailureOk(s, c)
  }

  // What an executed hold request has to do with the failure events of contract c.
  lemma HoldFailures(l: P.Ledger, op: P.Op, c: nat)
    requires op.OpHold? && op.contract.Some? && op.wallet.Some?
    ensures var (l', reply) := P.Execute(l, op);
            V.Events(l'.outbox, V.FailedFor(c)) == V.Events(l.outbox, V.FailedFor(c)) +
              if reply == P.Unprocessable && op.contract.value == c then [P.PaymentFailed(c, op.wallet.value, op.amount)] else []
  {
    var l' := P.Execute(l, op).0;
    if |l'.outbox| > |l.outbox| {
      assert l'.outbox == l.outbox + [l'.outbox[|l.outbox|]];
      V.EventsInsert(l.outbox, l'.outbox[|l.outbox|], V.FailedFor(c));
    }
  }

  lemma OtherFailures(l: P.Ledger, op: P.Op, c: nat)
    requires !op.OpHold?
    ensures V.Events(P.Execute(l, op).0.outbox, V.FailedFor(c)) == V.Events(l.outbox, V.FailedFor(c))
  {
    var l' := P.Execute(l, op).0;
    if |l'.outbox| > |l.outbox| {
      assert l'.outbox == l.outbox + [l'.outbox[|l.outbox|]];
      V.EventsInsert(l.outbox, l'.outbox[|l.outbox|], V.FailedFor(c));
    }
  }

  // The hold requests of other contracts, and all other steps, leave a contract's answer alone.
  lemma AnswersElsewhere(s: System, step: Step, c: nat)
    requires Enabled(s, step) && c < |s.creates| && step != HoldLost(c) && !(step.HoldArrives? && step.c == c)
    ensures c < |Apply(s, step).creates| && Apply(s, step).creates[c].http == s.creates[c].http
  {
  }

  lemma FailureEventsStay(s: System, step: Step, c: nat)
    requires Inv(s) && Enabled(s, step) && !(step.HoldArrives? && step.c == c)
    ensures V.Events(Apply(s, step).pay.outbox, V.FailedFor(c)) == V.Events(s.pay.outbox, V.FailedFor(c))
  {
    if step.HoldArrives? {
      ExecutionIsLedgerStep(s, step);
      HoldFailures(s.pay, Executed(s, step), c);
    } else if Executes(step) {
      ExecutionIsLedgerStep(s, step);
      OtherFailures(s.pay, Executed(s, step), c);
    } else if step.Publish? {
      PublishKeepsTables(s, step);
      V.FlagsDoNotMatter(s.pay.outbox, Apply(s, step).pay.outbox, V.FailedFor(c));
    } else {
      QuietForPay(s, step);
    }
  }

  lemma ArrivalKeepsFailure(s: System, step: Step)
    requires Inv(s) && Enabled(s, step) && step.HoldArrives? && FailuresOk(s)
    ensures var s' := Apply(s, step); step.c < |s'.con.rows| && step.c < |s'.creates| && FailureOk(s', step.c)
  {
    assert FailureOk(s, step.c);
    HoldFailures(s.pay, HoldOp(s, step.c, step.heldSeen, step.now), step.c);
  }

  lemma OldFailureStays(s: System, step: Step, c: nat)
    requires Inv(s) && Enabled(s, step) && FailuresOk(s) && c < |s.creates|
    ensures var s' := Apply(s, step); c < |s'.con.rows| && c < |s'.creates| && FailureOk(s', c)
  {
    assert FailureOk(s, c);
    if step.HoldArrives? && step.c == c {
      ArrivalKeepsFailure(s, step);
    } else {
      FailureEventsStay(s, step, c);
      E.StepAdvances(s, step, c);
      if step != HoldLost(c) {
        AnswersElsewhere(s, step, c);
      }
    }
  }

  lemma NoFailureBeforeCreation(s: System, c: nat)
    requires EventInv(s) && |s.creates| <= c
    ensures V.Events(s.pay.outbox, V.FailedFor(c)) == []
  {
    forall e | 0 <= e < |s.pay.outbox| ensures !V.FailedFor(c)(s.pay.outbox[e].event) {
      assert EventOk(s.pay.outbox[e].event, s.con.rows, s.creates, s.pay.holds);
    }
    V.NoEvents(s.pay.outbox, V.FailedFor(c));
  }

  // A contract that is just being created has no events yet.
  lemma NewHasNoFailure(s: System, step: Step, c: nat)
    requires Inv(s) && Enabled(s, step) && |s.creates| <= c < |Apply(s, step).creates|
    ensures var s' := Apply(s, step); c < |s'.con.rows| && FailureOk(s', c)
  {
    assert step.StartCreate?;
    NoFailureBeforeCreation(s, c);
  }

  lemma StepKeepsFailures(s: System, step: Step)
    requires Inv(s) && Enabled(s, step) && FailuresOk(s)
    ensures FailuresOk(Apply(s, step))
  {
    var s' := Apply(s, step);
    StepKeepsInv(s, step);
    forall c | 0 <= c < |s'.creates| ensures FailureOk(s', c) {
      if c < |s.creates| {
        OldFailureStays(s, step, c);
      } else {
        NewHasNoFailure(s, step, c);
      }
    }
  }

  lemma {:induction false} RunKeepsFailures(s: System, steps: seq<Step>)
    requires Inv(s) && CanRun(s, steps) && FailuresOk(s)
    ensures FailuresOk(Run(s, steps))
    decreases |steps|
  {
    if steps == [] {
    } else {
      StepKeepsFailures(s, steps[0]);
      StepKeepsInv(s, steps[0]);
      RunKeepsFailures(Apply(s, steps[0]), steps[1..]);
    }
  }

  /** A contract's hold request was refused for lack of funds if and only if the payments outbox has its payment.failed
      event; the event is there once, and names the contract's client and amount. */
  lemma FailureIsAnnounced(s: System, c: nat)
    requires Reachable(s) && c < |s.con.rows|
    ensures c < |s.creates|
    ensures V.Events(s.pay.outbox, V.FailedFor(c)) ==
            if s.creates[c].http == Answered(P.Unprocessable)
            then [P.PaymentFailed(c, s.con.rows[c].client, s.con.rows[c].amount)] else []
  {
    var steps :| CanRun(START, steps) && s == Run(START, steps);
    StartInv();
    RunKeepsFailures(START, steps);
    assert FailureOk(s, c);
  }

  // ----- parties -----

  lemma CreationRecordsParties(s: System, client: nat, freelancer: nat, amount: int)
    requires Enabled(s, StartCreate(client, freelancer, amount))
    ensures var s' := Apply(s, StartCreate(client, freelancer, amount));
            s'.con.rows == s.con.rows + [Contract(client, freelancer, amount, Pending, None)]
  {
  }

  lemma PartiesStay(s: System, client: nat, freelancer: nat, amount: int, steps: seq<Step>)
    requires Reachable(s) && Enabled(s, StartCreate(client, freelancer, amount))
    requires CanRun(Apply(s, StartCreate(client, freelancer, amount)), steps)
    ensures var c, end := |s.con.rows|, Run(Apply(s, StartCreate(client, freelancer, amount)), steps);
            && Reachable(end) && c < |end.con.rows|
            && end.con.rows[c].client == client && end.con.rows[c].freelancer == freelancer && end.con.rows[c].amount == amount
  {
    var created := Apply(s, StartCreate(client, freelancer, amount));
    CreationRecordsParties(s, client, freelancer, amount);
    ReachNext(s, StartCreate(client, freelancer, amount));
    ReachableInv(created);
    E.ContractOnlyAdvances(created, steps, |s.con.rows|);
    ReachRun(created, steps);
  }

  /** Who pays whom: a contract keeps the client, the freelancer and the amount it was created with over any run.  Once it
      is COMPLETED, exactly that client was debited and that freelancer credited that amount; once it is DECLINED, that
      client got it back. */
  lemma PartiesAreTheCreators(s: System, client: nat, freelancer: nat, amount: int, steps: seq<Step>)
    requires Reachable(s) && Enabled(s, StartCreate(client, freelancer, amount))
    requires CanRun(Apply(s, StartCreate(client, freelancer, amount)), steps)
    ensures var c, end := |s.con.rows|, Run(Apply(s, StartCreate(client, freelancer, amount)), steps);
            && c < |end.con.rows|
            && end.con.rows[c].client == client && end.con.rows[c].freelancer == freelancer && end.con.rows[c].amount == amount
            && (end.con.rows[c].status.Completed? ==>
                  && client != freelancer && end.con.rows[c].hold.Some?
                  && P.Journal(end.pay.txns, end.con.rows[c].hold.value) ==
                       [P.Txn(client, -amount, P.HoldPlaced, end.con.rows[c].hold),
                        P.Txn(client, -amount, P.TransferDebit, end.con.rows[c].hold),
                        P.Txn(freelancer, amount, P.TransferCredit, end.con.rows[c].hold)])
            && (end.con.rows[c].status.Declined? ==>
                  && end.con.rows[c].hold.Some?
                  && P.Journal(end.pay.txns, end.con.rows[c].hold.value) ==
                       [P.Txn(client, -amount, P.HoldPlaced, end.con.rows[c].hold),
                        P.Txn(client, amount, P.Release, end.con.rows[c].hold)])
  {
    var c, end := |s.con.rows|, Run(Apply(s, StartCreate(client, freelancer, amount)), steps);
    PartiesStay(s, client, freelancer, amount, steps);
    if end.con.rows[c].status.Completed? {
      E.CompletedIsPaidOnce(end, c);
    } else if end.con.rows[c].status.Declined? {
      E.DeclinedIsReleasedOnce(end, c);
    }
  }
}
