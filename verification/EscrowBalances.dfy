/** Where all the money went: contracts explain every balance. */
module EscrowBalances {
  import opened Wrappers
  import opened Sums
  import opened ContractsDb
  import opened Escrow
  import opened EscrowInvariant
  import opened EscrowMessageSteps
  import opened EscrowPaymentSteps
  import E = EscrowTheorems
  import P = PaymentsDb
  import L = LedgerInvariants
  import T = LedgerTheorems

  predicate Paid(row: Contract, holds: seq<P.Hold>) {
    row.hold.Some? && row.hold.value < |holds| && holds[row.hold.value].status.Transferred?
  }

  // What a paid contract did to the balance of wallet w.
  function Earned(w: nat, holds: seq<P.Hold>): Contract -> int {
    (row: Contract) =>
      if Paid(row, holds) then (if row.freelancer == w then row.amount else 0) - (if row.client == w then row.amount else 0) else 0
  }

  function Earnings(w: nat, rows: seq<Contract>, holds: seq<P.Hold>): int {
    SumOf(rows, Earned(w, holds))
  }

  ghost predicate Explained(s: System, w: nat)
    requires w < |s.pay.wallets| && w < |s.seeds|
  {
    s.pay.wallets[w].balance == s.seeds[w] + Earnings(w, s.con.rows, s.pay.holds)
  }

  ghost predicate AllExplained(s: System) {
    |s.seeds| == |s.pay.wallets| && forall w | 0 <= w < |s.pay.wallets| :: Explained(s, w)
  }

  // No hold was paid out between two states.
  ghost predicate NothingPaid(holds: seq<P.Hold>, holds': seq<P.Hold>) {
    && |holds| <= |holds'|
    && (forall h | 0 <= h < |holds'| :: holds'[h].status.Transferred? ==> h < |holds| && holds[h].status.Transferred?)
    && (forall h | 0 <= h < |holds| :: holds[h].status.Transferred? ==> holds'[h] == holds[h])
  }

  // A paid contract was the paid contract before, when nothing was paid out since.
  lemma PaidBefore(s: System, s': System, c: nat)
    requires Inv(s) && Inv(s') && RowsGrow(s.con.rows, s'.con.rows) && NothingPaid(s.pay.holds, s'.pay.holds)
    requires c < |s'.con.rows| && Paid(s'.con.rows[c], s'.pay.holds)
    ensures c < |s.con.rows| && Paid(s.con.rows[c], s.pay.holds)
  {
    var h := s'.con.rows[c].hold.value;
    assert ContractOk(c, s'.con.rows[c], s'.creates[c], s'.pay.holds);
    assert HoldOk(h, s.pay.holds[h], s.con.rows, s.creates);
    assert ContractOk(c, s.con.rows[c], s.creates[c], s.pay.holds);
  }

  lemma PaidAfter(s: System, s': System, c: nat)
    requires RowsGrow(s.con.rows, s'.con.rows) && NothingPaid(s.pay.holds, s'.pay.holds) && Inv(s)
    requires c < |s.con.rows| && Paid(s.con.rows[c], s.pay.holds)
    ensures Paid(s'.con.rows[c], s'.pay.holds)
  {
    assert RowEvolves(s.con.rows[c], s'.con.rows[c]);
    assert ContractOk(c, s.con.rows[c], s.creates[c], s.pay.holds);
  }

  lemma {:induction false} SumPadded(s: seq<int>, n: nat)
    requires n <= |s| && forall k | n <= k < |s| :: s[k] == 0
    ensures Sum(s) == Sum(s[..n])
  {
    if n < |s| {
      SumPadded(s[..|s| - 1], n);
      assert s[..|s| - 1][..n] == s[..n];
    } else {
      assert s[..n] == s;
    }
  }

  lemma EarningsStay(s: System, s': System, w: nat)
    requires Inv(s) && Inv(s') && RowsGrow(s.con.rows, s'.con.rows) && NothingPaid(s.pay.holds, s'.pay.holds)
    ensures Earnings(w, s'.con.rows, s'.pay.holds) == Earnings(w, s.con.rows, s.pay.holds)
  {
    var n := |s.con.rows|;
    var before, after := Column(s.con.rows, Earned(w, s.pay.holds)), Column(s'.con.rows, Earned(w, s'.pay.holds));
    forall c | 0 <= c < |s'.con.rows| ensures after[c] == if c < n then before[c] else 0 {
      if Paid(s'.con.rows[c], s'.pay.holds) {
        PaidBefore(s, s', c);
        assert RowEvolves(s.con.rows[c], s'.con.rows[c]);
      } else if c < n && Paid(s.con.rows[c], s.pay.holds) {
        PaidAfter(s, s', c);
      }
    }
    assert after[..n] == before;
    SumPadded(after, n);
  }

  lemma QuietKeepsExplained(s: System, s': System)
    requires Inv(s) && Inv(s') && RowsGrow(s.con.rows, s'.con.rows) && NothingPaid(s.pay.holds, s'.pay.holds)
    requires s'.pay.wallets == s.pay.wallets && s'.seeds == s.seeds && AllExplained(s)
    ensures AllExplained(s')
  {
    forall w | 0 <= w < |s'.pay.wallets| ensures Explained(s', w) {
      assert Explained(s, w);
      EarningsStay(s, s', w);
    }
  }

  // ----- seeding -----

  // A wallet that does not exist yet has earned and spent nothing.
  lemma NoEarningsBeforeSeed(s: System, w: nat)
    requires Inv(s) && |s.pay.wallets| <= w
    ensures Earnings(w, s.con.rows, s.pay.holds) == 0
  {
    var column := Column(s.con.rows, Earned(w, s.pay.holds));
    forall c | 0 <= c < |s.con.rows| ensures column[c] == 0 {
      if Paid(s.con.rows[c], s.pay.holds) {
        var h := s.con.rows[c].hold.value;
        assert ContractOk(c, s.con.rows[c], s.creates[c], s.pay.holds);
        assert HoldOk(h, s.pay.holds[h], s.con.rows, s.creates);
        assert PayeeOk(s.pay, h, s.con.rows);
      }
    }
    L.AllZero(column);
  }

  lemma SeedKeepsExplained(s: System, step: Step)
    requires Inv(s) && Enabled(s, step) && step.SeedWallet? && AllExplained(s)
    ensures AllExplained(Apply(s, step))
  {
    var s' := Apply(s, step);
    NoEarningsBeforeSeed(s, |s.pay.wallets|);
    forall w | 0 <= w < |s'.pay.wallets| ensures Explained(s', w) {
      if w < |s.pay.wallets| {
        assert Explained(s, w);
      }
    }
  }

  // ----- a transfer -----

  // Paying out one hold adds its contract's amount to the freelancer's earnings and takes it from the client's.
  lemma PayoutEarnings(s: System, s': System, i: nat, w: nat)
    requires Inv(s) && SettlesHold(s, s', i, P.Done) && s.calls[i].http.InFlight? && s.calls[i].op.Complete?
    ensures s.calls[i].contract < |s.con.rows|
    ensures var row := s.con.rows[s.calls[i].contract];
            Earnings(w, s'.con.rows, s'.pay.holds) == Earnings(w, s.con.rows, s.pay.holds)
              + (if row.freelancer == w then row.amount else 0) - (if row.client == w then row.amount else 0)
  {
    SettlingFindsClaim(s, s', i, P.Done);
    var c, h := s.calls[i].contract, s.calls[i].hold.value;
    var before, after := Column(s.con.rows, Earned(w, s.pay.holds)), Column(s.con.rows, Earned(w, s'.pay.holds));
    forall x | 0 <= x < |s.con.rows| && x != c ensures after[x] == before[x] {
      assert ContractOk(x, s.con.rows[x], s.creates[x], s.pay.holds);
    }
    assert before[c] == 0;
    assert after == before[c := after[c]];
    SumUpdate(before, c, after[c]);
  }

  lemma PayoutKeepsExplained(s: System, step: Step)
    requires Inv(s) && Enabled(s, step) && step.SettleArrives? && AllExplained(s)
    requires s.calls[step.i].op.Complete? && P.Execute(s.pay, SettleOp(s.calls[step.i], step.now)).1 == P.Done
    ensures AllExplained(Apply(s, step))
  {
    var s', call := Apply(s, step), s.calls[step.i];
    SettleArrivalEffect(s, step);
    SettlingFindsClaim(s, s', step.i, P.Done);
    assert HoldOk(call.hold.value, s.pay.holds[call.hold.value], s.con.rows, s.creates);
    T.TransferMovesOnly(s.pay, call.hold.value, call.payee, step.now);
    forall w | 0 <= w < |s'.pay.wallets| ensures Explained(s', w) {
      assert Explained(s, w);
      PayoutEarnings(s, s', step.i, w);
    }
  }

  // ----- every step, every run -----

  // Among ledger transactions on holds, only a successful transfer moves balances or pays a hold out.
  lemma OnlyTransfersPay(l: P.Ledger, op: P.Op)
    requires !op.OpSeed? && (op.OpTransfer? ==> P.Execute(l, op).1 != P.Done)
    ensures NothingPaid(l.holds, P.Execute(l, op).0.holds) && P.Execute(l, op).0.wallets == l.wallets
  {
  }

  lemma HoldArrivalPaysNothing(s: System, step: Step)
    requires Enabled(s, step) && step.HoldArrives?
    ensures NothingPaid(s.pay.holds, Apply(s, step).pay.holds)
    ensures Apply(s, step).pay.wallets == s.pay.wallets && Apply(s, step).seeds == s.seeds
  {
    OnlyTransfersPay(s.pay, HoldOp(s, step.c, step.heldSeen, step.now));
  }

  lemma OtherSettlementPaysNothing(s: System, step: Step)
    requires Enabled(s, step) && step.SettleArrives?
    requires s.calls[step.i].op.Cancel? || P.Execute(s.pay, SettleOp(s.calls[step.i], step.now)).1 != P.Done
    ensures NothingPaid(s.pay.holds, Apply(s, step).pay.holds)
    ensures Apply(s, step).pay.wallets == s.pay.wallets && Apply(s, step).seeds == s.seeds
  {
    OnlyTransfersPay(s.pay, SettleOp(s.calls[step.i], step.now));
  }

  lemma OtherStepPaysNothing(s: System, step: Step)
    requires Enabled(s, step) && !step.HoldArrives? && !step.SettleArrives? && !step.SeedWallet?
    ensures Apply(s, step).pay.holds == s.pay.holds
    ensures Apply(s, step).pay.wallets == s.pay.wallets && Apply(s, step).seeds == s.seeds
  {
  }

  lemma StepKeepsExplained(s: System, step: Step)
    requires Inv(s) && Enabled(s, step) && AllExplained(s)
    ensures Inv(Apply(s, step)) && AllExplained(Apply(s, step))
  {
    StepKeepsInv(s, step);
    if step.SeedWallet? {
      SeedKeepsExplained(s, step);
    } else if step.SettleArrives? && s.calls[step.i].op.Complete? && P.Execute(s.pay, SettleOp(s.calls[step.i], step.now)).1 == P.Done {
      PayoutKeepsExplained(s, step);
    } else {
      E.StepGrowsRows(s, step);
      if step.HoldArrives? {
        HoldArrivalPaysNothing(s, step);
      } else if step.SettleArrives? {
        OtherSettlementPaysNothing(s, step);
      } else {
        OtherStepPaysNothing(s, step);
      }
      QuietKeepsExplained(s, Apply(s, step));
    }
  }

  lemma {:induction false} RunKeepsExplained(s: System, steps: seq<Step>)
    requires Inv(s) && AllExplained(s) && CanRun(s, steps)
    ensures AllExplained(Run(s, steps))
    decreases |steps|
  {
    if steps == [] {
    } else {
      StepKeepsExplained(s, steps[0]);
      RunKeepsExplained(Apply(s, steps[0]), steps[1..]);
    }
  }

  /** Contracts explain the money: in every reachable state the balance of every wallet is what it was first seeded
      with, plus the amounts of the paid contracts it is the freelancer of, minus those it is the client of. */
  lemma BalancesFollowContracts(s: System, w: nat)
    requires Reachable(s) && w < |s.pay.wallets|
    ensures w < |s.seeds| && s.pay.wallets[w].balance == s.seeds[w] + Earnings(w, s.con.rows, s.pay.holds)
  {
    var steps :| CanRun(START, steps) && s == Run(START, steps);
    StartInv();
    RunKeepsExplained(START, steps);
    assert Explained(s, w);
  }
}
