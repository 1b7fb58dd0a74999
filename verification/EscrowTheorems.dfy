/** What the escrow path promises in every reachable state and over every run: any number of concurrent calls, retries,
    stops, lost or late answers, duplicated and reordered events. */
module EscrowTheorems {
  import opened Wrappers
  import opened Sums
  import opened ContractsDb
  import opened Escrow
  import opened EscrowInvariant
  import opened EscrowMessageSteps
  import P = PaymentsDb
  import L = LedgerInvariants
  import T = LedgerTheorems

  // ----- the invariant, piece by piece -----

  lemma ContractFacts(s: System, c: nat)
    requires Reachable(s) && c < |s.con.rows|
    ensures c < |s.creates| && ContractOk(c, s.con.rows[c], s.creates[c], s.pay.holds)
  {
    ReachableInv(s);
  }

  lemma HoldFacts(s: System, h: nat)
    requires Reachable(s) && h < |s.pay.holds|
    ensures HoldOk(h, s.pay.holds[h], s.con.rows, s.creates)
    ensures PayeeOk(s.pay, h, s.con.rows) && L.JournalOk(s.pay, h)
  {
    ReachableInv(s);
  }

  lemma MessageFacts(s: System, m: P.PaymentEvent)
    requires Reachable(s) && m in s.stream
    ensures EventOk(m, s.con.rows, s.creates, s.pay.holds)
  {
    ReachableInv(s);
  }

  // ----- payout -----

  /** Payout exclusivity: a settled hold is the recorded hold of its contract and was settled in the direction the
      contract chose, never both; and no contract ever has two holds. */
  lemma PayoutExclusive(s: System, h: nat)
    requires Reachable(s) && h < |s.pay.holds|
    ensures s.pay.holds[h].contract < |s.con.rows|
    ensures var row := s.con.rows[s.pay.holds[h].contract];
            && (s.pay.holds[h].status.Transferred? ==> row.hold == Some(h) && (row.status.Completing? || row.status.Completed?))
            && (s.pay.holds[h].status.Released? ==> row.hold == Some(h) && (row.status.Declining? || row.status.Declined?))
            && s.pay.holds[h].wallet == row.client && s.pay.holds[h].amount == row.amount
    ensures forall k | 0 <= k < |s.pay.holds| && s.pay.holds[k].contract == s.pay.holds[h].contract :: k == h
  {
    HoldFacts(s, h);
    var c := s.pay.holds[h].contract;
    ContractFacts(s, c);
    forall k | 0 <= k < |s.pay.holds| && s.pay.holds[k].contract == c ensures k == h {
      HoldFacts(s, k);
    }
  }

  /** COMPLETED means paid exactly once: the whole journal of the contract's hold is the hold, one debit of the
      contract's amount on the client's wallet and one credit of it on the freelancer's. */
  lemma CompletedIsPaidOnce(s: System, c: nat)
    requires Reachable(s) && c < |s.con.rows| && s.con.rows[c].status.Completed?
    ensures s.con.rows[c].hold.Some? && s.con.rows[c].freelancer != s.con.rows[c].client
    ensures var row, h := s.con.rows[c], s.con.rows[c].hold.value;
            P.Journal(s.pay.txns, h) ==
              [P.Txn(row.client, -row.amount, P.HoldPlaced, Some(h)),
               P.Txn(row.client, -row.amount, P.TransferDebit, Some(h)),
               P.Txn(row.freelancer, row.amount, P.TransferCredit, Some(h))]
  {
    ContractFacts(s, c);
    HoldFacts(s, s.con.rows[c].hold.value);
  }

  /** DECLINED means released exactly once and never paid. */
  lemma DeclinedIsReleasedOnce(s: System, c: nat)
    requires Reachable(s) && c < |s.con.rows| && s.con.rows[c].status.Declined?
    ensures s.con.rows[c].hold.Some?
    ensures var row, h := s.con.rows[c], s.con.rows[c].hold.value;
            P.Journal(s.pay.txns, h) ==
              [P.Txn(row.client, -row.amount, P.HoldPlaced, Some(h)), P.Txn(row.client, row.amount, P.Release, Some(h))]
  {
    ContractFacts(s, c);
    HoldFacts(s, s.con.rows[c].hold.value);
  }

  // ----- growth over a step and over a run -----

  lemma SameRowsGrow(rows: seq<Contract>)
    ensures RowsGrow(rows, rows)
  {
  }

  lemma CasGrows(db: Contracts, id: nat, from: Status, to: Status)
    requires Edge(from, to)
    ensures UpdateStatus(db, id, from, to).Some? ==> RowsGrow(db.rows, UpdateStatus(db, id, from, to).value.rows)
  {
  }

  lemma RecordHoldGrows(db: Contracts, id: nat, hold: nat)
    requires id < |db.rows| && db.rows[id].status.Pending? && db.rows[id].hold.None?
    ensures RecordHoldTx(db, id, hold).Some? && RowsGrow(db.rows, RecordHoldTx(db, id, hold).value.rows)
  {
  }

  lemma CompensateGrows(db: Contracts, id: nat)
    requires id < |db.rows| && db.rows[id].status.Pending?
    ensures RowsGrow(db.rows, CompensateTx(db, id).rows)
  {
  }

  // The steps that can change the contracts table.
  predicate MovesContracts(step: Step) {
    step.StartCreate? || step.RecordHold? || step.Compensate? || step.Accept? || step.Claim? || step.Finish? || step.Deliver?
  }

  lemma QuietStep(s: System, step: Step)
    requires Enabled(s, step) && !MovesContracts(step)
    ensures Apply(s, step).con == s.con
  {
  }

  // PENDING is left only by the contract's own CreateContract.
  lemma UnfinishedIsPending(s: System, c: nat)
    requires Inv(s) && c < |s.creates| && !s.creates[c].pc.CreateEnded?
    ensures c < |s.con.rows| && s.con.rows[c].status.Pending? && s.con.rows[c].hold.None?
  {
    assert ContractOk(c, s.con.rows[c], s.creates[c], s.pay.holds);
  }

  lemma CreatingStep(s: System, step: Step)
    requires Inv(s) && Enabled(s, step) && (step.StartCreate? || step.RecordHold? || step.Compensate?)
    ensures RowsGrow(s.con.rows, Apply(s, step).con.rows)
  {
    match step
    case StartCreate(_, _, _) =>
    case RecordHold(c) =>
      UnfinishedIsPending(s, c);
      RecordHoldGrows(s.con, c, s.creates[c].pc.hold);
    case Compensate(c) =>
      UnfinishedIsPending(s, c);
      CompensateGrows(s.con, c);
  }

  lemma MovingStep(s: System, step: Step)
    requires Enabled(s, step) && (step.Accept? || step.Claim? || step.Finish? || step.Deliver?)
    ensures RowsGrow(s.con.rows, Apply(s, step).con.rows)
  {
    match step
    case Accept(c) => CasGrows(s.con, c, AwaitingAccept, Active);
    case Claim(i) => CasGrows(s.con, s.calls[i].contract, Open(s.calls[i].op), Claimed(s.calls[i].op));
    case Finish(i) => CasGrows(s.con, s.calls[i].contract, Claimed(s.calls[i].op), Final(s.calls[i].op));
    case Deliver(m) =>
      CasGrows(s.con, m.contract, HoldPending, AwaitingAccept);
      CasGrows(s.con, m.contract, HoldPending, Cancelled);
  }

  lemma StepGrowsRows(s: System, step: Step)
    requires Inv(s) && Enabled(s, step)
    ensures RowsGrow(s.con.rows, Apply(s, step).con.rows)
  {
    if !MovesContracts(step) {
      QuietStep(s, step);
      SameRowsGrow(s.con.rows);
    } else if step.StartCreate? || step.RecordHold? || step.Compensate? {
      CreatingStep(s, step);
    } else {
      MovingStep(s, step);
    }
  }

  lemma ExecutionGrowsHolds(l: P.Ledger, op: P.Op)
    ensures HoldsGrow(l.holds, P.Execute(l, op).0.holds)
  {
  }

  lemma QuietForHolds(s: System, step: Step)
    requires Enabled(s, step) && !step.HoldArrives? && !step.SettleArrives?
    ensures Apply(s, step).pay.holds == s.pay.holds
  {
  }

  lemma StepGrowsHolds(s: System, step: Step)
    requires Enabled(s, step)
    ensures HoldsGrow(s.pay.holds, Apply(s, step).pay.holds)
  {
    if step.HoldArrives? {
      ExecutionGrowsHolds(s.pay, HoldOp(s, step.c, step.heldSeen, step.now));
    } else if step.SettleArrives? {
      ExecutionGrowsHolds(s.pay, SettleOp(s.calls[step.i], step.now));
    } else {
      QuietForHolds(s, step);
    }
  }

  /** A settlement is final, whatever runs afterwards: a hold never changes wallet, amount or contract, and once
      released or transferred it never changes at all. */
  lemma {:induction false} SettlementIsFinal(s: System, steps: seq<Step>, h: nat)
    requires CanRun(s, steps) && h < |s.pay.holds|
    ensures h < |Run(s, steps).pay.holds| && HoldEvolves(s.pay.holds[h], Run(s, steps).pay.holds[h])
    decreases |steps|
  {
    if steps == [] {
    } else {
      StepGrowsHolds(s, steps[0]);
      SettlementIsFinal(Apply(s, steps[0]), steps[1..], h);
    }
  }

  // What a contract row keeps over a run.
  ghost predicate RowKeeps(r: Contract, r': Contract) {
    && r'.client == r.client && r'.freelancer == r.freelancer && r'.amount == r.amount
    && (r.hold.Some? || !r.status.Pending? ==> r'.hold == r.hold)
    && Rank(r.status) <= Rank(r'.status)
    && (Rank(r.status) == Rank(r'.status) ==> r'.status == r.status)
  }

  lemma EvolvedKeeps(r: Contract, r': Contract)
    requires RowEvolves(r, r')
    ensures RowKeeps(r, r') && (r'.status != r.status ==> Rank(r.status) < Rank(r'.status))
  {
  }

  lemma StepAdvances(s: System, step: Step, c: nat)
    requires Inv(s) && Enabled(s, step) && c < |s.con.rows|
    ensures Inv(Apply(s, step))
    ensures c < |Apply(s, step).con.rows| && RowKeeps(s.con.rows[c], Apply(s, step).con.rows[c])
    ensures Apply(s, step).con.rows[c].status != s.con.rows[c].status ==>
              Rank(s.con.rows[c].status) < Rank(Apply(s, step).con.rows[c].status)
  {
    StepGrowsRows(s, step);
    StepKeepsInv(s, step);
    EvolvedKeeps(s.con.rows[c], Apply(s, step).con.rows[c]);
  }

  /** A contract's parties, amount and hold id never change once set, and its status only moves forward. */
  lemma {:induction false} ContractOnlyAdvances(s: System, steps: seq<Step>, c: nat)
    requires Inv(s) && CanRun(s, steps) && c < |s.con.rows|
    ensures c < |Run(s, steps).con.rows| && RowKeeps(s.con.rows[c], Run(s, steps).con.rows[c])
    decreases |steps|
  {
    if steps == [] {
    } else {
      StepAdvances(s, steps[0], c);
      ContractOnlyAdvances(Apply(s, steps[0]), steps[1..], c);
    }
  }

  // How often a run changes the status of contract c.
  ghost function StatusChanges(s: System, steps: seq<Step>, c: nat): nat
    requires CanRun(s, steps)
    decreases |steps|
  {
    if steps == [] then 0
    else
      var s' := Apply(s, steps[0]);
      (if c < |s.con.rows| && c < |s'.con.rows| && s'.con.rows[c].status != s.con.rows[c].status then 1 else 0)
      + StatusChanges(s', steps[1..], c)
  }

  lemma {:induction false} ChangesRaiseRank(s: System, steps: seq<Step>, c: nat)
    requires Inv(s) && CanRun(s, steps) && c < |Run(s, steps).con.rows|
    ensures StatusChanges(s, steps, c) + (if c < |s.con.rows| then Rank(s.con.rows[c].status) else 0)
            <= Rank(Run(s, steps).con.rows[c].status)
    decreases |steps|
  {
    if steps == [] {
    } else {
      StepKeepsInv(s, steps[0]);
      if c < |s.con.rows| {
        StepAdvances(s, steps[0], c);
      }
      ChangesRaiseRank(Apply(s, steps[0]), steps[1..], c);
    }
  }

  /** However many calls and events there are, a contract's status changes at most five times in its life. */
  lemma AtMostFiveMoves(steps: seq<Step>, c: nat)
    requires CanRun(START, steps) && c < |Run(START, steps).con.rows|
    ensures StatusChanges(START, steps, c) <= 5
  {
    StartInv();
    ChangesRaiseRank(START, steps, c);
  }

  // HOLD_PENDING has a recorded hold and CANCELLED has none.
  lemma RecordedByStatus(s: System, c: nat)
    requires Inv(s) && c < |s.con.rows|
    ensures s.con.rows[c].status.HoldPending? ==> s.con.rows[c].hold.Some?
    ensures s.con.rows[c].status.Cancelled? ==> s.con.rows[c].hold.None?
  {
    assert ContractOk(c, s.con.rows[c], s.creates[c], s.pay.holds);
  }

  /** Every step moves every contract along an edge of the state diagram or not at all, and the edge from HOLD_PENDING
      to CANCELLED is never taken: a contract with a recorded hold is not cancelled by an event. */
  lemma OnlyDiagramEdges(s: System, step: Step, c: nat)
    requires Reachable(s) && Enabled(s, step) && c < |s.con.rows|
    ensures c < |Apply(s, step).con.rows|
    ensures var from, to := s.con.rows[c].status, Apply(s, step).con.rows[c].status;
            from == to || (Edge(from, to) && !(from.HoldPending? && to.Cancelled?))
  {
    ReachableInv(s);
    StepGrowsRows(s, step);
    StepKeepsInv(s, step);
    var s' := Apply(s, step);
    assert RowEvolves(s.con.rows[c], s'.con.rows[c]);
    RecordedByStatus(s, c);
    RecordedByStatus(s', c);
  }

  // ----- events and hold ids -----

  /** The announcements of a contract are a function of its status: the exact sequence of events in its outbox. */
  lemma EventsFollowStatus(s: System, c: nat)
    requires Reachable(s) && c < |s.con.rows|
    ensures EventsOf(s.con.outbox, c) ==
            match s.con.rows[c].status
            case Pending => []
            case HoldPending => [ContractCreated]
            case AwaitingAccept => [ContractCreated]
            case Declining => [ContractCreated]
            case Active => [ContractCreated, ContractAccepted]
            case Completing => [ContractCreated, ContractAccepted]
            case Completed => [ContractCreated, ContractAccepted, ContractCompleted]
            case Declined => [ContractCreated, ContractDeclined]
            case Cancelled => [ContractCancelled]
  {
    ReachableInv(s);
    assert RowOk(s.con, c);
    assert ContractOk(c, s.con.rows[c], s.creates[c], s.pay.holds);
  }

  /** A hold id is recorded exactly while the contract is neither PENDING nor CANCELLED, and it names the one hold
      placed for that contract, on its client's wallet and for its amount. */
  lemma HoldIdExact(s: System, c: nat)
    requires Reachable(s) && c < |s.con.rows|
    ensures s.con.rows[c].hold.Some? <==> !s.con.rows[c].status.Pending? && !s.con.rows[c].status.Cancelled?
    ensures s.con.rows[c].hold.Some? ==>
              && var h := s.con.rows[c].hold.value;
              && h < |s.pay.holds| && s.pay.holds[h].contract == c
              && s.pay.holds[h].wallet == s.con.rows[c].client && s.pay.holds[h].amount == s.con.rows[c].amount
  {
    ContractFacts(s, c);
    if s.con.rows[c].hold.Some? {
      HoldFacts(s, s.con.rows[c].hold.value);
    }
  }

  /** So a call that is about to settle always has a hold id: the "no hold_id" errors are unreachable. */
  lemma HoldIdNeverMissing(s: System, i: nat)
    requires Reachable(s) && i < |s.calls| && s.calls[i].pc.ToSend?
    ensures s.calls[i].hold.Some? && Apply(s, Send(i)).calls[i].pc.AwaitReply?
  {
    ReachableInv(s);
    assert CallOk(s.calls[i], s.con.rows, s.pay.holds);
    var c := s.calls[i].contract;
    assert ContractOk(c, s.con.rows[c], s.creates[c], s.pay.holds);
  }

  /** The compensation's compare-and-set, whose failure is only logged, never fails. */
  lemma CompensationNeverConflicts(s: System, c: nat)
    requires Reachable(s) && Enabled(s, Compensate(c))
    ensures UpdateStatus(s.con, c, Pending, Cancelled).Some?
  {
    ReachableInv(s);
    ContractFacts(s, c);
  }

  // ----- wake-up -----

  /** No lost wake-up: while a committed hold's contract still waits for it, the hold's event is in the payments
      outbox unmarked, or in the stream unacknowledged. */
  lemma NoLostWakeUp(s: System, h: nat)
    requires Reachable(s) && h < |s.pay.holds|
    requires !Past(s.con.rows, s.pay.holds[h].contract)
    ensures HeldEvent(h, s.pay.holds[h]) in s.stream ||
            exists e :: 0 <= e < |s.pay.outbox| && s.pay.outbox[e].event == HeldEvent(h, s.pay.holds[h]) && !s.pay.outbox[e].published
  {
    ReachableInv(s);
    assert Announced(s.pay, h);
    var e :| 0 <= e < |s.pay.outbox| && s.pay.outbox[e].event == HeldEvent(h, s.pay.holds[h]);
    assert WakeOk(s, e);
  }

  /** A held event moves its contract exactly when the contract is HOLD_PENDING; before that it stays in the stream and
      is not acknowledged, after that it changes nothing. */
  lemma DeliveryMovesExactlyWhenWaiting(s: System, m: P.PaymentEvent)
    requires Reachable(s) && m in s.stream && m.PaymentHeld?
    ensures m.contract < |s.con.rows|
    ensures var s' := Apply(s, Deliver(m));
            if s.con.rows[m.contract].status.HoldPending? then
              s'.con.rows == s.con.rows[m.contract := s.con.rows[m.contract].(status := AwaitingAccept)]
            else s' == s
  {
    MessageFacts(s, m);
  }

  lemma KeptIsPast(r: Contract, r': Contract)
    requires RowKeeps(r, r') && !r.status.Pending? && !r.status.HoldPending?
    ensures !r'.status.Pending? && !r'.status.HoldPending?
  {
  }

  lemma PastForever(s: System, steps: seq<Step>, c: nat)
    requires Inv(s) && CanRun(s, steps) && Past(s.con.rows, c)
    ensures Past(Run(s, steps).con.rows, c)
  {
    ContractOnlyAdvances(s, steps, c);
    KeptIsPast(s.con.rows[c], Run(s, steps).con.rows[c]);
  }

  // A delivery whose compare-and-set conflicts changes nothing.
  lemma ConflictIsDeaf(s: System, m: P.PaymentEvent)
    requires m in s.stream
    requires m.PaymentHeld? ==> HeldTx(s.con, m.contract).None?
    requires m.PaymentFailed? ==> FailedTx(s.con, m.contract).None?
    ensures Apply(s, Deliver(m)).con == s.con
  {
  }

  lemma PastIsDeaf(s: System, m: P.PaymentEvent)
    requires Inv(s) && m in s.stream && Past(s.con.rows, m.contract)
    ensures Apply(s, Deliver(m)).con == s.con
  {
    if m.PaymentFailed? {
      FailedIsConflict(s, m);
    }
    ConflictIsDeaf(s, m);
  }

  /** Replay insensitivity: once a contract has left HOLD_PENDING, whatever runs in between, no payment event in the
      stream ever changes the contracts database on its account again. */
  lemma StaleEventsChangeNothing(s: System, steps: seq<Step>, m: P.PaymentEvent)
    requires Reachable(s) && CanRun(s, steps) && Past(s.con.rows, m.contract)
    requires m in Run(s, steps).stream
    ensures Apply(Run(s, steps), Deliver(m)).con == Run(s, steps).con
  {
    ReachableInv(s);
    RunKeepsInv(s, steps);
    PastForever(s, steps, m.contract);
    PastIsDeaf(Run(s, steps), m);
  }

  // ----- coverage -----

  // What wallet w owes on a contract: its amount while the recorded hold is unsettled.
  function Owed(w: nat, holds: seq<P.Hold>): Contract -> int {
    (row: Contract) =>
      if row.client == w && row.hold.Some? && row.hold.value < |holds| && holds[row.hold.value].status.Active? then row.amount else 0
  }

  /** Escrow coverage: the amounts of all contracts of a client whose recorded hold is unsettled add up to no more than
      the active holds of the wallet, and so to no more than its balance. */
  lemma EscrowCovered(s: System, w: nat)
    requires Reachable(s) && w < |s.pay.wallets|
    ensures SumOf(s.con.rows, Owed(w, s.pay.holds)) <= P.Held(s.pay.holds, w) <= s.pay.wallets[w].balance
  {
    ReachableInv(s);
    var owed, held := Column(s.con.rows, Owed(w, s.pay.holds)), Column(s.pay.holds, P.HeldBy(w));
    var pick := seq(|s.con.rows|, c requires 0 <= c < |s.con.rows| => if owed[c] == 0 then None else s.con.rows[c].hold);
    forall c | 0 <= c < |s.con.rows| && pick[c].Some?
      ensures pick[c].value < |held| && owed[c] <= held[pick[c].value]
      ensures s.pay.holds[pick[c].value].contract == c
    {
      HoldIdExact(s, c);
    }
    SumInjection(owed, held, pick);
  }

  /** Conservation and int64 safety in the running system: balances always add up to the first seeds, no balance or
      active-hold sum exceeds them, and while they fit in an int64 no transfer of an active hold can overflow. */
  lemma MoneyIsConserved(s: System, h: nat, r: nat)
    requires Reachable(s)
    ensures P.Total(s.pay.wallets) == Sum(s.seeds)
    ensures r < |s.pay.wallets| ==> 0 <= P.Held(s.pay.holds, r) <= s.pay.wallets[r].balance <= Sum(s.seeds)
    ensures Sum(s.seeds) <= P.INT64_MAX && h < |s.pay.holds| && s.pay.holds[h].status.Active? && r < |s.pay.wallets| && r != s.pay.holds[h].wallet
            ==> s.pay.wallets[r].balance + s.pay.holds[h].amount <= P.INT64_MAX
  {
    ReachableInv(s);
    if r < |s.pay.wallets| {
      T.BalancesFit(s.pay, s.seeds, r);
    }
    if Sum(s.seeds) <= P.INT64_MAX && h < |s.pay.holds| && s.pay.holds[h].status.Active? && r < |s.pay.wallets| && r != s.pay.holds[h].wallet {
      T.NothingOverflows(s.pay, s.seeds, h, r);
    }
  }

  /** A held contract can be paid: from HOLD_PENDING to ACTIVE its recorded hold is active, and a transfer of it to the
      freelancer succeeds exactly when the freelancer's wallet exists, is not the client's, and has room for it. */
  lemma HeldContractIsPayable(s: System, c: nat, now: nat)
    requires Reachable(s) && c < |s.con.rows|
    requires s.con.rows[c].status.HoldPending? || s.con.rows[c].status.AwaitingAccept? || s.con.rows[c].status.Active?
    ensures var row := s.con.rows[c];
            && row.hold.Some?
            && (P.TransferFunds(s.pay, row.hold, Some(row.freelancer), now).1 == P.Done <==>
                  && row.freelancer < |s.pay.wallets| && row.freelancer != row.client
                  && s.pay.wallets[row.freelancer].balance + row.amount <= P.INT64_MAX)
  {
    ReachableInv(s);
    HoldIdExact(s, c);
    ContractFacts(s, c);
    T.TransferSucceedsIff(s.pay, s.con.rows[c].hold.value, s.con.rows[c].freelancer, now);
  }
}
