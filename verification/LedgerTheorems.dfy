/** The ledger's promises over whole runs, and exactly when its transactions succeed. */
module LedgerTheorems {
  import opened Wrappers
  import opened Sums
  import opened PaymentsDb
  import opened LedgerInvariants

  // ----- runs -----

  function LedgerAfter(l: Ledger, ops: seq<Op>): Ledger
    decreases |ops|
  {
    if ops == [] then l else LedgerAfter(Execute(l, ops[0]).0, ops[1..])
  }

  function RepliesAfter(l: Ledger, ops: seq<Op>): seq<Reply>
    decreases |ops|
  {
    if ops == [] then [] else [Execute(l, ops[0]).1] + RepliesAfter(Execute(l, ops[0]).0, ops[1..])
  }

  function SeedsOver(l: Ledger, seeds: seq<int>, ops: seq<Op>): seq<int>
    decreases |ops|
  {
    if ops == [] then seeds else SeedsOver(Execute(l, ops[0]).0, SeedsAfter(l, seeds, ops[0]), ops[1..])
  }

  predicate AllAdmissible(l: Ledger, ops: seq<Op>)
    decreases |ops|
  {
    ops != [] ==> Admissible(l, ops[0]) && AllAdmissible(Execute(l, ops[0]).0, ops[1..])
  }

  lemma {:induction false} RunKeepsValid(l: Ledger, seeds: seq<int>, ops: seq<Op>)
    requires Valid(l, seeds) && AllAdmissible(l, ops)
    ensures Valid(LedgerAfter(l, ops), SeedsOver(l, seeds, ops))
    decreases |ops|
  {
    if ops == [] {
    } else {
      StepKeepsValid(l, seeds, ops[0]);
      RunKeepsValid(Execute(l, ops[0]).0, SeedsAfter(l, seeds, ops[0]), ops[1..]);
    }
  }

  /** Conservation and coverage: after any run from the empty database, the balances add up to the first seeds and
      every wallet's active holds lie between 0 and its balance. */
  lemma RunConservesAndCovers(ops: seq<Op>, w: nat)
    requires AllAdmissible(EMPTY, ops)
    ensures var l := LedgerAfter(EMPTY, ops);
            && Total(l.wallets) == Sum(SeedsOver(EMPTY, [], ops))
            && (w < |l.wallets| ==> 0 <= Held(l.holds, w) <= l.wallets[w].balance)
  {
    RunKeepsValid(EMPTY, [], ops);
    HeldBounds(LedgerAfter(EMPTY, ops), w);
  }

  /** Reconciliation: after any run, balance, available balance and active holds of every wallet are the first seed
      plus sums over the transaction table by type; hold_failed rows are in none of them. */
  lemma RunReconciles(ops: seq<Op>, w: nat)
    requires AllAdmissible(EMPTY, ops) && w < |LedgerAfter(EMPTY, ops).wallets|
    ensures w < |SeedsOver(EMPTY, [], ops)|
    ensures var l, seed := LedgerAfter(EMPTY, ops), SeedsOver(EMPTY, [], ops)[w];
            && l.wallets[w].balance == seed + Posted(l.txns, w, {TransferDebit, TransferCredit})
            && l.wallets[w].balance - Held(l.holds, w) == seed + Posted(l.txns, w, {HoldPlaced, Release, TransferCredit})
            && Held(l.holds, w) == Posted(l.txns, w, {TransferDebit}) - Posted(l.txns, w, {HoldPlaced}) - Posted(l.txns, w, {Release})
  {
    RunKeepsValid(EMPTY, [], ops);
    assert ReconciledWallet(LedgerAfter(EMPTY, ops), SeedsOver(EMPTY, [], ops), w);
  }

  /** A hold is settled at most once: over any run it keeps its wallet, amount and contract, and once released or
      transferred it never changes again. */
  lemma {:induction false} SettledForGood(l: Ledger, ops: seq<Op>, h: nat)
    requires h < |l.holds|
    ensures h < |LedgerAfter(l, ops).holds|
    ensures LedgerAfter(l, ops).holds[h].(status := l.holds[h].status) == l.holds[h]
    ensures !l.holds[h].status.Active? ==> LedgerAfter(l, ops).holds[h] == l.holds[h]
    decreases |ops|
  {
    if ops == [] {
    } else {
      SettledForGood(Execute(l, ops[0]).0, ops[1..], h);
    }
  }

  // ----- users -----

  ghost predicate OneWalletEach(wallets: seq<Wallet>) {
    forall i, j | 0 <= i < j < |wallets| :: wallets[i].user != wallets[j].user
  }

  lemma StepKeepsUsers(l: Ledger, op: Op)
    requires OneWalletEach(l.wallets)
    ensures OneWalletEach(Execute(l, op).0.wallets)
  {
    var l' := Execute(l, op).0;
    if !op.OpSeed? {
      forall w | 0 <= w < |l.wallets| ensures |l'.wallets| == |l.wallets| && l'.wallets[w].user == l.wallets[w].user {
      }
    }
  }

  /** One wallet per user: after any run no two wallets belong to the same user. */
  lemma {:induction false} RunKeepsUsers(l: Ledger, ops: seq<Op>)
    requires OneWalletEach(l.wallets)
    ensures OneWalletEach(LedgerAfter(l, ops).wallets)
    decreases |ops|
  {
    if ops == [] {
    } else {
      StepKeepsUsers(l, ops[0]);
      RunKeepsUsers(Execute(l, ops[0]).0, ops[1..]);
    }
  }

  // ----- int64 -----

  lemma TwoBalances(l: Ledger, a: nat, b: nat)
    requires Solvent(l) && a < |l.wallets| && b < |l.wallets| && a != b
    ensures l.wallets[a].balance + l.wallets[b].balance <= Total(l.wallets)
  {
    var column := Column(l.wallets, BalanceOf());
    SumUpdate(column, a, 0);
    SumNonNegative(column[a := 0]);
    assert column[a := 0][b] == l.wallets[b].balance;
  }

  /** Every balance, and with it every active-hold sum, stays within the seeded total. */
  lemma BalancesFit(l: Ledger, seeds: seq<int>, w: nat)
    requires Valid(l, seeds) && w < |l.wallets|
    ensures 0 <= Held(l.holds, w) <= l.wallets[w].balance <= Sum(seeds)
  {
    HeldBounds(l, w);
    SumOfBounds(l.wallets, BalanceOf());
    assert BalanceOf()(l.wallets[w]) == l.wallets[w].balance;
  }

  /** int64 safety: while the seeded total fits, so does every credit that a transfer of an active hold to another wallet
      can compute, so the addition never wraps. */
  lemma NothingOverflows(l: Ledger, seeds: seq<int>, h: nat, r: nat)
    requires Valid(l, seeds) && Sum(seeds) <= INT64_MAX
    requires h < |l.holds| && l.holds[h].status.Active? && r < |l.wallets| && r != l.holds[h].wallet
    ensures l.wallets[r].balance + l.holds[h].amount <= Sum(seeds)
    ensures Wrap64(l.wallets[r].balance + l.holds[h].amount) == l.wallets[r].balance + l.holds[h].amount
  {
    HeldBounds(l, l.holds[h].wallet);
    TwoBalances(l, l.holds[h].wallet, r);
  }

  // ----- exactly when transactions succeed -----

  /** A transfer succeeds exactly when the hold is still active, the recipient exists and is not the source, and the
      credit fits its column.  The answer "internal error" is left for an overflowing credit alone: in a solvent
      ledger the balance check of the source never fails. */
  lemma TransferSucceedsIff(l: Ledger, h: nat, r: nat, now: nat)
    requires Solvent(l)
    ensures TransferFunds(l, Some(h), Some(r), now).1 == Done <==>
            && h < |l.holds| && l.holds[h].status.Active?
            && r < |l.wallets| && r != l.holds[h].wallet
            && l.wallets[r].balance + l.holds[h].amount <= INT64_MAX
    ensures TransferFunds(l, Some(h), Some(r), now).1 == Internal ==>
            r < |l.wallets| && h < |l.holds| && l.wallets[r].balance + l.holds[h].amount > INT64_MAX
  {
    if h < |l.holds| {
      HeldBounds(l, l.holds[h].wallet);
    }
  }

  // The amount leaves one wallet, reaches another, and no other balance changes.
  ghost predicate MovedOnly(before: seq<Wallet>, after: seq<Wallet>, row: Hold, recipient: nat) {
    && |after| == |before|
    && (forall w | 0 <= w < |after| :: after[w].balance == before[w].balance +
          if w == row.wallet then -row.amount else if w == recipient then row.amount else 0)
  }

  /** A transfer moves exactly the held amount from the hold's wallet to the recipient, and frees exactly that hold. */
  lemma TransferMovesOnly(l: Ledger, h: nat, r: nat, now: nat)
    requires Solvent(l) && TransferFunds(l, Some(h), Some(r), now).1 == Done
    ensures h < |l.holds|
    ensures var l' := TransferFunds(l, Some(h), Some(r), now).0;
            && MovedOnly(l.wallets, l'.wallets, l.holds[h], r)
            && Total(l'.wallets) == Total(l.wallets)
            && (forall w :: Held(l'.holds, w) == Held(l.holds, w) - if w == l.holds[h].wallet then l.holds[h].amount else 0)
  {
    var l' := TransferFunds(l, Some(h), Some(r), now).0;
    StepConserves(l, Column(l.wallets, BalanceOf()), OpTransfer(Some(h), Some(r), now));
    forall w ensures Held(l'.holds, w) == Held(l.holds, w) - if w == l.holds[h].wallet then l.holds[h].amount else 0 {
      SumOfUpdate(l.holds, h, l'.holds[h], HeldBy(w));
    }
  }

  /** Releasing a hold undoes placing it: balances and active holds of every wallet are what they were before. */
  lemma ReleaseUndoesHold(l: Ledger, w: nat, amount: int, contract: nat, heldSeen: int, now: nat, later: nat)
    requires HoldFunds(l, Some(w), amount, Some(contract), heldSeen, now).1.Created?
    ensures var placed := HoldFunds(l, Some(w), amount, Some(contract), heldSeen, now).0;
            var (undone, reply) := ReleaseFunds(placed, Some(|l.holds|), later);
            && reply == Done
            && undone.wallets == l.wallets
            && (forall v :: Held(undone.holds, v) == Held(l.holds, v))
  {
    var placed := HoldFunds(l, Some(w), amount, Some(contract), heldSeen, now).0;
    var undone := ReleaseFunds(placed, Some(|l.holds|), later).0;
    forall v ensures Held(undone.holds, v) == Held(l.holds, v) {
      SumOfInsert(l.holds, placed.holds[|l.holds|], HeldBy(v));
      SumOfUpdate(placed.holds, |l.holds|, undone.holds[|l.holds|], HeldBy(v));
    }
  }

  /** Over any run whose seeded total fits in an int64, no transfer ever answers "internal error". */
  lemma TransferNeverFaults(ops: seq<Op>, hold: Option<nat>, recipient: Option<nat>, now: nat)
    requires AllAdmissible(EMPTY, ops) && Sum(SeedsOver(EMPTY, [], ops)) <= INT64_MAX
    ensures TransferFunds(LedgerAfter(EMPTY, ops), hold, recipient, now).1 != Internal
  {
    RunKeepsValid(EMPTY, [], ops);
    var l := LedgerAfter(EMPTY, ops);
    if hold.Some? && recipient.Some? {
      TransferSucceedsIff(l, hold.value, recipient.value, now);
      if hold.value < |l.holds| && l.holds[hold.value].status.Active? &&
         recipient.value < |l.wallets| && recipient.value != l.holds[hold.value].wallet {
        NothingOverflows(l, SeedsOver(EMPTY, [], ops), hold.value, recipient.value);
      }
    }
  }

  predicate Settles(op: Op, h: nat) {
    (op.OpRelease? && op.hold == Some(h)) || (op.OpTransfer? && op.hold == Some(h) && op.recipient.Some?)
  }

  lemma SettlesOnlyActive(l: Ledger, op: Op, h: nat)
    requires Settles(op, h) && h < |l.holds|
    ensures Execute(l, op).1 == Done ==> h < |Execute(l, op).0.holds| && !Execute(l, op).0.holds[h].status.Active?
    ensures !l.holds[h].status.Active? ==> Execute(l, op) == (l, Conflict)
  {
  }

  /** A second settlement is refused and changes nothing, whichever two of release and transfer are tried and whatever
      other transactions run in between. */
  lemma SecondSettlementConflicts(l: Ledger, first: Op, between: seq<Op>, second: Op, h: nat)
    requires Settles(first, h) && Settles(second, h)
    requires Execute(l, first).1 == Done
    ensures var later := LedgerAfter(Execute(l, first).0, between); Execute(later, second) == (later, Conflict)
  {
    assert h < |l.holds|;
    SettlesOnlyActive(l, first, h);
    SettledForGood(Execute(l, first).0, between, h);
    SettlesOnlyActive(LedgerAfter(Execute(l, first).0, between), second, h);
  }

  // ----- what coverage rests on -----

  /** Coverage needs the active-hold sum that a hold is checked against to be current at commit: an accepted hold
      keeps the ledger solvent exactly when it fits in what is available at that moment. */
  lemma AcceptedHoldCoverage(l: Ledger, w: nat, amount: int, contract: nat, heldSeen: int, now: nat)
    requires Solvent(l) && w < |l.wallets|
    requires HoldFunds(l, Some(w), amount, Some(contract), heldSeen, now).1.Created?
    ensures Solvent(HoldFunds(l, Some(w), amount, Some(contract), heldSeen, now).0) <==>
            Held(l.holds, w) + amount <= l.wallets[w].balance
  {
    var l' := HoldFunds(l, Some(w), amount, Some(contract), heldSeen, now).0;
    forall v ensures Held(l'.holds, v) == Held(l.holds, v) + if v == w then amount else 0 {
      SumOfInsert(l.holds, l'.holds[|l.holds|], HeldBy(v));
    }
  }

  const HELD_80 := Ledger([Wallet(1, 100)], [Hold(0, 80, Active, 7)], [], [])

  lemma Held80()
    ensures Held(HELD_80.holds, 0) == 80 && Solvent(HELD_80)
  {
    SumOfInsert([], HELD_80.holds[0], HeldBy(0));
    assert [] + [HELD_80.holds[0]] == HELD_80.holds;
  }

  // A sum read before another hold committed lets both through: 80 and 50 held on a balance of 100.
  lemma StaleSumOverdraws()
    ensures Solvent(HELD_80) && !Solvent(HoldFunds(HELD_80, Some(0), 50, Some(8), 0, 0).0)
  {
    Held80();
    AcceptedHoldCoverage(HELD_80, 0, 50, 8, 0, 0);
  }
}
