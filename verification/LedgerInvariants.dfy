/** What every ledger transaction keeps: escrow coverage, conservation, reconciliation with the transaction table and
    the exact journal of every hold. */
module LedgerInvariants {
  import opened Wrappers
  import opened Sums
  import opened PaymentsDb

  const EMPTY := Ledger([], [], [], [])

  // No wallet owes more than it has: active holds never exceed the balance, and balances fit their column.
  ghost predicate Solvent(l: Ledger) {
    && (forall w | 0 <= w < |l.wallets| :: 0 <= l.wallets[w].balance <= INT64_MAX)
    && (forall h | 0 <= h < |l.holds| :: l.holds[h].wallet < |l.wallets| && 0 < l.holds[h].amount)
    && (forall w | 0 <= w < |l.wallets| :: Held(l.holds, w) <= l.wallets[w].balance)
  }

  ghost predicate ReconciledWallet(l: Ledger, seeds: seq<int>, w: nat)
    requires w < |l.wallets| == |seeds|
  {
    var balance, held := l.wallets[w].balance, Held(l.holds, w);
    && balance == seeds[w] + Posted(l.txns, w, {TransferDebit, TransferCredit})
    && balance - held == seeds[w] + Posted(l.txns, w, {HoldPlaced, Release, TransferCredit})
    && held == Posted(l.txns, w, {TransferDebit}) - Posted(l.txns, w, {HoldPlaced}) - Posted(l.txns, w, {Release})
  }

  // The transaction table explains every derived number, wallet by wallet, from the balance first seeded.
  ghost predicate Reconciled(l: Ledger, seeds: seq<int>) {
    && |seeds| == |l.wallets|
    && (forall t | 0 <= t < |l.txns| :: l.txns[t].wallet < |l.wallets|)
    && (forall w | 0 <= w < |l.wallets| :: ReconciledWallet(l, seeds, w))
  }

  function PaidJournal(row: Hold, h: nat, payee: nat): seq<Txn> {
    [Txn(row.wallet, -row.amount, HoldPlaced, Some(h)),
     Txn(row.wallet, -row.amount, TransferDebit, Some(h)),
     Txn(payee, row.amount, TransferCredit, Some(h))]
  }

  ghost predicate PaidTo(l: Ledger, h: nat, payee: nat)
    requires h < |l.holds|
  {
    payee != l.holds[h].wallet && payee < |l.wallets| && Journal(l.txns, h) == PaidJournal(l.holds[h], h, payee)
  }

  // The journal of a hold tells its whole story, once.
  ghost predicate JournalOk(l: Ledger, h: nat)
    requires h < |l.holds|
  {
    var row, journal := l.holds[h], Journal(l.txns, h);
    var placed := Txn(row.wallet, -row.amount, HoldPlaced, Some(h));
    match row.status
    case Active => journal == [placed]
    case Released => journal == [placed, Txn(row.wallet, row.amount, Release, Some(h))]
    case Transferred => exists payee: nat :: PaidTo(l, h, payee)
  }

  ghost predicate Journalled(l: Ledger) {
    && (forall t | 0 <= t < |l.txns| && l.txns[t].hold.Some? :: l.txns[t].hold.value < |l.holds|)
    && (forall h | 0 <= h < |l.holds| :: JournalOk(l, h))
  }

  ghost predicate Valid(l: Ledger, seeds: seq<int>) {
    Solvent(l) && Reconciled(l, seeds) && Journalled(l) && Total(l.wallets) == Sum(seeds)
  }

  // The balances first seeded, in wallet order.
  function SeedsAfter(l: Ledger, seeds: seq<int>, op: Op): seq<int> {
    if op.OpSeed? && |Execute(l, op).0.wallets| > |l.wallets| then seeds + [op.balance] else seeds
  }

  lemma HeldBounds(l: Ledger, w: nat)
    requires Solvent(l)
    ensures 0 <= Held(l.holds, w)
    ensures forall h | 0 <= h < |l.holds| && l.holds[h].wallet == w && l.holds[h].status.Active? ::
              l.holds[h].amount <= Held(l.holds, w)
  {
    SumOfBounds(l.holds, HeldBy(w));
    forall h | 0 <= h < |l.holds| && l.holds[h].wallet == w && l.holds[h].status.Active?
      ensures l.holds[h].amount <= Held(l.holds, w)
    {
      assert HeldBy(w)(l.holds[h]) == l.holds[h].amount;
    }
  }

  lemma {:induction false} AllZero(s: seq<int>)
    requires forall k | 0 <= k < |s| :: s[k] == 0
    ensures Sum(s) == 0
  {
    if s == [] {
    } else {
      AllZero(s[..|s| - 1]);
    }
  }

  // A wallet that does not exist holds nothing.
  lemma NothingHeld(l: Ledger, w: nat)
    requires Solvent(l) && |l.wallets| <= w
    ensures Held(l.holds, w) == 0
  {
    AllZero(Column(l.holds, HeldBy(w)));
  }

  // ----- coverage -----

  lemma HoldKeepsSolvent(l: Ledger, op: Op)
    requires Solvent(l) && op.OpHold? && Admissible(l, op)
    ensures Solvent(Execute(l, op).0)
  {
    var l' := Execute(l, op).0;
    if |l'.holds| > |l.holds| {
      forall w | 0 <= w < |l.wallets| ensures Held(l'.holds, w) <= l'.wallets[w].balance {
        SumOfInsert(l.holds, l'.holds[|l.holds|], HeldBy(w));
      }
    }
  }

  lemma ReleaseKeepsSolvent(l: Ledger, op: Op)
    requires Solvent(l) && op.OpRelease?
    ensures Solvent(Execute(l, op).0)
  {
    var l' := Execute(l, op).0;
    if l' != l {
      forall w | 0 <= w < |l.wallets| ensures Held(l'.holds, w) <= l'.wallets[w].balance {
        SumOfUpdate(l.holds, op.hold.value, l'.holds[op.hold.value], HeldBy(w));
      }
    }
  }

  lemma TransferKeepsSolvent(l: Ledger, op: Op)
    requires Solvent(l) && op.OpTransfer?
    ensures Solvent(Execute(l, op).0)
  {
    var l' := Execute(l, op).0;
    if l' != l {
      forall w | 0 <= w < |l.wallets| ensures Held(l'.holds, w) <= l'.wallets[w].balance {
        SumOfUpdate(l.holds, op.hold.value, l'.holds[op.hold.value], HeldBy(w));
      }
    }
  }

  lemma StepKeepsSolvent(l: Ledger, op: Op)
    requires Solvent(l) && Admissible(l, op)
    ensures Solvent(Execute(l, op).0)
  {
    match op
    case OpSeed(_, _) => NothingHeld(l, |l.wallets|);
    case OpHold(_, _, _, _, _) => HoldKeepsSolvent(l, op);
    case OpRelease(_, _) => ReleaseKeepsSolvent(l, op);
    case OpTransfer(_, _, _) => TransferKeepsSolvent(l, op);
  }

  // ----- reconciliation -----

  // The sums one wallet is reconciled with.
  datatype Sheet = Sheet(balance: int, available: int, debits: int, placed: int, released: int)

  function SheetOf(txns: seq<Txn>, w: nat): Sheet {
    Sheet(Posted(txns, w, {TransferDebit, TransferCredit}), Posted(txns, w, {HoldPlaced, Release, TransferCredit}),
          Posted(txns, w, {TransferDebit}), Posted(txns, w, {HoldPlaced}), Posted(txns, w, {Release}))
  }

  function Enter(s: Sheet, t: Txn): Sheet {
    match t.kind
    case HoldPlaced => s.(available := s.available + t.amount, placed := s.placed + t.amount)
    case HoldFailed => s
    case Release => s.(available := s.available + t.amount, released := s.released + t.amount)
    case TransferDebit => s.(balance := s.balance + t.amount, debits := s.debits + t.amount)
    case TransferCredit => s.(balance := s.balance + t.amount, available := s.available + t.amount)
  }

  lemma SheetInsert(txns: seq<Txn>, t: Txn, w: nat)
    ensures SheetOf(txns + [t], w) == if t.wallet == w then Enter(SheetOf(txns, w), t) else SheetOf(txns, w)
  {
    SumOfInsert(txns, t, PostedBy(w, {TransferDebit, TransferCredit}));
    SumOfInsert(txns, t, PostedBy(w, {HoldPlaced, Release, TransferCredit}));
    SumOfInsert(txns, t, PostedBy(w, {TransferDebit}));
    SumOfInsert(txns, t, PostedBy(w, {HoldPlaced}));
    SumOfInsert(txns, t, PostedBy(w, {Release}));
  }

  lemma ReconciledBySheet(l: Ledger, seeds: seq<int>, w: nat)
    requires w < |l.wallets| == |seeds|
    ensures ReconciledWallet(l, seeds, w) <==>
            var s, balance, held := SheetOf(l.txns, w), l.wallets[w].balance, Held(l.holds, w);
            && balance == seeds[w] + s.balance
            && balance - held == seeds[w] + s.available
            && held == s.debits - s.placed - s.released
  {
  }

  // A hold request moves the sums of its own wallet, and only when a hold is placed.
  lemma HoldNumbers(l: Ledger, op: Op, w: nat)
    requires op.OpHold? && |Execute(l, op).0.txns| > |l.txns|
    ensures op.wallet.Some? && Execute(l, op).0.wallets == l.wallets
    ensures var l', s := Execute(l, op).0, SheetOf(l.txns, w);
            var more := if op.wallet.value == w && |l'.holds| > |l.holds| then op.amount else 0;
            && Held(l'.holds, w) == Held(l.holds, w) + more
            && SheetOf(l'.txns, w) == s.(available := s.available - more, placed := s.placed - more)
  {
    var l' := Execute(l, op).0;
    SheetInsert(l.txns, l'.txns[|l.txns|], w);
    if |l'.holds| > |l.holds| {
      SumOfInsert(l.holds, l'.holds[|l.holds|], HeldBy(w));
    }
  }

  lemma HoldKeepsReconciled(l: Ledger, seeds: seq<int>, op: Op, w: nat)
    requires Reconciled(l, seeds) && op.OpHold? && w < |l.wallets|
    ensures ReconciledWallet(Execute(l, op).0, seeds, w)
  {
    var l' := Execute(l, op).0;
    assert ReconciledWallet(l, seeds, w);
    if |l'.txns| > |l.txns| {
      HoldNumbers(l, op, w);
      ReconciledBySheet(l', seeds, w);
    }
  }

  lemma ReleaseKeepsReconciled(l: Ledger, seeds: seq<int>, op: Op, w: nat)
    requires Reconciled(l, seeds) && op.OpRelease? && w < |l.wallets|
    ensures ReconciledWallet(Execute(l, op).0, seeds, w)
  {
    var l' := Execute(l, op).0;
    assert ReconciledWallet(l, seeds, w);
    if |l'.txns| > |l.txns| {
      SheetInsert(l.txns, l'.txns[|l.txns|], w);
      SumOfUpdate(l.holds, op.hold.value, l'.holds[op.hold.value], HeldBy(w));
      ReconciledBySheet(l', seeds, w);
    }
  }

  lemma TransferSheet(l: Ledger, op: Op, w: nat)
    requires op.OpTransfer? && Execute(l, op).1 == Done
    ensures op.hold.Some? && op.recipient.Some? && op.hold.value < |l.holds|
    ensures var row, sheet := l.holds[op.hold.value], SheetOf(l.txns, w);
            SheetOf(Execute(l, op).0.txns, w) ==
              if w == row.wallet then Enter(sheet, Txn(w, -row.amount, TransferDebit, op.hold))
              else if w == op.recipient.value then Enter(sheet, Txn(w, row.amount, TransferCredit, op.hold))
              else sheet
  {
    var l' := Execute(l, op).0;
    var debit, credit := l'.txns[|l.txns|], l'.txns[|l.txns| + 1];
    SheetInsert(l.txns, debit, w);
    SheetInsert(l.txns + [debit], credit, w);
    assert l'.txns == l.txns + [debit] + [credit];
  }

  lemma TransferNumbers(l: Ledger, op: Op, w: nat)
    requires Solvent(l) && op.OpTransfer? && Execute(l, op).1 == Done && w < |l.wallets|
    ensures op.hold.Some? && op.recipient.Some? && op.hold.value < |l.holds|
    ensures var l', row := Execute(l, op).0, l.holds[op.hold.value];
            && |l'.wallets| == |l.wallets| && row.wallet != op.recipient.value
            && l'.wallets[w].balance == l.wallets[w].balance +
                 (if w == row.wallet then -row.amount else if w == op.recipient.value then row.amount else 0)
            && Held(l'.holds, w) == Held(l.holds, w) - if w == row.wallet then row.amount else 0
  {
    SumOfUpdate(l.holds, op.hold.value, Execute(l, op).0.holds[op.hold.value], HeldBy(w));
  }

  lemma TransferKeepsReconciled(l: Ledger, seeds: seq<int>, op: Op, w: nat)
    requires Solvent(l) && Reconciled(l, seeds) && op.OpTransfer? && w < |l.wallets|
    ensures ReconciledWallet(Execute(l, op).0, seeds, w)
  {
    var (l', reply) := Execute(l, op);
    assert ReconciledWallet(l, seeds, w);
    if reply == Done {
      TransferSheet(l, op, w);
      TransferNumbers(l, op, w);
      ReconciledBySheet(l', seeds, w);
    }
  }

  // A new wallet has no transactions and no holds.
  lemma SeedKeepsReconciled(l: Ledger, seeds: seq<int>, op: Op)
    requires Solvent(l) && Reconciled(l, seeds) && op.OpSeed?
    ensures Reconciled(Execute(l, op).0, SeedsAfter(l, seeds, op))
  {
    var l' := Execute(l, op).0;
    if l' != l {
      var n := |l.wallets|;
      NothingHeld(l, n);
      forall kinds: set<Kind> ensures Posted(l.txns, n, kinds) == 0 {
        AllZero(Column(l.txns, PostedBy(n, kinds)));
      }
      forall w | 0 <= w < |l'.wallets| ensures ReconciledWallet(l', SeedsAfter(l, seeds, op), w) {
        if w < n {
          assert ReconciledWallet(l, seeds, w);
        }
      }
    }
  }

  lemma StepKeepsReconciled(l: Ledger, seeds: seq<int>, op: Op)
    requires Solvent(l) && Reconciled(l, seeds)
    ensures Reconciled(Execute(l, op).0, SeedsAfter(l, seeds, op))
  {
    if op.OpSeed? {
      SeedKeepsReconciled(l, seeds, op);
    } else {
      forall w | 0 <= w < |l.wallets| ensures ReconciledWallet(Execute(l, op).0, seeds, w) {
        match op
        case OpHold(_, _, _, _, _) => HoldKeepsReconciled(l, seeds, op, w);
        case OpRelease(_, _) => ReleaseKeepsReconciled(l, seeds, op, w);
        case OpTransfer(_, _, _) => TransferKeepsReconciled(l, seeds, op, w);
      }
    }
  }

  // ----- journals -----

  lemma JournalInsert(txns: seq<Txn>, t: Txn, h: nat)
    ensures Journal(txns + [t], h) == Journal(txns, h) + if t.hold == Some(h) then [t] else []
  {
    assert (txns + [t])[..|txns|] == txns;
  }

  lemma {:induction false} NoJournal(txns: seq<Txn>, h: nat)
    requires forall t | 0 <= t < |txns| :: txns[t].hold != Some(h)
    ensures Journal(txns, h) == []
  {
    if txns == [] {
    } else {
      NoJournal(txns[..|txns| - 1], h);
    }
  }

  // Rows that do not name a hold leave its journal alone.
  lemma JournalKept(l: Ledger, l': Ledger, h: nat)
    requires Journalled(l) && h < |l.holds| && h < |l'.holds| && l'.holds[h] == l.holds[h]
    requires |l.wallets| <= |l'.wallets|
    requires Journal(l'.txns, h) == Journal(l.txns, h)
    ensures JournalOk(l', h)
    ensures forall payee: nat :: PaidTo(l, h, payee) ==> PaidTo(l', h, payee)
  {
    assert JournalOk(l, h);
    if l.holds[h].status.Transferred? {
      var payee: nat :| PaidTo(l, h, payee);
      assert PaidTo(l', h, payee);
    }
  }

  lemma HoldJournal(l: Ledger, op: Op, h: nat)
    requires Journalled(l) && op.OpHold? && |Execute(l, op).0.txns| > |l.txns| && h < |Execute(l, op).0.holds|
    ensures JournalOk(Execute(l, op).0, h)
  {
    var l' := Execute(l, op).0;
    assert l'.txns == l.txns + [l'.txns[|l.txns|]];
    JournalInsert(l.txns, l'.txns[|l.txns|], h);
    if h < |l.holds| {
      JournalKept(l, l', h);
    } else {
      NoJournal(l.txns, h);
    }
  }

  lemma HoldKeepsJournalled(l: Ledger, op: Op)
    requires Journalled(l) && op.OpHold?
    ensures Journalled(Execute(l, op).0)
  {
    var l' := Execute(l, op).0;
    if |l'.txns| > |l.txns| {
      forall h | 0 <= h < |l'.holds| ensures JournalOk(l', h) {
        HoldJournal(l, op, h);
      }
    }
  }

  lemma ReleaseKeepsJournalled(l: Ledger, op: Op)
    requires Journalled(l) && op.OpRelease?
    ensures Journalled(Execute(l, op).0)
  {
    var l' := Execute(l, op).0;
    if |l'.txns| > |l.txns| {
      forall h | 0 <= h < |l'.holds| ensures JournalOk(l', h) {
        JournalInsert(l.txns, l'.txns[|l.txns|], h);
        assert JournalOk(l, h);
        if h != op.hold.value {
          JournalKept(l, l', h);
        }
      }
    }
  }

  lemma TransferJournal(l: Ledger, op: Op, h: nat)
    requires op.OpTransfer? && Execute(l, op).1 == Done && Journalled(l) && h < |l.holds|
    ensures op.hold.Some? && op.recipient.Some? && op.hold.value < |l.holds|
    ensures Journal(Execute(l, op).0.txns, h) ==
            if h == op.hold.value then PaidJournal(l.holds[h], h, op.recipient.value) else Journal(l.txns, h)
  {
    var l', n := Execute(l, op).0, |l.txns|;
    var debit, credit := l'.txns[n], l'.txns[n + 1];
    assert l'.txns == l.txns + [debit] + [credit];
    JournalInsert(l.txns, debit, h);
    JournalInsert(l.txns + [debit], credit, h);
    assert JournalOk(l, h);
  }

  lemma TransferPays(l: Ledger, op: Op)
    requires op.OpTransfer? && Execute(l, op).1 == Done
    requires op.hold.Some? && op.recipient.Some? && op.hold.value < |l.holds|
    requires Journal(Execute(l, op).0.txns, op.hold.value) == PaidJournal(l.holds[op.hold.value], op.hold.value, op.recipient.value)
    ensures op.hold.value < |Execute(l, op).0.holds| && JournalOk(Execute(l, op).0, op.hold.value)
  {
    assert PaidTo(Execute(l, op).0, op.hold.value, op.recipient.value);
  }

  lemma TransferSpares(l: Ledger, op: Op, h: nat)
    requires op.OpTransfer? && Execute(l, op).1 == Done && h < |l.holds| && op.hold != Some(h)
    ensures h < |Execute(l, op).0.holds| && Execute(l, op).0.holds[h] == l.holds[h]
    ensures |Execute(l, op).0.wallets| == |l.wallets|
  {
  }

  lemma TransferKeepsJournal(l: Ledger, op: Op, h: nat)
    requires Journalled(l) && op.OpTransfer? && Execute(l, op).1 == Done && h < |l.holds|
    ensures h < |Execute(l, op).0.holds| && JournalOk(Execute(l, op).0, h)
  {
    var l' := Execute(l, op).0;
    TransferJournal(l, op, h);
    if h != op.hold.value {
      TransferSpares(l, op, h);
      JournalKept(l, l', h);
    } else {
      TransferPays(l, op);
    }
  }

  lemma TransferKeepsJournalled(l: Ledger, op: Op)
    requires Journalled(l) && op.OpTransfer?
    ensures Journalled(Execute(l, op).0)
  {
    if Execute(l, op).1 == Done {
      forall h | 0 <= h < |l.holds| ensures h < |Execute(l, op).0.holds| && JournalOk(Execute(l, op).0, h) {
        TransferKeepsJournal(l, op, h);
      }
    }
  }

  lemma StepKeepsJournalled(l: Ledger, op: Op)
    requires Journalled(l)
    ensures Journalled(Execute(l, op).0)
  {
    match op
    case OpSeed(_, _) =>
      var l' := Execute(l, op).0;
      forall h | 0 <= h < |l'.holds| ensures JournalOk(l', h) {
        JournalKept(l, l', h);
      }
    case OpHold(_, _, _, _, _) => HoldKeepsJournalled(l, op);
    case OpRelease(_, _) => ReleaseKeepsJournalled(l, op);
    case OpTransfer(_, _, _) => TransferKeepsJournalled(l, op);
  }

  // A hold that becomes transferred was paid to the recipient the transfer named.
  lemma NewlyPaid(l: Ledger, op: Op, h: nat)
    requires Journalled(l) && h < |l.holds| && !l.holds[h].status.Transferred?
    requires h < |Execute(l, op).0.holds| && Execute(l, op).0.holds[h].status.Transferred?
    ensures op.OpTransfer? && Execute(l, op).1 == Done && op.hold == Some(h) && op.recipient.Some?
    ensures PaidTo(Execute(l, op).0, h, op.recipient.value)
  {
    assert op.OpTransfer? && Execute(l, op).1 == Done;
    TransferJournal(l, op, h);
  }

  // Only a settlement of a hold adds to the journal of a hold that exists.
  lemma OtherJournals(l: Ledger, op: Op, h: nat)
    requires h < |l.holds| && !l.holds[h].status.Active? && !op.OpTransfer?
    ensures Journal(Execute(l, op).0.txns, h) == Journal(l.txns, h)
  {
    var l' := Execute(l, op).0;
    if |l'.txns| > |l.txns| {
      assert l'.txns == l.txns + [l'.txns[|l.txns|]];
      JournalInsert(l.txns, l'.txns[|l.txns|], h);
    }
  }

  lemma SettledHoldStays(l: Ledger, op: Op, h: nat)
    requires h < |l.holds| && !l.holds[h].status.Active?
    ensures h < |Execute(l, op).0.holds| && Execute(l, op).0.holds[h] == l.holds[h]
    ensures |l.wallets| <= |Execute(l, op).0.wallets|
  {
  }

  // A transferred hold and its journal are final.
  lemma PaidIsFinal(l: Ledger, op: Op, h: nat, payee: nat)
    requires Journalled(l) && h < |l.holds| && l.holds[h].status.Transferred? && PaidTo(l, h, payee)
    ensures h < |Execute(l, op).0.holds| && Execute(l, op).0.holds[h] == l.holds[h]
    ensures PaidTo(Execute(l, op).0, h, payee)
  {
    SettledHoldStays(l, op, h);
    if !op.OpTransfer? {
      OtherJournals(l, op, h);
    } else if Execute(l, op).1 == Done {
      TransferJournal(l, op, h);
    }
  }

  // ----- conservation -----

  lemma StepConserves(l: Ledger, seeds: seq<int>, op: Op)
    requires Solvent(l) && Total(l.wallets) == Sum(seeds)
    ensures Total(Execute(l, op).0.wallets) == Sum(SeedsAfter(l, seeds, op))
  {
    var l' := Execute(l, op).0;
    if op.OpSeed? && l' != l {
      SumOfInsert(l.wallets, l'.wallets[|l.wallets|], BalanceOf());
      assert (seeds + [op.balance])[..|seeds|] == seeds;
    } else if op.OpTransfer? && l' != l {
      var s, r := l.holds[op.hold.value].wallet, op.recipient.value;
      SumOfUpdate(l.wallets, s, l'.wallets[s], BalanceOf());
      SumOfUpdate(l.wallets[s := l'.wallets[s]], r, l'.wallets[r], BalanceOf());
      assert l'.wallets == l.wallets[s := l'.wallets[s]][r := l'.wallets[r]];
    }
  }

  /** Every committed transaction keeps everything. */
  lemma StepKeepsValid(l: Ledger, seeds: seq<int>, op: Op)
    requires Valid(l, seeds) && Admissible(l, op)
    ensures Valid(Execute(l, op).0, SeedsAfter(l, seeds, op))
  {
    StepKeepsSolvent(l, op);
    StepKeepsReconciled(l, seeds, op);
    StepKeepsJournalled(l, op);
    StepConserves(l, seeds, op);
  }
}
