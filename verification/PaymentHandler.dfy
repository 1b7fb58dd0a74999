/** The payments handlers as they run: statements against four tables, inside a transaction that commits or rolls back.
    Row locks are the subject of LedgerLocks; here each handler runs alone. */
module PaymentHandler {
  import opened Wrappers
  import opened Sums
  import opened Outbox
  import Db = PaymentsDb
  import opened LedgerInvariants

  predicate IsActive(holds: seq<Db.Hold>, h: nat) {
    h < |holds| && holds[h].status.Active?
  }

  // The hold can be paid out of its wallet to another one.
  predicate CanPayOut(l: Db.Ledger, h: nat, recipient: nat) {
    && IsActive(l.holds, h)
    && var row := l.holds[h];
    && row.wallet != recipient && row.wallet < |l.wallets| && row.amount <= l.wallets[row.wallet].balance
  }

  // When a transfer gives which answer.
  predicate TransferAnswers(l: Db.Ledger, hold: Option<nat>, recipient: Option<nat>, reply: Db.Reply) {
    if hold.None? || recipient.None? then reply == Db.BadRequest
    else
      var h, r := hold.value, recipient.value;
      && (reply == Db.BadRequest <==> IsActive(l.holds, h) && l.holds[h].wallet == r)
      && (reply == Db.Conflict <==> h < |l.holds| && !l.holds[h].status.Active?)
      && (reply == Db.NotFound <==> |l.holds| <= h || (CanPayOut(l, h, r) && |l.wallets| <= r))
      && (reply == Db.Done <==>
            CanPayOut(l, h, r) && r < |l.wallets| && 0 <= Db.Wrap64(l.wallets[r].balance + l.holds[h].amount))
      && (reply == Db.BadRequest || reply == Db.Conflict || reply == Db.NotFound || reply == Db.Done || reply == Db.Internal)
  }

  // What a transfer that succeeds writes.
  ghost predicate TransferWrites(l: Db.Ledger, l': Db.Ledger, h: nat, r: nat, now: nat)
    requires CanPayOut(l, h, r) && r < |l.wallets|
  {
    var row := l.holds[h];
    && |l'.wallets| == |l.wallets|
    && (forall w | 0 <= w < |l.wallets| && w != row.wallet && w != r :: l'.wallets[w] == l.wallets[w])
    && l'.wallets[row.wallet] == Db.Wallet(l.wallets[row.wallet].user, l.wallets[row.wallet].balance - row.amount)
    && l'.wallets[r] == Db.Wallet(l.wallets[r].user, Db.Wrap64(l.wallets[r].balance + row.amount))
    && l'.holds == l.holds[h := row.(status := Db.Transferred)]
    && l'.txns == l.txns + [Db.Txn(row.wallet, -row.amount, Db.TransferDebit, Some(h))]
                         + [Db.Txn(r, row.amount, Db.TransferCredit, Some(h))]
    && l'.outbox == l.outbox + [Row(Db.PaymentTransferred(h, row.contract, row.wallet, r, row.amount), now, false)]
  }

  lemma TransferMeets(l: Db.Ledger, hold: Option<nat>, recipient: Option<nat>, now: nat)
    ensures var (l', reply) := Db.TransferFunds(l, hold, recipient, now);
            && TransferAnswers(l, hold, recipient, reply)
            && (reply.Done? ==> TransferWrites(l, l', hold.value, recipient.value, now))
            && (Solvent(l) ==> Solvent(l'))
  {
    if Solvent(l) {
      StepKeepsSolvent(l, Db.OpTransfer(hold, recipient, now));
    }
  }

  class Handler {
    var wallets: seq<Db.Wallet>
    var holds: seq<Db.Hold>
    var txns: seq<Db.Txn>
    var outbox: seq<Row<Db.PaymentEvent>>

    function State(): Db.Ledger
      reads this
    {
      Db.Ledger(wallets, holds, txns, outbox)
    }

    constructor ()
      ensures State() == EMPTY
    {
      wallets, holds, txns, outbox := [], [], [], [];
    }

    // ----- the stores -----

    // The aggregate SUM(amount) over the wallet's active holds.
    method SumActiveByWallet(id: nat) returns (sum: int)
      ensures sum == Db.Held(holds, id)
    {
      sum := 0;
      for h := 0 to |holds|
        invariant sum == Db.Held(holds[..h], id)
      {
        assert holds[..h + 1] == holds[..h] + [holds[h]];
        SumOfInsert(holds[..h], holds[h], Db.HeldBy(id));
        if holds[h].wallet == id && holds[h].status.Active? {
          sum := sum + holds[h].amount;
        }
      }
      assert holds[..|holds|] == holds;
    }

    // GetByIDForUpdate: the wallet row with its derived available balance.
    method GetWallet(id: nat) returns (row: Option<Db.Wallet>, available: int)
      ensures row.Some? <==> id < |wallets|
      ensures row.Some? ==> row.value == wallets[id] && available == wallets[id].balance - Db.Held(holds, id)
      ensures row.Some? && Solvent(State()) ==> 0 <= available <= row.value.balance
    {
      if |wallets| <= id {
        return None, 0;
      }
      var held := SumActiveByWallet(id);
      row, available := Some(wallets[id]), wallets[id].balance - held;
      if Solvent(State()) {
        HeldBounds(State(), id);
      }
    }

    // UpdateBalance: refused by the table's check when the balance is negative.
    method UpdateBalance(id: nat, balance: int) returns (ok: bool)
      requires id < |wallets|
      modifies this`wallets
      ensures ok <==> 0 <= balance
      ensures wallets == if ok then old(wallets)[id := old(wallets)[id].(balance := balance)] else old(wallets)
    {
      ok := 0 <= balance;
      if ok {
        wallets := wallets[id := wallets[id].(balance := balance)];
      }
    }

    method CreateHold(wallet: nat, amount: int, contract: nat) returns (id: nat)
      modifies this`holds
      ensures id == |old(holds)| && holds == old(holds) + [Db.Hold(wallet, amount, Db.Active, contract)]
    {
      id := |holds|;
      holds := holds + [Db.Hold(wallet, amount, Db.Active, contract)];
    }

    method UpdateHoldStatus(id: nat, status: Db.HoldStatus)
      requires id < |holds|
      modifies this`holds
      ensures holds == old(holds)[id := old(holds)[id].(status := status)]
    {
      holds := holds[id := holds[id].(status := status)];
    }

    method CreateTransaction(t: Db.Txn)
      modifies this`txns
      ensures txns == old(txns) + [t]
    {
      txns := txns + [t];
    }

    method InsertOutbox(event: Db.PaymentEvent, now: nat)
      modifies this`outbox
      ensures outbox == old(outbox) + [Row(event, now, false)]
    {
      outbox := outbox + [Row(event, now, false)];
    }

    method Rollback(saved: Db.Ledger)
      modifies this
      ensures State() == saved
    {
      wallets, holds, txns, outbox := saved.wallets, saved.holds, saved.txns, saved.outbox;
    }

    /** Seed gives a new user one wallet with this balance; for a user who has one it changes nothing and answers it. */
    method Seed(user: nat, balance: int) returns (reply: Db.Reply)
      modifies this
      ensures (State(), reply) == Db.Seed(old(State()), user, balance)
      ensures old(Solvent(State())) ==> Solvent(State())
      ensures (exists w :: 0 <= w < |old(wallets)| && old(wallets)[w].user == user) ==>
              && State() == old(State())
              && reply.Created? && reply.id < |old(wallets)| && old(wallets)[reply.id].user == user
      ensures (forall w | 0 <= w < |old(wallets)| :: old(wallets)[w].user != user) ==>
              && holds == old(holds) && txns == old(txns) && outbox == old(outbox)
              && (if 0 <= balance <= Db.INT64_MAX then
                    wallets == old(wallets) + [Db.Wallet(user, balance)] && reply == Db.Created(|old(wallets)|)
                  else wallets == old(wallets) && reply == Db.Internal)
    {
      if old(Solvent(State())) {
        StepKeepsSolvent(old(State()), Db.OpSeed(user, balance));
      }
      var known := Db.WalletOf(wallets, user);
      if known.Some? {
        return Db.Created(known.value);
      }
      if balance < 0 || Db.INT64_MAX < balance {
        return Db.Internal;
      }
      wallets := wallets + [Db.Wallet(user, balance)];
      reply := Db.Created(|wallets| - 1);
    }

    // ----- the handlers -----

    /** HoldFunds reserves the amount if and only if it is positive and available, moves no money, and announces the
        outcome in the same transaction. */
    method HoldFunds(wallet: Option<nat>, amount: int, contract: Option<nat>, now: nat) returns (reply: Db.Reply)
      modifies this
      ensures (State(), reply) == Db.HoldFunds(old(State()), wallet, amount, contract,
                                               if wallet.Some? then Db.Held(old(holds), wallet.value) else 0, now)
      ensures old(Solvent(State())) ==> Solvent(State())
      ensures wallets == old(wallets)
      ensures reply == Db.BadRequest <==> wallet.None? || contract.None? || amount <= 0
      ensures reply == Db.NotFound <==> wallet.Some? && contract.Some? && 0 < amount && |wallets| <= wallet.value
      ensures reply == Db.Unprocessable <==>
              && wallet.Some? && contract.Some? && wallet.value < |wallets|
              && 0 < amount && wallets[wallet.value].balance - Db.Held(old(holds), wallet.value) < amount
      ensures reply.Created? <==>
              && wallet.Some? && contract.Some? && wallet.value < |wallets|
              && 0 < amount <= wallets[wallet.value].balance - Db.Held(old(holds), wallet.value)
      ensures reply.Created? ==>
              && reply.id == |old(holds)|
              && holds == old(holds) + [Db.Hold(wallet.value, amount, Db.Active, contract.value)]
              && txns == old(txns) + [Db.Txn(wallet.value, -amount, Db.HoldPlaced, Some(reply.id))]
              && outbox == old(outbox) + [Row(Db.PaymentHeld(reply.id, contract.value, wallet.value, amount), now, false)]
      ensures reply.Created? ==>
              forall w :: Db.Held(holds, w) == Db.Held(old(holds), w) + if w == wallet.value then amount else 0
      ensures reply == Db.Unprocessable ==>
              && holds == old(holds)
              && txns == old(txns) + [Db.Txn(wallet.value, -amount, Db.HoldFailed, None)]
              && outbox == old(outbox) + [Row(Db.PaymentFailed(contract.value, wallet.value, amount), now, false)]
      ensures !reply.Created? && reply != Db.Unprocessable ==> State() == old(State())
    {
      ghost var before := State();
      if Solvent(before) && wallet.Some? {
        StepKeepsSolvent(before, Db.OpHold(wallet, amount, contract, Db.Held(holds, wallet.value), now));
      }
      if wallet.None? || amount <= 0 || contract.None? {
        return Db.BadRequest;
      }
      var row, available := GetWallet(wallet.value);
      if row.None? {
        return Db.NotFound;
      }
      if available < amount {
        CreateTransaction(Db.Txn(wallet.value, -amount, Db.HoldFailed, None));
        InsertOutbox(Db.PaymentFailed(contract.value, wallet.value, amount), now);
        return Db.Unprocessable;
      }
      var h := CreateHold(wallet.value, amount, contract.value);
      CreateTransaction(Db.Txn(wallet.value, -amount, Db.HoldPlaced, Some(h)));
      InsertOutbox(Db.PaymentHeld(h, contract.value, wallet.value, amount), now);
      reply := Db.Created(h);
      forall w ensures Db.Held(holds, w) == Db.Held(old(holds), w) + if w == wallet.value then amount else 0 {
        SumOfInsert(old(holds), holds[h], Db.HeldBy(w));
      }
    }

    /** ReleaseFunds gives an active hold back to its own wallet and moves no money. */
    method ReleaseFunds(hold: Option<nat>, now: nat) returns (reply: Db.Reply)
      modifies this
      ensures (State(), reply) == Db.ReleaseFunds(old(State()), hold, now)
      ensures old(Solvent(State())) ==> Solvent(State())
      ensures wallets == old(wallets)
      ensures reply == Db.BadRequest <==> hold.None?
      ensures reply == Db.NotFound <==> hold.Some? && |old(holds)| <= hold.value
      ensures reply == Db.Conflict <==> hold.Some? && hold.value < |old(holds)| && !old(holds)[hold.value].status.Active?
      ensures reply.Done? <==> hold.Some? && hold.value < |old(holds)| && old(holds)[hold.value].status.Active?
      ensures reply.Done? ==>
              && var h, row := hold.value, old(holds)[hold.value];
              && holds == old(holds)[h := row.(status := Db.Released)]
              && txns == old(txns) + [Db.Txn(row.wallet, row.amount, Db.Release, Some(h))]
              && outbox == old(outbox) + [Row(Db.PaymentReleased(h, row.contract, row.wallet, row.amount), now, false)]
      ensures reply.Done? ==>
              forall w :: Db.Held(holds, w) ==
                Db.Held(old(holds), w) - if w == holds[hold.value].wallet then holds[hold.value].amount else 0
      ensures !reply.Done? ==> State() == old(State())
    {
      ghost var before := State();
      if Solvent(before) {
        StepKeepsSolvent(before, Db.OpRelease(hold, now));
      }
      if hold.None? {
        return Db.BadRequest;
      }
      if |holds| <= hold.value {
        return Db.NotFound;
      }
      var row := holds[hold.value];
      if !row.status.Active? {
        return Db.Conflict;
      }
      UpdateHoldStatus(hold.value, Db.Released);
      CreateTransaction(Db.Txn(row.wallet, row.amount, Db.Release, hold));
      InsertOutbox(Db.PaymentReleased(hold.value, row.contract, row.wallet, row.amount), now);
      reply := Db.Done;
      forall w ensures Db.Held(holds, w) == Db.Held(old(holds), w) - if w == row.wallet then row.amount else 0 {
        SumOfUpdate(old(holds), hold.value, holds[hold.value], Db.HeldBy(w));
      }
    }

    // The two balance updates, on values read before either was written.
    method MoveBalances(source: nat, debited: int, recipient: nat, credited: int) returns (ok: bool)
      requires source < |wallets| && recipient < |wallets|
      modifies this`wallets
      ensures ok <==> 0 <= debited && 0 <= credited
      ensures ok ==> wallets == old(wallets)[source := old(wallets)[source].(balance := debited)]
                                            [recipient := old(wallets)[recipient].(balance := credited)] || source == recipient
    {
      ok := UpdateBalance(source, debited);
      if ok {
        ok := UpdateBalance(recipient, credited);
      }
    }

    // The rows that record a transfer whose balances have moved.
    method SettleTransfer(h: nat, row: Db.Hold, recipient: nat, now: nat)
      requires h < |holds| && holds[h] == row
      modifies this`holds, this`txns, this`outbox
      ensures holds == old(holds)[h := row.(status := Db.Transferred)]
      ensures txns == old(txns) + [Db.Txn(row.wallet, -row.amount, Db.TransferDebit, Some(h))]
                                + [Db.Txn(recipient, row.amount, Db.TransferCredit, Some(h))]
      ensures outbox == old(outbox) + [Row(Db.PaymentTransferred(h, row.contract, row.wallet, recipient, row.amount), now, false)]
    {
      UpdateHoldStatus(h, Db.Transferred);
      CreateTransaction(Db.Txn(row.wallet, -row.amount, Db.TransferDebit, Some(h)));
      CreateTransaction(Db.Txn(recipient, row.amount, Db.TransferCredit, Some(h)));
      InsertOutbox(Db.PaymentTransferred(h, row.contract, row.wallet, recipient, row.amount), now);
    }

    /** TransferFunds moves the held amount, once, from the hold's wallet to the recipient; anything else changes
        nothing at all. */
    method TransferFunds(hold: Option<nat>, recipient: Option<nat>, now: nat) returns (reply: Db.Reply)
      modifies this
      ensures (State(), reply) == Db.TransferFunds(old(State()), hold, recipient, now)
      ensures old(Solvent(State())) ==> Solvent(State())
      ensures TransferAnswers(old(State()), hold, recipient, reply)
      ensures reply.Done? ==> TransferWrites(old(State()), State(), hold.value, recipient.value, now)
      ensures !reply.Done? ==> State() == old(State())
    {
      TransferMeets(old(State()), hold, recipient, now);
      if hold.None? || recipient.None? {
        return Db.BadRequest;
      }
      var saved := State();
      if |holds| <= hold.value {
        return Db.NotFound;
      }
      var row := holds[hold.value];
      if !row.status.Active? {
        return Db.Conflict;
      }
      if row.wallet == recipient.value {
        return Db.BadRequest;
      }
      var source, _ := GetWallet(row.wallet);
      if source.None? || source.value.balance < row.amount {
        return Db.Internal;
      }
      var payee, _ := GetWallet(recipient.value);
      if payee.None? {
        return Db.NotFound;
      }
      var moved := MoveBalances(row.wallet, source.value.balance - row.amount,
                                recipient.value, Db.Wrap64(payee.value.balance + row.amount));
      if !moved {
        Rollback(saved);
        return Db.Internal;
      }
      SettleTransfer(hold.value, row, recipient.value, now);
      reply := Db.Done;
    }
  }
}
