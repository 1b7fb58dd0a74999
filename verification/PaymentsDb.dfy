/** The payments database and its transactions, as functions from one committed state to the next.

    Rows of wallets, holds and transactions are never deleted and get fresh keys, so a row is named by its position.
    A key that names no row is one at or past the end of the table; `None` stands for the nil UUID. */
module PaymentsDb {
  import opened Wrappers
  import opened Sums
  import opened Outbox

  const INT64_MAX := 0x7fff_ffff_ffff_ffff

  datatype HoldStatus = Active | Released | Transferred

  datatype Wallet = Wallet(user: nat, balance: int)

  datatype Hold = Hold(wallet: nat, amount: int, status: HoldStatus, contract: nat)

  datatype Kind = HoldPlaced | HoldFailed | Release | TransferDebit | TransferCredit

  datatype Txn = Txn(wallet: nat, amount: int, kind: Kind, hold: Option<nat>)

  datatype PaymentEvent =
    | PaymentHeld(hold: nat, contract: nat, wallet: nat, amount: int)
    | PaymentReleased(hold: nat, contract: nat, wallet: nat, amount: int)
    | PaymentTransferred(hold: nat, contract: nat, source: nat, recipient: nat, amount: int)
    | PaymentFailed(contract: nat, wallet: nat, amount: int)

  datatype Ledger = Ledger(wallets: seq<Wallet>, holds: seq<Hold>, txns: seq<Txn>, outbox: seq<Row<PaymentEvent>>)

  datatype Reply = Created(id: nat) | Done | BadRequest | NotFound | Conflict | Unprocessable | Internal

  // Go's int64 addition of two values in range.
  function Wrap64(x: int): int {
    if x > INT64_MAX then x - 0x1_0000_0000_0000_0000 else x
  }

  // The derived columns: the active-hold sum, and the sums of posted amounts by transaction type.

  function HeldBy(w: nat): Hold -> int {
    (h: Hold) => if h.wallet == w && h.status.Active? then h.amount else 0
  }

  function Held(holds: seq<Hold>, w: nat): int {
    SumOf(holds, HeldBy(w))
  }

  function PostedBy(w: nat, kinds: set<Kind>): Txn -> int {
    (t: Txn) => if t.wallet == w && t.kind in kinds then t.amount else 0
  }

  function Posted(txns: seq<Txn>, w: nat, kinds: set<Kind>): int {
    SumOf(txns, PostedBy(w, kinds))
  }

  function BalanceOf(): Wallet -> int {
    (w: Wallet) => w.balance
  }

  function Total(wallets: seq<Wallet>): int {
    SumOf(wallets, BalanceOf())
  }

  // The journal of a hold: its transaction rows in order of insertion.
  function Journal(txns: seq<Txn>, h: nat): seq<Txn> {
    if txns == [] then []
    else
      var t := txns[|txns| - 1];
      Journal(txns[..|txns| - 1], h) + if t.hold == Some(h) then [t] else []
  }

  function Emit(l: Ledger, event: PaymentEvent, now: nat): Ledger {
    l.(outbox := l.outbox + [Row(event, now, false)])
  }

  function Post(l: Ledger, t: Txn): Ledger {
    l.(txns := l.txns + [t])
  }

  // HoldFunds.  `heldSeen` is the active-hold sum the transaction read with the wallet row; it may be larger than
  // the sum at commit, when a release commits in between.
  function HoldFunds(l: Ledger, wallet: Option<nat>, amount: int, contract: Option<nat>, heldSeen: int, now: nat): (Ledger, Reply) {
    if wallet.None? || amount <= 0 || contract.None? then (l, BadRequest)
    else if |l.wallets| <= wallet.value then (l, NotFound)
    else
      var w, c, h := wallet.value, contract.value, |l.holds|;
      if l.wallets[w].balance - heldSeen < amount then
        (Emit(Post(l, Txn(w, -amount, HoldFailed, None)), PaymentFailed(c, w, amount), now), Unprocessable)
      else
        (Emit(Post(l.(holds := l.holds + [Hold(w, amount, Active, c)]), Txn(w, -amount, HoldPlaced, Some(h))),
              PaymentHeld(h, c, w, amount), now), Created(h))
  }

  function ReleaseFunds(l: Ledger, hold: Option<nat>, now: nat): (Ledger, Reply) {
    if hold.None? then (l, BadRequest)
    else if |l.holds| <= hold.value then (l, NotFound)
    else
      var h := hold.value;
      var row := l.holds[h];
      if !row.status.Active? then (l, Conflict)
      else
        (Emit(Post(l.(holds := l.holds[h := row.(status := Released)]), Txn(row.wallet, row.amount, Release, Some(h))),
              PaymentReleased(h, row.contract, row.wallet, row.amount), now), Done)
  }

  // TransferFunds.  A wrapped credit is negative, breaks the balance check of the wallets table and aborts.
  function TransferFunds(l: Ledger, hold: Option<nat>, recipient: Option<nat>, now: nat): (Ledger, Reply) {
    if hold.None? || recipient.None? then (l, BadRequest)
    else if |l.holds| <= hold.value then (l, NotFound)
    else
      var h, r := hold.value, recipient.value;
      var row := l.holds[h];
      var s := row.wallet;
      if !row.status.Active? then (l, Conflict)
      else if s == r then (l, BadRequest)
      else if |l.wallets| <= s || l.wallets[s].balance < row.amount then (l, Internal)
      else if |l.wallets| <= r then (l, NotFound)
      else
        var debited, credited := l.wallets[s].balance - row.amount, Wrap64(l.wallets[r].balance + row.amount);
        if credited < 0 then (l, Internal)
        else
          var moved := l.(wallets := l.wallets[s := l.wallets[s].(balance := debited)][r := l.wallets[r].(balance := credited)],
                          holds := l.holds[h := row.(status := Transferred)]);
          var posted := Post(Post(moved, Txn(s, -row.amount, TransferDebit, Some(h))), Txn(r, row.amount, TransferCredit, Some(h)));
          (Emit(posted, PaymentTransferred(h, row.contract, s, r, row.amount), now), Done)
  }

  function WalletOf(wallets: seq<Wallet>, user: nat): (w: Option<nat>)
    ensures w.Some? ==> w.value < |wallets| && wallets[w.value].user == user
    ensures w.None? ==> forall i | 0 <= i < |wallets| :: wallets[i].user != user
  {
    if wallets == [] then None
    else
      var n := |wallets| - 1;
      if wallets[n].user == user then Some(n) else WalletOf(wallets[..n], user)
  }

  // Seed: one wallet per user; seeding a user again changes nothing.  The table refuses a negative balance, and the
  // column holds no more than an int64.
  function Seed(l: Ledger, user: nat, balance: int): (Ledger, Reply) {
    var known := WalletOf(l.wallets, user);
    if known.Some? then (l, Created(known.value))
    else if balance < 0 || INT64_MAX < balance then (l, Internal)
    else (l.(wallets := l.wallets + [Wallet(user, balance)]), Created(|l.wallets|))
  }

  // Everything that can happen to the ledger, one committed transaction at a time.
  datatype Op =
    | OpSeed(user: nat, balance: int)
    | OpHold(wallet: Option<nat>, amount: int, contract: Option<nat>, heldSeen: int, now: nat)
    | OpRelease(hold: Option<nat>, now: nat)
    | OpTransfer(hold: Option<nat>, recipient: Option<nat>, now: nat)

  function Execute(l: Ledger, op: Op): (Ledger, Reply) {
    match op
    case OpSeed(user, balance) => Seed(l, user, balance)
    case OpHold(wallet, amount, contract, heldSeen, now) => HoldFunds(l, wallet, amount, contract, heldSeen, now)
    case OpRelease(hold, now) => ReleaseFunds(l, hold, now)
    case OpTransfer(hold, recipient, now) => TransferFunds(l, hold, recipient, now)
  }

  // The active-hold sum is read once the wallet row is locked, so nothing but a release can change it before commit.
  predicate Admissible(l: Ledger, op: Op) {
    op.OpHold? && op.wallet.Some? ==> Held(l.holds, op.wallet.value) <= op.heldSeen
  }
}
