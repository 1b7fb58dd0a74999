/** Hold, release and transfer transactions interleaved statement by statement.

    A transaction reads rows under locks it keeps to its end, computes with the values it read, and writes everything
    at commit; other transactions see nothing of it before that.  The active-hold sum read together with a wallet is
    taken when the lock is granted.  A waiting transaction is one that takes no step; deadlock is not excluded. */
module LedgerLocks {
  import opened Wrappers
  import opened Sums
  import opened PaymentsDb
  import opened LedgerInvariants
  import opened LedgerTheorems

  datatype Request =
    | HoldRequest(wallet: nat, amount: int, contract: nat)
    | ReleaseRequest(hold: nat)
    | TransferRequest(hold: nat, recipient: nat)

  // How far a transaction has come, with the values it has read under lock, and at its end the answer its caller gets;
  // a transaction that is given up has none.
  datatype Progress =
    | Begun
    | ReadWallet(balance: int, heldSeen: int)
    | ReadHold(row: Hold)
    | ReadSource(row: Hold, source: int)
    | ReadBoth(row: Hold, source: int, recipient: int)
    | Closed(reply: Option<Reply>)

  datatype Tx = Tx(request: Request, at: Progress)

  datatype State = State(l: Ledger, txs: seq<Tx>)

  datatype Step =
    | Seeding(user: nat, balance: int)
    | Begin(request: Request)
    | Read(i: nat)
    | Commit(i: nat, now: nat)
    | Rollback(i: nat)

  function WalletLocks(tx: Tx): set<nat> {
    match (tx.request, tx.at)
    case (HoldRequest(w, _, _), ReadWallet(_, _)) => {w}
    case (TransferRequest(_, _), ReadSource(row, _)) => {row.wallet}
    case (TransferRequest(_, r), ReadBoth(row, _, _)) => {row.wallet, r}
    case _ => {}
  }

  function HoldLocks(tx: Tx): set<nat> {
    match (tx.request, tx.at)
    case (ReleaseRequest(h), ReadHold(_)) => {h}
    case (TransferRequest(h, _), ReadHold(_)) => {h}
    case (TransferRequest(h, _), ReadSource(_, _)) => {h}
    case (TransferRequest(h, _), ReadBoth(_, _, _)) => {h}
    case _ => {}
  }

  function Close(tx: Tx, reply: Reply): Tx {
    tx.(at := Closed(Some(reply)))
  }

  // The next locking read of a transaction, on the committed state; it closes the transaction on an error reply.
  function Advance(l: Ledger, tx: Tx): Tx {
    match (tx.request, tx.at)
    case (HoldRequest(w, amount, _), Begun) =>
      if amount <= 0 then Close(tx, BadRequest)
      else if |l.wallets| <= w then Close(tx, NotFound)
      else tx.(at := ReadWallet(l.wallets[w].balance, Held(l.holds, w)))
    case (ReleaseRequest(h), Begun) =>
      if |l.holds| <= h then Close(tx, NotFound)
      else if !l.holds[h].status.Active? then Close(tx, Conflict)
      else tx.(at := ReadHold(l.holds[h]))
    case (TransferRequest(h, r), Begun) =>
      if |l.holds| <= h then Close(tx, NotFound)
      else if !l.holds[h].status.Active? then Close(tx, Conflict)
      else if l.holds[h].wallet == r then Close(tx, BadRequest)
      else tx.(at := ReadHold(l.holds[h]))
    case (TransferRequest(_, _), ReadHold(row)) =>
      if |l.wallets| <= row.wallet || l.wallets[row.wallet].balance < row.amount then Close(tx, Internal)
      else tx.(at := ReadSource(row, l.wallets[row.wallet].balance))
    case (TransferRequest(_, r), ReadSource(row, source)) =>
      if |l.wallets| <= r then Close(tx, NotFound) else tx.(at := ReadBoth(row, source, l.wallets[r].balance))
    case _ => tx
  }

  predicate Ready(tx: Tx) {
    || (tx.request.HoldRequest? && tx.at.ReadWallet?)
    || (tx.request.ReleaseRequest? && tx.at.ReadHold?)
    || (tx.request.TransferRequest? && tx.at.ReadBoth?)
  }

  // UPDATE ... WHERE id = ...: a missing row is no error.

  function SetBalance(l: Ledger, w: nat, balance: int): Ledger {
    if w < |l.wallets| then l.(wallets := l.wallets[w := l.wallets[w].(balance := balance)]) else l
  }

  function SetStatus(l: Ledger, h: nat, status: HoldStatus): Ledger {
    if h < |l.holds| then l.(holds := l.holds[h := l.holds[h].(status := status)]) else l
  }

  // What a transaction writes, computed from the values it read, whatever the tables hold by now.
  function Written(l: Ledger, tx: Tx, now: nat): Ledger
    requires Ready(tx)
  {
    match tx.request
    case HoldRequest(w, amount, contract) =>
      if tx.at.balance - tx.at.heldSeen < amount then
        Emit(Post(l, Txn(w, -amount, HoldFailed, None)), PaymentFailed(contract, w, amount), now)
      else
        Emit(Post(l.(holds := l.holds + [Hold(w, amount, Active, contract)]), Txn(w, -amount, HoldPlaced, Some(|l.holds|))),
             PaymentHeld(|l.holds|, contract, w, amount), now)
    case ReleaseRequest(h) =>
      var row := tx.at.row;
      Emit(Post(SetStatus(l, h, Released), Txn(row.wallet, row.amount, Release, Some(h))),
           PaymentReleased(h, row.contract, row.wallet, row.amount), now)
    case TransferRequest(h, r) =>
      var row := tx.at.row;
      var s, debited, credited := row.wallet, tx.at.source - row.amount, Wrap64(tx.at.recipient + row.amount);
      if debited < 0 || credited < 0 then l
      else
        var moved := SetStatus(SetBalance(SetBalance(l, s, debited), r, credited), h, Transferred);
        Emit(Post(Post(moved, Txn(s, -row.amount, TransferDebit, Some(h))), Txn(r, row.amount, TransferCredit, Some(h))),
             PaymentTransferred(h, row.contract, s, r, row.amount), now)
  }

  // What a transaction answers after its commit, computed from the values it read.
  function Answer(l: Ledger, tx: Tx): Reply
    requires Ready(tx)
  {
    match tx.request
    case HoldRequest(_, amount, _) => if tx.at.balance - tx.at.heldSeen < amount then Unprocessable else Created(|l.holds|)
    case ReleaseRequest(_) => Done
    case TransferRequest(_, _) =>
      if tx.at.source - tx.at.row.amount < 0 || Wrap64(tx.at.recipient + tx.at.row.amount) < 0 then Internal else Done
  }

  // No lock that step i would newly take is held by another transaction.
  predicate LocksFree(s: State, i: nat)
    requires i < |s.txs|
  {
    var next := Advance(s.l, s.txs[i]);
    forall j | 0 <= j < |s.txs| && j != i :: WalletLocks(next) !! WalletLocks(s.txs[j]) && HoldLocks(next) !! HoldLocks(s.txs[j])
  }

  ghost predicate Enabled(s: State, step: Step) {
    match step
    case Seeding(_, _) => true
    case Begin(_) => true
    case Read(i) => i < |s.txs| && LocksFree(s, i)
    case Commit(i, _) => i < |s.txs| && Ready(s.txs[i])
    case Rollback(i) => i < |s.txs| && !s.txs[i].at.Closed?
  }

  ghost function Apply(s: State, step: Step): State
    requires Enabled(s, step)
  {
    match step
    case Seeding(user, balance) => s.(l := Seed(s.l, user, balance).0)
    case Begin(request) => s.(txs := s.txs + [Tx(request, Begun)])
    case Read(i) => s.(txs := s.txs[i := Advance(s.l, s.txs[i])])
    case Commit(i, now) => State(Written(s.l, s.txs[i], now), s.txs[i := Close(s.txs[i], Answer(s.l, s.txs[i]))])
    case Rollback(i) => s.(txs := s.txs[i := s.txs[i].(at := Closed(None))])
  }

  ghost predicate HoldIs(l: Ledger, h: nat, row: Hold) {
    h < |l.holds| && l.holds[h] == row && row.status.Active?
  }

  ghost predicate SourceIs(l: Ledger, row: Hold, source: int) {
    row.wallet < |l.wallets| && l.wallets[row.wallet].balance == source && row.amount <= source
  }

  // The values a transaction read are still what the tables hold; only the active-hold sum may have fallen since.
  ghost predicate TxOk(l: Ledger, tx: Tx) {
    match (tx.request, tx.at)
    case (HoldRequest(w, amount, _), ReadWallet(balance, heldSeen)) =>
      0 < amount && w < |l.wallets| && l.wallets[w].balance == balance && Held(l.holds, w) <= heldSeen
    case (ReleaseRequest(h), ReadHold(row)) => HoldIs(l, h, row)
    case (TransferRequest(h, r), ReadHold(row)) => HoldIs(l, h, row) && row.wallet != r
    case (TransferRequest(h, r), ReadSource(row, source)) => HoldIs(l, h, row) && row.wallet != r && SourceIs(l, row, source)
    case (TransferRequest(h, r), ReadBoth(row, source, recipient)) =>
      && HoldIs(l, h, row) && row.wallet != r && SourceIs(l, row, source)
      && r < |l.wallets| && l.wallets[r].balance == recipient
    case (HoldRequest(_, _, _), _) => tx.at.Begun? || tx.at.Closed?
    case _ => tx.at.Begun? || tx.at.Closed?
  }

  ghost predicate Excluded(a: Tx, b: Tx) {
    WalletLocks(a) !! WalletLocks(b) && HoldLocks(a) !! HoldLocks(b)
  }

  ghost predicate AllExcluded(txs: seq<Tx>) {
    forall i, j | 0 <= i < j < |txs| :: Excluded(txs[i], txs[j])
  }

  ghost predicate Inv(s: State) {
    && (forall i | 0 <= i < |s.txs| :: TxOk(s.l, s.txs[i]))
    && AllExcluded(s.txs)
  }

  // The atomic ledger transaction a request asks for, checked against the given active-hold sum.
  function Whole(request: Request, heldSeen: int, now: nat): Op {
    match request
    case HoldRequest(w, amount, contract) => OpHold(Some(w), amount, Some(contract), heldSeen, now)
    case ReleaseRequest(h) => OpRelease(Some(h), now)
    case TransferRequest(h, r) => OpTransfer(Some(h), Some(r), now)
  }

  // The one that a commit amounts to, and the one that a read amounts to which ends in an error.
  function CommitOp(tx: Tx, now: nat): Op {
    Whole(tx.request, if tx.at.ReadWallet? then tx.at.heldSeen else 0, now)
  }

  function RefusalOp(l: Ledger, tx: Tx): Op {
    Whole(tx.request, if tx.request.HoldRequest? then Held(l.holds, tx.request.wallet) else 0, 0)
  }

  predicate Refuses(l: Ledger, tx: Tx) {
    !tx.at.Closed? && Advance(l, tx).at.Closed?
  }

  /** A commit after any interleaving equals the whole handler run atomically at that moment, on the committed tables,
      with the same answer; a hold differs only in that the sum it was checked against may be too large, never too
      small. */
  lemma CommitIsAtomic(l: Ledger, tx: Tx, now: nat)
    requires Ready(tx) && TxOk(l, tx)
    ensures (Written(l, tx, now), Answer(l, tx)) == Execute(l, CommitOp(tx, now))
    ensures Admissible(l, CommitOp(tx, now))
  {
  }

  /** A transaction that ends in an error, at whichever read, changes nothing and answers what the whole handler would
      answer at that moment. */
  lemma RefusalIsAtomic(l: Ledger, tx: Tx)
    requires Refuses(l, tx) && TxOk(l, tx)
    ensures Advance(l, tx).at.reply.Some?
    ensures Execute(l, RefusalOp(l, tx)) == (l, Advance(l, tx).at.reply.value)
    ensures Admissible(l, RefusalOp(l, tx))
  {
  }

  // A commit leaves alone whatever another transaction can have locked, and can only lower its active-hold sum.
  lemma CommitTouchesOnlyItsLocks(l: Ledger, tx: Tx, now: nat)
    requires Ready(tx) && TxOk(l, tx) && Solvent(l)
    ensures var l' := Written(l, tx, now);
            && |l.wallets| == |l'.wallets| && |l.holds| <= |l'.holds|
            && (forall w | 0 <= w < |l.wallets| && w !in WalletLocks(tx) ::
                  l'.wallets[w] == l.wallets[w] && Held(l'.holds, w) <= Held(l.holds, w))
            && (forall h | 0 <= h < |l.holds| && h !in HoldLocks(tx) :: l'.holds[h] == l.holds[h])
  {
    var l' := Written(l, tx, now);
    forall w | 0 <= w < |l.wallets| && w !in WalletLocks(tx) ensures Held(l'.holds, w) <= Held(l.holds, w) {
      if tx.request.HoldRequest? {
        if |l'.holds| > |l.holds| {
          SumOfInsert(l.holds, l'.holds[|l.holds|], HeldBy(w));
        }
      } else {
        SumOfUpdate(l.holds, tx.request.hold, l'.holds[tx.request.hold], HeldBy(w));
      }
    }
  }

  lemma OthersUnaffected(l: Ledger, l': Ledger, tx: Tx)
    requires TxOk(l, tx)
    requires |l.wallets| <= |l'.wallets| && |l.holds| <= |l'.holds|
    requires forall w | w in WalletLocks(tx) && w < |l.wallets| :: l'.wallets[w] == l.wallets[w] && Held(l'.holds, w) <= Held(l.holds, w)
    requires forall h | h in HoldLocks(tx) && h < |l.holds| :: l'.holds[h] == l.holds[h]
    ensures TxOk(l', tx)
  {
  }

  lemma CommitKeepsOthers(s: State, step: Step, j: nat)
    requires Inv(s) && Solvent(s.l) && step.Commit? && Enabled(s, step) && j < |s.txs|
    ensures TxOk(Apply(s, step).l, Apply(s, step).txs[j])
  {
    if j != step.i {
      var tx := s.txs[step.i];
      assert TxOk(s.l, tx) && TxOk(s.l, s.txs[j]);
      CommitTouchesOnlyItsLocks(s.l, tx, step.now);
      assert Excluded(s.txs[j], tx) by {
        assert if j < step.i then Excluded(s.txs[j], tx) else Excluded(tx, s.txs[j]);
      }
      OthersUnaffected(s.l, Written(s.l, tx, step.now), s.txs[j]);
    }
  }

  // Replacing one transaction by one that shares no lock with the others keeps them exclusive.
  lemma ReplaceKeepsExclusion(txs: seq<Tx>, i: nat, tx: Tx)
    requires i < |txs|
    requires AllExcluded(txs)
    requires forall j | 0 <= j < |txs| && j != i :: Excluded(tx, txs[j])
    ensures AllExcluded(txs[i := tx])
  {
    var txs' := txs[i := tx];
    forall j, k | 0 <= j < k < |txs| ensures Excluded(txs'[j], txs'[k]) {
      assert Excluded(txs[j], txs[k]);
      if k == i {
        assert Excluded(tx, txs[j]);
      }
    }
  }

  lemma CommitKeepsInv(s: State, step: Step)
    requires Inv(s) && Solvent(s.l) && step.Commit? && Enabled(s, step)
    ensures Inv(Apply(s, step))
  {
    forall j | 0 <= j < |s.txs| ensures TxOk(Apply(s, step).l, Apply(s, step).txs[j]) {
      CommitKeepsOthers(s, step, j);
    }
    ReplaceKeepsExclusion(s.txs, step.i, Apply(s, step).txs[step.i]);
  }

  lemma ReadKeepsInv(s: State, step: Step)
    requires Inv(s) && step.Read? && Enabled(s, step)
    ensures Inv(Apply(s, step))
  {
    var next := Advance(s.l, s.txs[step.i]);
    assert TxOk(s.l, next);
    forall j | 0 <= j < |s.txs| && j != step.i ensures Excluded(next, s.txs[j]) {
    }
    ReplaceKeepsExclusion(s.txs, step.i, next);
  }

  lemma SeedingKeepsInv(s: State, step: Step)
    requires Inv(s) && step.Seeding? && Enabled(s, step)
    ensures Inv(Apply(s, step))
  {
    forall j | 0 <= j < |s.txs| ensures TxOk(Apply(s, step).l, s.txs[j]) {
      OthersUnaffected(s.l, Apply(s, step).l, s.txs[j]);
    }
  }

  lemma BeginKeepsInv(s: State, step: Step)
    requires Inv(s) && step.Begin? && Enabled(s, step)
    ensures Inv(Apply(s, step))
  {
    var txs' := Apply(s, step).txs;
    forall i, j | 0 <= i < j < |txs'| ensures Excluded(txs'[i], txs'[j]) {
      assert j < |s.txs| ==> Excluded(s.txs[i], s.txs[j]);
    }
  }

  lemma StepKeepsInv(s: State, step: Step)
    requires Inv(s) && Solvent(s.l) && Enabled(s, step)
    ensures Inv(Apply(s, step))
  {
    match step
    case Seeding(_, _) => SeedingKeepsInv(s, step);
    case Begin(_) => BeginKeepsInv(s, step);
    case Read(_) => ReadKeepsInv(s, step);
    case Commit(_, _) => CommitKeepsInv(s, step);
    case Rollback(i) => ReplaceKeepsExclusion(s.txs, i, s.txs[i].(at := Closed(None)));
  }

  // The atomic transactions a step amounts to: one for a commit, a refusal or a seeding, none for anything else.
  ghost function OpsOf(s: State, step: Step): seq<Op>
    requires Enabled(s, step)
  {
    match step
    case Seeding(user, balance) => [OpSeed(user, balance)]
    case Read(i) => if Refuses(s.l, s.txs[i]) then [RefusalOp(s.l, s.txs[i])] else []
    case Commit(i, now) => [CommitOp(s.txs[i], now)]
    case _ => []
  }

  // The answers a step gives to callers.
  ghost function RepliesOf(s: State, step: Step): seq<Reply>
    requires Enabled(s, step)
  {
    match step
    case Seeding(user, balance) => [Seed(s.l, user, balance).1]
    case Read(i) => if Refuses(s.l, s.txs[i]) then [Advance(s.l, s.txs[i]).at.reply.value] else []
    case Commit(i, _) => [Answer(s.l, s.txs[i])]
    case _ => []
  }

  lemma StepIsAtomic(s: State, step: Step)
    requires Inv(s) && Enabled(s, step)
    ensures var ops, replies := OpsOf(s, step), RepliesOf(s, step);
            if ops == [] then Apply(s, step).l == s.l && replies == []
            else
              && |ops| == |replies| == 1 && Admissible(s.l, ops[0])
              && Execute(s.l, ops[0]) == (Apply(s, step).l, replies[0])
  {
    match step
    case Read(i) =>
      if Refuses(s.l, s.txs[i]) {
        RefusalIsAtomic(s.l, s.txs[i]);
      }
    case Commit(i, now) => CommitIsAtomic(s.l, s.txs[i], now);
    case _ =>
  }

  ghost predicate CanRun(s: State, steps: seq<Step>)
    decreases |steps|
  {
    steps != [] ==> Enabled(s, steps[0]) && CanRun(Apply(s, steps[0]), steps[1..])
  }

  ghost function Run(s: State, steps: seq<Step>): State
    requires CanRun(s, steps)
    decreases |steps|
  {
    if steps == [] then s else Run(Apply(s, steps[0]), steps[1..])
  }

  ghost function OpsOver(s: State, steps: seq<Step>): seq<Op>
    requires CanRun(s, steps)
    decreases |steps|
  {
    if steps == [] then [] else OpsOf(s, steps[0]) + OpsOver(Apply(s, steps[0]), steps[1..])
  }

  ghost function RepliesOver(s: State, steps: seq<Step>): seq<Reply>
    requires CanRun(s, steps)
    decreases |steps|
  {
    if steps == [] then [] else RepliesOf(s, steps[0]) + RepliesOver(Apply(s, steps[0]), steps[1..])
  }

  // One more atomic transaction, or none, before a run of them.
  lemma OpsConcat(l: Ledger, l': Ledger, ops: seq<Op>, replies: seq<Reply>, rest: seq<Op>)
    requires |ops| == |replies| <= 1
    requires if ops == [] then l' == l else Admissible(l, ops[0]) && Execute(l, ops[0]) == (l', replies[0])
    requires AllAdmissible(l', rest)
    ensures AllAdmissible(l, ops + rest) && LedgerAfter(l, ops + rest) == LedgerAfter(l', rest)
    ensures RepliesAfter(l, ops + rest) == replies + RepliesAfter(l', rest)
  {
    if ops == [] {
      assert ops + rest == rest;
    } else {
      assert (ops + rest)[0] == ops[0] && (ops + rest)[1..] == rest;
    }
  }

  /** Refinement: any statement-level interleaving leaves the tables, and answers its callers, as some run of atomic
      transactions would, each checked against an active-hold sum at least as large as the current one. */
  lemma {:induction false} InterleavingIsAtomic(s: State, steps: seq<Step>)
    requires Inv(s) && Solvent(s.l) && CanRun(s, steps)
    ensures AllAdmissible(s.l, OpsOver(s, steps))
    ensures Run(s, steps).l == LedgerAfter(s.l, OpsOver(s, steps))
    ensures RepliesOver(s, steps) == RepliesAfter(s.l, OpsOver(s, steps))
    ensures Inv(Run(s, steps)) && Solvent(Run(s, steps).l)
    decreases |steps|
  {
    if steps == [] {
    } else {
      var step := steps[0];
      var s', ops := Apply(s, step), OpsOf(s, step);
      StepKeepsInv(s, step);
      StepIsAtomic(s, step);
      if ops != [] {
        StepKeepsSolvent(s.l, ops[0]);
      }
      InterleavingIsAtomic(s', steps[1..]);
      OpsConcat(s.l, s'.l, ops, RepliesOf(s, step), OpsOver(s', steps[1..]));
    }
  }

  lemma EmptyIsValid()
    ensures Valid(EMPTY, []) && Inv(State(EMPTY, []))
  {
  }

  /** Coverage under concurrency: however the statements of any number of transactions interleave from the empty
      database, every wallet's active holds stay within its balance, money is conserved and the tables reconcile. */
  lemma InterleavingIsValid(steps: seq<Step>)
    requires CanRun(State(EMPTY, []), steps)
    ensures var l := Run(State(EMPTY, []), steps).l;
            Valid(l, SeedsOver(EMPTY, [], OpsOver(State(EMPTY, []), steps)))
  {
    EmptyIsValid();
    InterleavingIsAtomic(State(EMPTY, []), steps);
    RunKeepsValid(EMPTY, [], OpsOver(State(EMPTY, []), steps));
  }
}
