/** One run of the escrow system, state by state: two wallets, a contract of 50 paid for by wallet 0, its hold placed and
    recorded, the hold's event published and delivered, the contract accepted.  The freelancer's wallet is `payee`: 1 in
    an ordinary contract, 0 in one whose client pays its own wallet. */
module EscrowExample {
  import opened Wrappers
  import opened ContractsDb
  import opened Escrow
  import opened EscrowRuns
  import P = PaymentsDb
  import R = OutboxRelay
  import O = Outbox

  const HELD := P.PaymentHeld(0, 0, 0, 50)
  const ONE_SEED := START.(pay := P.Ledger([P.Wallet(10, 100)], [], [], []), seeds := [100])
  const SEEDED := START.(pay := P.Ledger([P.Wallet(10, 100), P.Wallet(11, 0)], [], [], []), seeds := [100, 0])

  function Row(payee: nat, status: Status, hold: Option<nat>): Contract {
    Contract(0, payee, 50, status, hold)
  }

  function Created(payee: nat): System {
    SEEDED.(con := Contracts([Row(payee, Pending, None)], []), creates := [Create(AwaitHold, InFlight)])
  }

  function Placed(payee: nat): System {
    Created(payee).(
      pay := P.Ledger(SEEDED.pay.wallets, [P.Hold(0, 50, P.Active, 0)], [P.Txn(0, -50, P.HoldPlaced, Some(0))], [O.Row(HELD, 0, false)]),
      creates := [Create(AwaitHold, Answered(P.Created(0)))])
  }

  function Recorded(payee: nat): System {
    Placed(payee).(
      con := Contracts([Row(payee, HoldPending, Some(0))], [ContractEvent(0, ContractCreated)]),
      creates := [Create(CreateEnded, Answered(P.Created(0)))])
  }

  function Begun(payee: nat): System {
    Recorded(payee).(batches := map[0 := R.Batch([0], 0, {})])
  }

  function Sent(payee: nat): System {
    Recorded(payee).(batches := map[0 := R.Batch([0], 1, {0})], stored := multiset{0}, stream := multiset{HELD})
  }

  function Delivered(payee: nat): System {
    Sent(payee).(
      con := Contracts([Row(payee, AwaitingAccept, Some(0))], [ContractEvent(0, ContractCreated)]),
      handled := multiset{HELD})
  }

  function Accepted(payee: nat): System {
    Delivered(payee).(
      con := Contracts([Row(payee, Active, Some(0))], [ContractEvent(0, ContractCreated), ContractEvent(0, ContractAccepted)]))
  }

  lemma OneSeedReachable()
    ensures Reachable(ONE_SEED)
  {
    StartReachable();
    assert P.WalletOf(START.pay.wallets, 10).None?;
    assert Apply(START, SeedWallet(10, 100)) == ONE_SEED;
    ReachNext(START, SeedWallet(10, 100));
  }

  lemma SeededReachable()
    ensures Reachable(SEEDED)
  {
    OneSeedReachable();
    assert P.WalletOf(ONE_SEED.pay.wallets, 11).None?;
    assert Apply(ONE_SEED, SeedWallet(11, 0)) == SEEDED;
    ReachNext(ONE_SEED, SeedWallet(11, 0));
  }

  lemma CreatedReachable(payee: nat)
    ensures Reachable(Created(payee))
  {
    SeededReachable();
    ReachNext(SEEDED, StartCreate(0, payee, 50));
    assert Apply(SEEDED, StartCreate(0, payee, 50)) == Created(payee);
  }

  lemma PlacedReachable(payee: nat)
    ensures Reachable(Placed(payee))
  {
    CreatedReachable(payee);
    ReachNext(Created(payee), HoldArrives(0, 0, 0));
    assert Apply(Created(payee), HoldArrives(0, 0, 0)) == Placed(payee);
  }

  lemma RecordedReachable(payee: nat)
    ensures Reachable(Recorded(payee))
  {
    PlacedReachable(payee);
    ReachNext(Placed(payee), HoldAnswered(0));
    var told := Apply(Placed(payee), HoldAnswered(0));
    assert told == Placed(payee).(creates := [Create(GotHold(0), Answered(P.Created(0)))]);
    ReachNext(told, RecordHold(0));
    assert Apply(told, RecordHold(0)) == Recorded(payee);
  }

  lemma BegunReachable(payee: nat)
    ensures Reachable(Begun(payee))
  {
    RecordedReachable(payee);
    ReachNext(Recorded(payee), Publish(R.Begin(0, [0])));
    assert Apply(Recorded(payee), Publish(R.Begin(0, [0]))) == Begun(payee);
  }

  lemma OfferSends(payee: nat)
    ensures Enabled(Begun(payee), Publish(R.Offer(0, O.Acked)))
    ensures Apply(Begun(payee), Publish(R.Offer(0, O.Acked))) == Sent(payee)
  {
    var sent := Apply(Begun(payee), Publish(R.Offer(0, O.Acked)));
    assert sent.stream == multiset{} + multiset{HELD} == multiset{HELD};
    assert sent.stored == multiset{} + multiset{0} == multiset{0};
    assert sent.batches == map[0 := R.Batch([0], 1, {0})] by {
      assert {} + {0} == {0};
    }
  }

  lemma SentReachable(payee: nat)
    ensures Reachable(Sent(payee))
  {
    BegunReachable(payee);
    OfferSends(payee);
    ReachNext(Begun(payee), Publish(R.Offer(0, O.Acked)));
  }

  lemma DeliveredReachable(payee: nat)
    ensures Reachable(Delivered(payee))
  {
    SentReachable(payee);
    ReachNext(Sent(payee), Deliver(HELD));
    assert Apply(Sent(payee), Deliver(HELD)) == Delivered(payee);
  }

  lemma AcceptedReachable(payee: nat)
    ensures Reachable(Accepted(payee))
  {
    DeliveredReachable(payee);
    ReachNext(Delivered(payee), Accept(0));
    assert Apply(Delivered(payee), Accept(0)) == Accepted(payee);
  }
}
