/** Steps of the publishers and of the consumer keep the invariant; with them, so does every step and every run. */
module EscrowMessageSteps {
  import opened Wrappers
  import opened ContractsDb
  import opened Escrow
  import opened EscrowInvariant
  import opened EscrowLocalSteps
  import opened EscrowPaymentSteps
  import P = PaymentsDb
  import L = LedgerInvariants
  import R = OutboxRelay
  import O = Outbox

  // ----- publishers -----

  // Publishing changes flags only.
  ghost predicate SameEvents(rows: seq<O.Row<P.PaymentEvent>>, rows': seq<O.Row<P.PaymentEvent>>) {
    |rows'| == |rows| && forall e | 0 <= e < |rows| :: rows'[e].event == rows[e].event
  }

  lemma ValidIgnoresOutbox(l: P.Ledger, l': P.Ledger, seeds: seq<int>)
    requires L.Valid(l, seeds) && l' == l.(outbox := l'.outbox)
    ensures L.Valid(l', seeds)
  {
    forall w | 0 <= w < |l'.wallets| ensures L.ReconciledWallet(l', seeds, w) {
      assert L.ReconciledWallet(l, seeds, w);
    }
    forall h | 0 <= h < |l'.holds| ensures L.JournalOk(l', h) {
      L.JournalKept(l, l', h);
    }
  }

  lemma PublishKeepsPay(s: System, s': System)
    requires PayInv(s) && s'.pay == s.pay.(outbox := s'.pay.outbox) && s'.seeds == s.seeds
    requires s'.con == s.con && s'.creates == s.creates
    ensures PayInv(s')
  {
    ValidIgnoresOutbox(s.pay, s'.pay, s.seeds);
    forall h | 0 <= h < |s'.pay.holds| ensures PayeeOk(s'.pay, h, s'.con.rows) {
      assert PayeeOk(s.pay, h, s.con.rows);
      L.JournalKept(s.pay, s'.pay, h);
    }
  }

  // The stream of an Offer: what it was, and the offered event when the broker stored it.
  lemma OfferedEvent(s: System, action: R.Step<P.PaymentEvent>)
    requires WakeInv(s) && action.Offer? && R.Enabled(Relay(s), action)
    ensures var b := s.batches[action.pid];
            b.ids[b.next] < |s.pay.outbox| && Offered(s, action) == multiset{s.pay.outbox[b.ids[b.next]].event}
  {
    assert R.BatchOk(s.pay.outbox, s.batches[action.pid]);
  }

  lemma PublishKeepsEvents(s: System, action: R.Step<P.PaymentEvent>)
    requires EventInv(s) && WakeInv(s) && !action.Insert? && R.Enabled(Relay(s), action)
    ensures EventInv(Published(s, action)) && SameEvents(s.pay.outbox, Published(s, action).pay.outbox)
  {
    var s' := Published(s, action);
    if action.Offer? {
      OfferedEvent(s, action);
    }
    forall m | m in s'.stream ensures EventOk(m, s'.con.rows, s'.creates, s'.pay.holds) {
      assert m in s.stream || (action.Offer? && m in Offered(s, action));
    }
    forall h | 0 <= h < |s'.pay.holds| ensures Announced(s'.pay, h) {
      assert Announced(s.pay, h);
      var e :| 0 <= e < |s.pay.outbox| && s.pay.outbox[e].event == HeldEvent(h, s.pay.holds[h]);
      assert s'.pay.outbox[e].event == HeldEvent(h, s.pay.holds[h]);
    }
  }

  // An entry is marked, or seen acknowledged, only if it already was or the broker has just stored it.
  lemma LeavingOutbox(s: System, action: R.Step<P.PaymentEvent>, e: nat)
    requires R.Inv(Relay(s)) && !action.Insert? && R.Enabled(Relay(s), action) && e < |s.pay.outbox|
    ensures var s' := Published(s, action);
            e < |s'.pay.outbox| &&
            (s'.pay.outbox[e].published || R.InFlight(s'.batches, e) ==>
              || s.pay.outbox[e].published || R.InFlight(s.batches, e) || R.Stores(Relay(s), action, e))
  {
    var s' := Published(s, action);
    if pid :| pid in s'.batches && e in s'.batches[pid].published {
      if pid in s.batches && e in s.batches[pid].published {
        assert R.InFlight(s.batches, e);
      }
    }
  }

  lemma PublishKeepsWake(s: System, action: R.Step<P.PaymentEvent>)
    requires WakeInv(s) && !action.Insert? && R.Enabled(Relay(s), action)
    requires SameEvents(s.pay.outbox, Published(s, action).pay.outbox)
    ensures WakeInv(Published(s, action))
  {
    var s' := Published(s, action);
    R.StepKeepsInv(Relay(s), action);
    assert Relay(s') == R.Apply(Relay(s), action);
    if action.Offer? {
      OfferedEvent(s, action);
    }
    forall e | 0 <= e < |s'.pay.outbox| ensures WakeOk(s', e) {
      assert WakeOk(s, e);
      LeavingOutbox(s, action, e);
    }
  }

  lemma PublishKeepsInv(s: System, step: Step)
    requires Inv(s) && Enabled(s, step) && step.Publish?
    ensures Inv(Apply(s, step))
  {
    var s' := Published(s, step.action);
    PublishKeepsPay(s, s');
    PublishKeepsEvents(s, step.action);
    PublishKeepsWake(s, step.action);
  }

  // ----- the consumer -----

  // A failed event is never handled: its contract has no hold, so it is not HOLD_PENDING.
  lemma FailedIsConflict(s: System, m: P.PaymentEvent)
    requires Inv(s) && m in s.stream && m.PaymentFailed?
    ensures FailedTx(s.con, m.contract).None?
  {
    assert EventOk(m, s.con.rows, s.creates, s.pay.holds);
    assert ContractOk(m.contract, s.con.rows[m.contract], s.creates[m.contract], s.pay.holds);
  }

  // Taking messages away and keeping track of handled ones leaves the rest standing.
  lemma MessagesFrame(s: System, s': System)
    requires PayInv(s) && ConInv(s) && CallInv(s) && EventInv(s)
    requires s' == s.(stream := s'.stream, handled := s'.handled) && s'.stream <= s.stream
    ensures PayInv(s') && ConInv(s') && CallInv(s') && EventInv(s')
  {
    PayFrame(s, s');
    EventsFrame(s, s');
  }

  lemma HandledIsPast(s: System, s': System, m: P.PaymentEvent)
    requires WakeInv(s) && s' == s.(handled := s.handled + multiset{m})
    requires m.PaymentHeld? ==> Past(s.con.rows, m.contract)
    ensures WakeInv(s')
  {
    forall e | 0 <= e < |s'.pay.outbox| ensures WakeOk(s', e) {
      assert WakeOk(s, e);
    }
  }

  lemma HandledKeepsInv(s: System, m: P.PaymentEvent)
    requires Inv(s) && (m.PaymentHeld? ==> Past(s.con.rows, m.contract))
    ensures Inv(s.(handled := s.handled + multiset{m}))
  {
    var s' := s.(handled := s.handled + multiset{m});
    MessagesFrame(s, s');
    HandledIsPast(s, s', m);
  }

  lemma HeldMoves(s: System, m: P.PaymentEvent)
    requires Inv(s) && m.PaymentHeld? && HeldTx(s.con, m.contract).Some?
    ensures Inv(s.(con := HeldTx(s.con, m.contract).value))
    ensures Past(HeldTx(s.con, m.contract).value.rows, m.contract)
  {
    assert ContractOk(m.contract, s.con.rows[m.contract], s.creates[m.contract], s.pay.holds) && RowOk(s.con, m.contract);
    SilentMoveKeepsConsistent(s.con, m.contract, HoldPending, AwaitingAccept);
    RowMoves(s, s.(con := HeldTx(s.con, m.contract).value), m.contract);
  }

  // What a delivery comes to: a handled message, preceded by its contract's move, or nothing.
  lemma DeliverShape(s: System, m: P.PaymentEvent)
    requires m in s.stream && (m.PaymentFailed? ==> FailedTx(s.con, m.contract).None?)
    ensures var handled, moved := s.handled + multiset{m}, HeldTx(s.con, m.contract);
            Apply(s, Deliver(m)) ==
              if m.PaymentFailed? || (m.PaymentHeld? && moved.None?) then s
              else if m.PaymentHeld? then s.(con := moved.value).(handled := handled)
              else s.(handled := handled)
  {
  }

  lemma DeliverKeepsInv(s: System, step: Step)
    requires Inv(s) && Enabled(s, step) && step.Deliver?
    ensures Inv(Apply(s, step))
  {
    var m := step.m;
    if m.PaymentFailed? {
      FailedIsConflict(s, m);
      DeliverShape(s, m);
    } else if m.PaymentHeld? && HeldTx(s.con, m.contract).Some? {
      DeliverShape(s, m);
      HeldMoves(s, m);
      HandledKeepsInv(s.(con := HeldTx(s.con, m.contract).value), m);
    } else {
      DeliverShape(s, m);
      if !m.PaymentHeld? {
        HandledKeepsInv(s, m);
      }
    }
  }

  // A message acknowledged after it was handled is no longer needed: its contract has moved on.
  lemma AckKeepsWake(s: System, s': System)
    requires WakeInv(s) && s' == s.(stream := s'.stream, handled := s'.handled) && s'.handled <= s.handled
    requires forall m | m in s.stream && m !in s'.stream :: m in s.handled
    ensures WakeInv(s')
  {
    forall e | 0 <= e < |s'.pay.outbox| ensures WakeOk(s', e) {
      assert WakeOk(s, e);
    }
    forall m | m in s'.handled && m.PaymentHeld? ensures Past(s'.con.rows, m.contract) {
      assert m in s.handled;
    }
  }

  lemma AckKeepsInv(s: System, step: Step)
    requires Inv(s) && Enabled(s, step) && (step.AckArrives? || step.AckDropped?)
    ensures Inv(Apply(s, step))
  {
    var s' := Apply(s, step);
    MessagesFrame(s, s');
    AckKeepsWake(s, s');
  }

  // ----- every step, every run -----

  lemma StepKeepsInv(s: System, step: Step)
    requires Inv(s) && Enabled(s, step)
    ensures Inv(Apply(s, step))
  {
    match step
    case SeedWallet(_, _) => SeedKeepsInv(s, step);
    case StartCreate(_, _, _) => StartCreateKeepsInv(s, step);
    case HoldArrives(_, _, _) => HoldArrivesKeepsInv(s, step);
    case HoldLost(_) => CreatorStepKeepsInv(s, step);
    case HoldAnswered(_) => CreatorStepKeepsInv(s, step);
    case HoldFails(_) => CreatorStepKeepsInv(s, step);
    case RecordHold(_) => RecordHoldKeepsInv(s, step);
    case Compensate(_) => CompensateKeepsInv(s, step);
    case StopCreate(_) => CreatorStepKeepsInv(s, step);
    case Accept(_) => AcceptKeepsInv(s, step);
    case StartSettle(_, _) => StartSettleKeepsInv(s, step);
    case Claim(_) => ClaimKeepsInv(s, step);
    case Send(_) => CallerStepKeepsInv(s, step);
    case SettleArrives(_, _) => SettleArrivesKeepsInv(s, step);
    case SettleLost(_) => CallerStepKeepsInv(s, step);
    case SettleAnswered(_) => CallerStepKeepsInv(s, step);
    case SettleFails(_) => CallerStepKeepsInv(s, step);
    case Finish(_) => FinishKeepsInv(s, step);
    case StopCall(_) => CallerStepKeepsInv(s, step);
    case Publish(_) => PublishKeepsInv(s, step);
    case Deliver(_) => DeliverKeepsInv(s, step);
    case AckArrives(_) => AckKeepsInv(s, step);
    case AckDropped(_) => AckKeepsInv(s, step);
  }

  lemma {:induction false} RunKeepsInv(s: System, steps: seq<Step>)
    requires Inv(s) && CanRun(s, steps)
    ensures Inv(Run(s, steps))
    decreases |steps|
  {
    if steps == [] {
    } else {
      StepKeepsInv(s, steps[0]);
      RunKeepsInv(Apply(s, steps[0]), steps[1..]);
    }
  }

  lemma StartInv()
    ensures Inv(START)
  {
  }

  /** The invariant holds in every reachable state. */
  lemma ReachableInv(s: System)
    requires Reachable(s)
    ensures Inv(s)
  {
    var steps :| CanRun(START, steps) && s == Run(START, steps);
    StartInv();
    RunKeepsInv(START, steps);
  }
}
