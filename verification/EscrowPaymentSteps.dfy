/** Steps that execute a transaction of the payments service keep the invariant. */
module EscrowPaymentSteps {
  import opened Wrappers
  import opened ContractsDb
  import opened Escrow
  import opened EscrowInvariant
  import P = PaymentsDb
  import L = LedgerInvariants
  import R = OutboxRelay
  import O = Outbox

  // The event a ledger transaction announces, if any.
  ghost predicate Announces(l: P.Ledger, l': P.Ledger, row: O.Row<P.PaymentEvent>) {
    l'.outbox == l.outbox + [row] && !row.published
  }

  // ----- frames of a payments step -----

  lemma WakeAfterInsert(s: System, s': System, row: O.Row<P.PaymentEvent>)
    requires WakeInv(s) && Announces(s.pay, s'.pay, row) && s'.con.rows == s.con.rows
    requires s'.batches == s.batches && s'.stored == s.stored && s'.repeats == s.repeats
    requires s'.stream == s.stream && s'.handled == s.handled
    ensures WakeInv(s')
  {
    R.StepKeepsInv(Relay(s), R.Insert(row.event, row.createdAt));
    R.FlightIsOpen(Relay(s), |s.pay.outbox|);
    forall e | 0 <= e < |s'.pay.outbox| ensures WakeOk(s', e) {
      if e < |s.pay.outbox| {
        assert WakeOk(s, e);
      }
    }
  }

  lemma AnnouncedStays(l: P.Ledger, l': P.Ledger, h: nat)
    requires h < |l.holds| && h < |l'.holds| && HoldEvolves(l.holds[h], l'.holds[h])
    requires |l.outbox| <= |l'.outbox| && l'.outbox[..|l.outbox|] == l.outbox
    requires Announced(l, h)
    ensures Announced(l', h)
  {
    var e :| 0 <= e < |l.outbox| && l.outbox[e].event == HeldEvent(h, l.holds[h]);
    assert l'.outbox[e] == l.outbox[e];
  }

  lemma EventsAfterInsert(s: System, s': System, row: O.Row<P.PaymentEvent>)
    requires EventInv(s) && Grows(s, s') && Announces(s.pay, s'.pay, row) && s'.stream == s.stream
    requires EventOk(row.event, s'.con.rows, s'.creates, s'.pay.holds)
    requires forall h | |s.pay.holds| <= h < |s'.pay.holds| :: row.event == HeldEvent(h, s'.pay.holds[h])
    ensures EventInv(s')
  {
    forall e | 0 <= e < |s'.pay.outbox| ensures EventOk(s'.pay.outbox[e].event, s'.con.rows, s'.creates, s'.pay.holds) {
      if e < |s.pay.outbox| {
        EventStays(s.pay.outbox[e].event, s, s');
      }
    }
    forall m | m in s'.stream ensures EventOk(m, s'.con.rows, s'.creates, s'.pay.holds) {
      EventStays(m, s, s');
    }
    forall h | 0 <= h < |s'.pay.holds| ensures Announced(s'.pay, h) {
      if h < |s.pay.holds| {
        AnnouncedStays(s.pay, s'.pay, h);
      } else {
        assert s'.pay.outbox[|s.pay.outbox|] == row;
      }
    }
  }

  lemma PayeesStay(s: System, op: P.Op, h: nat)
    requires PayInv(s) && h < |s.pay.holds| && s.pay.holds[h].status.Transferred?
    ensures h < |P.Execute(s.pay, op).0.holds| && PayeeOk(P.Execute(s.pay, op).0, h, s.con.rows)
  {
    assert PayeeOk(s.pay, h, s.con.rows) && HoldOk(h, s.pay.holds[h], s.con.rows, s.creates);
    L.PaidIsFinal(s.pay, op, h, s.con.rows[s.pay.holds[h].contract].freelancer);
  }

  // ----- seeding -----

  lemma SeedKeepsPay(s: System, step: Step)
    requires PayInv(s) && Enabled(s, step) && step.SeedWallet?
    ensures PayInv(Apply(s, step))
  {
    var s', op := Apply(s, step), P.OpSeed(step.user, step.balance);
    L.StepKeepsValid(s.pay, s.seeds, op);
    forall h | 0 <= h < |s'.pay.holds| ensures PayeeOk(s'.pay, h, s'.con.rows) {
      if s.pay.holds[h].status.Transferred? {
        PayeesStay(s, op, h);
      }
    }
  }

  lemma SeedShape(s: System, step: Step)
    requires Enabled(s, step) && step.SeedWallet?
    ensures var s' := Apply(s, step);
            s' == s.(pay := s.pay.(wallets := s'.pay.wallets), seeds := s'.seeds)
  {
  }

  lemma SeedFrame(s: System, s': System)
    requires Inv(s) && PayInv(s') && s' == s.(pay := s.pay.(wallets := s'.pay.wallets), seeds := s'.seeds)
    ensures Inv(s')
  {
    EventsFrame(s, s');
    WakeFrame(s, s');
  }

  lemma SeedKeepsInv(s: System, step: Step)
    requires Inv(s) && Enabled(s, step) && step.SeedWallet?
    ensures Inv(Apply(s, step))
  {
    SeedKeepsPay(s, step);
    SeedShape(s, step);
    SeedFrame(s, Apply(s, step));
  }

  // ----- a hold request executes -----

  // The effect of an executed hold request on the tables the invariant looks at.
  ghost predicate PlacesHold(s: System, s': System, c: nat, reply: P.Reply) {
    && c < |s.con.rows| && c < |s.creates|
    && s' == s.(pay := s'.pay, creates := s.creates[c := s.creates[c].(http := Answered(reply))])
    && (if reply.Created? then
          && reply.id == |s.pay.holds|
          && s'.pay.holds == s.pay.holds + [P.Hold(s.con.rows[c].client, s.con.rows[c].amount, P.Active, c)]
        else s'.pay.holds == s.pay.holds)
  }

  lemma HoldArrivalEffect(s: System, step: Step)
    requires Enabled(s, step) && step.HoldArrives?
    ensures PlacesHold(s, Apply(s, step), step.c, P.Execute(s.pay, HoldOp(s, step.c, step.heldSeen, step.now)).1)
  {
  }

  // What an executed hold request announces: the hold it placed, or that it failed for lack of funds.
  lemma HoldArrivalAnnounces(l: P.Ledger, op: P.Op)
    requires op.OpHold? && op.contract.Some?
    ensures var (l', reply) := P.Execute(l, op);
            if l'.outbox == l.outbox then !reply.Created? && |l'.outbox| == |l.outbox|
            else
              && |l'.outbox| == |l.outbox| + 1 && Announces(l, l', l'.outbox[|l.outbox|])
              && var event := l'.outbox[|l.outbox|].event;
              if reply.Created? then |l'.holds| == |l.holds| + 1 && event == HeldEvent(|l.holds|, l'.holds[|l.holds|])
              else reply == P.Unprocessable && event.PaymentFailed? && event.contract == op.contract.value
  {
  }

  // No hold exists yet for a contract whose request has not been answered.
  lemma NoHoldBeforeAnswer(s: System, c: nat, h: nat)
    requires PayInv(s) && c < |s.creates| && !s.creates[c].http.Answered? && h < |s.pay.holds|
    ensures s.pay.holds[h].contract != c
  {
    assert HoldOk(h, s.pay.holds[h], s.con.rows, s.creates);
  }

  lemma PlacingKeepsHold(s: System, s': System, c: nat, reply: P.Reply, h: nat)
    requires PayInv(s) && ConInv(s) && PlacesHold(s, s', c, reply) && s.creates[c].http.InFlight? && h < |s'.pay.holds|
    ensures HoldOk(h, s'.pay.holds[h], s'.con.rows, s'.creates)
  {
    if h < |s.pay.holds| {
      assert HoldOk(h, s.pay.holds[h], s.con.rows, s.creates);
      NoHoldBeforeAnswer(s, c, h);
    } else {
      assert ContractOk(c, s.con.rows[c], s.creates[c], s.pay.holds);
    }
  }

  lemma PlacingKeepsContract(s: System, s': System, c: nat, reply: P.Reply, x: nat)
    requires ConInv(s) && PlacesHold(s, s', c, reply) && s.creates[c].http.InFlight? && x < |s.con.rows|
    ensures ContractOk(x, s'.con.rows[x], s'.creates[x], s'.pay.holds)
  {
    assert ContractOk(x, s.con.rows[x], s.creates[x], s.pay.holds);
  }

  lemma HoldArrivesKeepsPay(s: System, step: Step)
    requires Inv(s) && Enabled(s, step) && step.HoldArrives?
    ensures PayInv(Apply(s, step))
  {
    var s', c, op := Apply(s, step), step.c, HoldOp(s, step.c, step.heldSeen, step.now);
    HoldArrivalEffect(s, step);
    L.StepKeepsValid(s.pay, s.seeds, op);
    forall h | 0 <= h < |s'.pay.holds| ensures HoldOk(h, s'.pay.holds[h], s'.con.rows, s'.creates) {
      PlacingKeepsHold(s, s', c, P.Execute(s.pay, op).1, h);
    }
    forall h | 0 <= h < |s'.pay.holds| ensures PayeeOk(s'.pay, h, s'.con.rows) {
      if h < |s.pay.holds| && s.pay.holds[h].status.Transferred? {
        PayeesStay(s, op, h);
      }
    }
  }

  lemma HoldArrivesKeepsCon(s: System, step: Step)
    requires Inv(s) && Enabled(s, step) && step.HoldArrives?
    ensures ConInv(Apply(s, step))
    ensures Grows(s, Apply(s, step))
  {
    var s', c, op := Apply(s, step), step.c, HoldOp(s, step.c, step.heldSeen, step.now);
    HoldArrivalEffect(s, step);
    forall x | 0 <= x < |s'.con.rows| ensures ContractOk(x, s'.con.rows[x], s'.creates[x], s'.pay.holds) {
      PlacingKeepsContract(s, s', c, P.Execute(s.pay, op).1, x);
    }
  }

  lemma HoldArrivesKeepsInv(s: System, step: Step)
    requires Inv(s) && Enabled(s, step) && step.HoldArrives?
    ensures Inv(Apply(s, step))
  {
    var s' := Apply(s, step);
    HoldArrivesKeepsPay(s, step);
    HoldArrivesKeepsCon(s, step);
    HoldArrivalEffect(s, step);
    HoldArrivalAnnounces(s.pay, HoldOp(s, step.c, step.heldSeen, step.now));
    CallsFrame(s, s');
    if s'.pay.outbox != s.pay.outbox {
      WakeAfterInsert(s, s', s'.pay.outbox[|s.pay.outbox|]);
      EventsAfterInsert(s, s', s'.pay.outbox[|s.pay.outbox|]);
    } else {
      WakeFrame(s, s');
      EventsFrame(s, s');
    }
  }

  // ----- a release or transfer request executes -----

  // The effect of an executed release or transfer request: one active hold settled, or nothing.
  ghost predicate SettlesHold(s: System, s': System, i: nat, reply: P.Reply) {
    && i < |s.calls|
    && s' == s.(pay := s'.pay, calls := s.calls[i := s.calls[i].(http := Answered(reply))])
    && var call := s.calls[i];
    && (if reply == P.Done then
          && call.hold.Some? && call.hold.value < |s.pay.holds| && s.pay.holds[call.hold.value].status.Active?
          && s'.pay.holds == s.pay.holds[call.hold.value := s.pay.holds[call.hold.value].(status := Settled(call.op))]
        else s'.pay == s.pay)
  }

  lemma SettleArrivalEffect(s: System, step: Step)
    requires Enabled(s, step) && step.SettleArrives?
    ensures SettlesHold(s, Apply(s, step), step.i, P.Execute(s.pay, SettleOp(s.calls[step.i], step.now)).1)
  {
  }

  // A refused settlement leaves payments alone; one that succeeds adds one event and no hold.
  lemma SettleArrivalAnnounces(l: P.Ledger, call: Call, now: nat)
    ensures var (l', reply) := P.Execute(l, SettleOp(call, now));
            if reply == P.Done then
              && |l'.outbox| == |l.outbox| + 1 && Announces(l, l', l'.outbox[|l.outbox|]) && |l'.holds| == |l.holds|
              && !l'.outbox[|l.outbox|].event.PaymentHeld? && !l'.outbox[|l.outbox|].event.PaymentFailed?
            else l' == l
  {
  }

  // A settlement that succeeds finds its contract claimed for that settlement, with this very hold.
  lemma SettlingFindsClaim(s: System, s': System, i: nat, reply: P.Reply)
    requires Inv(s) && SettlesHold(s, s', i, reply) && s.calls[i].http.InFlight?
    ensures s.calls[i].contract < |s.con.rows|
    ensures var call := s.calls[i];
            var row := s.con.rows[call.contract];
            && row.hold == call.hold && row.freelancer == call.payee
            && (reply == P.Done ==> row.status == Claimed(call.op) && s.pay.holds[call.hold.value].contract == call.contract)
  {
    var call := s.calls[i];
    assert CallOk(call, s.con.rows, s.pay.holds);
    assert ContractOk(call.contract, s.con.rows[call.contract], s.creates[call.contract], s.pay.holds);
  }

  lemma SettlingKeepsContract(s: System, s': System, i: nat, reply: P.Reply, x: nat)
    requires Inv(s) && SettlesHold(s, s', i, reply) && s.calls[i].http.InFlight? && x < |s.con.rows|
    ensures ContractOk(x, s'.con.rows[x], s'.creates[x], s'.pay.holds)
  {
    SettlingFindsClaim(s, s', i, reply);
    assert ContractOk(x, s.con.rows[x], s.creates[x], s.pay.holds);
    assert s.con.rows[x].hold.Some? ==> s.creates[x].http == Answered(P.Created(s.con.rows[x].hold.value));
  }

  lemma SettlingKeepsHold(s: System, s': System, i: nat, reply: P.Reply, h: nat)
    requires Inv(s) && SettlesHold(s, s', i, reply) && s.calls[i].http.InFlight? && h < |s.pay.holds|
    ensures HoldOk(h, s'.pay.holds[h], s'.con.rows, s'.creates)
  {
    SettlingFindsClaim(s, s', i, reply);
    assert HoldOk(h, s.pay.holds[h], s.con.rows, s.creates);
  }

  lemma SettlingKeepsCall(s: System, s': System, i: nat, reply: P.Reply)
    requires Inv(s) && SettlesHold(s, s', i, reply) && s.calls[i].http.InFlight?
    ensures CallOk(s'.calls[i], s'.con.rows, s'.pay.holds) && HoldsGrow(s.pay.holds, s'.pay.holds)
  {
    assert CallOk(s.calls[i], s.con.rows, s.pay.holds);
  }

  lemma SettleKeepsPayee(s: System, step: Step, h: nat)
    requires Inv(s) && Enabled(s, step) && step.SettleArrives? && h < |s.pay.holds|
    ensures h < |Apply(s, step).pay.holds| && PayeeOk(Apply(s, step).pay, h, s.con.rows)
  {
    var call := s.calls[step.i];
    var op := SettleOp(call, step.now);
    var l' := P.Execute(s.pay, op).0;
    SettleArrivalEffect(s, step);
    if s.pay.holds[h].status.Transferred? {
      PayeesStay(s, op, h);
    } else if l'.holds[h].status.Transferred? {
      L.NewlyPaid(s.pay, op, h);
      SettlingFindsClaim(s, Apply(s, step), step.i, P.Done);
      assert L.PaidTo(l', h, call.payee);
    }
  }

  lemma SettleKeepsPay(s: System, step: Step)
    requires Inv(s) && Enabled(s, step) && step.SettleArrives?
    ensures PayInv(Apply(s, step))
  {
    var s', op := Apply(s, step), SettleOp(s.calls[step.i], step.now);
    L.StepKeepsValid(s.pay, s.seeds, op);
    SettleArrivalEffect(s, step);
    forall h | 0 <= h < |s'.pay.holds| ensures HoldOk(h, s'.pay.holds[h], s'.con.rows, s'.creates) {
      SettlingKeepsHold(s, s', step.i, P.Execute(s.pay, op).1, h);
    }
    forall h | 0 <= h < |s'.pay.holds| ensures PayeeOk(s'.pay, h, s'.con.rows) {
      SettleKeepsPayee(s, step, h);
    }
  }

  lemma SettleKeepsCon(s: System, s': System, i: nat, reply: P.Reply)
    requires Inv(s) && SettlesHold(s, s', i, reply) && s.calls[i].http.InFlight?
    ensures ConInv(s') && CallInv(s') && Grows(s, s')
  {
    forall x | 0 <= x < |s'.con.rows| ensures ContractOk(x, s'.con.rows[x], s'.creates[x], s'.pay.holds) {
      SettlingKeepsContract(s, s', i, reply, x);
    }
    SettlingKeepsCall(s, s', i, reply);
    CallsFrame(s, s');
  }

  lemma SettleArrivesKeepsInv(s: System, step: Step)
    requires Inv(s) && Enabled(s, step) && step.SettleArrives?
    ensures Inv(Apply(s, step))
  {
    var s', call := Apply(s, step), s.calls[step.i];
    var reply := P.Execute(s.pay, SettleOp(call, step.now)).1;
    SettleKeepsPay(s, step);
    SettleArrivalEffect(s, step);
    SettleKeepsCon(s, s', step.i, reply);
    SettleArrivalAnnounces(s.pay, call, step.now);
    if reply == P.Done {
      WakeAfterInsert(s, s', s'.pay.outbox[|s.pay.outbox|]);
      EventsAfterInsert(s, s', s'.pay.outbox[|s.pay.outbox|]);
    } else {
      WakeFrame(s, s');
      EventsFrame(s, s');
    }
  }
}
