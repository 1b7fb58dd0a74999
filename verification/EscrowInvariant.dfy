/** The one inductive invariant of the escrow system, and how its parts survive the changes of others. */
module EscrowInvariant {
  import opened Wrappers
  import opened ContractsDb
  import opened Escrow
  import P = PaymentsDb
  import L = LedgerInvariants
  import R = OutboxRelay

  // ----- the parts -----

  ghost predicate HoldHas(holds: seq<P.Hold>, hold: Option<nat>, a: P.HoldStatus, b: P.HoldStatus) {
    hold.Some? && hold.value < |holds| && (holds[hold.value].status == a || holds[hold.value].status == b)
  }

  // The recorded hold is where the contract's status says it is.
  ghost predicate StatusOk(row: Contract, holds: seq<P.Hold>) {
    match row.status
    case Pending => row.hold.None?
    case Cancelled => row.hold.None?
    case HoldPending => HoldHas(holds, row.hold, P.Active, P.Active)
    case AwaitingAccept => HoldHas(holds, row.hold, P.Active, P.Active)
    case Active => HoldHas(holds, row.hold, P.Active, P.Active)
    case Completing => HoldHas(holds, row.hold, P.Active, P.Transferred)
    case Completed => HoldHas(holds, row.hold, P.Transferred, P.Transferred)
    case Declining => HoldHas(holds, row.hold, P.Active, P.Released)
    case Declined => HoldHas(holds, row.hold, P.Released, P.Released)
  }

  // PENDING belongs to its own CreateContract; its one HTTP request is the only source of holds for the contract.
  ghost predicate CreateOk(c: nat, row: Contract, create: Create, holds: seq<P.Hold>) {
    && 0 < row.amount
    && (!create.pc.CreateEnded? ==> row.status.Pending?)
    && (create.pc.GotHold? ==> create.http == Answered(P.Created(create.pc.hold)))
    && !create.http.Unsent?
    && (create.http.Answered? && create.http.reply.Created? ==>
          create.http.reply.id < |holds| && holds[create.http.reply.id].contract == c)
    && (row.hold.Some? ==> create.http == Answered(P.Created(row.hold.value)))
  }

  ghost predicate ContractOk(c: nat, row: Contract, create: Create, holds: seq<P.Hold>) {
    StatusOk(row, holds) && CreateOk(c, row, create, holds)
  }

  // Every hold was placed for one contract, on its client's wallet, for its amount.
  ghost predicate HoldOk(h: nat, hold: P.Hold, rows: seq<Contract>, creates: seq<Create>) {
    var c := hold.contract;
    && c < |rows| && c < |creates|
    && hold.wallet == rows[c].client && hold.amount == rows[c].amount
    && creates[c].http == Answered(P.Created(h))
    && (rows[c].hold.None? ==> hold.status.Active?)
  }

  ghost predicate PayeeOk(l: P.Ledger, h: nat, rows: seq<Contract>)
    requires h < |l.holds|
  {
    l.holds[h].status.Transferred? && l.holds[h].contract < |rows| ==> L.PaidTo(l, h, rows[l.holds[h].contract].freelancer)
  }

  function Settled(op: Settlement): P.HoldStatus {
    if op.Complete? then P.Transferred else P.Released
  }

  ghost predicate InSettlement(op: Settlement, s: Status) {
    s == Claimed(op) || s == Final(op)
  }

  ghost predicate CallOk(call: Call, rows: seq<Contract>, holds: seq<P.Hold>) {
    && call.contract < |rows|
    && var row := rows[call.contract];
    && !row.status.Pending? && call.hold == row.hold && call.payee == row.freelancer
    && (call.pc.ToClaim? || call.pc.ToSend? ==> call.http.Unsent?)
    && (call.pc.ToSend? || call.pc.AwaitReply? || call.pc.ToFinish? || !call.http.Unsent? ==> InSettlement(call.op, row.status))
    && (call.pc.ToFinish? ==> call.http == Answered(P.Done))
    && (call.http == Answered(P.Done) ==> HoldHas(holds, call.hold, Settled(call.op), Settled(call.op)))
    && (!call.http.Unsent? ==> call.hold.Some?)
  }

  ghost predicate EventOk(e: P.PaymentEvent, rows: seq<Contract>, creates: seq<Create>, holds: seq<P.Hold>) {
    match e
    case PaymentHeld(h, c, _, _) => c < |rows| && h < |holds| && holds[h].contract == c
    case PaymentFailed(c, _, _) => c < |rows| && c < |creates| && creates[c].http == Answered(P.Unprocessable)
    case _ => true
  }

  predicate Past(rows: seq<Contract>, c: nat) {
    c < |rows| && !rows[c].status.Pending? && !rows[c].status.HoldPending?
  }

  function HeldEvent(h: nat, hold: P.Hold): P.PaymentEvent {
    P.PaymentHeld(h, hold.contract, hold.wallet, hold.amount)
  }

  ghost predicate Announced(l: P.Ledger, h: nat)
    requires h < |l.holds|
  {
    exists e :: 0 <= e < |l.outbox| && l.outbox[e].event == HeldEvent(h, l.holds[h])
  }

  // A held event that left the outbox is still in the stream while its contract waits for it.
  ghost predicate WakeOk(s: System, e: nat)
    requires e < |s.pay.outbox|
  {
    var row := s.pay.outbox[e];
    row.event.PaymentHeld? && (row.published || R.InFlight(s.batches, e)) ==>
      row.event in s.stream || Past(s.con.rows, row.event.contract)
  }

  ghost predicate PayInv(s: System) {
    && L.Valid(s.pay, s.seeds)
    && (forall h | 0 <= h < |s.pay.holds| :: HoldOk(h, s.pay.holds[h], s.con.rows, s.creates))
    && (forall h | 0 <= h < |s.pay.holds| :: PayeeOk(s.pay, h, s.con.rows))
  }

  ghost predicate ConInv(s: System) {
    && Consistent(s.con)
    && |s.creates| == |s.con.rows|
    && (forall c | 0 <= c < |s.con.rows| :: ContractOk(c, s.con.rows[c], s.creates[c], s.pay.holds))
  }

  ghost predicate CallInv(s: System) {
    forall i | 0 <= i < |s.calls| :: CallOk(s.calls[i], s.con.rows, s.pay.holds)
  }

  ghost predicate EventInv(s: System) {
    && (forall e | 0 <= e < |s.pay.outbox| :: EventOk(s.pay.outbox[e].event, s.con.rows, s.creates, s.pay.holds))
    && (forall m | m in s.stream :: EventOk(m, s.con.rows, s.creates, s.pay.holds))
    && (forall h | 0 <= h < |s.pay.holds| :: Announced(s.pay, h))
  }

  ghost predicate WakeInv(s: System) {
    && R.Inv(Relay(s))
    && (forall e | 0 <= e < |s.pay.outbox| :: WakeOk(s, e))
    && (forall m | m in s.handled && m.PaymentHeld? :: Past(s.con.rows, m.contract))
  }

  ghost predicate Inv(s: System) {
    PayInv(s) && ConInv(s) && CallInv(s) && EventInv(s) && WakeInv(s)
  }

  // ----- what every step does to the shared tables -----

  ghost predicate RowEvolves(r: Contract, r': Contract) {
    && r' == r.(status := r'.status, hold := r'.hold)
    && (r'.status == r.status || Edge(r.status, r'.status))
    && (r'.hold == r.hold || (r.status.Pending? && r.hold.None?))
  }

  ghost predicate RowsGrow(rows: seq<Contract>, rows': seq<Contract>) {
    |rows| <= |rows'| && forall c | 0 <= c < |rows| :: RowEvolves(rows[c], rows'[c])
  }

  ghost predicate HoldEvolves(h: P.Hold, h': P.Hold) {
    h' == h.(status := h'.status) && (h.status.Active? || h' == h)
  }

  ghost predicate HoldsGrow(holds: seq<P.Hold>, holds': seq<P.Hold>) {
    |holds| <= |holds'| && forall h | 0 <= h < |holds| :: HoldEvolves(holds[h], holds'[h])
  }

  ghost predicate AnswersStay(creates: seq<Create>, creates': seq<Create>) {
    |creates| <= |creates'| && forall c | 0 <= c < |creates| && creates[c].http.Answered? :: creates'[c].http == creates[c].http
  }

  ghost predicate Grows(s: System, s': System) {
    RowsGrow(s.con.rows, s'.con.rows) && HoldsGrow(s.pay.holds, s'.pay.holds) && AnswersStay(s.creates, s'.creates)
  }

  lemma CallStays(call: Call, rows: seq<Contract>, holds: seq<P.Hold>, rows': seq<Contract>, holds': seq<P.Hold>)
    requires CallOk(call, rows, holds) && RowsGrow(rows, rows') && HoldsGrow(holds, holds')
    ensures CallOk(call, rows', holds')
  {
    assert RowEvolves(rows[call.contract], rows'[call.contract]);
    if call.hold.Some? && call.hold.value < |holds| {
      assert HoldEvolves(holds[call.hold.value], holds'[call.hold.value]);
    }
  }

  lemma EventStays(e: P.PaymentEvent, s: System, s': System)
    requires EventOk(e, s.con.rows, s.creates, s.pay.holds) && Grows(s, s')
    ensures EventOk(e, s'.con.rows, s'.creates, s'.pay.holds)
  {
    if e.PaymentHeld? {
      assert HoldEvolves(s.pay.holds[e.hold], s'.pay.holds[e.hold]);
    }
  }

  lemma PastStays(rows: seq<Contract>, rows': seq<Contract>, c: nat)
    requires RowsGrow(rows, rows') && Past(rows, c)
    ensures Past(rows', c)
  {
    assert RowEvolves(rows[c], rows'[c]);
  }

  // A hold keeps its contract while contracts and creations move on.
  lemma HoldStays(h: nat, hold: P.Hold, rows: seq<Contract>, creates: seq<Create>, rows': seq<Contract>, creates': seq<Create>)
    requires HoldOk(h, hold, rows, creates) && RowsGrow(rows, rows') && AnswersStay(creates, creates')
    ensures HoldOk(h, hold, rows', creates')
  {
    assert RowEvolves(rows[hold.contract], rows'[hold.contract]);
  }

  // ----- frames -----

  // Calls other than those replaced survive every step.
  lemma CallsFrame(s: System, s': System)
    requires CallInv(s) && Grows(s, s') && |s.calls| <= |s'.calls|
    requires forall i | 0 <= i < |s'.calls| && (i < |s.calls| ==> s'.calls[i] != s.calls[i]) ::
               CallOk(s'.calls[i], s'.con.rows, s'.pay.holds)
    ensures CallInv(s')
  {
    forall i | 0 <= i < |s'.calls| ensures CallOk(s'.calls[i], s'.con.rows, s'.pay.holds) {
      if i < |s.calls| && s'.calls[i] == s.calls[i] {
        CallStays(s.calls[i], s.con.rows, s.pay.holds, s'.con.rows, s'.pay.holds);
      }
    }
  }

  // Events survive every step that leaves the payments outbox and the stream as they are, or takes messages away.
  lemma EventsFrame(s: System, s': System)
    requires EventInv(s) && Grows(s, s')
    requires s'.pay.outbox == s.pay.outbox && s'.pay.holds == s.pay.holds && s'.stream <= s.stream
    ensures EventInv(s')
  {
    forall e | 0 <= e < |s'.pay.outbox| ensures EventOk(s'.pay.outbox[e].event, s'.con.rows, s'.creates, s'.pay.holds) {
      EventStays(s.pay.outbox[e].event, s, s');
    }
    forall m | m in s'.stream ensures EventOk(m, s'.con.rows, s'.creates, s'.pay.holds) {
      assert m in s.stream;
      EventStays(m, s, s');
    }
    forall h | 0 <= h < |s'.pay.holds| ensures Announced(s'.pay, h) {
      assert Announced(s.pay, h);
    }
  }

  lemma WakeFrame(s: System, s': System)
    requires WakeInv(s) && RowsGrow(s.con.rows, s'.con.rows)
    requires Relay(s') == Relay(s) && s'.stream == s.stream && s'.handled == s.handled
    ensures WakeInv(s')
  {
    forall e | 0 <= e < |s'.pay.outbox| ensures WakeOk(s', e) {
      assert WakeOk(s, e);
      if Past(s.con.rows, s.pay.outbox[e].event.contract) {
        PastStays(s.con.rows, s'.con.rows, s.pay.outbox[e].event.contract);
      }
    }
    forall m | m in s'.handled && m.PaymentHeld? ensures Past(s'.con.rows, m.contract) {
      PastStays(s.con.rows, s'.con.rows, m.contract);
    }
  }

  // A step of the contracts service alone leaves the payments part standing.
  lemma PayFrame(s: System, s': System)
    requires PayInv(s) && Grows(s, s') && s'.pay == s.pay && s'.seeds == s.seeds
    ensures PayInv(s')
  {
    forall h | 0 <= h < |s'.pay.holds| ensures HoldOk(h, s'.pay.holds[h], s'.con.rows, s'.creates) {
      HoldStays(h, s.pay.holds[h], s.con.rows, s.creates, s'.con.rows, s'.creates);
    }
    forall h | 0 <= h < |s'.pay.holds| ensures PayeeOk(s'.pay, h, s'.con.rows) {
      assert PayeeOk(s.pay, h, s.con.rows) && HoldOk(h, s.pay.holds[h], s.con.rows, s.creates);
      assert RowEvolves(s.con.rows[s.pay.holds[h].contract], s'.con.rows[s.pay.holds[h].contract]);
    }
  }
}
