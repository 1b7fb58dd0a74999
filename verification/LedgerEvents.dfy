/** What the payments outbox announces: for every hold exactly the events its status calls for. */
module LedgerEvents {
  import opened Wrappers
  import opened Outbox
  import opened PaymentsDb
  import opened LedgerInvariants
  import opened LedgerTheorems

  // The events of the outbox of one kind, in order of insertion.
  function Events(outbox: seq<Row<PaymentEvent>>, about: PaymentEvent -> bool): seq<PaymentEvent> {
    if outbox == [] then []
    else
      var e := outbox[|outbox| - 1].event;
      Events(outbox[..|outbox| - 1], about) + if about(e) then [e] else []
  }

  function HoldOf(e: PaymentEvent): Option<nat> {
    if e.PaymentFailed? then None else Some(e.hold)
  }

  function OfHold(h: nat): PaymentEvent -> bool {
    (e: PaymentEvent) => HoldOf(e) == Some(h)
  }

  function FailedFor(c: nat): PaymentEvent -> bool {
    (e: PaymentEvent) => e.PaymentFailed? && e.contract == c
  }

  lemma EventsInsert(outbox: seq<Row<PaymentEvent>>, row: Row<PaymentEvent>, about: PaymentEvent -> bool)
    ensures Events(outbox + [row], about) == Events(outbox, about) + if about(row.event) then [row.event] else []
  {
    assert (outbox + [row])[..|outbox|] == outbox;
  }

  lemma {:induction false} NoEvents(outbox: seq<Row<PaymentEvent>>, about: PaymentEvent -> bool)
    requires forall e | 0 <= e < |outbox| :: !about(outbox[e].event)
    ensures Events(outbox, about) == []
  {
    if outbox == [] {
    } else {
      NoEvents(outbox[..|outbox| - 1], about);
    }
  }

  // Publishing changes flags only.
  lemma {:induction false} FlagsDoNotMatter(outbox: seq<Row<PaymentEvent>>, outbox': seq<Row<PaymentEvent>>, about: PaymentEvent -> bool)
    requires |outbox'| == |outbox| && forall e | 0 <= e < |outbox| :: outbox'[e].event == outbox[e].event
    ensures Events(outbox', about) == Events(outbox, about)
  {
    if outbox == [] {
    } else {
      FlagsDoNotMatter(outbox[..|outbox| - 1], outbox'[..|outbox| - 1], about);
    }
  }

  function Placed(h: nat, row: Hold): PaymentEvent {
    PaymentHeld(h, row.contract, row.wallet, row.amount)
  }

  ghost predicate AnnouncesPayment(l: Ledger, h: nat, payee: nat)
    requires h < |l.holds|
  {
    var row := l.holds[h];
    && PaidTo(l, h, payee)
    && Events(l.outbox, OfHold(h)) == [Placed(h, row), PaymentTransferred(h, row.contract, row.wallet, payee, row.amount)]
  }

  ghost predicate Announced(l: Ledger, h: nat)
    requires h < |l.holds|
  {
    var row, events := l.holds[h], Events(l.outbox, OfHold(h));
    match row.status
    case Active => events == [Placed(h, row)]
    case Released => events == [Placed(h, row), PaymentReleased(h, row.contract, row.wallet, row.amount)]
    case Transferred => exists payee: nat :: AnnouncesPayment(l, h, payee)
  }

  ghost predicate AllAnnounced(l: Ledger) {
    && (forall e | 0 <= e < |l.outbox| && HoldOf(l.outbox[e].event).Some? :: HoldOf(l.outbox[e].event).value < |l.holds|)
    && (forall h | 0 <= h < |l.holds| :: Announced(l, h))
  }

  // A hold that a transaction leaves alone stays announced.
  lemma AnnouncedStays(l: Ledger, op: Op, h: nat)
    requires Journalled(l) && AllAnnounced(l) && h < |l.holds|
    requires var l' := Execute(l, op).0;
             h < |l'.holds| && l'.holds[h] == l.holds[h] && Events(l'.outbox, OfHold(h)) == Events(l.outbox, OfHold(h))
    ensures Announced(Execute(l, op).0, h)
  {
    assert Announced(l, h);
    if l.holds[h].status.Transferred? {
      var payee: nat :| AnnouncesPayment(l, h, payee);
      PaidIsFinal(l, op, h, payee);
      assert AnnouncesPayment(Execute(l, op).0, h, payee);
    }
  }

  lemma HoldAnnounces(l: Ledger, op: Op, h: nat)
    requires Journalled(l) && AllAnnounced(l) && op.OpHold? && h < |Execute(l, op).0.holds|
    ensures Announced(Execute(l, op).0, h)
  {
    var l' := Execute(l, op).0;
    if |l'.outbox| > |l.outbox| {
      assert l'.outbox == l.outbox + [l'.outbox[|l.outbox|]];
      EventsInsert(l.outbox, l'.outbox[|l.outbox|], OfHold(h));
    }
    if h < |l.holds| {
      AnnouncedStays(l, op, h);
    } else {
      NoEvents(l.outbox, OfHold(h));
    }
  }

  lemma ReleaseAnnounces(l: Ledger, op: Op, h: nat)
    requires Journalled(l) && AllAnnounced(l) && op.OpRelease? && h < |l.holds|
    ensures h < |Execute(l, op).0.holds| && Announced(Execute(l, op).0, h)
  {
    var l' := Execute(l, op).0;
    assert Announced(l, h);
    if |l'.outbox| > |l.outbox| {
      assert l'.outbox == l.outbox + [l'.outbox[|l.outbox|]];
      EventsInsert(l.outbox, l'.outbox[|l.outbox|], OfHold(h));
    }
    if op.hold != Some(h) || l' == l {
      AnnouncedStays(l, op, h);
    }
  }

  lemma TransferAnnounces(l: Ledger, op: Op, h: nat)
    requires Journalled(l) && AllAnnounced(l) && op.OpTransfer? && h < |l.holds|
    requires Execute(l, op).1 == Done
    ensures h < |Execute(l, op).0.holds| && Announced(Execute(l, op).0, h)
  {
    var l' := Execute(l, op).0;
    assert Announced(l, h);
    assert l'.outbox == l.outbox + [l'.outbox[|l.outbox|]];
    EventsInsert(l.outbox, l'.outbox[|l.outbox|], OfHold(h));
    if op.hold != Some(h) {
      TransferSpares(l, op, h);
      AnnouncedStays(l, op, h);
    } else {
      NewlyPaid(l, op, h);
      assert AnnouncesPayment(l', h, op.recipient.value);
    }
  }

  lemma SeedAnnounces(l: Ledger, op: Op)
    requires Journalled(l) && AllAnnounced(l) && op.OpSeed?
    ensures AllAnnounced(Execute(l, op).0)
  {
    forall h | 0 <= h < |l.holds| ensures Announced(Execute(l, op).0, h) {
      AnnouncedStays(l, op, h);
    }
  }

  lemma NamesStay(l: Ledger, op: Op)
    requires AllAnnounced(l)
    ensures var l' := Execute(l, op).0;
            forall e | 0 <= e < |l'.outbox| && HoldOf(l'.outbox[e].event).Some? :: HoldOf(l'.outbox[e].event).value < |l'.holds|
  {
  }

  lemma StepAnnounces(l: Ledger, op: Op)
    requires Journalled(l) && AllAnnounced(l)
    ensures AllAnnounced(Execute(l, op).0)
  {
    var (l', reply) := Execute(l, op);
    NamesStay(l, op);
    match op
    case OpSeed(_, _) => SeedAnnounces(l, op);
    case OpHold(_, _, _, _, _) =>
      forall h | 0 <= h < |l'.holds| ensures Announced(l', h) {
        HoldAnnounces(l, op, h);
      }
    case OpRelease(_, _) =>
      forall h | 0 <= h < |l'.holds| ensures Announced(l', h) {
        ReleaseAnnounces(l, op, h);
      }
    case OpTransfer(_, _, _) =>
      if reply == Done {
        forall h | 0 <= h < |l'.holds| ensures Announced(l', h) {
          TransferAnnounces(l, op, h);
        }
      }
  }

  /** Announcements: after any run every hold has exactly one payment.held event, one payment.released if it was released
      and nothing else, one payment.transferred to the wallet that was credited if it was transferred. */
  lemma {:induction false} RunAnnounces(l: Ledger, ops: seq<Op>)
    requires Journalled(l) && AllAnnounced(l)
    ensures AllAnnounced(LedgerAfter(l, ops)) && Journalled(LedgerAfter(l, ops))
    decreases |ops|
  {
    if ops == [] {
    } else {
      StepAnnounces(l, ops[0]);
      StepKeepsJournalled(l, ops[0]);
      RunAnnounces(Execute(l, ops[0]).0, ops[1..]);
    }
  }
}
