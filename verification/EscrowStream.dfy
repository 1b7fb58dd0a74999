/** Which messages can still leave the payments stream.  A message leaves when its handling succeeded and the broker
    learns of it; one whose handler can only fail from now on is delivered again for good. */
module EscrowStream {
  import opened ContractsDb
  import opened Escrow
  import opened EscrowInvariant
  import opened EscrowMessageSteps
  import opened EscrowRuns
  import opened EscrowExample
  import opened EscrowTrap
  import E = EscrowTheorems
  import P = PaymentsDb
  import Consumer

  // Some continuation takes a copy of m out of the stream.
  ghost predicate CanLeave(s: System, m: P.PaymentEvent) {
    exists steps :: CanRun(s, steps) && Run(s, steps).stream[m] < s.stream[m]
  }

  // Handled and only to be acknowledged, or of interest to a contract that waits for it or can still come to.
  predicate Answerable(s: System, m: P.PaymentEvent) {
    match m
    case PaymentHeld(_, c, _, _) =>
      || m in s.handled
      || (c < |s.con.rows| && s.con.rows[c].status.HoldPending?)
      || (c < |s.con.rows| && c < |s.creates| && s.con.rows[c].status.Pending? && !GaveUp(s.creates[c]))
    case PaymentFailed(_, _, _) => false
    case _ => true
  }

  // ----- what stays -----

  // No copy of m was handled, and its handler can only fail.
  predicate Deaf(s: System, m: P.PaymentEvent) {
    && m !in s.handled
    && (m.PaymentFailed? || (m.PaymentHeld? && (Past(s.con.rows, m.contract) || Abandoned(s, m.contract))))
  }

  lemma QuietForStream(s: System, step: Step, m: P.PaymentEvent)
    requires Enabled(s, step) && !step.Deliver? && !step.AckArrives? && !step.AckDropped?
    ensures Apply(s, step).handled == s.handled && s.stream[m] <= Apply(s, step).stream[m]
  {
  }

  lemma DeafIsNotHandled(s: System, m: P.PaymentEvent)
    requires Inv(s) && m in s.stream && Deaf(s, m)
    ensures Apply(s, Deliver(m)) == s
  {
    if m.PaymentFailed? {
      FailedIsConflict(s, m);
    }
  }

  lemma DeafStaysUnhandled(s: System, step: Step, m: P.PaymentEvent)
    requires Inv(s) && Enabled(s, step) && Deaf(s, m)
    ensures m !in Apply(s, step).handled && s.stream[m] <= Apply(s, step).stream[m]
  {
    if step == Deliver(m) {
      DeafIsNotHandled(s, m);
    } else if !step.Deliver? && !step.AckArrives? && !step.AckDropped? {
      QuietForStream(s, step, m);
    }
  }

  lemma DeafStays(s: System, step: Step, m: P.PaymentEvent)
    requires Inv(s) && Enabled(s, step) && Deaf(s, m)
    ensures Deaf(Apply(s, step), m) && s.stream[m] <= Apply(s, step).stream[m]
  {
    DeafStaysUnhandled(s, step, m);
    if m.PaymentHeld? {
      if Past(s.con.rows, m.contract) {
        E.StepGrowsRows(s, step);
        PastStays(s.con.rows, Apply(s, step).con.rows, m.contract);
      } else {
        AbandonedStays(s, step, m.contract);
      }
    }
  }

  lemma {:induction false} DeafForever(s: System, steps: seq<Step>, m: P.PaymentEvent)
    requires Inv(s) && CanRun(s, steps) && Deaf(s, m)
    ensures Deaf(Run(s, steps), m) && s.stream[m] <= Run(s, steps).stream[m]
    decreases |steps|
  {
    if steps == [] {
    } else {
      DeafStays(s, steps[0], m);
      StepKeepsInv(s, steps[0]);
      DeafForever(Apply(s, steps[0]), steps[1..], m);
    }
  }

  // A payment.failed message is never handled: its contract has been cancelled by its own creation or stays PENDING.
  lemma FailedIsDeaf(s: System, m: P.PaymentEvent)
    requires Reachable(s) && m.PaymentFailed?
    ensures Deaf(s, m)
  {
    var steps :| CanRun(START, steps) && s == Run(START, steps);
    StartInv();
    DeafForever(START, steps, m);
  }

  /** HandlePaymentFailed never succeeds: whatever runs, a payment.failed message in the stream changes nothing when it
      is delivered, is never acknowledged, and stays. */
  lemma FailedEventNeverLeaves(s: System, steps: seq<Step>, m: P.PaymentEvent)
    requires Reachable(s) && CanRun(s, steps) && m.PaymentFailed?
    ensures s.stream[m] <= Run(s, steps).stream[m] && m !in Run(s, steps).handled
    ensures m in s.stream ==> Apply(s, Deliver(m)) == s
  {
    ReachableInv(s);
    FailedIsDeaf(s, m);
    DeafForever(s, steps, m);
    if m in s.stream {
      DeafIsNotHandled(s, m);
    }
  }

  // ----- what can leave -----

  lemma LeavesByAck(s: System, m: P.PaymentEvent)
    requires m in s.stream && m in s.handled
    ensures CanLeave(s, m)
  {
    var steps := [AckArrives(m)];
    assert steps[1..] == [];
    assert CanRun(s, steps) && Run(s, steps).stream[m] < s.stream[m];
  }

  lemma LeavesAfter(s: System, step: Step, m: P.PaymentEvent)
    requires Enabled(s, step) && Apply(s, step).stream == s.stream && CanLeave(Apply(s, step), m)
    ensures CanLeave(s, m)
  {
    var next := Apply(s, step);
    var rest :| CanRun(next, rest) && Run(next, rest).stream[m] < next.stream[m];
    var steps := [step] + rest;
    assert steps[0] == step && steps[1..] == rest;
    assert CanRun(s, steps) && Run(s, steps).stream[m] < s.stream[m];
  }

  lemma LeavesByDelivery(s: System, m: P.PaymentEvent)
    requires m in s.stream && Consumer.Dispatch(s.con, MessageOf(m)).1.Ack?
    ensures CanLeave(s, m)
  {
    LeavesByAck(Apply(s, Deliver(m)), m);
    LeavesAfter(s, Deliver(m), m);
  }

  lemma LeavesByRecord(s: System, m: P.PaymentEvent)
    requires m in s.stream && m.PaymentHeld? && m.contract < |s.con.rows| && m.contract < |s.creates|
    requires s.con.rows[m.contract].status.Pending? && s.creates[m.contract].pc.GotHold?
    ensures CanLeave(s, m)
  {
    LeavesByDelivery(Apply(s, RecordHold(m.contract)), m);
    LeavesAfter(s, RecordHold(m.contract), m);
  }

  lemma PendingCanLeave(s: System, m: P.PaymentEvent)
    requires Reachable(s) && m in s.stream && m.PaymentHeld? && m.contract < |s.con.rows| && m.contract < |s.creates|
    requires s.con.rows[m.contract].status.Pending? && !GaveUp(s.creates[m.contract])
    ensures CanLeave(s, m)
  {
    E.MessageFacts(s, m);
    E.HoldFacts(s, m.hold);
    if s.creates[m.contract].pc.GotHold? {
      LeavesByRecord(s, m);
    } else {
      LeavesByRecord(Apply(s, HoldAnswered(m.contract)), m);
      LeavesAfter(s, HoldAnswered(m.contract), m);
    }
  }

  lemma AnswerableCanLeave(s: System, m: P.PaymentEvent)
    requires Reachable(s) && m in s.stream && Answerable(s, m)
    ensures CanLeave(s, m)
  {
    if m in s.handled {
      LeavesByAck(s, m);
    } else if m.PaymentHeld? && s.con.rows[m.contract].status.Pending? {
      PendingCanLeave(s, m);
    } else {
      LeavesByDelivery(s, m);
    }
  }

  lemma UnanswerableIsDeaf(s: System, m: P.PaymentEvent)
    requires Reachable(s) && m in s.stream && !Answerable(s, m)
    ensures Deaf(s, m)
  {
    if m.PaymentFailed? {
      FailedIsDeaf(s, m);
    } else {
      E.MessageFacts(s, m);
      E.ContractFacts(s, m.contract);
    }
  }

  /** Exactly which messages can still leave the stream: payment.held ones that were handled and await their
      acknowledgement, or whose contract is HOLD_PENDING or can still become so; payment.failed ones never; all others
      always.  So one lost acknowledgement of a payment.held message leaves it in the stream for good. */
  lemma MessageLeavesIff(s: System, m: P.PaymentEvent)
    requires Reachable(s) && m in s.stream
    ensures CanLeave(s, m) <==> Answerable(s, m)
  {
    if Answerable(s, m) {
      AnswerableCanLeave(s, m);
    } else {
      ReachableInv(s);
      UnanswerableIsDeaf(s, m);
      forall steps | CanRun(s, steps) ensures s.stream[m] <= Run(s, steps).stream[m] {
        DeafForever(s, steps, m);
      }
    }
  }

  // Such a message exists: the held event of an accepted hold whose acknowledgement was lost.
  lemma DroppedAckExists() returns (s: System)
    ensures Reachable(s) && HELD in s.stream && HasStatus(s, 0, AwaitingAccept) && !CanLeave(s, HELD)
  {
    DeliveredReachable(1);
    ReachNext(Delivered(1), AckDropped(HELD));
    s := Apply(Delivered(1), AckDropped(HELD));
    MessageLeavesIff(s, HELD);
  }
}
