/** From HOLD_PENDING on: the publishers and the consumer can always wake a contract whose hold is recorded, and its
    money can be given back until it is accepted. */
module EscrowWakeUp {
  import opened ContractsDb
  import opened Escrow
  import opened EscrowInvariant
  import opened EscrowMessageSteps
  import opened EscrowRuns
  import opened EscrowRetry
  import E = EscrowTheorems
  import P = PaymentsDb
  import R = OutboxRelay
  import O = Outbox

  // ----- the way of one event -----

  lemma WakeByDelivery(s: System, m: P.PaymentEvent, c: nat)
    requires m in s.stream && m.PaymentHeld? && m.contract == c && HasStatus(s, c, HoldPending)
    ensures CanReachUnseeded(s, c, AwaitingAccept)
  {
    ReachedAlready(Apply(s, Deliver(m)), c, AwaitingAccept);
    ReachedAfter(s, Deliver(m), c, AwaitingAccept);
  }

  // A held event that some publisher has in its batch and has not offered yet.
  ghost predicate ToBeOffered(s: System, pid: nat, k: nat, c: nat) {
    && pid in s.batches && s.batches[pid].next <= k < |s.batches[pid].ids|
    && var e := s.batches[pid].ids[k];
    && e < |s.pay.outbox| && s.pay.outbox[e].event.PaymentHeld? && s.pay.outbox[e].event.contract == c
  }

  lemma {:induction false} WakeByOffers(s: System, pid: nat, k: nat, c: nat)
    requires ToBeOffered(s, pid, k, c) && HasStatus(s, c, HoldPending)
    ensures CanReachUnseeded(s, c, AwaitingAccept)
    decreases k - s.batches[pid].next
  {
    if s.batches[pid].next == k {
      var sent := Apply(s, Publish(R.Offer(pid, O.Acked)));
      WakeByDelivery(sent, s.pay.outbox[s.batches[pid].ids[k]].event, c);
      ReachedAfter(s, Publish(R.Offer(pid, O.Acked)), c, AwaitingAccept);
    } else {
      WakeByOffers(Apply(s, Publish(R.Offer(pid, O.Refused))), pid, k, c);
      ReachedAfter(s, Publish(R.Offer(pid, O.Refused)), c, AwaitingAccept);
    }
  }

  function Waiting(s: System): set<nat> {
    R.Waiting(s.pay.outbox, R.Locked(s.batches))
  }

  // Fetching a batch takes its rows from those still waiting.
  lemma BeginTakes(s: System, pid: nat, ids: seq<nat>)
    requires pid !in s.batches && O.IsFetch(s.pay.outbox, R.Locked(s.batches), O.BATCH, ids)
    ensures Enabled(s, Publish(R.Begin(pid, ids)))
    ensures var s' := Apply(s, Publish(R.Begin(pid, ids)));
            && s' == s.(batches := s.batches[pid := R.Batch(ids, 0, {})])
            && Waiting(s') <= Waiting(s)
            && (forall e | e in ids :: e in Waiting(s) && e !in Waiting(s'))
            && (forall e | e in Waiting(s) && e !in ids :: e in Waiting(s'))
  {
    var s' := Apply(s, Publish(R.Begin(pid, ids)));
    R.LockedAfterBegin(s.batches, pid, ids);
    forall e | e in ids ensures e in Waiting(s) && e !in Waiting(s') {
      assert O.Eligible(s.pay.outbox, R.Locked(s.batches), e);
    }
  }

  // An event that waits in the outbox comes up in some batch.
  lemma {:induction false} WakeByFetches(s: System, e: nat, c: nat)
    requires e in Waiting(s) && s.pay.outbox[e].event.PaymentHeld? && s.pay.outbox[e].event.contract == c
    requires HasStatus(s, c, HoldPending)
    ensures CanReachUnseeded(s, c, AwaitingAccept)
    decreases Waiting(s)
  {
    var pid := R.FreshPid(s.batches.Keys);
    var ids := R.FetchExists(s.pay.outbox, R.Locked(s.batches), O.BATCH);
    var s' := s.(batches := s.batches[pid := R.Batch(ids, 0, {})]);
    BeginTakes(s, pid, ids);
    if e in ids {
      var k :| 0 <= k < |ids| && ids[k] == e;
      WakeByOffers(s', pid, k, c);
    } else {
      assert |ids| == O.BATCH && ids[0] in ids;
      WakeByFetches(s', e, c);
    }
    ReachedAfter(s, Publish(R.Begin(pid, ids)), c, AwaitingAccept);
  }

  // An entry some publisher holds was offered, and is in flight, lost or refused, or is still to be offered; a batch
  // given up returns its entries to the outbox.
  lemma WakeByRollback(s: System, e: nat, c: nat)
    requires Inv(s) && e < |s.pay.outbox| && !s.pay.outbox[e].published && e in R.Locked(s.batches)
    requires s.pay.outbox[e].event.PaymentHeld? && s.pay.outbox[e].event.contract == c && HasStatus(s, c, HoldPending)
    ensures CanReachUnseeded(s, c, AwaitingAccept)
  {
    var pid, k :| pid in s.batches && 0 <= k < |s.batches[pid].ids| && s.batches[pid].ids[k] == e;
    var s' := Apply(s, Publish(R.Abort(pid)));
    R.AbortFrees(Relay(s), pid, e);
    WakeByFetches(s', e, c);
    ReachedAfter(s, Publish(R.Abort(pid)), c, AwaitingAccept);
  }

  /** A HOLD_PENDING contract can always be woken: some continuation of every such reachable state publishes and
      delivers its hold's event and moves it on. */
  lemma HeldContractCanWake(s: System, c: nat)
    requires Reachable(s) && HasStatus(s, c, HoldPending)
    ensures CanReachUnseeded(s, c, AwaitingAccept)
  {
    E.HoldIdExact(s, c);
    var h := s.con.rows[c].hold.value;
    E.NoLostWakeUp(s, h);
    if HeldEvent(h, s.pay.holds[h]) in s.stream {
      WakeByDelivery(s, HeldEvent(h, s.pay.holds[h]), c);
    } else {
      var e :| 0 <= e < |s.pay.outbox| && s.pay.outbox[e].event == HeldEvent(h, s.pay.holds[h]) && !s.pay.outbox[e].published;
      if e in R.Locked(s.batches) {
        ReachableInv(s);
        WakeByRollback(s, e, c);
      } else {
        WakeByFetches(s, e, c);
      }
    }
  }

  // ----- giving the money back -----

  /** Money whose hold is recorded and not yet accepted can be given back: from every reachable state in which a contract
      is HOLD_PENDING or AWAITING_ACCEPT some continuation declines it, and a declined contract has its hold released.
      EscrowTrap says what becomes of a hold in every other status. */
  lemma EscrowCanBeReturned(s: System, c: nat)
    requires Reachable(s) && (HasStatus(s, c, HoldPending) || HasStatus(s, c, AwaitingAccept))
    ensures CanReachUnseeded(s, c, Declined)
  {
    if HasStatus(s, c, HoldPending) {
      HeldContractCanWake(s, c);
      var first :|
        CanRun(s, first) && HasStatus(Run(s, first), c, AwaitingAccept) && |Run(s, first).pay.wallets| == |s.pay.wallets|;
      ReachRun(s, first);
      OpenContractCanFinish(Run(s, first), Cancel, c);
      ReachThrough(s, first, c, Declined);
    } else {
      OpenContractCanFinish(s, Cancel, c);
    }
  }
}
