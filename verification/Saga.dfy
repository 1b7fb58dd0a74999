/** The saga orchestrator: contract rows and their outbox, changed step by step inside local transactions, with the
    answer of the payments service as a parameter.  Other callers are absent here; Escrow interleaves them. */
module Saga {
  import opened Wrappers
  import opened ContractsDb
  import opened Consumer

  datatype Outcome = Ok | ContractNotFound | StatusConflict | NoHoldId | PaymentError | NotCommitted

  // The statuses a settling call goes on from.
  predicate CanSettle(op: Settlement, status: Status) {
    status == Open(op) || status == Claimed(op)
  }

  // Milestones are stored with their contract and never read by the saga.
  datatype Milestone = Milestone(amount: int, position: int, contract: Option<nat>, status: string)

  function Stamped(milestones: seq<Milestone>, id: nat): seq<Milestone> {
    seq(|milestones|, i requires 0 <= i < |milestones| => milestones[i].(contract := Some(id), status := "PENDING"))
  }

  class SagaOrchestrator {
    var rows: seq<Contract>
    var outbox: seq<ContractEvent>
    var milestones: seq<Milestone>

    function State(): Contracts
      reads this
    {
      Contracts(rows, outbox)
    }

    constructor ()
      ensures State() == NO_CONTRACTS && milestones == []
    {
      rows, outbox, milestones := [], [], [];
    }

    // The store's compare-and-set.
    method UpdateStatus(id: nat, from: Status, to: Status) returns (ok: bool)
      modifies this`rows
      ensures ok <==> id < |old(rows)| && old(rows)[id].status == from
      ensures rows == if ok then old(rows)[id := old(rows)[id].(status := to)] else old(rows)
    {
      if id < |rows| && rows[id].status == from {
        rows := rows[id := rows[id].(status := to)];
        return true;
      }
      ok := false;
    }

    method SetHoldID(id: nat, hold: nat)
      requires id < |rows|
      modifies this`rows
      ensures rows == old(rows)[id := old(rows)[id].(hold := Some(hold))]
    {
      rows := rows[id := rows[id].(hold := Some(hold))];
    }

    method InsertOutbox(id: nat, kind: EventKind)
      modifies this`outbox
      ensures outbox == old(outbox) + [ContractEvent(id, kind)]
    {
      outbox := outbox + [ContractEvent(id, kind)];
    }

    method Rollback(saved: Contracts)
      modifies this`rows, this`outbox
      ensures State() == saved
    {
      rows, outbox := saved.rows, saved.outbox;
    }

    method StampMilestones(drafts: seq<Milestone>, id: nat) returns (stamped: seq<Milestone>)
      ensures stamped == Stamped(drafts, id)
    {
      stamped := drafts;
      for i := 0 to |drafts|
        invariant |stamped| == |drafts|
        invariant forall k | 0 <= k < |drafts| :: stamped[k] == if k < i then Stamped(drafts, id)[k] else drafts[k]
      {
        stamped := stamped[i := stamped[i].(contract := Some(id), status := "PENDING")];
      }
    }

    /** CreateContract: one new row, HOLD_PENDING with the hold's id if payments placed it, CANCELLED otherwise, and
        the one event that says so.  `inserts` says whether the first transaction commits; if not, nothing happens at
        all.  `answer` is the hold id payments answered with, if any answer came; `commits` says whether the transaction
        that follows the answer goes through.  If not, the row stays PENDING without a hold id and unannounced, also when
        payments holds the money. */
    method CreateContract(client: nat, freelancer: nat, amount: int, drafts: seq<Milestone>,
                          inserts: bool, answer: Option<nat>, commits: bool)
      returns (id: nat, outcome: Outcome)
      modifies this
      ensures !inserts ==> State() == old(State()) && milestones == old(milestones) && outcome == NotCommitted
      ensures id == |old(rows)|
      ensures inserts ==>
        && |milestones| == |old(milestones)| + |drafts| && milestones[..|old(milestones)|] == old(milestones)
        && (forall i | 0 <= i < |drafts| :: milestones[|old(milestones)| + i] ==
              Milestone(drafts[i].amount, drafts[i].position, Some(id), "PENDING"))
      ensures inserts ==>
        && |rows| == |old(rows)| + 1 && rows[..id] == old(rows)
        && rows[id].client == client && rows[id].freelancer == freelancer && rows[id].amount == amount
        && rows[id].status == (if !commits then Pending else if answer.Some? then HoldPending else Cancelled)
        && rows[id].hold == (if commits then answer else None)
      ensures inserts ==>
        outbox == if commits then old(outbox) + [ContractEvent(id, if answer.Some? then ContractCreated else ContractCancelled)]
                  else old(outbox)
      ensures inserts ==> outcome == if answer.None? then PaymentError else if commits then Ok else NotCommitted
      ensures old(Consistent(State())) ==> Consistent(State())
    {
      ghost var before := State();
      id := |rows|;
      if !inserts {
        return id, NotCommitted;
      }
      var stamped := StampMilestones(drafts, id);
      milestones := milestones + stamped;
      rows := rows + [Contract(client, freelancer, amount, Pending, None)];
      var saved := State();
      if answer.None? {
        var _ := UpdateStatus(id, Pending, Cancelled);
        InsertOutbox(id, ContractCancelled);
        outcome := PaymentError;
      } else {
        var moved := UpdateStatus(id, Pending, HoldPending);
        SetHoldID(id, answer.value);
        InsertOutbox(id, ContractCreated);
        outcome := if commits then Ok else NotCommitted;
      }
      if !commits {
        Rollback(saved);
      }
      if Consistent(before) {
        var pending := InsertTx(before, client, freelancer, amount);
        InsertKeepsConsistent(before, client, freelancer, amount);
        if commits && answer.None? {
          assert State() == CompensateTx(pending, id);
          CompensationNeedsPending(pending, id);
        } else if commits {
          assert State() == RecordHoldTx(pending, id, answer.value).value;
          RecordHoldKeepsConsistent(pending, id, answer.value);
        }
      }
    }

    // A single statement; `commits` says whether the database carries it out.
    method HandlePaymentHeld(id: nat, commits: bool) returns (ok: bool)
      modifies this`rows
      ensures ok <==> commits && id < |old(rows)| && old(rows)[id].status == HoldPending
      ensures rows == if ok then old(rows)[id := old(rows)[id].(status := AwaitingAccept)] else old(rows)
    {
      if !commits {
        return false;
      }
      ok := UpdateStatus(id, HoldPending, AwaitingAccept);
    }

    method HandlePaymentFailed(id: nat, commits: bool) returns (ok: bool)
      modifies this`rows, this`outbox
      ensures ok <==> commits && id < |old(rows)| && old(rows)[id].status == HoldPending
      ensures rows == if ok then old(rows)[id := old(rows)[id].(status := Cancelled)] else old(rows)
      ensures outbox == if ok then old(outbox) + [ContractEvent(id, ContractCancelled)] else old(outbox)
    {
      var saved := State();
      ok := UpdateStatus(id, HoldPending, Cancelled);
      if ok {
        InsertOutbox(id, ContractCancelled);
      }
      if !commits {
        Rollback(saved);
        ok := false;
      }
    }

    method AcceptContract(id: nat, commits: bool) returns (outcome: Outcome)
      modifies this`rows, this`outbox
      ensures outcome == Ok <==> commits && id < |old(rows)| && old(rows)[id].status == AwaitingAccept
      ensures outcome == NotCommitted <==> !commits && id < |old(rows)| && old(rows)[id].status == AwaitingAccept
      ensures outcome == StatusConflict <==> |old(rows)| <= id || old(rows)[id].status != AwaitingAccept
      ensures rows == if outcome == Ok then old(rows)[id := old(rows)[id].(status := Active)] else old(rows)
      ensures outbox == if outcome == Ok then old(outbox) + [ContractEvent(id, ContractAccepted)] else old(outbox)
      ensures old(Consistent(State())) ==> Consistent(State())
    {
      var before := State();
      var ok := UpdateStatus(id, AwaitingAccept, Active);
      if !ok {
        return StatusConflict;
      }
      InsertOutbox(id, ContractAccepted);
      if !commits {
        Rollback(before);
        return NotCommitted;
      }
      outcome := Ok;
      if Consistent(before) {
        AcceptKeepsConsistent(before, id);
      }
    }

    /** CompleteContract and CancelContract: from the open status, or again from the claimed one, claim the contract,
        ask payments to settle the hold, and finish with an event only when payments says it did.  `paid` is whether
        the transfer or the release was answered with success, `commits` whether the finishing transaction goes through.
        Anything short of that leaves the contract claimed. */
    method Settle(op: Settlement, id: nat, paid: bool, commits: bool) returns (outcome: Outcome)
      modifies this`rows, this`outbox
      ensures outcome == ContractNotFound <==> |old(rows)| <= id
      ensures outcome == StatusConflict <==> id < |old(rows)| && !CanSettle(op, old(rows)[id].status)
      ensures outcome == NoHoldId <==>
              id < |old(rows)| && CanSettle(op, old(rows)[id].status) && old(rows)[id].hold.None?
      ensures outcome == PaymentError <==>
              id < |old(rows)| && CanSettle(op, old(rows)[id].status) && old(rows)[id].hold.Some? && !paid
      ensures outcome == Ok <==>
              id < |old(rows)| && CanSettle(op, old(rows)[id].status) && old(rows)[id].hold.Some? && paid && commits
      ensures outcome == ContractNotFound || outcome == StatusConflict ==> State() == old(State())
      ensures outcome == NoHoldId || outcome == PaymentError || outcome == NotCommitted ==>
              rows == old(rows)[id := old(rows)[id].(status := Claimed(op))] && outbox == old(outbox)
      ensures outcome == Ok ==>
              && rows == old(rows)[id := old(rows)[id].(status := Final(op))]
              && outbox == old(outbox) + [ContractEvent(id, Announcement(op))]
      ensures old(Consistent(State())) ==> Consistent(State())
    {
      ghost var before := State();
      if |rows| <= id {
        return ContractNotFound;
      }
      var c := rows[id];
      if c.status == Open(op) {
        var claimed := UpdateStatus(id, Open(op), Claimed(op));
        if !claimed {
          return StatusConflict;
        }
        c := c.(status := Claimed(op));
        if Consistent(before) {
          ClaimKeepsConsistent(before, op, id);
        }
      }
      if c.status != Claimed(op) {
        return StatusConflict;
      }
      if c.hold.None? {
        return NoHoldId;
      }
      if !paid {
        return PaymentError;
      }
      var saved := State();
      var finished := UpdateStatus(id, Claimed(op), Final(op));
      if !finished {
        return StatusConflict;
      }
      InsertOutbox(id, Announcement(op));
      if !commits {
        Rollback(saved);
        return NotCommitted;
      }
      outcome := Ok;
      if Consistent(saved) {
        FinishKeepsConsistent(saved, op, id);
      }
    }

    method CompleteContract(id: nat, transferred: bool, commits: bool) returns (outcome: Outcome)
      modifies this`rows, this`outbox
      ensures outcome == Ok <==>
              && id < |old(rows)| && (old(rows)[id].status == Active || old(rows)[id].status == Completing)
              && old(rows)[id].hold.Some? && transferred && commits
      ensures outcome == Ok ==>
              && rows == old(rows)[id := old(rows)[id].(status := Completed)]
              && outbox == old(outbox) + [ContractEvent(id, ContractCompleted)]
      ensures outcome != Ok ==>
              && outbox == old(outbox)
              && rows == if id < |old(rows)| && old(rows)[id].status == Active
                         then old(rows)[id := old(rows)[id].(status := Completing)] else old(rows)
      ensures old(Consistent(State())) ==> Consistent(State())
    {
      outcome := Settle(Complete, id, transferred, commits);
    }

    method CancelContract(id: nat, released: bool, commits: bool) returns (outcome: Outcome)
      modifies this`rows, this`outbox
      ensures outcome == Ok <==>
              && id < |old(rows)| && (old(rows)[id].status == AwaitingAccept || old(rows)[id].status == Declining)
              && old(rows)[id].hold.Some? && released && commits
      ensures outcome == Ok ==>
              && rows == old(rows)[id := old(rows)[id].(status := Declined)]
              && outbox == old(outbox) + [ContractEvent(id, ContractDeclined)]
      ensures outcome != Ok ==>
              && outbox == old(outbox)
              && rows == if id < |old(rows)| && old(rows)[id].status == AwaitingAccept
                         then old(rows)[id := old(rows)[id].(status := Declining)] else old(rows)
      ensures old(Consistent(State())) ==> Consistent(State())
    {
      outcome := Settle(Cancel, id, released, commits);
    }

    /** One round of the payments consumer: every fetched message is decoded, dispatched and answered in turn.
        `commits(k)` says whether the transaction of the k-th message goes through. */
    method ConsumeBatch(msgs: seq<Message>, commits: nat -> bool) returns (verdicts: seq<Verdict>)
      modifies this`rows, this`outbox
      ensures (State(), verdicts) == Consume(old(State()), AllHeard(msgs, commits))
      ensures Served(old(State()), State(), msgs, commits, verdicts)
      ensures old(Consistent(State())) ==> Consistent(State())
    {
      ghost var before := State();
      ghost var heard := AllHeard(msgs, commits);
      verdicts := [];
      for k := 0 to |msgs|
        invariant (State(), verdicts) == Consume(old(State()), heard[..k])
      {
        assert heard[..k + 1][..k] == heard[..k] && heard[k] == Heard(msgs[k], commits(k));
        assert Consume(before, heard[..k + 1]).0 == Dispatch(State(), heard[k]).0;
        match msgs[k].payload
        case Malformed =>
          verdicts := verdicts + [Nak];
        case NoContract =>
          verdicts := verdicts + [Term];
        case About(contract) =>
          var handled := true;
          match msgs[k].subject {
            case HeldSubject => handled := HandlePaymentHeld(contract, commits(k));
            case FailedSubject => handled := HandlePaymentFailed(contract, commits(k));
            case OtherSubject =>
          }
          verdicts := verdicts + [if handled then Ack else Nak];
      }
      assert heard[..|msgs|] == heard;
      BatchIsServed(before, msgs, commits);
      if Consistent(before) {
        ConsumeKeepsConsistent(before, heard);
      }
    }
  }
}
