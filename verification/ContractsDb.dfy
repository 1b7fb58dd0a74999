/** The contracts database: rows moved only by compare-and-set, and an outbox written in the same transactions.

    Contract ids are fresh and rows are never deleted, so a contract is named by its position in the table.  A
    transaction that ends in a status conflict is rolled back and is `None` here. */
module ContractsDb {
  import opened Wrappers

  datatype Status =
    | Pending | HoldPending | AwaitingAccept | Active | Completing | Completed | Declining | Declined | Cancelled

  datatype Contract = Contract(client: nat, freelancer: nat, amount: int, status: Status, hold: Option<nat>)

  datatype EventKind = ContractCreated | ContractAccepted | ContractCompleted | ContractDeclined | ContractCancelled

  datatype ContractEvent = ContractEvent(contract: nat, kind: EventKind)

  datatype Contracts = Contracts(rows: seq<Contract>, outbox: seq<ContractEvent>)

  const NO_CONTRACTS := Contracts([], [])

  // The two ways a held contract is settled: complete it and pay, or decline it and release.
  datatype Settlement = Complete | Cancel

  function Open(op: Settlement): Status {
    if op.Complete? then Active else AwaitingAccept
  }

  function Claimed(op: Settlement): Status {
    if op.Complete? then Completing else Declining
  }

  function Final(op: Settlement): Status {
    if op.Complete? then Completed else Declined
  }

  function Announcement(op: Settlement): EventKind {
    if op.Complete? then ContractCompleted else ContractDeclined
  }

  // ----- statements -----

  // UpdateStatus: one compare-and-set; no row matched means a conflict, also when there is no such contract.
  function UpdateStatus(db: Contracts, id: nat, from: Status, to: Status): Option<Contracts> {
    if id < |db.rows| && db.rows[id].status == from then Some(db.(rows := db.rows[id := db.rows[id].(status := to)]))
    else None
  }

  function SetHold(db: Contracts, id: nat, hold: nat): Contracts {
    if id < |db.rows| then db.(rows := db.rows[id := db.rows[id].(hold := Some(hold))]) else db
  }

  function Emit(db: Contracts, id: nat, kind: EventKind): Contracts {
    db.(outbox := db.outbox + [ContractEvent(id, kind)])
  }

  // ----- transactions -----

  function InsertTx(db: Contracts, client: nat, freelancer: nat, amount: int): Contracts {
    db.(rows := db.rows + [Contract(client, freelancer, amount, Pending, None)])
  }

  // A compare-and-set and, when it succeeds, the event that announces it.
  function MoveTx(db: Contracts, id: nat, from: Status, to: Status, kind: EventKind): Option<Contracts> {
    match UpdateStatus(db, id, from, to)
    case None => None
    case Some(moved) => Some(Emit(moved, id, kind))
  }

  function RecordHoldTx(db: Contracts, id: nat, hold: nat): Option<Contracts> {
    match UpdateStatus(db, id, Pending, HoldPending)
    case None => None
    case Some(moved) => Some(Emit(SetHold(moved, id, hold), id, ContractCreated))
  }

  // The compensation of a failed hold logs a status conflict and carries on: the event is inserted either way.
  function CompensateTx(db: Contracts, id: nat): Contracts {
    match UpdateStatus(db, id, Pending, Cancelled)
    case None => Emit(db, id, ContractCancelled)
    case Some(moved) => Emit(moved, id, ContractCancelled)
  }

  function HeldTx(db: Contracts, id: nat): Option<Contracts> {
    UpdateStatus(db, id, HoldPending, AwaitingAccept)
  }

  function FailedTx(db: Contracts, id: nat): Option<Contracts> {
    MoveTx(db, id, HoldPending, Cancelled, ContractCancelled)
  }

  function AcceptTx(db: Contracts, id: nat): Option<Contracts> {
    MoveTx(db, id, AwaitingAccept, Active, ContractAccepted)
  }

  function ClaimTx(db: Contracts, op: Settlement, id: nat): Option<Contracts> {
    UpdateStatus(db, id, Open(op), Claimed(op))
  }

  function FinishTx(db: Contracts, op: Settlement, id: nat): Option<Contracts> {
    MoveTx(db, id, Claimed(op), Final(op), Announcement(op))
  }

  // ----- the state diagram -----

  function Rank(s: Status): nat {
    match s
    case Pending => 0
    case HoldPending => 1
    case AwaitingAccept => 2
    case Active => 3
    case Declining => 3
    case Completing => 4
    case Declined => 4
    case Completed => 5
    case Cancelled => 5
  }

  predicate Edge(from: Status, to: Status) {
    match from
    case Pending => to.HoldPending? || to.Cancelled?
    case HoldPending => to.AwaitingAccept? || to.Cancelled?
    case AwaitingAccept => to.Active? || to.Declining?
    case Active => to.Completing?
    case Completing => to.Completed?
    case Declining => to.Declined?
    case _ => false
  }

  // ----- events as a function of the row -----

  function EventsOf(outbox: seq<ContractEvent>, id: nat): seq<EventKind> {
    if outbox == [] then []
    else
      var e := outbox[|outbox| - 1];
      EventsOf(outbox[..|outbox| - 1], id) + if e.contract == id then [e.kind] else []
  }

  function ExpectedEvents(row: Contract): seq<EventKind> {
    match row.status
    case Pending => []
    case HoldPending => [ContractCreated]
    case AwaitingAccept => [ContractCreated]
    case Declining => [ContractCreated]
    case Active => [ContractCreated, ContractAccepted]
    case Completing => [ContractCreated, ContractAccepted]
    case Completed => [ContractCreated, ContractAccepted, ContractCompleted]
    case Declined => [ContractCreated, ContractDeclined]
    case Cancelled => if row.hold.None? then [ContractCancelled] else [ContractCreated, ContractCancelled]
  }

  // What has been announced is what the row says; a hold is recorded from HOLD_PENDING on.
  ghost predicate RowOk(db: Contracts, id: nat)
    requires id < |db.rows|
  {
    var row := db.rows[id];
    && EventsOf(db.outbox, id) == ExpectedEvents(row)
    && (row.status.Pending? ==> row.hold.None?)
    && (!row.status.Pending? && !row.status.Cancelled? ==> row.hold.Some?)
  }

  ghost predicate Consistent(db: Contracts) {
    && (forall id | 0 <= id < |db.rows| :: RowOk(db, id))
    && (forall k | 0 <= k < |db.outbox| :: db.outbox[k].contract < |db.rows|)
  }

  lemma EventsInsert(outbox: seq<ContractEvent>, e: ContractEvent, id: nat)
    ensures EventsOf(outbox + [e], id) == EventsOf(outbox, id) + if e.contract == id then [e.kind] else []
  {
    assert (outbox + [e])[..|outbox|] == outbox;
  }

  lemma {:induction false} NoEvents(outbox: seq<ContractEvent>, id: nat)
    requires forall k | 0 <= k < |outbox| :: outbox[k].contract != id
    ensures EventsOf(outbox, id) == []
  {
    if outbox == [] {
    } else {
      NoEvents(outbox[..|outbox| - 1], id);
    }
  }

  lemma InsertKeepsConsistent(db: Contracts, client: nat, freelancer: nat, amount: int)
    requires Consistent(db)
    ensures Consistent(InsertTx(db, client, freelancer, amount))
  {
    NoEvents(db.outbox, |db.rows|);
    forall id | 0 <= id < |db.rows| ensures RowOk(InsertTx(db, client, freelancer, amount), id) {
      assert RowOk(db, id);
    }
  }

  // A transaction that changes one row and announces at most one event about it.
  ghost predicate Touches(db: Contracts, db': Contracts, id: nat) {
    && id < |db.rows| == |db'.rows|
    && (forall c | 0 <= c < |db.rows| && c != id :: db'.rows[c] == db.rows[c])
    && (db'.outbox == db.outbox || exists kind :: db'.outbox == db.outbox + [ContractEvent(id, kind)])
  }

  lemma TouchKeepsConsistent(db: Contracts, db': Contracts, id: nat)
    requires Consistent(db) && Touches(db, db', id) && RowOk(db', id)
    ensures Consistent(db')
  {
    forall c | 0 <= c < |db'.rows| ensures RowOk(db', c) {
      assert RowOk(db, c);
      if db'.outbox != db.outbox {
        var kind :| db'.outbox == db.outbox + [ContractEvent(id, kind)];
        EventsInsert(db.outbox, ContractEvent(id, kind), c);
      }
    }
  }

  /** Every successful move follows an edge of the state diagram and keeps the announcements in step. */
  lemma MoveKeepsConsistent(db: Contracts, id: nat, from: Status, to: Status, kind: EventKind)
    requires Consistent(db) && MoveTx(db, id, from, to, kind).Some?
    requires id < |db.rows| && ExpectedEvents(db.rows[id].(status := to)) == ExpectedEvents(db.rows[id]) + [kind]
    requires Edge(from, to) && !from.Pending?
    ensures Consistent(MoveTx(db, id, from, to, kind).value)
  {
    assert RowOk(db, id);
    var db' := MoveTx(db, id, from, to, kind).value;
    EventsInsert(db.outbox, ContractEvent(id, kind), id);
    TouchKeepsConsistent(db, db', id);
  }

  lemma SilentMoveKeepsConsistent(db: Contracts, id: nat, from: Status, to: Status)
    requires Consistent(db) && UpdateStatus(db, id, from, to).Some?
    requires ExpectedEvents(db.rows[id].(status := to)) == ExpectedEvents(db.rows[id])
    requires !from.Pending? && !from.Cancelled? && !to.Pending?
    ensures Consistent(UpdateStatus(db, id, from, to).value)
  {
    assert RowOk(db, id);
    TouchKeepsConsistent(db, UpdateStatus(db, id, from, to).value, id);
  }

  lemma AcceptKeepsConsistent(db: Contracts, id: nat)
    requires Consistent(db) && AcceptTx(db, id).Some?
    ensures Consistent(AcceptTx(db, id).value)
  {
    assert RowOk(db, id);
    MoveKeepsConsistent(db, id, AwaitingAccept, Active, ContractAccepted);
  }

  lemma ClaimKeepsConsistent(db: Contracts, op: Settlement, id: nat)
    requires Consistent(db) && ClaimTx(db, op, id).Some?
    ensures Consistent(ClaimTx(db, op, id).value)
  {
    SilentMoveKeepsConsistent(db, id, Open(op), Claimed(op));
  }

  lemma FinishKeepsConsistent(db: Contracts, op: Settlement, id: nat)
    requires Consistent(db) && FinishTx(db, op, id).Some?
    ensures Consistent(FinishTx(db, op, id).value)
  {
    assert RowOk(db, id);
    MoveKeepsConsistent(db, id, Claimed(op), Final(op), Announcement(op));
  }

  lemma RecordHoldKeepsConsistent(db: Contracts, id: nat, hold: nat)
    requires Consistent(db) && RecordHoldTx(db, id, hold).Some?
    ensures Consistent(RecordHoldTx(db, id, hold).value)
  {
    assert RowOk(db, id);
    EventsInsert(db.outbox, ContractEvent(id, ContractCreated), id);
    TouchKeepsConsistent(db, RecordHoldTx(db, id, hold).value, id);
  }

  /** The compensation ignores a status conflict, so it keeps the announcements in step exactly when there is none:
      on a contract that is still PENDING. */
  lemma CompensationNeedsPending(db: Contracts, id: nat)
    requires Consistent(db) && id < |db.rows|
    ensures Consistent(CompensateTx(db, id)) <==> db.rows[id].status.Pending?
  {
    var db' := CompensateTx(db, id);
    assert RowOk(db, id);
    EventsInsert(db.outbox, ContractEvent(id, ContractCancelled), id);
    if db.rows[id].status.Pending? {
      TouchKeepsConsistent(db, db', id);
    } else {
      assert |EventsOf(db'.outbox, id)| == |ExpectedEvents(db'.rows[id])| + 1;
      assert !RowOk(db', id);
    }
  }
}
