/** The payments consumer: what each fetched message does to the contracts database and to itself. */
module Consumer {
  import opened Wrappers
  import opened ContractsDb

  // payments.payment.held, payments.payment.failed, and the subjects that are received and ignored.
  datatype Subject = HeldSubject | FailedSubject | OtherSubject

  datatype Payload = Malformed | NoContract | About(contract: nat)

  datatype Message = Message(subject: Subject, payload: Payload)

  datatype Verdict = Ack | Nak | Term

  // The saga handler for one subject; `None` is an error.
  function Handle(db: Contracts, subject: Subject, contract: nat): Option<Contracts> {
    match subject
    case HeldSubject => HeldTx(db, contract)
    case FailedSubject => FailedTx(db, contract)
    case OtherSubject => Some(db)
  }

  function Dispatch(db: Contracts, m: Message): (Contracts, Verdict) {
    match m.payload
    case Malformed => (db, Nak)
    case NoContract => (db, Term)
    case About(contract) =>
      match Handle(db, m.subject, contract)
      case None => (db, Nak)
      case Some(moved) => (moved, Ack)
  }

  function Consume(db: Contracts, msgs: seq<Message>): (Contracts, seq<Verdict>) {
    if msgs == [] then (db, [])
    else
      var n := |msgs| - 1;
      var (before, verdicts) := Consume(db, msgs[..n]);
      var (after, verdict) := Dispatch(before, msgs[n]);
      (after, verdicts + [verdict])
  }

  // A handler whose transaction does not commit leaves the database as it was and returns the message to the stream,
  // which is what becomes of a message that cannot be decoded.
  function Heard(m: Message, commits: bool): Message {
    if commits || m.subject.OtherSubject? || !m.payload.About? then m else m.(payload := Malformed)
  }

  function AllHeard(msgs: seq<Message>, commits: nat -> bool): seq<Message> {
    seq(|msgs|, k requires 0 <= k < |msgs| => Heard(msgs[k], commits(k)))
  }

  // A message that could move contract c.
  predicate Moves(m: Message, c: nat) {
    !m.subject.OtherSubject? && m.payload == About(c)
  }

  // The first message that could move contract c.
  function FirstAbout(msgs: seq<Message>, c: nat): Option<Subject> {
    if msgs == [] then None
    else
      var n := |msgs| - 1;
      var earlier := FirstAbout(msgs[..n], c);
      if earlier.Some? then earlier else if Moves(msgs[n], c) then Some(msgs[n].subject) else None
  }

  function StatusAfter(s: Status, first: Option<Subject>): Status {
    if !s.HoldPending? || first.None? then s else if first.value.HeldSubject? then AwaitingAccept else Cancelled
  }

  lemma DispatchKeepsConsistent(db: Contracts, m: Message)
    requires Consistent(db)
    ensures Consistent(Dispatch(db, m).0)
  {
    if m.payload.About? && Handle(db, m.subject, m.payload.contract).Some? {
      var id := m.payload.contract;
      match m.subject
      case HeldSubject => SilentMoveKeepsConsistent(db, id, HoldPending, AwaitingAccept);
      case FailedSubject =>
        assert RowOk(db, id);
        MoveKeepsConsistent(db, id, HoldPending, Cancelled, ContractCancelled);
      case OtherSubject =>
    }
  }

  lemma {:induction false} ConsumeKeepsConsistent(db: Contracts, msgs: seq<Message>)
    requires Consistent(db)
    ensures Consistent(Consume(db, msgs).0)
    ensures |Consume(db, msgs).1| == |msgs|
  {
    if msgs == [] {
    } else {
      var n := |msgs| - 1;
      ConsumeKeepsConsistent(db, msgs[..n]);
      DispatchKeepsConsistent(Consume(db, msgs[..n]).0, msgs[n]);
    }
  }

  /** The first word counts: whatever a batch holds, duplicates and stale messages included, a HOLD_PENDING contract
      ends where the first message about it sends it, and every other contract row stays as it is. */
  lemma {:induction false} FirstMessageDecides(db: Contracts, msgs: seq<Message>, c: nat)
    requires c < |db.rows|
    ensures |Consume(db, msgs).0.rows| == |db.rows|
    ensures Consume(db, msgs).0.rows[c] == db.rows[c].(status := StatusAfter(db.rows[c].status, FirstAbout(msgs, c)))
  {
    if msgs == [] {
    } else {
      FirstMessageDecides(db, msgs[..|msgs| - 1], c);
    }
  }

  // How many of the messages about contract c were acknowledged.
  function AckedAbout(db: Contracts, msgs: seq<Message>, c: nat): nat {
    if msgs == [] then 0
    else
      var n := |msgs| - 1;
      AckedAbout(db, msgs[..n], c) + if Moves(msgs[n], c) && Dispatch(Consume(db, msgs[..n]).0, msgs[n]).1.Ack? then 1 else 0
  }

  /** Of the messages that could move a contract exactly one is acknowledged when it is HOLD_PENDING, and none
      otherwise; the others are returned to the stream. */
  lemma {:induction false} OneAckPerMove(db: Contracts, msgs: seq<Message>, c: nat)
    requires c < |db.rows|
    ensures AckedAbout(db, msgs, c) == if db.rows[c].status.HoldPending? && FirstAbout(msgs, c).Some? then 1 else 0
  {
    if msgs == [] {
    } else {
      OneAckPerMove(db, msgs[..|msgs| - 1], c);
      FirstMessageDecides(db, msgs[..|msgs| - 1], c);
    }
  }

  // No message of the batch finds a contract it could move.
  ghost predicate Spent(db: Contracts, msgs: seq<Message>) {
    forall k | 0 <= k < |msgs| && !msgs[k].subject.OtherSubject? && msgs[k].payload.About? ::
      msgs[k].payload.contract < |db.rows| ==> !db.rows[msgs[k].payload.contract].status.HoldPending?
  }

  lemma {:induction false} SpentIsIgnored(db: Contracts, msgs: seq<Message>)
    requires Spent(db, msgs)
    ensures Consume(db, msgs).0 == db
  {
    if msgs == [] {
    } else {
      SpentIsIgnored(db, msgs[..|msgs| - 1]);
    }
  }

  lemma {:induction false} ConsumedIsSpent(db: Contracts, msgs: seq<Message>)
    ensures |Consume(db, msgs).0.rows| == |db.rows|
    ensures Spent(Consume(db, msgs).0, msgs)
  {
    if msgs == [] {
    } else {
      ConsumedIsSpent(db, msgs[..|msgs| - 1]);
    }
  }

  /** Redelivery is harmless: handing over the messages of a batch a second time changes nothing. */
  lemma ReplayChangesNothing(db: Contracts, msgs: seq<Message>)
    ensures Consume(Consume(db, msgs).0, msgs).0 == Consume(db, msgs).0
  {
    ConsumedIsSpent(db, msgs);
    SpentIsIgnored(Consume(db, msgs).0, msgs);
  }

  // ----- what a batch does, from its messages and the database alone -----

  // Contract c is HOLD_PENDING when the turn of message k comes: it was, and no message before k has moved it.
  predicate Waits(db: Contracts, msgs: seq<Message>, commits: nat -> bool, k: nat, c: nat)
    requires k <= |msgs|
  {
    c < |db.rows| && db.rows[c].status.HoldPending? && forall j | 0 <= j < k :: !(commits(j) && Moves(msgs[j], c))
  }

  // The answer message k has to get.
  predicate Deserves(db: Contracts, msgs: seq<Message>, commits: nat -> bool, k: nat, verdict: Verdict)
    requires k < |msgs|
  {
    match msgs[k].payload
    case Malformed => verdict == Nak
    case NoContract => verdict == Term
    case About(c) =>
      if msgs[k].subject.OtherSubject? then verdict == Ack
      else verdict == if commits(k) && Waits(db, msgs, commits, k, c) then Ack else Nak
  }

  // An acknowledged message about contract c has moved it, and nothing else moves a contract.
  ghost predicate MovedBy(rows: seq<Contract>, rows': seq<Contract>, msgs: seq<Message>, verdicts: seq<Verdict>, c: nat)
    requires c < |rows| == |rows'| && |verdicts| == |msgs|
  {
    && (forall k | 0 <= k < |msgs| && verdicts[k].Ack? && Moves(msgs[k], c) ::
          rows'[c] == rows[c].(status := if msgs[k].subject.HeldSubject? then AwaitingAccept else Cancelled))
    && ((forall k | 0 <= k < |msgs| :: !(verdicts[k].Ack? && Moves(msgs[k], c))) ==> rows'[c] == rows[c])
  }

  // The cancellations announced by acknowledged payment.failed messages, in order.
  function Cancellations(msgs: seq<Message>, verdicts: seq<Verdict>): seq<ContractEvent>
    requires |verdicts| == |msgs|
  {
    if msgs == [] then []
    else
      var n := |msgs| - 1;
      Cancellations(msgs[..n], verdicts[..n]) +
        if verdicts[n].Ack? && msgs[n].subject.FailedSubject? && msgs[n].payload.About?
        then [ContractEvent(msgs[n].payload.contract, ContractCancelled)] else []
  }

  lemma HeardPrefix(msgs: seq<Message>, commits: nat -> bool, n: nat)
    requires n <= |msgs|
    ensures AllHeard(msgs, commits)[..n] == AllHeard(msgs[..n], commits)
  {
  }

  lemma {:induction false} FirstAboutNone(msgs: seq<Message>, commits: nat -> bool, c: nat)
    ensures FirstAbout(AllHeard(msgs, commits), c).None? <==>
            forall j | 0 <= j < |msgs| :: !(commits(j) && Moves(msgs[j], c))
  {
    if msgs == [] {
    } else {
      var n := |msgs| - 1;
      HeardPrefix(msgs, commits, n);
      FirstAboutNone(msgs[..n], commits, c);
      assert msgs[n] == msgs[|msgs| - 1];
    }
  }

  lemma {:induction false} FirstAboutSome(msgs: seq<Message>, commits: nat -> bool, c: nat) returns (k: nat)
    requires FirstAbout(AllHeard(msgs, commits), c).Some?
    ensures k < |msgs| && commits(k) && Moves(msgs[k], c)
    ensures forall j | 0 <= j < k :: !(commits(j) && Moves(msgs[j], c))
    ensures FirstAbout(AllHeard(msgs, commits), c) == Some(msgs[k].subject)
  {
    var n := |msgs| - 1;
    HeardPrefix(msgs, commits, n);
    if FirstAbout(AllHeard(msgs[..n], commits), c).Some? {
      k := FirstAboutSome(msgs[..n], commits, c);
    } else {
      FirstAboutNone(msgs[..n], commits, c);
      k := n;
    }
  }

  lemma LastGetsItsDue(db: Contracts, msgs: seq<Message>, commits: nat -> bool)
    requires msgs != []
    ensures var heard, n := AllHeard(msgs, commits), |msgs| - 1;
            Deserves(db, msgs, commits, n, Dispatch(Consume(db, heard[..n]).0, heard[n]).1)
  {
    var n := |msgs| - 1;
    assert AllHeard(msgs, commits)[n] == Heard(msgs[n], commits(n));
    HeardPrefix(msgs, commits, n);
    ConsumedIsSpent(db, AllHeard(msgs[..n], commits));
    if msgs[n].payload.About? && msgs[n].payload.contract < |db.rows| {
      var c := msgs[n].payload.contract;
      FirstMessageDecides(db, AllHeard(msgs[..n], commits), c);
      FirstAboutNone(msgs[..n], commits, c);
      assert Waits(db, msgs, commits, n, c) <==> Waits(db, msgs[..n], commits, n, c);
    }
  }

  lemma {:induction false} EachGetsItsDue(db: Contracts, msgs: seq<Message>, commits: nat -> bool)
    ensures var verdicts := Consume(db, AllHeard(msgs, commits)).1;
            |verdicts| == |msgs| && forall k | 0 <= k < |msgs| :: Deserves(db, msgs, commits, k, verdicts[k])
  {
    if msgs == [] {
    } else {
      var n := |msgs| - 1;
      var heard, verdicts := AllHeard(msgs, commits), Consume(db, AllHeard(msgs, commits)).1;
      HeardPrefix(msgs, commits, n);
      EachGetsItsDue(db, msgs[..n], commits);
      forall k | 0 <= k < n ensures Deserves(db, msgs, commits, k, verdicts[k]) {
        assert Deserves(db, msgs[..n], commits, k, verdicts[k]);
      }
      LastGetsItsDue(db, msgs, commits);
    }
  }

  lemma AckedHaveMoved(db: Contracts, msgs: seq<Message>, commits: nat -> bool, c: nat)
    requires c < |db.rows|
    ensures var (db', verdicts) := Consume(db, AllHeard(msgs, commits));
            |db'.rows| == |db.rows| && |verdicts| == |msgs| && MovedBy(db.rows, db'.rows, msgs, verdicts, c)
  {
    var heard := AllHeard(msgs, commits);
    var (db', verdicts) := Consume(db, heard);
    EachGetsItsDue(db, msgs, commits);
    FirstMessageDecides(db, heard, c);
    if FirstAbout(heard, c).Some? {
      var first := FirstAboutSome(msgs, commits, c);
      assert Deserves(db, msgs, commits, first, verdicts[first]);
      forall k | 0 <= k < |msgs| && verdicts[k].Ack? && Moves(msgs[k], c) ensures k == first && db.rows[c].status.HoldPending? {
        assert Deserves(db, msgs, commits, k, verdicts[k]);
        assert k < first || first < k || k == first;
      }
    } else {
      FirstAboutNone(msgs, commits, c);
      forall k | 0 <= k < |msgs| && Moves(msgs[k], c) ensures !verdicts[k].Ack? {
        assert Deserves(db, msgs, commits, k, verdicts[k]);
      }
    }
  }

  lemma DispatchAnnounces(db: Contracts, m: Message, commits: bool)
    ensures var (db', verdict) := Dispatch(db, Heard(m, commits));
            db'.outbox == db.outbox +
              if verdict.Ack? && m.subject.FailedSubject? && m.payload.About?
              then [ContractEvent(m.payload.contract, ContractCancelled)] else []
  {
  }

  lemma CancellationsInsert(msgs: seq<Message>, verdicts: seq<Verdict>, m: Message, verdict: Verdict)
    requires |verdicts| == |msgs|
    ensures Cancellations(msgs + [m], verdicts + [verdict]) ==
            Cancellations(msgs, verdicts) +
              if verdict.Ack? && m.subject.FailedSubject? && m.payload.About?
              then [ContractEvent(m.payload.contract, ContractCancelled)] else []
  {
    assert (msgs + [m])[..|msgs|] == msgs && (verdicts + [verdict])[..|msgs|] == verdicts;
  }

  lemma {:induction false} FailedAnnounce(db: Contracts, msgs: seq<Message>, commits: nat -> bool)
    ensures var (db', verdicts) := Consume(db, AllHeard(msgs, commits));
            |verdicts| == |msgs| && db'.outbox == db.outbox + Cancellations(msgs, verdicts)
  {
    if msgs == [] {
    } else {
      var n := |msgs| - 1;
      var (before, earlier) := Consume(db, AllHeard(msgs[..n], commits));
      var verdict := Dispatch(before, Heard(msgs[n], commits(n))).1;
      FailedAnnounce(db, msgs[..n], commits);
      HeardPrefix(msgs, commits, n);
      assert AllHeard(msgs, commits)[n] == Heard(msgs[n], commits(n));
      DispatchAnnounces(before, msgs[n], commits(n));
      CancellationsInsert(msgs[..n], earlier, msgs[n], verdict);
      assert msgs == msgs[..n] + [msgs[n]];
    }
  }

  /** What a batch does, from its messages and the database it finds: every message gets the answer it deserves, exactly the
      acknowledged ones have moved their contract and announced a cancellation, and an acknowledged payment.held message
      leaves its contract no longer waiting. */
  ghost predicate Served(db: Contracts, db': Contracts, msgs: seq<Message>, commits: nat -> bool, verdicts: seq<Verdict>) {
    && |verdicts| == |msgs| && |db'.rows| == |db.rows|
    && (forall k | 0 <= k < |msgs| :: Deserves(db, msgs, commits, k, verdicts[k]))
    && (forall c | 0 <= c < |db.rows| :: MovedBy(db.rows, db'.rows, msgs, verdicts, c))
    && (forall k | 0 <= k < |msgs| && verdicts[k].Ack? && msgs[k].subject.HeldSubject? && msgs[k].payload.About? ::
          msgs[k].payload.contract < |db'.rows| && db'.rows[msgs[k].payload.contract].status.AwaitingAccept?)
    && db'.outbox == db.outbox + Cancellations(msgs, verdicts)
  }

  lemma BatchIsServed(db: Contracts, msgs: seq<Message>, commits: nat -> bool)
    ensures Served(db, Consume(db, AllHeard(msgs, commits)).0, msgs, commits, Consume(db, AllHeard(msgs, commits)).1)
  {
    var (db', verdicts) := Consume(db, AllHeard(msgs, commits));
    EachGetsItsDue(db, msgs, commits);
    ConsumedIsSpent(db, AllHeard(msgs, commits));
    forall c | 0 <= c < |db.rows| ensures MovedBy(db.rows, db'.rows, msgs, verdicts, c) {
      AckedHaveMoved(db, msgs, commits, c);
    }
    FailedAnnounce(db, msgs, commits);
    forall k | 0 <= k < |msgs| && verdicts[k].Ack? && msgs[k].subject.HeldSubject? && msgs[k].payload.About?
      ensures msgs[k].payload.contract < |db'.rows| && db'.rows[msgs[k].payload.contract].status.AwaitingAccept?
    {
      assert Deserves(db, msgs, commits, k, verdicts[k]);
      assert Moves(msgs[k], msgs[k].payload.contract);
      assert MovedBy(db.rows, db'.rows, msgs, verdicts, msgs[k].payload.contract);
    }
  }
}
