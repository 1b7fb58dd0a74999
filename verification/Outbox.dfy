/** The transactional outbox shared by the payments and contracts services.

    A row is inserted in the transaction that makes the change it announces.  A publisher repeatedly locks a
    batch of unpublished rows, offers each to the broker, marks those the broker acknowledged and commits.
    Rows are never deleted, so a row is named by its position in the table. */
module Outbox {
  import opened Wrappers

  datatype Row<+E> = Row(event: E, createdAt: nat, published: bool)

  // What one publish call can do: the broker stores the event and says so, stores it but the answer is lost
  // (the publisher sees an error), or does not store it.
  datatype Outcome = Acked | AckLost | Refused

  const BATCH: nat := 100

  predicate Eligible<E>(rows: seq<Row<E>>, locked: set<nat>, e: nat) {
    e < |rows| && !rows[e].published && e !in locked
  }

  predicate Distinct(ids: seq<nat>) {
    forall j, k | 0 <= j < k < |ids| :: ids[j] != ids[k]
  }

  predicate InOrder<E>(rows: seq<Row<E>>, ids: seq<nat>)
    requires forall k | 0 <= k < |ids| :: ids[k] < |rows|
  {
    forall j, k | 0 <= j < k < |ids| :: rows[ids[j]].createdAt <= rows[ids[k]].createdAt
  }

  // An answer to: unpublished rows nobody else has locked, oldest first, at most `limit` of them.
  // Rows with equal creation times may come in any order.
  ghost predicate IsFetch<E>(rows: seq<Row<E>>, locked: set<nat>, limit: nat, ids: seq<nat>) {
    && |ids| <= limit
    && (forall k | 0 <= k < |ids| :: Eligible(rows, locked, ids[k]))
    && Distinct(ids)
    && InOrder(rows, ids)
    && (forall e: nat | Eligible(rows, locked, e) && e !in ids ::
          |ids| == limit && forall k | 0 <= k < |ids| :: rows[ids[k]].createdAt <= rows[e].createdAt)
  }

  function Mark<E>(rows: seq<Row<E>>, ids: set<nat>): (marked: seq<Row<E>>)
    ensures |marked| == |rows|
  {
    seq(|rows|, e requires 0 <= e < |rows| => if e in ids then rows[e].(published := true) else rows[e])
  }

  function Ids(batch: seq<nat>): set<nat> {
    set id | id in batch
  }

  // The rows of a batch that the broker stored, in the order it stored them.
  function Stored(batch: seq<nat>, answers: nat -> Outcome): seq<nat> {
    if batch == [] then []
    else
      var n := |batch| - 1;
      Stored(batch[..n], answers) + if answers(n).Refused? then [] else [batch[n]]
  }

  function Acknowledged(batch: seq<nat>, answers: nat -> Outcome): set<nat> {
    set k | 0 <= k < |batch| && answers(k).Acked? :: batch[k]
  }

  lemma PrefixStep(batch: seq<nat>, answers: nat -> Outcome, k: nat)
    requires k < |batch|
    ensures Stored(batch[..k + 1], answers) ==
            Stored(batch[..k], answers) + if answers(k).Refused? then [] else [batch[k]]
    ensures Acknowledged(batch[..k + 1], answers) ==
            Acknowledged(batch[..k], answers) + if answers(k).Acked? then {batch[k]} else {}
  {
    assert batch[..k + 1][..k] == batch[..k];
  }

  // What the broker acknowledged it also stored, so only stored entries are ever marked.
  lemma {:induction false} AcknowledgedIsStored(batch: seq<nat>, answers: nat -> Outcome)
    ensures forall id | id in Acknowledged(batch, answers) :: id in Stored(batch, answers)
    ensures forall id | id in Stored(batch, answers) :: id in batch
  {
    if batch == [] {
    } else {
      var n := |batch| - 1;
      AcknowledgedIsStored(batch[..n], answers);
      PrefixStep(batch, answers, n);
      assert batch[..n + 1] == batch;
    }
  }

  // The broker stores exactly what it does not refuse.
  lemma {:induction false} StoredUnlessRefused(batch: seq<nat>, answers: nat -> Outcome)
    requires Distinct(batch)
    ensures forall id | id in Stored(batch, answers) :: id in batch
    ensures forall k | 0 <= k < |batch| :: batch[k] in Stored(batch, answers) <==> !answers(k).Refused?
  {
    if batch == [] {
    } else {
      var n := |batch| - 1;
      var before := batch[..n];
      StoredUnlessRefused(before, answers);
      forall k | 0 <= k < n ensures batch[k] in Stored(batch, answers) <==> !answers(k).Refused? {
        assert before[k] == batch[k] && batch[k] != batch[n];
      }
    }
  }

  // Rows of the table, each once, oldest first.
  predicate Ordered<E>(rows: seq<Row<E>>, ids: seq<nat>) {
    (forall k | 0 <= k < |ids| :: ids[k] < |rows|) && Distinct(ids) && InOrder(rows, ids)
  }

  lemma PrefixIsOrdered<E>(rows: seq<Row<E>>, ids: seq<nat>, n: nat)
    requires Ordered(rows, ids) && n <= |ids|
    ensures Ordered(rows, ids[..n])
  {
  }

  lemma InsertKeepsOrder<E>(rows: seq<Row<E>>, ids: seq<nat>, id: nat)
    requires Ordered(rows, ids) && id < |rows| && id !in ids
    requires forall k | 0 <= k < |ids| :: rows[ids[k]].createdAt <= rows[id].createdAt
    ensures Ordered(rows, ids + [id])
  {
  }

  lemma LastIsLatest<E>(rows: seq<Row<E>>, batch: seq<nat>, ids: seq<nat>)
    requires batch != [] && Ordered(rows, batch)
    requires forall k | 0 <= k < |ids| :: ids[k] in batch[..|batch| - 1]
    ensures batch[|batch| - 1] !in ids
    ensures forall k | 0 <= k < |ids| :: ids[k] < |rows| && rows[ids[k]].createdAt <= rows[batch[|batch| - 1]].createdAt
  {
    forall k | 0 <= k < |ids|
      ensures ids[k] != batch[|batch| - 1] && ids[k] < |rows| && rows[ids[k]].createdAt <= rows[batch[|batch| - 1]].createdAt
    {
      var j :| 0 <= j < |batch| - 1 && batch[..|batch| - 1][j] == ids[k];
      assert batch[j] == ids[k];
    }
  }

  // It stores each entry once, in the order of the batch.
  lemma {:induction false} StoredInOrder<E>(rows: seq<Row<E>>, batch: seq<nat>, answers: nat -> Outcome)
    requires Ordered(rows, batch)
    ensures Ordered(rows, Stored(batch, answers))
    ensures forall k | 0 <= k < |Stored(batch, answers)| :: Stored(batch, answers)[k] in batch
  {
    StoredUnlessRefused(batch, answers);
    if batch == [] {
    } else {
      var n := |batch| - 1;
      var earlier := Stored(batch[..n], answers);
      PrefixIsOrdered(rows, batch, n);
      StoredInOrder(rows, batch[..n], answers);
      LastIsLatest(rows, batch, earlier);
      InsertKeepsOrder(rows, earlier, batch[n]);
    }
  }

  // When the broker acknowledges everything, it stores the batch in order.
  lemma {:induction false} AllAcknowledged(batch: seq<nat>, answers: nat -> Outcome)
    requires forall k | 0 <= k < |batch| :: answers(k).Acked?
    ensures Stored(batch, answers) == batch
    ensures Acknowledged(batch, answers) == Ids(batch)
  {
    if batch == [] {
    } else {
      var n := |batch| - 1;
      AllAcknowledged(batch[..n], answers);
      assert batch == batch[..n] + [batch[n]];
    }
    forall id ensures id in Acknowledged(batch, answers) <==> id in Ids(batch) {
      if id in Ids(batch) {
        var k :| 0 <= k < |batch| && batch[k] == id;
        assert answers(k).Acked?;
      }
    }
  }

  lemma MarkNothing<E>(rows: seq<Row<E>>, ids: set<nat>)
    requires ids == {}
    ensures Mark(rows, ids) == rows
  {
  }

  class OutboxTable<E> {
    var rows: seq<Row<E>>

    constructor ()
      ensures rows == []
    {
      rows := [];
    }

    method Insert(event: E, createdAt: nat)
      modifies this
      ensures rows == old(rows) + [Row(event, createdAt, false)]
    {
      rows := rows + [Row(event, createdAt, false)];
    }

    // The scan behind ORDER BY created_at: the oldest eligible row that is not among `ids`.
    method Oldest(locked: set<nat>, ids: seq<nat>) returns (found: Option<nat>)
      ensures found.None? ==> forall e: nat | Eligible(rows, locked, e) :: e in ids
      ensures found.Some? ==> Eligible(rows, locked, found.value) && found.value !in ids
      ensures found.Some? ==> forall e: nat | Eligible(rows, locked, e) && e !in ids ::
                rows[found.value].createdAt <= rows[e].createdAt
    {
      found := None;
      var i := 0;
      while i < |rows|
        invariant i <= |rows|
        invariant found.None? ==> forall e: nat | Eligible(rows, locked, e) && e < i :: e in ids
        invariant found.Some? ==> Eligible(rows, locked, found.value) && found.value !in ids
        invariant found.Some? ==> forall e: nat | Eligible(rows, locked, e) && e < i && e !in ids ::
                    rows[found.value].createdAt <= rows[e].createdAt
      {
        if !rows[i].published && i !in locked && i !in ids {
          if found.None? || rows[i].createdAt < rows[found.value].createdAt {
            found := Some(i);
          }
        }
        i := i + 1;
      }
    }

    method FetchUnpublished(locked: set<nat>, limit: nat) returns (ids: seq<nat>)
      ensures IsFetch(rows, locked, limit, ids)
    {
      ids := [];
      while |ids| < limit
        invariant |ids| <= limit
        invariant IsFetch(rows, locked, |ids|, ids)
        decreases limit - |ids|
      {
        var next := Oldest(locked, ids);
        if next.None? {
          return;
        }
        ids := ids + [next.value];
      }
    }

    method MarkPublished(ids: seq<nat>)
      modifies this
      ensures rows == Mark(old(rows), Ids(ids))
      ensures |rows| == |old(rows)|
      ensures forall e | 0 <= e < |rows| :: rows[e] == old(rows)[e].(published := old(rows)[e].published || e in ids)
    {
      var i := 0;
      while i < |rows|
        invariant i <= |rows| == |old(rows)|
        invariant forall e | 0 <= e < |rows| ::
                    rows[e] == if e < i && e in ids then old(rows)[e].(published := true) else old(rows)[e]
      {
        if i in ids {
          rows := rows[i := rows[i].(published := true)];
        }
        i := i + 1;
      }
    }

    // The publish loop: offers every entry, keeps going after a failure and collects what was acknowledged.
    static method PublishEach(batch: seq<nat>, answers: nat -> Outcome)
      returns (stored: seq<nat>, published: seq<nat>)
      ensures stored == Stored(batch, answers)
      ensures Ids(published) == Acknowledged(batch, answers)
    {
      stored, published := [], [];
      for k := 0 to |batch|
        invariant stored == Stored(batch[..k], answers)
        invariant Ids(published) == Acknowledged(batch[..k], answers)
      {
        PrefixStep(batch, answers, k);
        match answers(k)
        case Refused =>
        case AckLost =>
          stored := stored + [batch[k]];
        case Acked =>
          stored := stored + [batch[k]];
          published := published + [batch[k]];
      }
      assert batch[..|batch|] == batch;
    }

    // One tick of a publisher.  `locked` are the rows other publishers hold, `answers(k)` is what the broker
    // does with the k-th entry, `commits` says whether the final commit succeeds.
    method PublishBatch(locked: set<nat>, answers: nat -> Outcome, commits: bool)
      returns (batch: seq<nat>, stored: seq<nat>, ok: bool)
      modifies this
      ensures IsFetch(old(rows), locked, 100, batch)
      ensures stored == Stored(batch, answers)
      ensures rows == if commits then Mark(old(rows), Acknowledged(batch, answers)) else old(rows)
      ensures |rows| == |old(rows)|
      ensures forall e | 0 <= e < |rows| :: rows[e] == old(rows)[e].(published :=
                old(rows)[e].published || (commits && exists k :: 0 <= k < |batch| && batch[k] == e && answers(k).Acked?))
      ensures forall k | 0 <= k < |batch| :: batch[k] in stored <==> !answers(k).Refused?
      ensures Ordered(old(rows), stored) && forall k | 0 <= k < |stored| :: stored[k] in batch
      ensures ok <==> commits || batch == []
      ensures forall e | 0 <= e < |rows| && rows[e].published && !old(rows)[e].published :: e in stored
    {
      stored := [];
      batch := FetchUnpublished(locked, BATCH);
      if |batch| == 0 {
        ok := true;
        MarkNothing(rows, Acknowledged(batch, answers));
        return;
      }
      var saved := rows;
      StoredUnlessRefused(batch, answers);
      StoredInOrder(rows, batch, answers);
      var published: seq<nat>;
      stored, published := PublishEach(batch, answers);
      AcknowledgedIsStored(batch, answers);
      if |published| > 0 {
        MarkPublished(published);
      } else {
        MarkNothing(rows, Acknowledged(batch, answers));
      }
      if !commits {
        rows := saved;
      }
      ok := commits;
    }
  }
}
