/** How fast and in which order a single publisher empties the outbox when nothing fails. */
module OutboxDrain {
  import opened Outbox

  function Pending<E>(rows: seq<Row<E>>): set<nat> {
    set e | 0 <= e < |rows| && !rows[e].published
  }

  // Successive batches of one publisher, all acknowledged and committed, with no inserts in between.
  ghost predicate Drains<E>(tables: seq<seq<Row<E>>>, batches: seq<seq<nat>>) {
    && |tables| == |batches| + 1
    && (forall k | 0 <= k < |batches| :: IsFetch(tables[k], {}, BATCH, batches[k]))
    && (forall k | 0 <= k < |batches| :: tables[k + 1] == Mark(tables[k], Ids(batches[k])))
  }

  function Flatten(batches: seq<seq<nat>>): seq<nat> {
    if batches == [] then [] else batches[0] + Flatten(batches[1..])
  }

  lemma {:induction false} DistinctCount(ids: seq<nat>)
    requires Distinct(ids)
    ensures |Ids(ids)| == |ids|
  {
    if ids == [] {
    } else {
      var n := |ids| - 1;
      DistinctCount(ids[..n]);
      assert Ids(ids) == Ids(ids[..n]) + {ids[n]};
    }
  }

  lemma OneBatch<E>(rows: seq<Row<E>>, batch: seq<nat>)
    requires IsFetch(rows, {}, BATCH, batch)
    ensures Pending(Mark(rows, Ids(batch))) == Pending(rows) - Ids(batch)
    ensures Ids(batch) <= Pending(rows)
    ensures |Pending(Mark(rows, Ids(batch)))| == if |Pending(rows)| <= BATCH then 0 else |Pending(rows)| - BATCH
  {
    DistinctCount(batch);
    forall e | e in Ids(batch) ensures e in Pending(rows) {
      assert Eligible(rows, {}, e);
    }
    var left := Pending(rows) - Ids(batch);
    assert Pending(rows) == left + Ids(batch);
    if e :| e in left {
      assert Eligible(rows, {}, e) && e !in batch;
      assert |batch| == BATCH && |left| > 0;
    }
  }

  /** The drain bound: with n unpublished rows, the k-th batch leaves max(0, n - 100k), so the table is clean after
      exactly the rounded-up n/100 batches and not before. */
  lemma {:induction false} DrainBound<E>(tables: seq<seq<Row<E>>>, batches: seq<seq<nat>>, k: nat)
    requires Drains(tables, batches) && k <= |batches|
    ensures |Pending(tables[k])| ==
            if |Pending(tables[0])| <= 100 * k then 0 else |Pending(tables[0])| - 100 * k
    ensures Pending(tables[k]) == {} <==> (|Pending(tables[0])| + 99) / 100 <= k
  {
    if k == 0 {
    } else {
      DrainBound(tables, batches, k - 1);
      OneBatch(tables[k - 1], batches[k - 1]);
    }
  }

  // Unpublished rows, each once, oldest first.
  ghost predicate Sweep<E>(rows: seq<Row<E>>, ids: seq<nat>) {
    && (forall k | 0 <= k < |ids| :: ids[k] in Pending(rows))
    && Distinct(ids)
    && InOrder(rows, ids)
  }

  // A batch followed by a sweep of what it leaves is a sweep.
  lemma JoinBatch<E>(rows: seq<Row<E>>, first: seq<nat>, rest: seq<nat>)
    requires IsFetch(rows, {}, BATCH, first)
    requires Sweep(Mark(rows, Ids(first)), rest)
    ensures Sweep(rows, first + rest)
  {
    OneBatch(rows, first);
    forall k | 0 <= k < |first| ensures first[k] in Pending(rows) {
      assert first[k] in Ids(first);
    }
    forall k | 0 <= k < |rest| ensures rest[k] in Pending(rows) && rest[k] !in first {
      assert rest[k] in Pending(rows) - Ids(first);
    }
    forall j, k | 0 <= j < |first| && 0 <= k < |rest| ensures rows[first[j]].createdAt <= rows[rest[k]].createdAt {
      assert Eligible(rows, {}, rest[k]);
    }
    assert InOrder(rows, rest);
    assert InOrder(rows, first);
  }

  lemma DrainsTail<E>(tables: seq<seq<Row<E>>>, batches: seq<seq<nat>>)
    requires Drains(tables, batches) && batches != []
    ensures Drains(tables[1..], batches[1..])
    ensures tables[1..][0] == tables[1] == Mark(tables[0], Ids(batches[0]))
    ensures tables[1..][|batches[1..]|] == tables[|batches|]
    ensures IsFetch(tables[0], {}, BATCH, batches[0])
  {
  }

  /** Order: what such batches hold, one after the other, is rows that were unpublished, once each, oldest first. */
  lemma {:induction false} DrainOrder<E>(tables: seq<seq<Row<E>>>, batches: seq<seq<nat>>)
    requires Drains(tables, batches)
    ensures Sweep(tables[0], Flatten(batches))
  {
    if batches == [] {
    } else {
      DrainsTail(tables, batches);
      DrainOrder(tables[1..], batches[1..]);
      JoinBatch(tables[0], batches[0], Flatten(batches[1..]));
    }
  }

  lemma IdsConcat(a: seq<nat>, b: seq<nat>)
    ensures Ids(a + b) == Ids(a) + Ids(b)
  {
    forall id | id in Ids(a) + Ids(b) ensures id in a + b {
      assert id in a || id in b;
    }
  }

  lemma Telescope(all: set<nat>, first: set<nat>, left: set<nat>, rest: set<nat>, end: set<nat>)
    requires first <= all && left == all - first && end <= left && rest == left - end
    ensures end <= all && first + rest == all - end
  {
  }

  /** Completeness: those rows are exactly the ones that are no longer unpublished. */
  lemma {:induction false} DrainComplete<E>(tables: seq<seq<Row<E>>>, batches: seq<seq<nat>>)
    requires Drains(tables, batches)
    ensures Pending(tables[|batches|]) <= Pending(tables[0])
    ensures Ids(Flatten(batches)) == Pending(tables[0]) - Pending(tables[|batches|])
  {
    if batches == [] {
      assert Ids(Flatten(batches)) == {};
    } else {
      DrainsTail(tables, batches);
      OneBatch(tables[0], batches[0]);
      DrainComplete(tables[1..], batches[1..]);
      IdsConcat(batches[0], Flatten(batches[1..]));
      Telescope(Pending(tables[0]), Ids(batches[0]), Pending(tables[1]), Ids(Flatten(batches[1..])),
                Pending(tables[|batches|]));
    }
  }

  // ----- the publisher that does it -----

  lemma {:induction false} FlattenInsert(batches: seq<seq<nat>>, batch: seq<nat>)
    ensures Flatten(batches + [batch]) == Flatten(batches) + batch
  {
    if batches == [] {
      assert Flatten([batch]) == batch + Flatten([batch][1..]);
    } else {
      FlattenInsert(batches[1..], batch);
      assert (batches + [batch])[1..] == batches[1..] + [batch];
    }
  }

  lemma DrainsOneMore<E>(tables: seq<seq<Row<E>>>, batches: seq<seq<nat>>, batch: seq<nat>)
    requires Drains(tables, batches) && IsFetch(tables[|batches|], {}, BATCH, batch)
    ensures Drains(tables + [Mark(tables[|batches|], Ids(batch))], batches + [batch])
  {
  }

  lemma {:induction false} DrainMarks<E>(tables: seq<seq<Row<E>>>, batches: seq<seq<nat>>)
    requires Drains(tables, batches)
    ensures tables[|batches|] == Mark(tables[0], Ids(Flatten(batches)))
  {
    if batches == [] {
      assert Ids(Flatten(batches)) == {};
    } else {
      DrainsTail(tables, batches);
      DrainMarks(tables[1..], batches[1..]);
      IdsConcat(batches[0], Flatten(batches[1..]));
    }
  }

  lemma DrainResult<E>(tables: seq<seq<Row<E>>>, batches: seq<seq<nat>>)
    requires Drains(tables, batches)
    ensures var rows, rows', stored, n := tables[0], tables[|batches|], Flatten(batches), |Pending(tables[0])|;
            && Sweep(rows, stored) && rows' == Mark(rows, Ids(stored)) && Ids(stored) == Pending(rows) - Pending(rows')
            && |Pending(rows')| == (if n <= 100 * |batches| then 0 else n - 100 * |batches|)
            && (Pending(rows') == {} <==> (n + 99) / 100 <= |batches|)
  {
    DrainOrder(tables, batches);
    DrainComplete(tables, batches);
    DrainMarks(tables, batches);
    DrainBound(tables, batches, |batches|);
  }

  /** Run, as long as nothing fails and nothing is inserted: `ticks` firings of the publisher's ticker.  The broker stores
      rows that were unpublished, once each, oldest first; exactly these are marked; and nothing is left unpublished
      from the rounded-up n/100-th firing on, and not before. */
  method RunWithoutFaults<E>(table: OutboxTable<E>, ticks: nat) returns (stored: seq<nat>)
    modifies table
    ensures Sweep(old(table.rows), stored)
    ensures table.rows == Mark(old(table.rows), Ids(stored))
    ensures Ids(stored) == Pending(old(table.rows)) - Pending(table.rows)
    ensures |Pending(table.rows)| ==
            if |Pending(old(table.rows))| <= 100 * ticks then 0 else |Pending(old(table.rows))| - 100 * ticks
    ensures Pending(table.rows) == {} <==> (|Pending(old(table.rows))| + 99) / 100 <= ticks
  {
    stored := [];
    ghost var tables, batches: seq<seq<nat>> := [table.rows], [];
    for tick := 0 to ticks
      invariant |batches| == tick && Drains(tables, batches)
      invariant tables[0] == old(table.rows) && tables[tick] == table.rows
      invariant stored == Flatten(batches)
    {
      var answers: nat -> Outcome := _ => Acked;
      var batch, sent, _ := table.PublishBatch({}, answers, true);
      AllAcknowledged(batch, answers);
      DrainsOneMore(tables, batches, batch);
      FlattenInsert(batches, batch);
      tables, batches, stored := tables + [table.rows], batches + [batch], stored + sent;
    }
    DrainResult(tables, batches);
  }
}
