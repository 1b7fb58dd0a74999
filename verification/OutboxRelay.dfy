/** Several publishers at work on one outbox table.

    A batch stays locked from its fetch to its commit or rollback; other publishers skip locked rows.  Between
    the fetch and the commit each entry is offered to the broker on its own, and a publisher can stop anywhere. */
module OutboxRelay {
  import opened Outbox

  // `published` holds the entries of the batch whose acknowledgement this publisher has seen.
  datatype Batch = Batch(ids: seq<nat>, next: nat, published: set<nat>)

  // `stored` counts what the broker ever stored, row by row.  `repeats` counts the storings whose mark was lost:
  // the acknowledgement never came back, or the batch was rolled back after it.
  datatype Relay<E> = Relay(rows: seq<Row<E>>, batches: map<nat, Batch>, stored: multiset<nat>, repeats: multiset<nat>)

  datatype Step<E> =
    | Insert(event: E, createdAt: nat)
    | Begin(pid: nat, ids: seq<nat>)
    | Offer(pid: nat, answer: Outcome)
    | Commit(pid: nat)
    | Abort(pid: nat)

  function Locked(batches: map<nat, Batch>): set<nat> {
    set pid, k | pid in batches && 0 <= k < |batches[pid].ids| :: batches[pid].ids[k]
  }

  ghost predicate Enabled<E>(r: Relay<E>, step: Step<E>) {
    match step
    case Insert(_, _) => true
    case Begin(pid, ids) => pid !in r.batches && IsFetch(r.rows, Locked(r.batches), BATCH, ids)
    case Offer(pid, _) => pid in r.batches && r.batches[pid].next < |r.batches[pid].ids|
    case Commit(pid) => pid in r.batches && r.batches[pid].next == |r.batches[pid].ids|
    case Abort(pid) => pid in r.batches
  }

  ghost function Apply<E>(r: Relay<E>, step: Step<E>): Relay<E>
    requires Enabled(r, step)
  {
    match step
    case Insert(event, createdAt) => r.(rows := r.rows + [Row(event, createdAt, false)])
    case Begin(pid, ids) => r.(batches := r.batches[pid := Batch(ids, 0, {})])
    case Offer(pid, answer) =>
      var b := r.batches[pid];
      var e := b.ids[b.next];
      var moved := b.(next := b.next + 1);
      (match answer
       case Refused => r.(batches := r.batches[pid := moved])
       case AckLost => r.(batches := r.batches[pid := moved], stored := r.stored + multiset{e},
                          repeats := r.repeats + multiset{e})
       case Acked => r.(batches := r.batches[pid := moved.(published := b.published + {e})],
                        stored := r.stored + multiset{e}))
    case Commit(pid) => r.(rows := Mark(r.rows, r.batches[pid].published), batches := r.batches - {pid})
    case Abort(pid) => r.(batches := r.batches - {pid}, repeats := r.repeats + multiset(r.batches[pid].published))
  }

  // The entry a step hands to the broker, if it does.
  ghost predicate Stores<E>(r: Relay<E>, step: Step<E>, e: nat)
    requires Enabled(r, step)
  {
    step.Offer? && !step.answer.Refused? && e == r.batches[step.pid].ids[r.batches[step.pid].next]
  }

  ghost predicate InFlight(batches: map<nat, Batch>, e: nat) {
    exists pid :: pid in batches && e in batches[pid].published
  }

  ghost predicate BatchOk<E>(rows: seq<Row<E>>, b: Batch) {
    && b.next <= |b.ids|
    && Distinct(b.ids)
    && (forall k | 0 <= k < |b.ids| :: b.ids[k] < |rows| && !rows[b.ids[k]].published)
    && (forall e | e in b.published :: e in b.ids[..b.next])
  }

  ghost predicate DisjointBatches(batches: map<nat, Batch>) {
    forall p, q | p in batches && q in batches && p != q :: forall e | e in batches[p].ids :: e !in batches[q].ids
  }

  // Every storing is accounted for: by the mark, by an open batch that saw the acknowledgement, or as a repeat.
  ghost predicate Accounted<E>(r: Relay<E>, e: nat)
    requires e < |r.rows|
  {
    r.stored[e] == (if r.rows[e].published then 1 else 0) + (if InFlight(r.batches, e) then 1 else 0) + r.repeats[e]
  }

  ghost predicate Inv<E>(r: Relay<E>) {
    && (forall pid | pid in r.batches :: BatchOk(r.rows, r.batches[pid]))
    && DisjointBatches(r.batches)
    && (forall e | 0 <= e < |r.rows| :: Accounted(r, e))
    && (forall e | e in r.stored || e in r.repeats :: e < |r.rows|)
  }

  // An entry in flight belongs to an open batch and is not marked yet.
  lemma FlightIsOpen<E>(r: Relay<E>, e: nat)
    requires Inv(r)
    ensures InFlight(r.batches, e) ==> e < |r.rows| && !r.rows[e].published && e in Locked(r.batches)
  {
    forall pid | pid in r.batches && e in r.batches[pid].published
      ensures e < |r.rows| && !r.rows[e].published && e in Locked(r.batches)
    {
      assert BatchOk(r.rows, r.batches[pid]) && e in r.batches[pid].ids;
    }
  }

  lemma FlightOpened(batches: map<nat, Batch>, pid: nat, ids: seq<nat>, e: nat)
    requires pid !in batches
    ensures InFlight(batches[pid := Batch(ids, 0, {})], e) <==> InFlight(batches, e)
  {
    if p :| p in batches && e in batches[p].published {
      assert e in batches[pid := Batch(ids, 0, {})][p].published;
    }
  }

  lemma BeginKeepsInv<E>(r: Relay<E>, step: Step<E>)
    requires Inv(r) && step.Begin? && Enabled(r, step)
    ensures Inv(Apply(r, step))
  {
    var r' := Apply(r, step);
    forall p, e | p in r.batches && e in r.batches[p].ids ensures e in Locked(r.batches) {
      var k :| 0 <= k < |r.batches[p].ids| && r.batches[p].ids[k] == e;
    }
    forall e | 0 <= e < |r.rows| ensures Accounted(r', e) {
      assert Accounted(r, e);
      FlightOpened(r.batches, step.pid, step.ids, e);
    }
  }

  // The entry a publisher offers next is not in flight anywhere: no other batch has it, and this one is not there yet.
  lemma NextIsNotInFlight<E>(r: Relay<E>, pid: nat)
    requires Inv(r) && pid in r.batches && r.batches[pid].next < |r.batches[pid].ids|
    ensures !InFlight(r.batches, r.batches[pid].ids[r.batches[pid].next])
  {
    var b := r.batches[pid];
    var e := b.ids[b.next];
    forall p | p in r.batches ensures e !in r.batches[p].published {
      assert BatchOk(r.rows, r.batches[p]) && e in b.ids;
      if p == pid {
        assert BatchOk(r.rows, b);
        assert e !in b.ids[..b.next];
      }
    }
  }

  lemma OfferKeepsBatch<E>(rows: seq<Row<E>>, b: Batch, b': Batch)
    requires BatchOk(rows, b) && b.next < |b.ids| && b'.ids == b.ids && b'.next == b.next + 1
    requires b'.published <= b.published + {b.ids[b.next]}
    ensures BatchOk(rows, b')
  {
    assert b.ids[..b.next + 1] == b.ids[..b.next] + [b.ids[b.next]];
  }

  lemma OfferKeepsBatches<E>(r: Relay<E>, step: Step<E>)
    requires Inv(r) && step.Offer? && Enabled(r, step)
    ensures forall p | p in Apply(r, step).batches :: BatchOk(r.rows, Apply(r, step).batches[p])
    ensures Apply(r, step).batches.Keys == r.batches.Keys
    ensures forall p | p in r.batches :: Apply(r, step).batches[p].ids == r.batches[p].ids
  {
    var r' := Apply(r, step);
    OfferKeepsBatch(r.rows, r.batches[step.pid], r'.batches[step.pid]);
    forall p | p in r'.batches ensures BatchOk(r.rows, r'.batches[p]) {
      assert p != step.pid ==> r'.batches[p] == r.batches[p];
    }
  }

  lemma FlightAfter(batches: map<nat, Batch>, pid: nat, b: Batch, x: nat)
    requires pid in batches && batches[pid].published <= b.published
    ensures InFlight(batches[pid := b], x) <==> InFlight(batches, x) || x in b.published
  {
    if p :| p in batches && x in batches[p].published {
      assert x in batches[pid := b][p].published;
    } else if x in b.published {
      assert x in batches[pid := b][pid].published;
    }
  }

  lemma OfferKeepsAccounts<E>(r: Relay<E>, step: Step<E>, x: nat)
    requires Inv(r) && step.Offer? && Enabled(r, step) && x < |r.rows|
    ensures Accounted(Apply(r, step), x)
  {
    NextIsNotInFlight(r, step.pid);
    assert Accounted(r, x);
    FlightAfter(r.batches, step.pid, Apply(r, step).batches[step.pid], x);
  }

  lemma OfferKeepsInv<E>(r: Relay<E>, step: Step<E>)
    requires Inv(r) && step.Offer? && Enabled(r, step)
    ensures Inv(Apply(r, step))
  {
    OfferKeepsBatches(r, step);
    forall x | 0 <= x < |r.rows| ensures Accounted(Apply(r, step), x) {
      OfferKeepsAccounts(r, step, x);
    }
    assert BatchOk(r.rows, r.batches[step.pid]);
  }

  // Two open batches are never both in flight with the same entry.
  lemma FlightIsOwned<E>(r: Relay<E>, p: nat, q: nat, x: nat)
    requires Inv(r) && p in r.batches && q in r.batches && p != q && x in r.batches[p].published
    ensures x !in r.batches[q].published
  {
    assert BatchOk(r.rows, r.batches[p]) && x in r.batches[p].ids;
    assert x !in r.batches[q].ids;
    assert BatchOk(r.rows, r.batches[q]);
  }

  // A closing batch is the only one that had its published entries in flight.
  lemma FlightClosed<E>(r: Relay<E>, pid: nat, x: nat)
    requires Inv(r) && pid in r.batches
    ensures InFlight(r.batches - {pid}, x) <==> InFlight(r.batches, x) && x !in r.batches[pid].published
  {
    var rest := r.batches - {pid};
    if p :| p in r.batches && x in r.batches[p].published {
      assert BatchOk(r.rows, r.batches[p]) && x in r.batches[p].ids;
      if x in r.batches[pid].published {
        assert BatchOk(r.rows, r.batches[pid]) && x in r.batches[pid].ids;
        forall q | q in rest ensures x !in rest[q].published {
          FlightIsOwned(r, pid, q, x);
        }
      } else {
        assert p in rest && x in rest[p].published;
      }
    }
  }

  lemma CloseKeepsInv<E>(r: Relay<E>, step: Step<E>)
    requires Inv(r) && (step.Commit? || step.Abort?) && Enabled(r, step)
    ensures Inv(Apply(r, step))
  {
    var r', b := Apply(r, step), r.batches[step.pid];
    assert BatchOk(r.rows, b);
    forall x | x in b.published ensures x in b.ids && x < |r.rows| && !r.rows[x].published {
      assert x in b.ids[..b.next];
    }
    forall pid | pid in r'.batches ensures BatchOk(r'.rows, r'.batches[pid]) {
      assert BatchOk(r.rows, r.batches[pid]);
      forall k | 0 <= k < |r.batches[pid].ids| ensures !r'.rows[r.batches[pid].ids[k]].published {
        assert r.batches[pid].ids[k] in r.batches[pid].ids;
      }
    }
    forall x | 0 <= x < |r.rows| ensures Accounted(r', x) {
      assert Accounted(r, x);
      FlightClosed(r, step.pid, x);
      if x in b.published {
        assert InFlight(r.batches, x);
      }
    }
  }

  lemma StepKeepsInv<E>(r: Relay<E>, step: Step<E>)
    requires Inv(r) && Enabled(r, step)
    ensures Inv(Apply(r, step))
  {
    match step
    case Insert(_, _) =>
      var r' := Apply(r, step);
      assert r'.rows[..|r.rows|] == r.rows;
      forall pid | pid in r'.batches ensures BatchOk(r'.rows, r'.batches[pid]) {
        assert BatchOk(r.rows, r.batches[pid]);
      }
      forall x | 0 <= x < |r'.rows| ensures Accounted(r', x) {
        if x < |r.rows| {
          assert Accounted(r, x);
        } else {
          FlightIsOpen(r, x);
        }
      }
    case Begin(_, _) => BeginKeepsInv(r, step);
    case Offer(_, _) => OfferKeepsInv(r, step);
    case Commit(_) => CloseKeepsInv(r, step);
    case Abort(_) => CloseKeepsInv(r, step);
  }

  ghost predicate Init<E>(r: Relay<E>) {
    r == Relay([], map[], multiset{}, multiset{})
  }

  ghost predicate CanRun<E>(r: Relay<E>, steps: seq<Step<E>>)
    decreases |steps|
  {
    steps != [] ==> Enabled(r, steps[0]) && CanRun(Apply(r, steps[0]), steps[1..])
  }

  ghost function Run<E>(r: Relay<E>, steps: seq<Step<E>>): Relay<E>
    requires CanRun(r, steps)
    decreases |steps|
  {
    if steps == [] then r else Run(Apply(r, steps[0]), steps[1..])
  }

  lemma {:induction false} RunKeepsInv<E>(r: Relay<E>, steps: seq<Step<E>>)
    requires Inv(r) && CanRun(r, steps)
    ensures Inv(Run(r, steps))
    decreases |steps|
  {
    if steps == [] {
    } else {
      StepKeepsInv(r, steps[0]);
      RunKeepsInv(Apply(r, steps[0]), steps[1..]);
    }
  }

  /** Nothing is dropped or taken back: over any run, rows stay, keep their event and creation time, stay marked
      once marked, and what the broker stored it has stored. */
  lemma {:induction false} NothingIsDropped<E>(r: Relay<E>, steps: seq<Step<E>>)
    requires CanRun(r, steps)
    ensures |r.rows| <= |Run(r, steps).rows|
    ensures forall e | 0 <= e < |r.rows| ::
              && Run(r, steps).rows[e].event == r.rows[e].event
              && Run(r, steps).rows[e].createdAt == r.rows[e].createdAt
              && (r.rows[e].published ==> Run(r, steps).rows[e].published)
    ensures r.stored <= Run(r, steps).stored && r.repeats <= Run(r, steps).repeats
    decreases |steps|
  {
    if steps == [] {
    } else {
      NothingIsDropped(Apply(r, steps[0]), steps[1..]);
    }
  }

  // Without lost acknowledgements and rollbacks no entry reaches the broker twice.
  lemma {:induction false} FaultlessIsExactlyOnce<E>(r: Relay<E>, steps: seq<Step<E>>)
    requires Inv(r) && CanRun(r, steps)
    requires forall k | 0 <= k < |steps| :: !steps[k].Abort? && (steps[k].Offer? ==> !steps[k].answer.AckLost?)
    ensures Run(r, steps).repeats == r.repeats
    ensures r.repeats == multiset{} ==>
              forall e | 0 <= e < |Run(r, steps).rows| && Run(r, steps).rows[e].published ::
                Run(r, steps).stored[e] == 1
    decreases |steps|
  {
    if steps == [] {
      forall e | 0 <= e < |r.rows| && r.rows[e].published && r.repeats == multiset{} ensures r.stored[e] == 1 {
        assert Accounted(r, e);
        FlightIsOpen(r, e);
      }
    } else {
      StepKeepsInv(r, steps[0]);
      FaultlessIsExactlyOnce(Apply(r, steps[0]), steps[1..]);
    }
  }

  // ----- one publisher's tick as a run -----

  function OffersFrom<E>(pid: nat, answers: nat -> Outcome, commits: bool, k: nat, n: nat): seq<Step<E>>
    requires k <= n
    decreases n - k
  {
    if k == n then [if commits then Commit(pid) else Abort(pid)]
    else [Offer(pid, answers(k))] + OffersFrom(pid, answers, commits, k + 1, n)
  }

  // Where a tick stands before its k-th entry.
  ghost predicate Midway<E>(r: Relay<E>, pid: nat, answers: nat -> Outcome, k: nat) {
    && pid in r.batches && r.batches[pid].next == k <= |r.batches[pid].ids|
    && r.batches[pid].published == Acknowledged(r.batches[pid].ids[..k], answers)
  }

  lemma OfferMovesOn<E>(r: Relay<E>, pid: nat, answers: nat -> Outcome, k: nat)
    requires Midway(r, pid, answers, k) && k < |r.batches[pid].ids|
    ensures Enabled(r, Offer(pid, answers(k)))
    ensures var next := Apply(r, Offer(pid, answers(k)));
            && Midway(next, pid, answers, k + 1)
            && next.rows == r.rows && next.batches[pid].ids == r.batches[pid].ids
            && next.batches - {pid} == r.batches - {pid}
            && next.stored == r.stored + if answers(k).Refused? then multiset{} else multiset{r.batches[pid].ids[k]}
  {
    PrefixStep(r.batches[pid].ids, answers, k);
  }

  // What the broker stores from the k-th entry of a batch on.
  function StoredFrom(ids: seq<nat>, answers: nat -> Outcome, k: nat): multiset<nat>
    requires k <= |ids|
    decreases |ids| - k
  {
    if k == |ids| then multiset{}
    else (if answers(k).Refused? then multiset{} else multiset{ids[k]}) + StoredFrom(ids, answers, k + 1)
  }

  lemma {:induction false} StoredSplit(ids: seq<nat>, answers: nat -> Outcome, k: nat)
    requires k <= |ids|
    ensures multiset(Stored(ids, answers)) == multiset(Stored(ids[..k], answers)) + StoredFrom(ids, answers, k)
    decreases |ids| - k
  {
    if k == |ids| {
      assert ids[..k] == ids;
    } else {
      PrefixStep(ids, answers, k);
      StoredSplit(ids, answers, k + 1);
    }
  }

  // The rest of a tick, from the k-th entry of its batch to the commit or rollback.
  lemma {:induction false} OffersRun<E>(r: Relay<E>, pid: nat, answers: nat -> Outcome, commits: bool, k: nat)
    requires Midway(r, pid, answers, k)
    ensures var ids := r.batches[pid].ids;
            var steps := OffersFrom<E>(pid, answers, commits, k, |ids|);
            && CanRun(r, steps)
            && Run(r, steps).rows == (if commits then Mark(r.rows, Acknowledged(ids, answers)) else r.rows)
            && Run(r, steps).stored == r.stored + StoredFrom(ids, answers, k)
            && Run(r, steps).batches == r.batches - {pid}
    decreases |r.batches[pid].ids| - k
  {
    var ids := r.batches[pid].ids;
    var steps := OffersFrom<E>(pid, answers, commits, k, |ids|);
    if k == |ids| {
      assert ids[..k] == ids;
      assert steps[1..] == [];
    } else {
      OfferMovesOn(r, pid, answers, k);
      assert steps[0] == Offer(pid, answers(k)) && steps[1..] == OffersFrom<E>(pid, answers, commits, k + 1, |ids|);
      OffersRun(Apply(r, steps[0]), pid, answers, commits, k + 1);
    }
  }

  lemma BeginIsMidway<E>(r: Relay<E>, pid: nat, ids: seq<nat>, answers: nat -> Outcome)
    requires Enabled(r, Begin(pid, ids))
    ensures var begun := Apply(r, Begin(pid, ids));
            && Midway(begun, pid, answers, 0) && begun.batches[pid].ids == ids
            && begun.rows == r.rows && begun.stored == r.stored && begun.batches - {pid} == r.batches
  {
  }

  lemma RunFirst<E>(r: Relay<E>, step: Step<E>, rest: seq<Step<E>>)
    requires Enabled(r, step) && CanRun(Apply(r, step), rest)
    ensures CanRun(r, [step] + rest) && Run(r, [step] + rest) == Run(Apply(r, step), rest)
  {
    assert ([step] + rest)[1..] == rest;
  }

  /** The publish-then-mark loop is a run of this machine: a tick on fetched rows, committed or rolled back, marks and
      stores exactly what PublishBatch marks and stores. */
  lemma TickIsRun<E>(r: Relay<E>, pid: nat, ids: seq<nat>, answers: nat -> Outcome, commits: bool)
    requires Enabled(r, Begin(pid, ids))
    ensures var steps := [Begin(pid, ids)] + OffersFrom<E>(pid, answers, commits, 0, |ids|);
            && CanRun(r, steps)
            && Run(r, steps).rows == (if commits then Mark(r.rows, Acknowledged(ids, answers)) else r.rows)
            && Run(r, steps).stored == r.stored + multiset(Stored(ids, answers))
            && Run(r, steps).batches == r.batches
  {
    BeginIsMidway(r, pid, ids, answers);
    OffersRun(Apply(r, Begin(pid, ids)), pid, answers, commits, 0);
    StoredSplit(ids, answers, 0);
    RunFirst(r, Begin(pid, ids), OffersFrom<E>(pid, answers, commits, 0, |ids|));
  }

  // ----- a batch can always be fetched -----

  lemma OldestExists<E>(rows: seq<Row<E>>, locked: set<nat>, ids: seq<nat>, e: nat) returns (oldest: nat)
    requires Eligible(rows, locked, e) && e !in ids
    ensures Eligible(rows, locked, oldest) && oldest !in ids
    ensures forall x: nat | Eligible(rows, locked, x) && x !in ids :: rows[oldest].createdAt <= rows[x].createdAt
    decreases rows[e].createdAt
  {
    if x: nat :| Eligible(rows, locked, x) && x !in ids && rows[x].createdAt < rows[e].createdAt {
      oldest := OldestExists(rows, locked, ids, x);
    } else {
      oldest := e;
    }
  }

  lemma {:induction false} FetchExists<E>(rows: seq<Row<E>>, locked: set<nat>, limit: nat) returns (ids: seq<nat>)
    ensures IsFetch(rows, locked, limit, ids)
  {
    if limit == 0 {
      ids := [];
    } else {
      ids := FetchExists(rows, locked, limit - 1);
      if e: nat :| Eligible(rows, locked, e) && e !in ids {
        var oldest := OldestExists(rows, locked, ids, e);
        ids := ids + [oldest];
      }
    }
  }

  lemma {:induction false} FreshPid(pids: set<nat>) returns (unused: nat)
    ensures forall p | p in pids :: p < unused
    decreases pids
  {
    if pids == {} {
      unused := 0;
    } else {
      var p :| p in pids;
      unused := FreshPid(pids - {p});
      if unused <= p {
        unused := p + 1;
      }
      assert forall q | q in pids :: q == p || q in pids - {p};
    }
  }

  lemma LockedAfterBegin(batches: map<nat, Batch>, pid: nat, ids: seq<nat>)
    requires pid !in batches
    ensures forall e :: e in Locked(batches[pid := Batch(ids, 0, {})]) <==> e in Locked(batches) || e in ids
  {
    var batches' := batches[pid := Batch(ids, 0, {})];
    forall e | e in ids ensures e in Locked(batches') {
      var k :| 0 <= k < |ids| && ids[k] == e;
      assert batches'[pid].ids[k] == e;
    }
    forall e | e in Locked(batches) ensures e in Locked(batches') {
      var p, k :| p in batches && 0 <= k < |batches[p].ids| && batches[p].ids[k] == e;
      assert p in batches' && batches'[p].ids[k] == e;
    }
  }

  lemma ConcatShape<E>(first: seq<Step<E>>, second: seq<Step<E>>)
    requires first != []
    ensures (first + second)[0] == first[0] && (first + second)[1..] == first[1..] + second
  {
  }

  lemma {:induction false} RunConcat<E>(r: Relay<E>, first: seq<Step<E>>, second: seq<Step<E>>)
    requires CanRun(r, first) && CanRun(Run(r, first), second)
    ensures CanRun(r, first + second) && Run(r, first + second) == Run(Run(r, first), second)
    decreases |first|
  {
    if first == [] {
      assert first + second == second;
    } else {
      ConcatShape(first, second);
      RunConcat(Apply(r, first[0]), first[1..], second);
    }
  }

  // ----- whatever is not marked can still be published -----

  ghost predicate Publishes<E>(r: Relay<E>, r': Relay<E>, e: nat) {
    |r'.rows| == |r.rows| && e < |r'.rows| && r'.rows[e].published && r.stored[e] < r'.stored[e]
  }

  // Some continuation, without new rows, has the broker store entry e and marks it.
  ghost predicate CanPublish<E(!new)>(r: Relay<E>, e: nat) {
    exists steps :: CanRun(r, steps) && Publishes(r, Run(r, steps), e)
  }

  lemma PublishesAfter<E(!new)>(r: Relay<E>, first: seq<Step<E>>, e: nat)
    requires CanRun(r, first) && CanPublish(Run(r, first), e)
    requires |Run(r, first).rows| == |r.rows| && r.stored[e] <= Run(r, first).stored[e]
    ensures CanPublish(r, e)
  {
    var mid := Run(r, first);
    var second :| CanRun(mid, second) && Publishes(mid, Run(mid, second), e);
    RunConcat(r, first, second);
    assert CanRun(r, first + second) && Publishes(r, Run(r, first + second), e);
  }

  // One faultless tick on a fetched batch.
  function Tick<E>(pid: nat, ids: seq<nat>): seq<Step<E>> {
    [Begin(pid, ids)] + OffersFrom<E>(pid, _ => Acked, true, 0, |ids|)
  }

  lemma TickPublishes<E>(r: Relay<E>, pid: nat, ids: seq<nat>)
    requires Enabled(r, Begin(pid, ids))
    ensures CanRun(r, Tick<E>(pid, ids))
    ensures var r' := Run(r, Tick<E>(pid, ids));
            r'.rows == Mark(r.rows, Ids(ids)) && r'.stored == r.stored + multiset(ids) && r'.batches == r.batches
  {
    var answers: nat -> Outcome := _ => Acked;
    AllAcknowledged(ids, answers);
    TickIsRun(r, pid, ids, answers, true);
  }

  function Waiting<E>(rows: seq<Row<E>>, locked: set<nat>): set<nat> {
    set e | 0 <= e < |rows| && Eligible(rows, locked, e)
  }

  lemma MarkedWaitNoMore<E>(rows: seq<Row<E>>, locked: set<nat>, ids: seq<nat>)
    requires IsFetch(rows, locked, BATCH, ids)
    ensures Waiting(Mark(rows, Ids(ids)), locked) == Waiting(rows, locked) - Ids(ids)
    ensures Ids(ids) <= Waiting(rows, locked)
  {
    forall e | e in ids ensures e in Waiting(rows, locked) {
      assert Eligible(rows, locked, e);
    }
  }

  // An entry nobody has locked comes up in some batch.
  lemma {:induction false} WaitingCanPublish<E(!new)>(r: Relay<E>, e: nat)
    requires e in Waiting(r.rows, Locked(r.batches))
    ensures CanPublish(r, e)
    decreases Waiting(r.rows, Locked(r.batches))
  {
    var pid := FreshPid(r.batches.Keys);
    var ids := FetchExists(r.rows, Locked(r.batches), BATCH);
    var steps := Tick<E>(pid, ids);
    TickPublishes(r, pid, ids);
    var r' := Run(r, steps);
    if e in ids {
      assert Publishes(r, r', e);
    } else {
      assert |ids| == BATCH && ids[0] in Ids(ids);
      MarkedWaitNoMore(r.rows, Locked(r.batches), ids);
      WaitingCanPublish(r', e);
      PublishesAfter(r, steps, e);
    }
  }

  // An entry in an open batch is free again when that batch is given up.
  lemma AbortFrees<E>(r: Relay<E>, pid: nat, e: nat)
    requires Inv(r) && e < |r.rows| && !r.rows[e].published && pid in r.batches && e in r.batches[pid].ids
    ensures e in Waiting(r.rows, Locked(r.batches - {pid}))
  {
    var rest := r.batches - {pid};
    forall q, j | q in rest && 0 <= j < |rest[q].ids| ensures rest[q].ids[j] != e {
      assert rest[q].ids[j] in r.batches[q].ids;
    }
    assert e !in Locked(rest);
  }

  lemma UnmarkedCanPublish<E(!new)>(r: Relay<E>, e: nat)
    requires Inv(r) && e < |r.rows| && !r.rows[e].published
    ensures CanPublish(r, e)
  {
    if e in Locked(r.batches) {
      var pid, k :| pid in r.batches && 0 <= k < |r.batches[pid].ids| && r.batches[pid].ids[k] == e;
      var r' := Apply(r, Abort(pid));
      AbortFrees(r, pid, e);
      WaitingCanPublish(r', e);
      var first: seq<Step<E>> := [Abort(pid)];
      assert first[1..] == [] && Run(r, first) == r';
      PublishesAfter(r, first, e);
    } else {
      WaitingCanPublish(r, e);
    }
  }

  /** At least once, and how often exactly: over any run of any number of publishers, with failing publishes,
      lost acknowledgements, rollbacks and stops, a marked entry was stored by the broker, an entry that is not
      marked can still be stored and marked, and an entry is stored twice only if an acknowledgement or a commit was
      lost after storing it. */
  lemma AtLeastOnce<E(!new)>(r: Relay<E>, steps: seq<Step<E>>, e: nat)
    requires Init(r) && CanRun(r, steps) && e < |Run(r, steps).rows|
    ensures var end := Run(r, steps);
            && (end.rows[e].published ==> e in end.stored)
            && (!end.rows[e].published ==> CanPublish(end, e))
            && end.repeats[e] <= end.stored[e] <= end.repeats[e] + 1
            && DisjointBatches(end.batches)
  {
    RunKeepsInv(r, steps);
    var end := Run(r, steps);
    assert Accounted(end, e);
    FlightIsOpen(end, e);
    if !end.rows[e].published {
      UnmarkedCanPublish(end, e);
    }
  }
}
