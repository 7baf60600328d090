/** The worker itself: claiming a batch, delivering a row, and running a batch on a bounded number of slots. */
module OutboxWorker {
  import opened Entities
  import opened Outbox

  datatype Job = Job(id: nat, attempt: int, maxAttempts: int)

  /** Row r is claimable, and none of the first n claimable rows is due before it. */
  predicate EarliestOf(rows: seq<OutboxRow>, r: nat, n: nat, now: Time)
    requires n <= |rows|
  {
    && r < n && rows[r].Claimable(now)
    && forall k :: 0 <= k < n && rows[k].Claimable(now) ==> rows[r].nextRetryAt <= rows[k].nextRetryAt
  }

  predicate Has(jobs: seq<Job>, k: nat) {
    exists i :: 0 <= i < |jobs| && jobs[i].id == k
  }

  /** The jobs are distinct claimable rows as they were before, and exactly they are leased. */
  ghost predicate LeasedBatch(before: seq<OutboxRow>, after: seq<OutboxRow>, jobs: seq<Job>, now: Time) {
    && |after| == |before|
    && (forall i :: 0 <= i < |jobs| ==>
          && jobs[i].id < |before| && before[jobs[i].id].Claimable(now)
          && jobs[i] == Job(jobs[i].id, before[jobs[i].id].attempts, before[jobs[i].id].maxAttempts))
    && (forall i, j :: 0 <= i < j < |jobs| ==> jobs[i].id != jobs[j].id)
    && (forall k :: 0 <= k < |after| ==> after[k] == if Has(jobs, k) then Claimed(before[k], now) else before[k])
  }

  /** No claimable row was passed over for one due later. */
  ghost predicate EarliestFirst(before: seq<OutboxRow>, after: seq<OutboxRow>, jobs: seq<Job>, now: Time) {
    forall i, k :: 0 <= i < |jobs| && jobs[i].id < |before| && 0 <= k < |after| && after[k].Claimable(now)
                   ==> before[jobs[i].id].nextRetryAt <= after[k].nextRetryAt
  }

  lemma LeaseOneMore(before: seq<OutboxRow>, after: seq<OutboxRow>, jobs: seq<Job>, now: Time, r: nat)
    requires LeasedBatch(before, after, jobs, now) && EarliestFirst(before, after, jobs, now)
    requires EarliestOf(after, r, |after|, now)
    ensures var jobs' := jobs + [Job(r, after[r].attempts, after[r].maxAttempts)];
            var after' := after[r := Claimed(after[r], now)];
            LeasedBatch(before, after', jobs', now) && EarliestFirst(before, after', jobs', now)
  {
    assert !Has(jobs, r);
    var jobs' := jobs + [Job(r, after[r].attempts, after[r].maxAttempts)];
    assert jobs'[|jobs|].id == r;
    forall k: nat
      ensures Has(jobs', k) <==> Has(jobs, k) || k == r
    {
      if Has(jobs, k) {
        var i :| 0 <= i < |jobs| && jobs[i].id == k;
        assert jobs'[i].id == k;
      }
    }
  }

  class OutboxTable {
    var rows: seq<OutboxRow>

    constructor ()
      ensures rows == []
    {
      rows := [];
    }

    /** The earliest claimable row, if there is one. */
    method Earliest(now: Time) returns (best: Option<nat>)
      ensures best.None? <==> forall k :: 0 <= k < |rows| ==> !rows[k].Claimable(now)
      ensures best.Some? ==> EarliestOf(rows, best.value, |rows|, now)
    {
      best := None;
      for k := 0 to |rows|
        invariant best.None? <==> forall j :: 0 <= j < k ==> !rows[j].Claimable(now)
        invariant best.Some? ==> EarliestOf(rows, best.value, k, now)
      {
        if rows[k].Claimable(now) && (best.None? || rows[k].nextRetryAt < rows[best.value].nextRetryAt) {
          best := Some(k);
        }
      }
    }

    /** fetchAndClaim: the earliest claimable rows, at most ten, are leased; the others are untouched. */
    method FetchAndClaim(now: Time) returns (jobs: seq<Job>)
      modifies this
      ensures |jobs| <= 10
      ensures LeasedBatch(old(rows), rows, jobs, now) && EarliestFirst(old(rows), rows, jobs, now)
      ensures |jobs| < 10 ==> forall k :: 0 <= k < |rows| ==> !rows[k].Claimable(now)
    {
      jobs := [];
      while |jobs| < BATCH
        invariant |jobs| <= BATCH
        invariant LeasedBatch(old(rows), rows, jobs, now) && EarliestFirst(old(rows), rows, jobs, now)
        decreases BATCH - |jobs|
      {
        var best := Earliest(now);
        if best.None? { return; }
        var r := best.value;
        LeaseOneMore(old(rows), rows, jobs, now, r);
        jobs := jobs + [Job(r, rows[r].attempts, rows[r].maxAttempts)];
        rows := rows[r := Claimed(rows[r], now)];
      }
    }

    /** deliver: one post that took `took` seconds and one mark, whose five seconds began before the post;
        a refused URL is marked without a post. Only this row can change. */
    method Deliver(job: Job, result: PostResult, took: nat, dbUp: bool, now: Time)
      requires job.id < |rows| && job.maxAttempts == rows[job.id].maxAttempts
      modifies this
      ensures var row := old(rows)[job.id];
              rows == if MarkStored(row, took, dbUp) then old(rows)[job.id := Marked(row, job.attempt, result, now)]
                      else old(rows)
    {
      var row := rows[job.id];
      if !row.urlAllowed {
        if dbUp { rows := rows[job.id := MarkFailedFinal(row, now)]; }
        return;
      }
      var stored := dbUp && took < MARK_DEADLINE;
      if result == Accepted2xx {
        if stored { rows := rows[job.id := MarkDelivered(row, now)]; }
        return;
      }
      var nextAttempt := job.attempt + 1;
      if nextAttempt >= job.maxAttempts {
        if stored { rows := rows[job.id := MarkFailedFinal(row, now)]; }
        return;
      }
      if stored { rows := rows[job.id := ScheduleRetry(row, nextAttempt, now)]; }
    }
  }

  // ---------- a batch on a semaphore ----------

  /** How many slots are still taken after time t. */
  function Busy(free: seq<int>, t: int): nat {
    if free == [] then 0 else Busy(free[..|free| - 1], t) + if free[|free| - 1] > t then 1 else 0
  }

  lemma {:induction false} BusyUpdate(free: seq<int>, k: nat, x: int, t: int)
    requires k < |free|
    ensures Busy(free[k := x], t) == Busy(free, t) - (if free[k] > t then 1 else 0) + (if x > t then 1 else 0)
  {
    var n := |free| - 1;
    if k == n {
      assert free[k := x][..n] == free[..n];
    } else {
      BusyUpdate(free[..n], k, x, t);
      assert free[k := x][..n] == free[..n][k := x];
    }
  }

  lemma {:induction false} SomeSlotFree(free: seq<int>, t: int) returns (k: nat)
    requires Busy(free, t) < |free|
    ensures k < |free| && free[k] <= t
  {
    if free[|free| - 1] <= t {
      k := |free| - 1;
    } else {
      k := SomeSlotFree(free[..|free| - 1], t);
    }
  }

  lemma {:induction false} IdleSlots(free: seq<int>, t: int)
    requires forall k :: 0 <= k < |free| ==> free[k] <= t
    ensures Busy(free, t) == 0
  {
    if free != [] {
      IdleSlots(free[..|free| - 1], t);
    }
  }

  /** After i rows, at most i - q*c slots are taken beyond q rounds of length d. */
  ghost predicate Rounds(free: seq<int>, i: nat, d: int) {
    forall q: nat :: Busy(free, q * d) <= if i >= q * |free| then i - q * |free| else 0
  }

  /** The time by which i / slots rounds of length d are over. */
  function RoundStart(i: nat, slots: nat, d: int): int
    requires slots > 0
  {
    i / slots * d
  }

  lemma QuotientGrows(a: nat, q: nat, r: nat, q': nat, r': nat, c: nat)
    requires a == q * c + r && a + 1 == q' * c + r' && r < c && r' < c
    ensures q <= q'
  {
    assert (q' + 1) * c == q' * c + c;
    if q' < q {
      Scale(q' + 1, q, c);
    }
  }

  lemma RoundStartGrows(i: nat, slots: nat, d: int)
    requires slots > 0 && d >= 0 && i > 0
    ensures RoundStart(i - 1, slots, d) <= RoundStart(i, slots, d)
  {
    var a := i - 1;
    QuotientGrows(a, a / slots, a % slots, i / slots, i % slots, slots);
    Scale(a / slots, i / slots, d);
  }

  /** The slot that is freed first is free by the row's round. */
  lemma SlotByRound(free: seq<int>, i: nat, d: int, slot: nat)
    requires Rounds(free, i, d) && slot < |free| && forall j :: 0 <= j < |free| ==> free[slot] <= free[j]
    ensures free[slot] <= RoundStart(i, |free|, d)
  {
    var q := i / |free|;
    assert i == q * |free| + i % |free|;
    assert Busy(free, q * d) <= i - q * |free|;
    var k := SomeSlotFree(free, q * d);
    assert free[slot] <= free[k];
  }

  lemma TakeSlot(free: seq<int>, i: nat, d: int, k: nat, finish: int)
    requires k < |free| && Rounds(free, i, d) && d >= 0 && finish <= RoundStart(i, |free|, d) + d
    ensures Rounds(free[k := finish], i + 1, d)
  {
    var c := |free|;
    var r := i / c;
    assert (r + 1) * d == r * d + d;
    forall q: nat
      ensures Busy(free[k := finish], q * d) <= if i + 1 >= q * c then i + 1 - q * c else 0
    {
      BusyUpdate(free, k, finish, q * d);
      if q >= r + 1 {
        Scale(r + 1, q, d);
      } else {
        Scale(q, r, c);
        assert r * c <= i;
      }
    }
  }

  lemma RoundsAtStart(free: seq<int>, d: int)
    requires d >= 0 && forall k :: 0 <= k < |free| ==> free[k] == 0
    ensures Rounds(free, 0, d)
  {
    forall q: nat
      ensures Busy(free, q * d) == 0
    {
      Scale(0, q, d);
      IdleSlots(free, q * d);
    }
  }

  lemma Scale(a: nat, b: nat, x: int)
    requires a <= b && x >= 0
    ensures a * x <= b * x
  {
    assert (b - a) * x >= 0;
    assert (b - a) * x == b * x - a * x;
  }

  /** Every row so far starts by its round and ends one delivery later, in loop order. */
  ghost predicate OnTime(starts: seq<int>, durations: seq<int>, slots: nat, d: int)
    requires slots > 0 && |starts| <= |durations|
  {
    && (forall i :: 0 <= i < |starts| ==> 0 <= starts[i] <= RoundStart(i, slots, d))
    && (forall i :: 0 <= i < |starts| ==> starts[i] + durations[i] <= RoundStart(i, slots, d) + d)
    && (forall i :: 0 < i < |starts| ==> starts[i - 1] <= starts[i])
  }

  /** Every row has one of the slots, and rows on one slot follow each other. */
  ghost predicate Exclusive(starts: seq<int>, durations: seq<int>, slotOf: seq<nat>, slots: nat) {
    && |slotOf| == |starts| <= |durations|
    && (forall i :: 0 <= i < |slotOf| ==> slotOf[i] < slots)
    && (forall i, j :: 0 <= i < j < |slotOf| && slotOf[i] == slotOf[j] ==> starts[i] + durations[i] <= starts[j])
  }

  /** A slot is free again only after every row that had it. */
  ghost predicate FreedAfter(free: seq<int>, starts: seq<int>, durations: seq<int>, slotOf: seq<nat>) {
    && |slotOf| == |starts| <= |durations|
    && forall i :: 0 <= i < |slotOf| && slotOf[i] < |free| ==> starts[i] + durations[i] <= free[slotOf[i]]
  }

  /** One turn of the batch loop: wait for the slot that is freed first, and hold it for the delivery. */
  method StartNext(free: seq<int>, clock: int, i: nat, duration: int, d: int)
    returns (free': seq<int>, slot: nat, start: int)
    requires |free| > 0 && Rounds(free, i, d) && 0 <= duration <= d
    requires 0 <= clock && (i > 0 ==> clock <= RoundStart(i - 1, |free|, d)) && (i == 0 ==> clock == 0)
    ensures |free'| == |free| && Rounds(free', i + 1, d)
    ensures clock <= start <= RoundStart(i, |free|, d)
    ensures slot < |free| && free[slot] <= start && free' == free[slot := start + duration]
  {
    slot := EarliestFree(free);
    SlotByRound(free, i, d, slot);
    if i > 0 {
      RoundStartGrows(i, |free|, d);
    }
    start := if free[slot] > clock then free[slot] else clock;
    TakeSlot(free, i, d, slot, start + duration);
    free' := free[slot := start + duration];
  }

  lemma ExclusiveAppend(free: seq<int>, starts: seq<int>, durations: seq<int>, slotOf: seq<nat>, slot: nat, start: int)
    requires |starts| < |durations| && durations[|starts|] >= 0
    requires Exclusive(starts, durations, slotOf, |free|) && FreedAfter(free, starts, durations, slotOf)
    requires slot < |free| && free[slot] <= start
    ensures Exclusive(starts + [start], durations, slotOf + [slot], |free|)
    ensures FreedAfter(free[slot := start + durations[|starts|]], starts + [start], durations, slotOf + [slot])
  {
    forall i | 0 <= i < |slotOf|
      ensures slotOf[i] < |free| && starts[i] + durations[i] <= free[slotOf[i]]
    {
    }
  }

  lemma OnTimeAppend(starts: seq<int>, durations: seq<int>, slots: nat, d: int, start: int)
    requires slots > 0 && |starts| < |durations| && durations[|starts|] <= d && OnTime(starts, durations, slots, d)
    requires 0 <= start <= RoundStart(|starts|, slots, d) && (starts != [] ==> starts[|starts| - 1] <= start)
    ensures OnTime(starts + [start], durations, slots, d)
  {
  }

  /** processBatch: never more rows in delivery than slots, and row i starts within floor(i / slots) rounds of
      at most d and ends one round later. */
  method ProcessBatch(durations: seq<int>, slots: nat, d: int) returns (starts: seq<int>, slotOf: seq<nat>)
    requires slots > 0 && d >= 0 && forall i :: 0 <= i < |durations| ==> 0 <= durations[i] <= d
    ensures |starts| == |durations| && OnTime(starts, durations, slots, d)
    ensures Exclusive(starts, durations, slotOf, slots)
  {
    starts, slotOf := [], [];
    var free := seq(slots, _ => 0);
    RoundsAtStart(free, d);
    var clock := 0;
    for i := 0 to |durations|
      invariant |free| == slots && |starts| == i
      invariant Rounds(free, i, d)
      invariant if i == 0 then clock == 0 else clock == starts[i - 1]
      invariant OnTime(starts, durations, slots, d)
      invariant Exclusive(starts, durations, slotOf, slots) && FreedAfter(free, starts, durations, slotOf)
    {
      var next, slot, start := StartNext(free, clock, i, durations[i], d);
      ExclusiveAppend(free, starts, durations, slotOf, slot, start);
      OnTimeAppend(starts, durations, slots, d, start);
      free, clock := next, start;
      starts, slotOf := starts + [start], slotOf + [slot];
    }
  }

  /** Rows in delivery at one moment hold different slots. */
  lemma {:induction false} AtMostSlotsRunning(
    starts: seq<int>, durations: seq<int>, slotOf: seq<nat>, slots: nat, t: int, running: set<nat>)
    requires Exclusive(starts, durations, slotOf, slots)
    requires forall i <- running :: i < |starts| && starts[i] <= t < starts[i] + durations[i]
    ensures |running| <= slots
  {
    DistinctSlots(slotOf, running);
    SlotsBelow(set i <- running :: slotOf[i], slots);
  }

  lemma {:induction false} DistinctSlots(slotOf: seq<nat>, running: set<nat>)
    requires forall i <- running :: i < |slotOf|
    requires forall i, j :: i in running && j in running && i != j ==> slotOf[i] != slotOf[j]
    ensures |set i <- running :: slotOf[i]| == |running|
    decreases |running|
  {
    if running != {} {
      var i :| i in running;
      DistinctSlots(slotOf, running - {i});
      assert (set j <- running :: slotOf[j]) == (set j <- running - {i} :: slotOf[j]) + {slotOf[i]};
    }
  }

  lemma {:induction false} SlotsBelow(taken: set<nat>, slots: nat)
    requires forall k <- taken :: k < slots
    ensures |taken| <= slots
  {
    if slots == 0 {
      assert taken == {};
    } else {
      SlotsBelow(taken - {slots - 1}, slots - 1);
    }
  }

  method EarliestFree(free: seq<int>) returns (k: nat)
    requires free != []
    ensures k < |free| && forall j :: 0 <= j < |free| ==> free[k] <= free[j]
  {
    k := 0;
    for i := 1 to |free|
      invariant k < |free| && forall j :: 0 <= j < i ==> free[k] <= free[j]
    {
      if free[i] < free[k] {
        k := i;
      }
    }
  }

  /** A full batch of ten on five slots ends within two deliveries: inside the lease if two deliveries take
      less than the lease. */
  lemma BatchFitsLease(starts: seq<int>, durations: seq<int>, d: int, i: nat)
    requires |starts| == |durations| <= 10 && i < |starts| && 0 <= d
    requires OnTime(starts, durations, 5, d)
    ensures starts[i] + durations[i] <= 2 * d
    ensures 2 * d < 60 ==> starts[i] + durations[i] < 60
  {
  }

  // ---------- workers that deliver their batches on this schedule ----------

  /** A batch claimed at one time, as claims first, first + 1, and so on, with the schedule ProcessBatch gives it. */
  datatype Batch = Batch(at: Time, first: nat, starts: seq<int>, durations: seq<int>)

  ghost predicate Planned(b: Batch, d: int) {
    |b.starts| == |b.durations| <= BATCH && OnTime(b.starts, b.durations, SLOTS, d)
  }

  /** Claim i belongs to the batch; if it is open, its delivery began when planned, if it began, and has not
      outlasted its plan. */
  ghost predicate OnPlan(w: Workers, i: nat, b: Batch) {
    && b.first <= i < b.first + |b.starts| && |b.starts| == |b.durations| && i < |w.claims|
    && var c, start := w.claims[i], b.at + b.starts[i - b.first];
       c.Open? ==>
         && c.claimedAt == b.at && (c.began.Some? ==> c.began.value == start)
         && w.now <= start + b.durations[i - b.first]
  }

  ghost predicate HasPlan(w: Workers, i: nat, batches: seq<Batch>) {
    exists b <- batches :: OnPlan(w, i, b)
  }

  /** In every state of the run every claim is on the plan of one of the batches, of any number of workers. */
  ghost predicate Scheduled(actions: seq<WorkerAction>, batches: seq<Batch>) {
    && (actions == [] || Scheduled(actions[..|actions| - 1], batches))
    && forall i :: 0 <= i < |Run(actions).claims| ==> HasPlan(Run(actions), i, batches)
  }

  /** Batches delivered as planned, two deliveries of which take less than the lease, make a prompt run. */
  lemma {:induction false} ScheduledIsPrompt(actions: seq<WorkerAction>, batches: seq<Batch>, d: int)
    requires Scheduled(actions, batches) && 0 <= d && 2 * d < LEASE && forall b <- batches :: Planned(b, d)
    ensures Prompt(actions)
  {
    if actions != [] {
      var front, a := actions[..|actions| - 1], actions[|actions| - 1];
      ScheduledIsPrompt(front, batches, d);
      if a.Tick? {
        var w, w' := Run(front), Run(actions);
        forall i | 0 <= i < |w.claims| && w.claims[i].Open?
          ensures w.now + a.seconds < w.claims[i].claimedAt + LEASE
        {
          assert w'.claims == w.claims && HasPlan(w', i, batches);
          var b :| b in batches && OnPlan(w', i, b);
          BatchFitsLease(b.starts, b.durations, d, i - b.first);
        }
      }
    }
  }

  /** So no row is in delivery by two workers that keep to ProcessBatch's schedule. */
  lemma {:induction false} ScheduledWorkersExclude(
    actions: seq<WorkerAction>, batches: seq<Batch>, d: int, i: nat, j: nat)
    requires Scheduled(actions, batches) && 0 <= d && 2 * d < LEASE && forall b <- batches :: Planned(b, d)
    requires i < |Run(actions).claims| && j < |Run(actions).claims| && i != j
    requires Run(actions).claims[i].Open? && Run(actions).claims[j].Open?
    ensures Run(actions).claims[i].row != Run(actions).claims[j].row
  {
    ScheduledIsPrompt(actions, batches, d);
    LeaseExclusion(actions, i, j);
  }
}
