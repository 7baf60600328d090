/** Outbox rows under any number of workers: claims by lease, deliveries, retries, crashes and marks that
    are not stored. Times are whole seconds. */
module Outbox {
  import opened Entities

  const LEASE := 60
  const BATCH := 10
  const SLOTS := 5
  const MARK_DEADLINE := 5

  datatype OutboxRow = OutboxRow(
    attempts: int, maxAttempts: int, nextRetryAt: Time,
    deliveredAt: Option<Time>, failedAt: Option<Time>, urlAllowed: bool)
  {
    /** The worker's claim predicate: it does not look at failed_at. */
    predicate Claimable(now: Time) {
      deliveredAt == None && attempts < maxAttempts && nextRetryAt <= now
    }

    /** LeaseOutboxEvents' predicate. */
    predicate Leasable(now: Time) {
      deliveredAt == None && failedAt == None && nextRetryAt <= now && attempts < maxAttempts
    }

    predicate Settled() {
      deliveredAt.Some? || failedAt.Some?
    }
  }

  function Backoff(attempt: int): int {
    attempt * attempt * 10
  }

  function Claimed(row: OutboxRow, now: Time): OutboxRow {
    row.(nextRetryAt := now + LEASE)
  }

  /** chk_attempt_count makes the update fail when the counter would pass the maximum. */
  function MarkDelivered(row: OutboxRow, now: Time): OutboxRow {
    if row.attempts + 1 <= row.maxAttempts then row.(deliveredAt := Some(now), attempts := row.attempts + 1) else row
  }

  function MarkFailedFinal(row: OutboxRow, now: Time): OutboxRow {
    row.(attempts := row.maxAttempts, failedAt := Some(now))
  }

  function ScheduleRetry(row: OutboxRow, attempt: int, now: Time): OutboxRow {
    row.(attempts := attempt, nextRetryAt := now + Backoff(attempt))
  }

  datatype PostResult = Accepted2xx | Rejected

  /** The mark `deliver` makes, given the attempt count it read when it claimed the row. */
  function Marked(row: OutboxRow, attempt: int, result: PostResult, now: Time): OutboxRow {
    if !row.urlAllowed then MarkFailedFinal(row, now)
    else if result == Accepted2xx then MarkDelivered(row, now)
    else if attempt + 1 >= row.maxAttempts then MarkFailedFinal(row, now)
    else ScheduleRetry(row, attempt + 1, now)
  }

  /** The mark is stored if the database answers and, after a post, its deadline has not passed: the deadline starts
      before the post. */
  predicate MarkStored(row: OutboxRow, took: int, dbUp: bool) {
    dbUp && (row.urlAllowed ==> took < MARK_DEADLINE)
  }

  // ---------- the step machine ----------

  /** A row in some worker's hands, with the attempt count it was claimed at. Its delivery begins when it has a slot. */
  datatype Claim = Open(row: nat, attempt: int, claimedAt: Time, began: Option<Time>) | Closed

  /** History of a row: posts sent, failed posts recorded; of the posts whose result was never stored, those answered
      after the deadline, those the database dropped, and those whose worker died; the backoff scheduled so far, and
      whether its URL was refused. */
  datatype History = History(
    posts: nat, recorded: nat, late: nat, dropped: nat, crashed: nat, scheduled: int, refused: bool)

  const Fresh := History(0, 0, 0, 0, 0, 0, false)

  datatype Workers = Workers(now: Time, rows: seq<OutboxRow>, claims: seq<Claim>, history: seq<History>)

  const Idle := Workers(0, [], [], [])

  datatype WorkerAction =
    | Insert(maxAttempts: nat, urlAllowed: bool)
    | Tick(seconds: nat)
    | Take(row: nat)
    | Begin(i: nat)
    | Resolve(i: nat, result: PostResult, dbUp: bool)
    | Die(i: nat, posted: bool)

  /** The history of a row after one delivery by a worker. */
  function Noted(h: History, row: OutboxRow, attempt: int, result: PostResult, took: int, dbUp: bool): History {
    if !row.urlAllowed then h.(refused := h.refused || dbUp)
    else if took >= MARK_DEADLINE then h.(posts := h.posts + 1, late := h.late + 1)
    else if !dbUp then h.(posts := h.posts + 1, dropped := h.dropped + 1)
    else if result == Accepted2xx then h.(posts := h.posts + 1)
    else
      h.(posts := h.posts + 1, recorded := h.recorded + 1,
         scheduled := h.scheduled + if attempt + 1 >= row.maxAttempts then 0 else Backoff(attempt + 1))
  }

  predicate IsOpen(w: Workers, i: nat) {
    i < |w.claims| && w.claims[i].Open? && w.claims[i].row < |w.rows| && |w.history| == |w.rows|
  }

  predicate InDelivery(w: Workers, i: nat) {
    IsOpen(w, i) && w.claims[i].began.Some?
  }

  /** How long the delivery of a claim has taken. */
  function Took(w: Workers, i: nat): int
    requires InDelivery(w, i)
  {
    w.now - w.claims[i].began.value
  }

  function DoResolve(w: Workers, i: nat, result: PostResult, dbUp: bool): Workers
    requires InDelivery(w, i)
  {
    var c, took := w.claims[i], Took(w, i);
    var row := w.rows[c.row];
    w.(rows := if MarkStored(row, took, dbUp) then w.rows[c.row := Marked(row, c.attempt, result, w.now)] else w.rows,
       claims := w.claims[i := Closed],
       history := w.history[c.row := Noted(w.history[c.row], row, c.attempt, result, took, dbUp)])
  }

  function DoDie(w: Workers, i: nat, posted: bool): Workers
    requires IsOpen(w, i)
  {
    var r := w.claims[i].row;
    var h := w.history[r];
    var counts := posted && w.claims[i].began.Some? && w.rows[r].urlAllowed;
    w.(claims := w.claims[i := Closed],
       history := if counts then w.history[r := h.(posts := h.posts + 1, crashed := h.crashed + 1)] else w.history)
  }

  function Step(w: Workers, a: WorkerAction): Workers {
    match a
    case Insert(m, urlAllowed) =>
      if m == 0 then w
      else w.(rows := w.rows + [OutboxRow(0, m, w.now, None, None, urlAllowed)], history := w.history + [Fresh])
    case Tick(s) => w.(now := w.now + s)
    case Take(r) =>
      if r < |w.rows| && w.rows[r].Claimable(w.now) then
        w.(rows := w.rows[r := Claimed(w.rows[r], w.now)],
           claims := w.claims + [Open(r, w.rows[r].attempts, w.now, None)])
      else w
    case Begin(i) =>
      if IsOpen(w, i) && w.claims[i].began == None then
        w.(claims := w.claims[i := w.claims[i].(began := Some(w.now))])
      else w
    case Resolve(i, result, dbUp) => if InDelivery(w, i) then DoResolve(w, i, result, dbUp) else w
    case Die(i, posted) => if IsOpen(w, i) then DoDie(w, i, posted) else w
  }

  function Run(actions: seq<WorkerAction>): Workers {
    if actions == [] then Idle else Step(Run(actions[..|actions| - 1]), actions[|actions| - 1])
  }

  lemma RunAppend(actions: seq<WorkerAction>, a: WorkerAction)
    ensures Run(actions + [a]) == Step(Run(actions), a)
  {
    assert (actions + [a])[..|actions|] == actions;
  }

  // ---------- what a claim and a mark write, column by column ----------

  /** Only row r changes, and only these columns. */
  ghost predicate RowWritten(
    w: Workers, w': Workers, r: nat,
    attempts: int, nextRetryAt: Time, deliveredAt: Option<Time>, failedAt: Option<Time>)
  {
    && r < |w.rows| && |w'.rows| == |w.rows|
    && (forall k :: 0 <= k < |w.rows| && k != r ==> w'.rows[k] == w.rows[k])
    && w'.rows[r].attempts == attempts && w'.rows[r].nextRetryAt == nextRetryAt
    && w'.rows[r].deliveredAt == deliveredAt && w'.rows[r].failedAt == failedAt
    && w'.rows[r].maxAttempts == w.rows[r].maxAttempts && w'.rows[r].urlAllowed == w.rows[r].urlAllowed
  }

  /** A new row is due at once, with no attempt made. */
  lemma InsertEffect(w: Workers, maxAttempts: nat, urlAllowed: bool)
    requires maxAttempts > 0
    ensures var w' := Step(w, Insert(maxAttempts, urlAllowed));
            var r := |w.rows|;
            && |w'.rows| == r + 1 && w'.rows[..r] == w.rows && w'.claims == w.claims
            && w'.rows[r].attempts == 0 && w'.rows[r].maxAttempts == maxAttempts && w'.rows[r].nextRetryAt == w.now
            && w'.rows[r].deliveredAt == None && w'.rows[r].failedAt == None && w'.rows[r].urlAllowed == urlAllowed
  {
  }

  /** A row is claimed exactly when it is undelivered, has attempts left and is due; the claim defers it by 60 s. */
  lemma TakeEffect(w: Workers, r: nat)
    ensures var w' := Step(w, Take(r));
            if && r < |w.rows| && w.rows[r].deliveredAt == None && w.rows[r].attempts < w.rows[r].maxAttempts
               && w.rows[r].nextRetryAt <= w.now
            then
              && RowWritten(w, w', r, w.rows[r].attempts, w.now + 60, None, w.rows[r].failedAt)
              && w'.claims == w.claims + [Open(r, w.rows[r].attempts, w.now, None)]
            else w' == w
  {
  }

  /** The mark of a delivery, if it is in time: a refused URL and the last failed attempt fail the row for good, a
      success delivers it while the attempt counter allows, a failure defers it by ten times its square. */
  lemma ResolveEffect(w: Workers, i: nat, result: PostResult, dbUp: bool)
    requires InDelivery(w, i)
    ensures var w', c := Step(w, Resolve(i, result, dbUp)), w.claims[i];
            var row, next := w.rows[c.row], c.attempt + 1;
            w'.claims == w.claims[i := Closed] &&
            if !dbUp || (row.urlAllowed && w.now - c.began.value >= 5) then w'.rows == w.rows
            else if !row.urlAllowed || (result == Rejected && next >= row.maxAttempts) then
              RowWritten(w, w', c.row, row.maxAttempts, row.nextRetryAt, row.deliveredAt, Some(w.now))
            else if result == Rejected then
              RowWritten(w, w', c.row, next, w.now + next * next * 10, row.deliveredAt, row.failedAt)
            else if row.attempts < row.maxAttempts then
              RowWritten(w, w', c.row, row.attempts + 1, row.nextRetryAt, Some(w.now), row.failedAt)
            else w'.rows == w.rows
  {
  }

  // ---------- every run, however late marks arrive ----------

  ghost predicate RowKept(row: OutboxRow, h: History) {
    && 0 <= row.attempts <= row.maxAttempts && row.maxAttempts >= 1
    && (row.attempts == row.maxAttempts ==> row.Settled())
    && (row.deliveredAt == None && row.attempts < row.maxAttempts ==> row.attempts <= h.recorded)
    && (row.failedAt.Some? ==> h.recorded >= row.maxAttempts || (h.refused && !row.urlAllowed))
  }

  ghost predicate AllKept(w: Workers) {
    && |w.history| == |w.rows|
    && (forall r :: 0 <= r < |w.rows| ==> RowKept(w.rows[r], w.history[r]))
    && (forall i :: 0 <= i < |w.claims| && w.claims[i].Open? ==>
          var c := w.claims[i];
          c.row < |w.rows| && 0 <= c.attempt < w.rows[c.row].maxAttempts && c.attempt <= w.history[c.row].recorded)
  }

  lemma ResolveKeepsRow(w: Workers, i: nat, result: PostResult, dbUp: bool)
    requires AllKept(w) && InDelivery(w, i)
    ensures var w', r := DoResolve(w, i, result, dbUp), w.claims[i].row;
            && RowKept(w'.rows[r], w'.history[r])
            && w'.rows[r].maxAttempts == w.rows[r].maxAttempts && w'.history[r].recorded >= w.history[r].recorded
  {
    assert RowKept(w.rows[w.claims[i].row], w.history[w.claims[i].row]);
  }

  lemma StepKeepsAll(w: Workers, a: WorkerAction)
    requires AllKept(w)
    ensures AllKept(Step(w, a))
  {
    if a.Resolve? && InDelivery(w, a.i) {
      ResolveKeepsRow(w, a.i, a.result, a.dbUp);
    }
  }

  lemma {:induction false} RunKeepsAll(actions: seq<WorkerAction>)
    ensures AllKept(Run(actions))
  {
    if actions != [] {
      RunKeepsAll(actions[..|actions| - 1]);
      StepKeepsAll(Run(actions[..|actions| - 1]), actions[|actions| - 1]);
    }
  }

  /** After any crash, lost mark or late mark, a row is delivered, finally failed, or becomes claimable at its
      next retry time; and final failure means max_attempts recorded failures or a refused URL. */
  lemma NoLostEvent(actions: seq<WorkerAction>, r: nat)
    requires r < |Run(actions).rows|
    ensures var w := Run(actions);
            var row := w.rows[r];
            && |w.history| == |w.rows|
            && (row.Settled() || forall t :: t >= row.nextRetryAt ==> row.Claimable(t))
            && (row.failedAt.Some? ==> w.history[r].recorded >= row.maxAttempts || !row.urlAllowed)
  {
    RunKeepsAll(actions);
  }

  // ---------- failed rows that come back ----------

  /** The worker's claim predicate and the lease query select the row at the same times. */
  ghost predicate FiltersAgree(row: OutboxRow) {
    forall t :: row.Claimable(t) <==> row.Leasable(t)
  }

  lemma FiltersAgreeIff(row: OutboxRow)
    ensures FiltersAgree(row) <==> row.failedAt == None || row.deliveredAt.Some? || row.attempts >= row.maxAttempts
    ensures row.Settled() ==> (FiltersAgree(row) <==> forall t :: !row.Claimable(t))
  {
    var t := row.nextRetryAt;
    assert row.Claimable(t) <==> row.deliveredAt == None && row.attempts < row.maxAttempts;
    assert row.Leasable(t) <==> row.Claimable(t) && row.failedAt == None;
  }

  /** The mark of this claim reaches its row, and schedules a retry of one that has failed for good. */
  predicate Revives(w: Workers, a: WorkerAction, r: nat)
    requires r < |w.rows|
  {
    && a.Resolve? && InDelivery(w, a.i) && w.claims[a.i].row == r && MarkStored(w.rows[r], Took(w, a.i), a.dbUp)
    && w.rows[r].urlAllowed && a.result == Rejected && w.claims[a.i].attempt + 1 < w.rows[r].maxAttempts
    && w.rows[r].failedAt.Some? && w.rows[r].deliveredAt == None
  }

  lemma StepFiltersAgree(w: Workers, a: WorkerAction, r: nat)
    requires AllKept(w) && r < |w.rows| && FiltersAgree(w.rows[r])
    ensures r < |Step(w, a).rows|
    ensures FiltersAgree(Step(w, a).rows[r]) <==> !Revives(w, a, r)
  {
    FiltersAgreeIff(w.rows[r]);
    FiltersAgreeIff(Step(w, a).rows[r]);
    assert RowKept(w.rows[r], w.history[r]);
  }

  /** In any reachable state, prompt or not, a step parts the two predicates on a row exactly when it revives it. */
  lemma {:induction false} FilterKeptIff(actions: seq<WorkerAction>, a: WorkerAction, r: nat)
    requires r < |Run(actions).rows| && FiltersAgree(Run(actions).rows[r])
    ensures r < |Run(actions + [a]).rows|
    ensures FiltersAgree(Run(actions + [a]).rows[r]) <==> !Revives(Run(actions), a, r)
  {
    RunAppend(actions, a);
    RunKeepsAll(actions);
    StepFiltersAgree(Run(actions), a, r);
  }

  ghost predicate NeverRevived(actions: seq<WorkerAction>, more: seq<WorkerAction>, r: nat) {
    more == [] ||
    var front := more[..|more| - 1];
    var w := Run(actions + front);
    NeverRevived(actions, front, r) && (r < |w.rows| ==> !Revives(w, more[|more| - 1], r))
  }

  ghost predicate AgreesOn(w: Workers, r: nat) {
    r < |w.rows| && FiltersAgree(w.rows[r])
  }

  /** In every state of the continuation. */
  ghost predicate AgreeThroughout(actions: seq<WorkerAction>, more: seq<WorkerAction>, r: nat) {
    AgreesOn(Run(actions + more), r) && (more == [] || AgreeThroughout(actions, more[..|more| - 1], r))
  }

  /** So the predicates agree on a row through every state of any continuation if and only if no late mark in it
      revives the row. For a settled row that means: it is never claimable again. */
  lemma {:induction false} ClaimFilterEquivalence(actions: seq<WorkerAction>, more: seq<WorkerAction>, r: nat)
    requires AgreesOn(Run(actions), r)
    ensures AgreeThroughout(actions, more, r) <==> NeverRevived(actions, more, r)
    decreases |more|
  {
    if more == [] {
      assert actions + more == actions;
    } else {
      var front, a := more[..|more| - 1], more[|more| - 1];
      assert actions + more == (actions + front) + [a];
      ClaimFilterEquivalence(actions, front, r);
      if AgreeThroughout(actions, front, r) {
        FilterKeptIff(actions + front, a, r);
      }
    }
  }

  /** The steps that change a row already settled: a claim of a revived one, and a stored mark that does not say
      again what the row says. */
  predicate Disturbs(w: Workers, a: WorkerAction, r: nat)
    requires r < |w.rows|
  {
    var row := w.rows[r];
    match a
    case Take(k) => k == r && row.deliveredAt == None && row.attempts < row.maxAttempts && row.nextRetryAt <= w.now
    case Resolve(i, result, dbUp) =>
      && InDelivery(w, i) && w.claims[i].row == r && MarkStored(row, Took(w, i), dbUp)
      && var next := w.claims[i].attempt + 1;
         if row.urlAllowed && result == Accepted2xx then row.attempts < row.maxAttempts
         else if row.urlAllowed && next < row.maxAttempts then
           row.attempts != next || row.nextRetryAt != w.now + 10 * next * next
         else row.attempts < row.maxAttempts || row.failedAt != Some(w.now)
    case _ => false
  }

  lemma {:induction false} SettledKeptIff(actions: seq<WorkerAction>, a: WorkerAction, r: nat)
    requires r < |Run(actions).rows| && Run(actions).rows[r].Settled()
    ensures r < |Run(actions + [a]).rows| && Run(actions + [a]).rows[r].Settled()
    ensures Run(actions + [a]).rows[r] == Run(actions).rows[r] <==> !Disturbs(Run(actions), a, r)
  {
    RunAppend(actions, a);
    RunKeepsAll(actions);
    var w := Run(actions);
    assert RowKept(w.rows[r], w.history[r]);
    if a.Resolve? && InDelivery(w, a.i) {
      ResolveChanges(w, a.i, a.result, a.dbUp);
    }
  }

  lemma ResolveChanges(w: Workers, i: nat, result: PostResult, dbUp: bool)
    requires InDelivery(w, i) && w.rows[w.claims[i].row].attempts <= w.rows[w.claims[i].row].maxAttempts
    ensures var r := w.claims[i].row;
            DoResolve(w, i, result, dbUp).rows[r] == w.rows[r] <==> !Disturbs(w, Resolve(i, result, dbUp), r)
  {
    var next := w.claims[i].attempt + 1;
    assert Backoff(next) == 10 * next * next;
  }

  ghost predicate Undisturbed(actions: seq<WorkerAction>, more: seq<WorkerAction>, r: nat) {
    more == [] ||
    var front := more[..|more| - 1];
    var w := Run(actions + front);
    Undisturbed(actions, front, r) && (r < |w.rows| ==> !Disturbs(w, more[|more| - 1], r))
  }

  ghost predicate Keeps(w: Workers, r: nat, row: OutboxRow) {
    r < |w.rows| && w.rows[r] == row
  }

  /** In every state of the continuation. */
  ghost predicate KeptThroughout(actions: seq<WorkerAction>, more: seq<WorkerAction>, r: nat, row: OutboxRow) {
    Keeps(Run(actions + more), r, row) && (more == [] || KeptThroughout(actions, more[..|more| - 1], r, row))
  }

  /** A settled row stays as it is through every state of any continuation if and only if no step disturbs it. */
  lemma {:induction false} SettledRowsStay(actions: seq<WorkerAction>, more: seq<WorkerAction>, r: nat)
    requires r < |Run(actions).rows| && Run(actions).rows[r].Settled()
    ensures KeptThroughout(actions, more, r, Run(actions).rows[r]) <==> Undisturbed(actions, more, r)
    decreases |more|
  {
    if more == [] {
      assert actions + more == actions;
    } else {
      var front, a := more[..|more| - 1], more[|more| - 1];
      assert actions + more == (actions + front) + [a];
      SettledRowsStay(actions, front, r);
      if KeptThroughout(actions, front, r, Run(actions).rows[r]) {
        SettledKeptIff(actions + front, a, r);
      }
    }
  }

  // ---------- runs in which every claim is resolved within its lease ----------

  /** Time never reaches the end of the lease of a row still in delivery. */
  ghost predicate Prompt(actions: seq<WorkerAction>) {
    actions == [] ||
    var front, a := actions[..|actions| - 1], actions[|actions| - 1];
    && Prompt(front)
    && (a.Tick? ==> forall i :: 0 <= i < |Run(front).claims| && Run(front).claims[i].Open? ==>
                      Run(front).now + a.seconds < Run(front).claims[i].claimedAt + LEASE)
  }

  function BackoffTotal(n: nat): int {
    if n == 0 then 0 else BackoffTotal(n - 1) + Backoff(n)
  }

  lemma {:induction false} BackoffClosedForm(n: nat)
    ensures 6 * BackoffTotal(n) == 10 * n * (n + 1) * (2 * n + 1)
  {
    if n > 0 {
      BackoffClosedForm(n - 1);
    }
  }

  /** Attempts count the posts whose result was stored, and the backoff is that of the failed ones before the last. */
  ghost predicate Counted(row: OutboxRow, h: History) {
    && 0 <= row.attempts <= row.maxAttempts && row.maxAttempts >= 1
    && (row.failedAt.Some? ==> row.attempts == row.maxAttempts && row.deliveredAt == None)
    && (row.deliveredAt.Some? ==> row.attempts >= 1 && row.urlAllowed)
    && (!row.Settled() ==> row.attempts < row.maxAttempts)
    && (!row.urlAllowed ==> h.posts == 0 && (row.Settled() || row.attempts == 0))
    && (row.urlAllowed ==>
          && h.posts == row.attempts + h.late + h.dropped + h.crashed
          && h.scheduled == BackoffTotal(if row.Settled() then row.attempts - 1 else row.attempts))
  }

  /** A row in delivery still carries the lease and the attempt count it was claimed with. */
  ghost predicate Leased(w: Workers, c: Claim) {
    c.Open? ==>
      && c.row < |w.rows| && w.now < c.claimedAt + LEASE
      && w.rows[c.row].nextRetryAt == c.claimedAt + LEASE && w.rows[c.row].attempts == c.attempt
      && !w.rows[c.row].Settled()
  }

  ghost predicate InLease(w: Workers) {
    && |w.history| == |w.rows|
    && (forall r :: 0 <= r < |w.rows| ==> Counted(w.rows[r], w.history[r]))
    && (forall i :: 0 <= i < |w.claims| ==> Leased(w, w.claims[i]))
    && (forall i, j :: 0 <= i < j < |w.claims| && w.claims[i].Open? && w.claims[j].Open? ==>
          w.claims[i].row != w.claims[j].row)
  }

  lemma ResolveInLease(w: Workers, i: nat, result: PostResult, dbUp: bool)
    requires InLease(w) && InDelivery(w, i)
    ensures InLease(DoResolve(w, i, result, dbUp))
  {
    assert Leased(w, w.claims[i]);
    var w' := DoResolve(w, i, result, dbUp);
    assert Counted(w'.rows[w.claims[i].row], w'.history[w.claims[i].row]);
    forall j | 0 <= j < |w'.claims|
      ensures Leased(w', w'.claims[j])
    {
      assert Leased(w, w.claims[j]);
    }
  }

  lemma StepInLease(w: Workers, a: WorkerAction)
    requires InLease(w)
    requires a.Tick? ==>
               forall i :: 0 <= i < |w.claims| && w.claims[i].Open? ==>
                 w.now + a.seconds < w.claims[i].claimedAt + LEASE
    ensures InLease(Step(w, a))
  {
    if a.Resolve? && InDelivery(w, a.i) {
      ResolveInLease(w, a.i, a.result, a.dbUp);
    } else {
      var w' := Step(w, a);
      forall j | 0 <= j < |w'.claims|
        ensures Leased(w', w'.claims[j])
      {
        assert j < |w.claims| ==> Leased(w, w.claims[j]);
      }
      forall i, j | 0 <= i < j < |w'.claims| && w'.claims[i].Open? && w'.claims[j].Open?
        ensures w'.claims[i].row != w'.claims[j].row
      {
        assert i < |w.claims| ==> Leased(w, w.claims[i]);
      }
    }
  }

  lemma {:induction false} PromptRunsInLease(actions: seq<WorkerAction>)
    requires Prompt(actions)
    ensures InLease(Run(actions))
  {
    if actions != [] {
      PromptRunsInLease(actions[..|actions| - 1]);
      StepInLease(Run(actions[..|actions| - 1]), actions[|actions| - 1]);
    }
  }

  /** No row is in delivery by two workers, and a row in delivery can be claimed again exactly when its lease
      has run out. */
  lemma LeaseExclusion(actions: seq<WorkerAction>, i: nat, j: nat)
    requires Prompt(actions) && i < |Run(actions).claims| && j < |Run(actions).claims| && i != j
    requires Run(actions).claims[i].Open?
    ensures var w := Run(actions);
            && (w.claims[j].Open? ==> w.claims[i].row != w.claims[j].row)
            && w.claims[i].row < |w.rows|
            && forall t :: w.rows[w.claims[i].row].Claimable(t) <==> t >= w.claims[i].claimedAt + 60
  {
    PromptRunsInLease(actions);
    assert Leased(Run(actions), Run(actions).claims[i]);
    assert Counted(Run(actions).rows[Run(actions).claims[i].row], Run(actions).history[Run(actions).claims[i].row]);
  }

  /** In prompt runs ignoring failed_at selects the same rows. */
  lemma {:induction false} PromptFiltersAgree(actions: seq<WorkerAction>, r: nat, t: Time)
    requires Prompt(actions) && r < |Run(actions).rows|
    ensures Run(actions).rows[r].Claimable(t) <==> Run(actions).rows[r].Leasable(t)
  {
    PromptRunsInLease(actions);
    assert Counted(Run(actions).rows[r], Run(actions).history[r]);
  }

  /** In prompt runs a delivered or finally failed row never changes again. */
  lemma {:induction false} PromptSettledStay(actions: seq<WorkerAction>, more: seq<WorkerAction>, r: nat)
    requires Prompt(actions + more) && r < |Run(actions).rows| && Run(actions).rows[r].Settled()
    ensures r < |Run(actions + more).rows| && Run(actions + more).rows[r] == Run(actions).rows[r]
    decreases |more|
  {
    if more == [] {
      assert actions + more == actions;
    } else {
      var front, a := more[..|more| - 1], more[|more| - 1];
      assert actions + more == (actions + front) + [a];
      assert ((actions + front) + [a])[..|actions + front|] == actions + front;
      PromptSettledStay(actions, front, r);
      PromptRunsInLease(actions + front);
      var w := Run(actions + front);
      SettledKeptIff(actions + front, a, r);
      if a.Resolve? && a.i < |w.claims| {
        assert Leased(w, w.claims[a.i]);
      }
      assert Counted(w.rows[r], w.history[r]);
    }
  }

  ghost predicate DatabaseUp(actions: seq<WorkerAction>) {
    forall a <- actions :: a.Resolve? ==> a.dbUp
  }

  lemma {:induction false} NothingDropped(actions: seq<WorkerAction>)
    requires DatabaseUp(actions)
    ensures forall h <- Run(actions).history :: h.dropped == 0
  {
    if actions != [] {
      var front, a := actions[..|actions| - 1], actions[|actions| - 1];
      NothingDropped(front);
      assert a in actions;
      var w := Run(front);
      forall h | h in Step(w, a).history
        ensures h.dropped == 0
      {
        if a.Resolve? && InDelivery(w, a.i) {
          assert w.history[w.claims[a.i].row] in w.history;
        } else if a.Die? && IsOpen(w, a.i) {
          assert w.history[w.claims[a.i].row] in w.history;
        }
      }
    }
  }

  /** Posts exceed the attempts exactly by those answered after the deadline, those the database dropped and those
      whose worker died; with the database up, none is dropped. Giving up on a reachable URL comes after the full
      backoff 10(m-1)m(2m-1)/6. */
  lemma {:induction false} RetryBounds(actions: seq<WorkerAction>, r: nat)
    requires Prompt(actions) && r < |Run(actions).rows| && Run(actions).rows[r].urlAllowed
    ensures var w := Run(actions);
            var row, m := w.rows[r], w.rows[r].maxAttempts;
            && |w.history| == |w.rows|
            && w.history[r].posts == row.attempts + w.history[r].late + w.history[r].dropped + w.history[r].crashed
            && row.attempts <= m && (DatabaseUp(actions) ==> w.history[r].dropped == 0)
            && (row.failedAt.Some? ==> 6 * w.history[r].scheduled == 10 * (m - 1) * m * (2 * m - 1))
  {
    PromptRunsInLease(actions);
    var row := Run(actions).rows[r];
    assert Counted(row, Run(actions).history[r]);
    if row.failedAt.Some? {
      BackoffClosedForm(row.maxAttempts - 1);
    }
    if DatabaseUp(actions) {
      NothingDropped(actions);
      assert Run(actions).history[r] in Run(actions).history;
    }
  }

  /** A stored failed post brings the row one attempt closer to its maximum, and settles it there. */
  lemma {:induction false} FailedPostUsesAttempt(actions: seq<WorkerAction>, i: nat)
    requires Prompt(actions) && InDelivery(Run(actions), i) && Run(actions).rows[Run(actions).claims[i].row].urlAllowed
    requires Took(Run(actions), i) < MARK_DEADLINE
    ensures var w, r := Run(actions), Run(actions).claims[i].row;
            var row' := Step(w, Resolve(i, Rejected, true)).rows[r];
            && row'.maxAttempts - row'.attempts == w.rows[r].maxAttempts - w.rows[r].attempts - 1 >= 0
            && (row'.failedAt.Some? <==> row'.attempts == row'.maxAttempts)
  {
    PromptRunsInLease(actions);
    assert Leased(Run(actions), Run(actions).claims[i]);
    assert Counted(Run(actions).rows[Run(actions).claims[i].row], Run(actions).history[Run(actions).claims[i].row]);
  }

  /** A worker takes the only row, begins its delivery at once and is told of a failure in no time. */
  lemma FailAtOnce(actions: seq<WorkerAction>) returns (next: seq<WorkerAction>)
    requires var w := Run(actions);
             |w.rows| == |w.history| == 1 && w.rows[0].Claimable(w.now) && w.rows[0].urlAllowed
    ensures var w, w' := Run(actions), Run(next);
            && w'.now == w.now && |w'.history| == 1 && w'.claims == w.claims + [Closed]
            && w'.rows == [Marked(Claimed(w.rows[0], w.now), w.rows[0].attempts, Rejected, w.now)]
  {
    var i := |Run(actions).claims|;
    var begun := TakeAndBegin(actions);
    RunAppend(begun, Resolve(i, Rejected, true));
    next := begun + [Resolve(i, Rejected, true)];
  }

  lemma Wait(actions: seq<WorkerAction>, seconds: nat) returns (next: seq<WorkerAction>)
    ensures var w, w' := Run(actions), Run(next);
            w'.now == w.now + seconds && w'.rows == w.rows && w'.claims == w.claims && w'.history == w.history
  {
    RunAppend(actions, Tick(seconds));
    next := actions + [Tick(seconds)];
  }

  lemma ClaimedRun() returns (actions: seq<WorkerAction>)
    ensures Run(actions) == Workers(0, [OutboxRow(0, 2, 60, None, None, true)], [Open(0, 0, 0, None)], [Fresh])
  {
    RunAppend([], Insert(2, true));
    var inserted := [] + [Insert(2, true)];
    assert Run(inserted).rows == [OutboxRow(0, 2, 0, None, None, true)];
    RunAppend(inserted, Take(0));
    actions := inserted + [Take(0)];
  }

  /** A delivery that begins after its lease is over, while others have failed the row for good, brings it back: the
      two claim predicates then differ. */
  lemma LateMarkRevivesFailedRow()
    ensures exists actions: seq<WorkerAction> ::
              var w := Run(actions);
              && |w.rows| == 1 && w.rows[0].failedAt.Some?
              && w.rows[0].Claimable(w.now + 10) && !w.rows[0].Leasable(w.now + 10)
  {
    var claimed := ClaimedRun();
    var s1 := Wait(claimed, 60);
    var s2 := FailAtOnce(s1);
    assert Run(s2).rows == [OutboxRow(1, 2, 70, None, None, true)];
    var s3 := Wait(s2, 10);
    var s4 := FailAtOnce(s3);
    assert Run(s4).rows == [OutboxRow(2, 2, 130, None, Some(70), true)];
    assert Run(s4).claims[0] == Open(0, 0, 0, None) && Run(s4).now == 70;
    var s5 := FirstFailsLate(s4);
  }

  /** The first worker's delivery begins only now. */
  lemma FirstFailsLate(actions: seq<WorkerAction>) returns (next: seq<WorkerAction>)
    requires var w := Run(actions);
             && w.rows == [OutboxRow(2, 2, 130, None, Some(70), true)] && |w.history| == 1 && w.now == 70
             && |w.claims| > 0 && w.claims[0] == Open(0, 0, 0, None)
    ensures Run(next).rows == [OutboxRow(1, 2, 80, None, Some(70), true)] && Run(next).now == 70
  {
    RunAppend(actions, Begin(0));
    var begun := actions + [Begin(0)];
    assert Run(begun).claims[0] == Open(0, 0, 0, Some(70)) && Run(begun).rows == Run(actions).rows;
    RunAppend(begun, Resolve(0, Rejected, true));
    next := begun + [Resolve(0, Rejected, true)];
  }

  lemma PromptAppend(actions: seq<WorkerAction>, a: WorkerAction)
    requires Prompt(actions)
    requires a.Tick? ==> forall i :: 0 <= i < |Run(actions).claims| && Run(actions).claims[i].Open? ==>
                           Run(actions).now + a.seconds < Run(actions).claims[i].claimedAt + LEASE
    ensures Prompt(actions + [a])
  {
    assert (actions + [a])[..|actions|] == actions;
  }

  ghost predicate StillDue(w: Workers, posts: nat, m: nat) {
    && |w.rows| == 1 && w.history == [History(posts, 0, posts, 0, 0, 0, false)]
    && w.rows[0] == OutboxRow(0, m, w.rows[0].nextRetryAt, None, None, true) && w.rows[0].nextRetryAt <= w.now
    && forall i :: 0 <= i < |w.claims| ==> w.claims[i] == Closed
  }

  /** One delivery to a receiver that answers with success after `took` seconds, and the wait for the next claim. */
  lemma SlowPost(prior: seq<WorkerAction>, n: nat, m: nat, took: nat) returns (actions: seq<WorkerAction>)
    requires m > 0 && MARK_DEADLINE <= took < LEASE
    requires Prompt(prior) && DatabaseUp(prior) && StillDue(Run(prior), n, m)
    ensures Prompt(actions) && DatabaseUp(actions) && StillDue(Run(actions), n + 1, m)
  {
    var w := Run(prior);
    var i := |w.claims|;
    var begun := TakeAndBegin(prior);
    var answered := LateAnswer(begun, i, took);
    assert Run(answered).claims == w.claims + [Closed];
    RunAppend(answered, Tick(LEASE));
    PromptAppend(answered, Tick(LEASE));
    actions := answered + [Tick(LEASE)];
  }

  /** The only open delivery, just begun, is answered with success after its mark's deadline. */
  lemma LateAnswer(begun: seq<WorkerAction>, i: nat, took: nat) returns (next: seq<WorkerAction>)
    requires Prompt(begun) && DatabaseUp(begun) && MARK_DEADLINE <= took < LEASE
    requires var w := Run(begun);
             && |w.rows| == |w.history| == 1 && w.rows[0].urlAllowed && i + 1 == |w.claims|
             && w.claims[i] == Open(0, 0, w.now, Some(w.now)) && forall k :: 0 <= k < i ==> w.claims[k] == Closed
    ensures Prompt(next) && DatabaseUp(next)
    ensures var w, w' := Run(begun), Run(next);
            && w'.now == w.now + took && w'.rows == w.rows && w'.claims == w.claims[i := Closed]
            && w'.history == [w.history[0].(posts := w.history[0].posts + 1, late := w.history[0].late + 1)]
  {
    RunAppend(begun, Tick(took));
    PromptAppend(begun, Tick(took));
    var waited := begun + [Tick(took)];
    RunAppend(waited, Resolve(i, Accepted2xx, true));
    PromptAppend(waited, Resolve(i, Accepted2xx, true));
    next := waited + [Resolve(i, Accepted2xx, true)];
  }

  lemma TakeAndBegin(actions: seq<WorkerAction>) returns (next: seq<WorkerAction>)
    requires var w := Run(actions);
             |w.rows| == |w.history| == 1 && w.rows[0].Claimable(w.now)
    ensures var w, w' := Run(actions), Run(next);
            && w'.now == w.now && w'.history == w.history && w'.rows == [Claimed(w.rows[0], w.now)]
            && w'.claims == w.claims + [Open(0, w.rows[0].attempts, w.now, Some(w.now))]
    ensures Prompt(actions) ==> Prompt(next)
    ensures DatabaseUp(actions) ==> DatabaseUp(next)
  {
    var i := |Run(actions).claims|;
    RunAppend(actions, Take(0));
    var taken := actions + [Take(0)];
    RunAppend(taken, Begin(i));
    next := taken + [Begin(i)];
    if Prompt(actions) {
      PromptAppend(actions, Take(0));
      PromptAppend(taken, Begin(i));
    }
  }

  /** A receiver that answers with success, but after the mark's deadline, is posted to without end: for every n some
      prompt run with the database up has posted n times and used no attempt. */
  lemma {:induction false} SlowReceiverIsPostedForever(n: nat, m: nat, took: nat) returns (actions: seq<WorkerAction>)
    requires m > 0 && MARK_DEADLINE <= took < LEASE
    ensures Prompt(actions) && DatabaseUp(actions) && StillDue(Run(actions), n, m)
  {
    if n == 0 {
      RunAppend([], Insert(m, true));
      PromptAppend([], Insert(m, true));
      actions := [] + [Insert(m, true)];
    } else {
      var prior := SlowReceiverIsPostedForever(n - 1, m, took);
      actions := SlowPost(prior, n - 1, m, took);
    }
  }
}
