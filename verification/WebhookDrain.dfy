/** Batches of the delivery worker: order independence, retry bounds, draining. */
module WebhookDrain {
  import opened Wrappers
  import opened Maps
  import opened MessageStore
  import opened Webhooks
  import opened Runs
  import opened WebhookRuns
  import opened WebhookSteady
  import opened Folding

  // --- A batch ---

  /** A due batch holds at most one row per subscription, always its lowest pending number. */
  lemma BatchHoldsHeads(queue: Queue, now: int, limit: nat, batch: seq<Key>)
    requires IsDueBatch(queue, now, limit, batch)
    ensures forall i, j :: 0 <= i < j < |batch| ==> batch[i].sub != batch[j].sub
    ensures forall i, k :: 0 <= i < |batch| && k in queue && k.sub == batch[i].sub ==> batch[i].num <= k.num
  {
    forall i, j | 0 <= i < j < |batch| ensures batch[i].sub != batch[j].sub {
      assert Due(queue, batch[i], now) && Due(queue, batch[j], now);
    }
    assert forall i :: 0 <= i < |batch| ==> batch[i] in batch;
  }

  /** What each HTTP attempt of a batch comes to, and when it is over. */
  type Fates = map<Key, (Outcome, int)>

  /** A loaded delivery finished with its given outcome. */
  function ProcessOne(fates: Fates): (State, Key) -> State {
    (st: State, k: Key) => if k in st.inflight && k in fates then Finish(st, k, SettledOf(st, k, fates)) else st
  }

  lemma ProcessOneIsProcess(st: State, k: Key, fates: Fates)
    requires k in st.inflight && k in fates
    ensures ProcessOne(fates)(st, k) == Process(st, k, fates[k].0, fates[k].1)
  {
  }

  lemma PutsCommute<K, V>(m: map<K, V>, j: K, v: Option<V>, k: K, w: Option<V>)
    requires j != k
    ensures Put(Put(m, j, v), k, w) == Put(Put(m, k, w), j, v)
    ensures Find(Put(m, j, v), k) == Find(m, k)
  {
  }

  lemma FinishesCommute(st: State, j: Key, a: Settled, k: Key, b: Settled)
    requires j.sub != k.sub
    ensures Finish(Finish(st, j, a), k, b) == Finish(Finish(st, k, b), j, a)
  {
    PutsCommute(st.subs, j.sub, a.sub, k.sub, b.sub);
    PutsCommute(st.queue, j, a.row, k, b.row);
    assert st.inflight - {j} - {k} == st.inflight - {k} - {j};
  }

  /** Finishing another subscription's delivery changes nothing `k` looks at. */
  lemma SettledAlike(st: State, j: Key, a: Settled, k: Key)
    requires j.sub != k.sub
    ensures var after := Finish(st, j, a);
      && Find(after.subs, k.sub) == Find(st.subs, k.sub)
      && Find(after.queue, k) == Find(st.queue, k)
      && Find(after.inflight, k) == Find(st.inflight, k)
  {
  }

  lemma Commute(st: State, j: Key, k: Key, fates: Fates)
    requires j.sub != k.sub
    ensures ProcessOne(fates)(ProcessOne(fates)(st, j), k) == ProcessOne(fates)(ProcessOne(fates)(st, k), j)
  {
    if j in st.inflight && j in fates && k in st.inflight && k in fates {
      var a, b := SettledOf(st, j, fates), SettledOf(st, k, fates);
      SettledAlike(st, j, a, k);
      SettledAlike(st, k, b, j);
      FinishesCommute(st, j, a, k, b);
    }
  }

  function SettledOf(st: State, k: Key, fates: Fates): Settled
    requires k in st.inflight && k in fates
  {
    var d := st.inflight[k];
    Settle(Find(st.subs, k.sub), Find(st.queue, k), d, k.num, HasId(st.log.rows, d.messageId), fates[k].0, fates[k].1)
  }

  /** For fixed HTTP outcomes, a loaded batch finished in any two orders leaves the same
      queue, statuses, cursors and 2xx record. */
  lemma BatchOrderIrrelevant(st: State, now: int, limit: nat, batch: seq<Key>, p: seq<Key>, q: seq<Key>, fates: Fates)
    requires IsDueBatch(st.queue, now, limit, batch)
    requires multiset(p) == multiset(batch) == multiset(q)
    ensures var loaded := Load(st, batch);
      Fold(ProcessOne(fates), loaded, p) == Fold(ProcessOne(fates), loaded, q)
  {
    BatchHoldsHeads(st.queue, now, limit, batch);
    forall s, j, k | j in q && k in q && j != k
      ensures ProcessOne(fates)(ProcessOne(fates)(s, j), k) == ProcessOne(fates)(ProcessOne(fates)(s, k), j)
    {
      assert j in multiset(batch) && k in multiset(batch);
      Commute(s, j, k, fates);
    }
    PermutationIrrelevant(ProcessOne(fates), Load(st, batch), p, q);
  }

  // --- Retries ---

  /** In every run, a row the worker is about to POST has been POSTed at most five times
      before; if this is the sixth time, at least 341 seconds have passed since the first. */
  lemma SixPostsSpan341Seconds(st: State, k: Key)
    requires Steady(st) && k in st.inflight && k.sub in st.subs
    ensures k in st.queue && |st.queue[k].posts| <= 5
    ensures |st.queue[k].posts| == 5 ==> st.clock - st.queue[k].posts[0] >= 341_000
  {
    var posts := st.queue[k].posts;
    if |posts| == 5 {
      assert posts[0] + 1000 <= posts[1];
      assert posts[1] + 4000 <= posts[2];
      assert posts[2] + 16000 <= posts[3];
      assert posts[3] + 64000 <= posts[4];
    }
  }

  /** A refused delivery is given up, and its subscription marked failed, exactly on the sixth refusal. */
  lemma GivesUpOnSixth(st: State, k: Key, now: int)
    requires Steady(st) && k in st.inflight && k.sub in st.subs && st.subs[k.sub].status == Active
    requires HasId(st.log.rows, st.inflight[k].messageId)
    ensures var after := Process(st, k, Rejected, now);
      if |st.inflight[k].posts| == 5 then k !in after.queue && after.subs[k.sub].status == Failed
      else k in after.queue && after.subs == st.subs && after.queue[k].posts == st.inflight[k].posts + [now]
           && after.queue[k].dueAt > now
  {
  }

  // --- Draining ---

  datatype Token = Attempt(key: Key, index: nat) | Live(id: SubId) | Orphan(key: Key)

  /** One credit per POST a queued row may still get, one per active subscription, and one
      per loaded row whose subscription is gone. */
  ghost function Credits(st: State): set<Token> {
    (set k, i | k in st.queue && st.queue[k].attempts <= i < 6 :: Attempt(k, i))
    + (set id | id in st.subs && st.subs[id].status == Active :: Live(id))
    + (set k | k in st.inflight && k.sub !in st.subs :: Orphan(k))
  }

  lemma SubsetIsSmaller<T>(a: set<T>, b: set<T>)
    requires a < b
    ensures |a| < |b|
  {
    var extra :| extra in b && extra !in a;
    assert a <= b - {extra};
    assert |b - {extra}| == |b| - 1;
    SubsetSize(a, b - {extra});
  }

  lemma {:induction false} SubsetSize<T>(a: set<T>, b: set<T>)
    requires a <= b
    ensures |a| <= |b|
    decreases a
  {
    if a != {} {
      var x :| x in a;
      SubsetSize(a - {x}, b - {x});
    }
  }

  /** The row or its subscription is used up a little further, and nothing else changes. */
  ghost predicate Spends(st: State, after: State, k: Key)
    requires k in st.inflight
  {
    && after.inflight == st.inflight - {k}
    && after.subs.Keys == st.subs.Keys
    && (forall id :: id in after.subs && after.subs[id].status == Active ==> st.subs[id].status == Active)
    && (forall j :: j in after.queue ==> j in st.queue && st.queue[j].attempts <= after.queue[j].attempts)
    && (k.sub in st.subs ==>
          || (st.subs[k.sub].status == Active && after.subs[k.sub].status == Failed)
          || (k in st.queue && st.queue[k].attempts <= 5
              && (k in after.queue ==> st.queue[k].attempts < after.queue[k].attempts)))
  }

  lemma SpendingShrinks(st: State, after: State, k: Key)
    requires k in st.inflight && Spends(st, after, k)
    ensures Credits(after) < Credits(st)
  {
    forall c | c in Credits(after) ensures c in Credits(st) {}
    var spent :=
      if k.sub !in st.subs then Orphan(k)
      else if st.subs[k.sub].status == Active && after.subs[k.sub].status == Failed then Live(k.sub)
      else Attempt(k, st.queue[k].attempts);
    assert spent in Credits(st) && spent !in Credits(after);
  }

  /** Every delivery attempt spends a credit and creates none. */
  lemma ProcessSpendsCredit(st: State, k: Key, outcome: Outcome, now: int)
    requires Steady(st) && k in st.inflight
    ensures Credits(Process(st, k, outcome, now).(clock := now)) < Credits(st)
  {
    if k in st.queue { assert RowOk(st.queue[k]); }
    assert Spends(st, Process(st, k, outcome, now).(clock := now), k);
    SpendingShrinks(st, Process(st, k, outcome, now).(clock := now), k);
  }

  ghost predicate Drains(st: State, t: Timed, next: State) {
    LeadsTo(st, t, next) && (t.event.Loaded? || t.event.Processed?)
  }

  /** With nothing new enqueued, the worker makes at most as many attempts as there are credits. */
  lemma DrainTerminates(start: State, run: History, last: State)
    requires Steady(start) && IsRun(Drains, start, run, last)
    ensures Steady(last) && Count(IsAttempt, run) + |Credits(last)| <= |Credits(start)|
  {
    forall st, t, next | Steady(st) && Drains(st, t, next)
      ensures Steady(next) && (if IsAttempt(t) then 1 else 0) + Credit(next) <= Credit(st)
    {
      DrainStep(st, t, next);
    }
    RunSpends(Drains, Steady, IsAttempt, Credit, start, run, last);
  }

  ghost function Credit(st: State): nat {
    |Credits(st)|
  }

  predicate IsAttempt(t: Timed) {
    t.event.Processed?
  }

  lemma DrainStep(st: State, t: Timed, next: State)
    requires Steady(st) && Drains(st, t, next)
    ensures Steady(next) && (if IsAttempt(t) then 1 else 0) + Credit(next) <= Credit(st)
  {
    StepKeepsSteady(st, t);
    if t.event.Processed? {
      ProcessSpendsCredit(st, t.event.key, t.event.outcome, t.now);
      SubsetIsSmaller(Credits(next), Credits(st));
    } else {
      forall c | c in Credits(next) ensures c in Credits(st) {}
      SubsetSize(Credits(next), Credits(st));
    }
  }

  /** A drain that can go no further, with no delivery to finish and nothing to load now or at
      any later time, has emptied the queue. */
  lemma StuckDrainIsEmpty(st: State)
    requires st.inflight == map[]
    requires forall now, batch :: Legal(st, Loaded(batch), now) ==> batch == []
    ensures st.queue == map[]
  {
    if st.queue != map[] { var now, batch := SomethingLoads(st); }
  }

  /** As long as anything is pending, at some time the batch query answers with something. */
  lemma SomethingLoads(st: State) returns (now: int, batch: seq<Key>)
    requires st.inflight == map[] && st.queue != map[]
    ensures Legal(st, Loaded(batch), now) && batch != []
  {
    var k, due := PendingRowBecomesDue(st.queue);
    now := if due < st.clock then st.clock else due;
    batch := BatchExists(st.queue, now, BATCH_LIMIT);
    assert Due(st.queue, k, now);
  }

  /** Whatever is pending, some row becomes due and heads its subscription's queue. */
  lemma PendingRowBecomesDue(queue: Queue) returns (k: Key, now: int)
    requires queue != map[]
    ensures forall later :: now <= later ==> Due(queue, k, later)
  {
    assert queue.Keys != {};
    var k0 :| k0 in queue;
    k := LowestPending(queue, k0);
    now := queue[k].dueAt;
  }

  lemma {:induction false} LowestPending(queue: Queue, start: Key) returns (k: Key)
    requires start in queue
    ensures k in queue && k.sub == start.sub && Head(queue, k)
    decreases |set j | j in queue && j.sub == start.sub && j.num < start.num|
  {
    if j :| j in queue && j.sub == start.sub && j.num < start.num {
      var lower := set i | i in queue && i.sub == start.sub && i.num < j.num;
      var below := set i | i in queue && i.sub == start.sub && i.num < start.num;
      assert j in below && j !in lower && lower < below;
      SubsetIsSmaller(lower, below);
      k := LowestPending(queue, j);
    } else {
      k := start;
    }
  }

  /** The batch query always has an answer. */
  lemma BatchExists(queue: Queue, now: int, limit: nat) returns (batch: seq<Key>)
    ensures IsDueBatch(queue, now, limit, batch)
  {
    var due := set k | k in queue && Due(queue, k, now);
    batch := [];
    while |batch| < limit && (exists k :: k in due && k !in batch)
      invariant |batch| <= limit
      invariant forall k :: k in batch ==> k in due
      invariant forall i, j :: 0 <= i < j < |batch| ==> batch[i] != batch[j] && NotAfter(queue, batch[i], batch[j])
      invariant forall j, k :: j in batch && k in due && k !in batch ==> NotAfter(queue, j, k)
      decreases limit - |batch|
    {
      var k0 :| k0 in due && k0 !in batch;
      var k := EarliestOf(queue, due - (set j | j in batch), k0);
      batch := batch + [k];
    }
  }

  lemma {:induction false} EarliestOf(queue: Queue, keys: set<Key>, start: Key) returns (k: Key)
    requires start in keys && forall j :: j in keys ==> j in queue
    ensures k in keys && forall j :: j in keys ==> NotAfter(queue, k, j)
    decreases keys
  {
    var others := keys - {start};
    assert keys == others + {start};
    if j :| j in others {
      var best := EarliestOf(queue, others, j);
      k := if NotAfter(queue, start, best) then start else best;
    } else {
      k := start;
    }
  }
}
