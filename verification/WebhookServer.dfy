/** The webhook tables, updated in place by the send path, the handlers and the worker. */
module WebhookServer {
  import opened Wrappers
  import opened Maps
  import opened MessageStore
  import opened Webhooks
  import WebhookRuns
  import WebhookDrain
  import opened Folding

  class Server {
    const store: Store
    var subs: map<SubId, Subscription>
    var queue: Queue
    var inflight: Queue
    ghost var clock: int
    ghost var offBand: set<(RoomId, int)>
    ghost var acked: map<SubId, seq<int>>

    ghost function View(): State
      reads this, store
    {
      State(store.View(), subs, queue, inflight, clock, offBand, acked)
    }

    constructor (rooms: set<RoomId>)
      ensures fresh(store) && View() == WebhookRuns.Fresh(rooms, 0)
    {
      store := new Store(rooms);
      subs, queue, inflight := map[], map[], map[];
      clock, offBand, acked := 0, {}, map[];
    }

    /** Stores the message, then queues it for every active subscription it matches. */
    method Send(draft: Message, now: int) returns (r: Result<Message, InsertError>)
      modifies this, store
      ensures View() == SendMessage(old(View()), draft, now)
      ensures r.Ok? ==> r.value == Numbered(old(store.View()), draft)
    {
      r := store.Insert(draft);
      if r.Ok? { Enqueue(r.value, now); }
    }

    method Enqueue(m: Message, now: int)
      modifies this`queue
      ensures View() == FanOut(old(View()), m, now)
    {
      ghost var before, keys := queue, FanOutKeys(View(), m);
      WebhookRuns.FanOutKeysExact(View(), m);
      var todo := subs.Keys;
      while todo != {}
        invariant todo <= subs.Keys
        invariant WebhookRuns.Extends(before, queue)
        invariant forall k :: k in queue && k !in before ==> k in keys && queue[k] == NewRow(m.id, now)
        invariant forall k :: k in keys && k.sub !in todo ==> k in queue
        decreases todo
      {
        var id :| id in todo;
        todo := todo - {id};
        var sub := subs[id];
        if sub.status == Active && sub.room == m.room && MatchesFilter(sub, m) {
          queue := Webhooks.Enqueue(queue, Key(id, m.num), m.id, now);
        }
      }
      WebhookRuns.AddRowsUnique(before, keys, m.id, now, queue);
    }

    method Decision(draft: Message)
      modifies this`offBand, store
      ensures View() == SendDecision(old(View()), draft)
    {
      var r := store.Insert(draft);
      if r.Ok? { offBand := offBand + {(r.value.room, r.value.num)}; }
    }

    method Subscribe(id: SubId, room: RoomId, owner: string, f: Filters, since: Option<int>, now: int)
      requires LogOk(store.View())
      modifies this
      ensures View() == Webhooks.Subscribe(old(View()), id, room, owner, f, since, now)
    {
      var start;
      if since.Some? { start := since.value; } else { start := store.RoomTip(room); }
      var sub := Subscription(room, owner, f, start, start, Active, 0);
      subs := subs[id := sub];
      acked := acked[id := []];
      Backfill(id, sub, start, HISTORY_PAGE, now);
    }

    /** Walks history page by page; the page size does not matter. */
    method Backfill(id: SubId, sub: Subscription, since: int, page: nat, now: int)
      requires 1 <= page
      requires Ordered(store.rows)
      modifies this`queue
      ensures queue == EnqueueRows(old(queue), id, sub, Past(store.rows, sub.room, since), now)
    {
      var cursor := since;
      while true
        invariant EnqueueRows(queue, id, sub, Past(store.rows, sub.room, cursor), now)
               == EnqueueRows(old(queue), id, sub, Past(store.rows, sub.room, since), now)
        decreases |Past(store.rows, sub.room, cursor)|
      {
        var backlog := store.GetHistory(sub.room, cursor, page);
        ghost var rest := Past(store.rows, sub.room, cursor);
        if backlog == [] { break; }
        WebhookRuns.EnqueueRowsConcat(queue, id, sub, backlog, rest[|backlog|..], now);
        assert rest == backlog + rest[|backlog|..];
        PageContinues(store.rows, sub.room, cursor, |backlog|);
        EnqueuePage(id, sub, backlog, now);
        cursor := backlog[|backlog| - 1].num;
        if |backlog| < page { break; }
      }
    }

    method EnqueuePage(id: SubId, sub: Subscription, page: seq<Message>, now: int)
      modifies this`queue
      ensures queue == EnqueueRows(old(queue), id, sub, page, now)
    {
      var i := 0;
      assert page[0..] == page;
      while i < |page|
        invariant 0 <= i <= |page|
        invariant EnqueueRows(queue, id, sub, page[i..], now) == EnqueueRows(old(queue), id, sub, page, now)
      {
        assert page[i..][1..] == page[i + 1..];
        if MatchesFilter(sub, page[i]) {
          queue := Webhooks.Enqueue(queue, Key(id, page[i].num), page[i].id, now);
        }
        i := i + 1;
      }
    }

    method Unsubscribe(id: SubId, owner: string) returns (deleted: bool)
      modifies this`subs, this`queue
      ensures View() == Webhooks.Unsubscribe(old(View()), id, owner)
      ensures deleted <==> id in old(subs) && old(subs)[id].owner == owner
    {
      deleted := id in subs && subs[id].owner == owner;
      if deleted {
        subs := subs - {id};
        queue := queue - (set k | k in queue && k.sub == id);
      }
    }

    method Enable(id: SubId, owner: string, now: int)
      modifies this`subs, this`queue
      ensures View() == Webhooks.Enable(old(View()), id, owner, now)
    {
      if id !in subs || subs[id].owner != owner { return; }
      var sub := subs[id];
      subs := subs[id := sub.(status := Active, failureCount := 0)];
      var backlog := store.GetHistory(sub.room, sub.lastDelivered, HISTORY_PAGE);
      EnqueuePage(id, sub, backlog, now);
    }

    // --- The worker ---

    /** `batch` is the answer of the due-deliveries query. */
    method LoadDue(batch: seq<Key>, now: int)
      requires inflight == map[]
      requires Legal(View(), Loaded(batch), now)
      modifies this`inflight
      ensures View() == Load(old(View()), batch)
    {
      inflight := queue - (set k | k in queue && k !in batch);
    }

    method ProcessDelivery(k: Key, outcome: Outcome, now: int)
      requires k in inflight
      modifies this
      ensures View() == Process(old(View()), k, outcome, now)
    {
      var d := inflight[k];
      inflight := inflight - {k};
      if k.sub !in subs {
        queue := queue - {k};
        return;
      }
      var sub := subs[k.sub];
      if sub.status != Active {
        queue := queue - {k};
        return;
      }
      var msg := store.GetMessage(d.messageId);
      if msg.None? {
        queue := queue - {k};
        return;
      }
      match outcome
      case Blocked =>
        subs := subs[k.sub := sub.(status := Failed, failureCount := d.attempts + 1)];
      case Accepted2xx =>
        queue := queue - {k};
        if sub.lastDelivered < k.num {
          subs := subs[k.sub := sub.(lastDelivered := k.num, failureCount := 0)];
        }
        acked := acked[k.sub := Entries(acked, k.sub) + [k.num]];
      case Rejected => ScheduleRetry(k, sub, d, now);
    }

    /** One more refusal: the next attempt is scheduled, or the subscription fails. */
    method ScheduleRetry(k: Key, sub: Subscription, d: Delivery, now: int)
      requires k.sub in subs && subs[k.sub] == sub && sub.status == Active
      modifies this`queue, this`subs
      ensures var done := Settle(Some(sub), Find(old(queue), k), d, k.num, true, Rejected, now);
        subs == Put(old(subs), k.sub, done.sub) && queue == Put(old(queue), k, done.row)
    {
      var attempts := d.attempts + 1;
      var index := attempts - 1;
      if index >= |RETRY_SCHEDULE| {
        queue := queue - {k};
        subs := subs[k.sub := sub.(status := Failed, failureCount := attempts)];
      } else if k in queue {
        queue := queue[k := queue[k].(attempts := attempts, dueAt := now + 1000 * RETRY_SCHEDULE[index],
                                      posts := queue[k].posts + [now])];
      }
    }

    /** The worker waits for every delivery of a batch, in whichever order they finish. */
    method FinishBatch(order: seq<Key>, fates: WebhookDrain.Fates)
      requires forall k :: k in order ==> k in inflight && k in fates
      requires forall i, j :: 0 <= i < j < |order| ==> order[i] != order[j]
      modifies this
      ensures View() == Fold(WebhookDrain.ProcessOne(fates), old(View()), order)
    {
      var i := 0;
      assert order[0..] == order;
      while i < |order|
        invariant 0 <= i <= |order|
        invariant Fold(WebhookDrain.ProcessOne(fates), View(), order[i..])
               == Fold(WebhookDrain.ProcessOne(fates), old(View()), order)
        invariant forall j :: i <= j < |order| ==> order[j] in inflight && order[j] in fates
      {
        assert order[i..][1..] == order[i + 1..];
        WebhookDrain.ProcessOneIsProcess(View(), order[i], fates);
        ProcessDelivery(order[i], fates[order[i]].0, fates[order[i]].1);
        i := i + 1;
      }
    }
  }
}
