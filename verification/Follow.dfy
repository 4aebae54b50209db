/**
`wait --follow`: a reader that pulls history past its cursor, waits for one message when
there is none, and survives any number of reconnects.
*/
module Follow {
  import opened Wrappers
  import opened Runs
  import opened Sorting
  import opened MessageStore

  datatype Options = Options(
    room: RoomId, stableIdentity: bool, agentId: string, agentName: string,
    onlyFrom: Option<string>, notFrom: Option<string>, onlyKind: Option<string>)

  predicate IsSelf(o: Options, m: Message) {
    m.agentId == o.agentId || (!o.stableIdentity && m.agentName == o.agentName)
  }

  /** Chat from somebody else. */
  predicate IsChat(o: Options, m: Message) {
    m.metaType != Some("thinking") && m.metaType != Some("system") && !IsSelf(o, m)
  }

  predicate Deliverable(o: Options, m: Message) {
    && IsChat(o, m)
    && (o.onlyFrom.Some? ==> m.agentName == o.onlyFrom.value)
    && (o.notFrom.Some? ==> m.agentName != o.notFrom.value)
    && (o.onlyKind.Some? ==> m.kind == o.onlyKind)
  }

  predicate EndsConversation(m: Message) {
    m.kind == Some("conversation_end")
  }

  const FOLLOW_PAGE: nat := 500
  const WAIT_PAGE: nat := 32

  /** `output` is everything printed so far; `ended` is the process exit. */
  datatype Reader = Reader(cursor: int, output: seq<Message>, ended: bool)

  /** The body of the batch loop. */
  function Handle(o: Options, r: Reader, m: Message): Reader {
    if r.ended || m.num <= r.cursor then r
    else if !Deliverable(o, m) then r.(cursor := m.num)
    else Reader(m.num, r.output + [m], EndsConversation(m))
  }

  function HandleAll(o: Options, r: Reader, batch: seq<Message>): Reader
    decreases batch
  {
    if batch == [] then r else HandleAll(o, Handle(o, r, batch[0]), batch[1..])
  }

  function NumOf(): Message -> int {
    (m: Message) => m.num
  }

  function Pull(o: Options, rows: seq<Message>, r: Reader): Reader {
    HandleAll(o, r, Sort(NumOf(), Take(Past(rows, o.room, r.cursor), FOLLOW_PAGE)))
  }

  /** The first chat from somebody else. */
  function FirstChat(o: Options, page: seq<Message>): Option<Message> {
    if page == [] then None else if IsChat(o, page[0]) then Some(page[0]) else FirstChat(o, page[1..])
  }

  /** The backlog look of `wait_for_message`. */
  function LookBack(o: Options, rows: seq<Message>, r: Reader): Reader {
    var found := FirstChat(o, Take(Past(rows, o.room, r.cursor), WAIT_PAGE));
    if found.None? then r else Handle(o, r, found.value)
  }

  // --- Runs ---

  /** `Pushed` is a live event that the wait hands over; a wait that times out and a
      connection that is lost and made again leave the reader as it is. */
  datatype Event = Inserted(m: Message) | Purged(gone: set<string>) | Pulled | LookedBack | Pushed(m: Message) | TimedOut | Reconnected

  /** `rows` are the rows the reader has passed and those that are still retained. */
  datatype State = State(rows: seq<Message>, reader: Reader)

  /** Retention takes rows away. Those of the room that the reader has passed stay here as
      history; no page looks at them again. */
  function Retained(rows: seq<Message>, gone: set<string>, room: RoomId, cursor: int): seq<Message> {
    if rows == [] then []
    else
      var m := rows[0];
      (if m.id in gone && (m.room != room || cursor < m.num) then [] else [m]) + Retained(rows[1..], gone, room, cursor)
  }

  /** Rows are numbered upwards in each room, and the wait filters what it hands over. */
  ghost predicate Legal(o: Options, st: State, e: Event) {
    match e
    case Inserted(m) => forall x :: x in st.rows && x.room == m.room ==> x.num < m.num
    case Pushed(m) => m.room == o.room && m.metaType != Some("system") && !IsSelf(o, m)
    case _ => true
  }

  function Step(o: Options, st: State, e: Event): State {
    match e
    case Inserted(m) => st.(rows := st.rows + [m])
    case Purged(gone) => st.(rows := Retained(st.rows, gone, o.room, st.reader.cursor))
    case Pulled => st.(reader := Pull(o, st.rows, st.reader))
    case LookedBack => st.(reader := LookBack(o, st.rows, st.reader))
    case Pushed(m) => st.(reader := Handle(o, st.reader, m))
    case TimedOut => st
    case Reconnected => st
  }

  type History = seq<Moment<State, Event>>

  ghost predicate LeadsTo(o: Options, st: State, e: Event, next: State) {
    Legal(o, st, e) && next == Step(o, st, e)
  }

  ghost function Steps(o: Options): (State, Event, State) -> bool {
    (st: State, e: Event, next: State) => LeadsTo(o, st, e, next)
  }

  ghost predicate IsHistory(o: Options, start: State, run: History, last: State) {
    IsRun(Steps(o), start, run, last)
  }

  /** A reader that has printed nothing yet. */
  function Starting(rows: seq<Message>, start: int): State {
    State(rows, Reader(start, [], false))
  }

  // --- Only ever forwards ---

  /** What is printed: deliverable rows past the start, upwards, ended by the first end of
      conversation and by nothing else. */
  ghost predicate OutputOk(o: Options, start: int, r: Reader) {
    && Ascending(r.output)
    && start <= r.cursor
    && (forall m :: m in r.output ==> m.room == o.room && Deliverable(o, m) && start < m.num <= r.cursor)
    && (forall i :: 0 <= i < |r.output| ==> (EndsConversation(r.output[i]) <==> r.ended && i == |r.output| - 1))
    && (r.ended ==> r.output != [])
  }

  lemma HandleKeepsOutput(o: Options, start: int, r: Reader, m: Message)
    requires OutputOk(o, start, r) && m.room == o.room
    ensures OutputOk(o, start, Handle(o, r, m)) && r.cursor <= Handle(o, r, m).cursor
  {
    forall i | 0 <= i < |r.output| ensures r.output[i].num <= r.cursor { assert r.output[i] in r.output; }
  }

  lemma {:induction false} HandleAllKeepsOutput(o: Options, start: int, r: Reader, batch: seq<Message>)
    requires OutputOk(o, start, r) && forall m :: m in batch ==> m.room == o.room
    ensures OutputOk(o, start, HandleAll(o, r, batch)) && r.cursor <= HandleAll(o, r, batch).cursor
    decreases batch
  {
    if batch != [] {
      HandleKeepsOutput(o, start, r, batch[0]);
      HandleAllKeepsOutput(o, start, Handle(o, r, batch[0]), batch[1..]);
    }
  }

  lemma {:induction false} FirstChatAmong(o: Options, page: seq<Message>)
    requires FirstChat(o, page).Some?
    ensures FirstChat(o, page).value in page
  {
    if !IsChat(o, page[0]) { FirstChatAmong(o, page[1..]); }
  }

  /** Every row of a page is of its room, also after sorting. */
  lemma PageOfRoom(rows: seq<Message>, room: RoomId, floor: int, limit: nat)
    ensures var page := Take(Past(rows, room, floor), limit);
      (forall m :: m in page ==> m.room == room) && forall m :: m in Sort(NumOf(), page) ==> m.room == room
  {
    var page := Take(Past(rows, room, floor), limit);
    PastMembers(rows, room, floor);
    SortExact(NumOf(), page);
    forall m | m in page ensures m in Past(rows, room, floor) {}
    forall m | m in Sort(NumOf(), page) ensures m in page { assert m in multiset(Sort(NumOf(), page)); }
  }

  lemma StepKeepsOutput(o: Options, start: int, st: State, e: Event)
    requires OutputOk(o, start, st.reader) && Legal(o, st, e)
    ensures OutputOk(o, start, Step(o, st, e).reader) && HigherAdded(st.reader, Step(o, st, e).reader)
  {
    match e
    case Pulled =>
      var batch := Sort(NumOf(), Take(Past(st.rows, o.room, st.reader.cursor), FOLLOW_PAGE));
      PageOfRoom(st.rows, o.room, st.reader.cursor, FOLLOW_PAGE);
      HandleAllKeepsOutput(o, start, st.reader, batch);
      HandleAllHigher(o, st.reader, batch);
    case LookedBack =>
      var page := Take(Past(st.rows, o.room, st.reader.cursor), WAIT_PAGE);
      PageOfRoom(st.rows, o.room, st.reader.cursor, WAIT_PAGE);
      if FirstChat(o, page).Some? {
        FirstChatAmong(o, page);
        HandleKeepsOutput(o, start, st.reader, FirstChat(o, page).value);
      }
    case Pushed(m) => HandleKeepsOutput(o, start, st.reader, m);
    case _ =>
  }

  /** The cursor goes up, output is only added to, and only past the earlier cursor. */
  ghost predicate HigherAdded(r: Reader, after: Reader) {
    r.cursor <= after.cursor && r.output <= after.output && forall i :: |r.output| <= i < |after.output| ==> after.output[i].num > r.cursor
  }

  lemma {:induction false} HandleAllHigher(o: Options, r: Reader, batch: seq<Message>)
    ensures HigherAdded(r, HandleAll(o, r, batch))
    decreases batch
  {
    if batch != [] { HandleAllHigher(o, Handle(o, r, batch[0]), batch[1..]); }
  }

  lemma HigherTransitive(a: Reader, b: Reader, c: Reader)
    requires HigherAdded(a, b) && HigherAdded(b, c)
    ensures HigherAdded(a, c)
  {
  }

  /** Whatever is inserted, purged, pushed and reconnected, in whatever order, output goes
      strictly upwards, passes the filters, and stops at the first end of conversation. */
  lemma OutputsIncrease(o: Options, start: int, first: State, run: History, last: State)
    requires OutputOk(o, start, first.reader) && IsHistory(o, first, run, last)
    ensures OutputOk(o, start, last.reader) && HigherAdded(first.reader, last.reader)
  {
    var inv := (st: State) => OutputOk(o, start, st.reader) && HigherAdded(first.reader, st.reader);
    forall st, e, next | inv(st) && Steps(o)(st, e, next) ensures inv(next) {
      StepKeepsOutput(o, start, st, e);
      HigherTransitive(first.reader, st.reader, next.reader);
    }
    RunInvariant(Steps(o), inv, first, run, last);
  }

  // --- Exactly the deliverable rows ---

  predicate InWindow(o: Options, m: Message, low: int, high: int) {
    m.room == o.room && low < m.num <= high && Deliverable(o, m)
  }

  /** The deliverable rows of the room with low < num <= high, in order. */
  function Delivered(o: Options, rows: seq<Message>, low: int, high: int): seq<Message> {
    if rows == [] then []
    else (if InWindow(o, rows[0], low, high) then [rows[0]] else []) + Delivered(o, rows[1..], low, high)
  }

  /** No deliverable row of the room lies between the cursor and `m`. */
  ghost predicate NothingBelow(o: Options, st: State, m: Message) {
    forall x :: x in st.rows && x.room == o.room && st.reader.cursor < x.num < m.num ==> !Deliverable(o, x)
  }

  /** The output is the deliverable rows past the start up to the cursor, which is the
      start itself or the number of some row. */
  ghost predicate Exact(o: Options, start: int, st: State) {
    && Ordered(st.rows) && OutputOk(o, start, st.reader)
    && (forall m :: m in st.reader.output <==> m in st.rows && InWindow(o, m, start, st.reader.cursor))
    && (st.reader.cursor == start || exists m :: m in st.rows && m.room == o.room && m.num == st.reader.cursor)
  }

  lemma {:induction false} DeliveredExact(o: Options, rows: seq<Message>, low: int, high: int)
    requires Ordered(rows)
    ensures Ascending(Delivered(o, rows, low, high))
    ensures forall m :: m in Delivered(o, rows, low, high) <==> m in rows && InWindow(o, m, low, high)
    decreases rows
  {
    if rows != [] {
      var rest := Delivered(o, rows[1..], low, high);
      DeliveredExact(o, rows[1..], low, high);
      assert rows == [rows[0]] + rows[1..];
      forall i | 0 <= i < |rest| && InWindow(o, rows[0], low, high) ensures rows[0].num < rest[i].num {
        assert rest[i] in rest;
        var k :| 0 <= k < |rows[1..]| && rows[1..][k] == rest[i];
        assert rows[k + 1] == rest[i];
      }
    }
  }

  lemma AscendingRises(rows: seq<Message>)
    requires Ascending(rows)
    ensures Rising(NumOf(), rows) && SortedBy(NumOf(), rows)
  {
    forall i, j | 0 <= i < j < |rows| ensures NumOf()(rows[i]) < NumOf()(rows[j]) { assert rows[i].num < rows[j].num; }
  }

  /** A row of the room that is handed over keeps the output exact if and only if no unread
      deliverable row lies below it. */
  lemma HandOverIff(o: Options, start: int, st: State, m: Message)
    requires Exact(o, start, st) && !st.reader.ended && m in st.rows && m.room == o.room
    ensures Exact(o, start, st.(reader := Handle(o, st.reader, m))) <==> NothingBelow(o, st, m)
  {
    var after := st.(reader := Handle(o, st.reader, m));
    HandleKeepsOutput(o, start, st.reader, m);
    if m.num > st.reader.cursor {
      forall x | x in st.rows && x.room == o.room && x.num == m.num ensures x == m { SameRow(st.rows, x, m); }
      forall x | x in after.reader.output ensures x in st.reader.output || x == m { }
      if NothingBelow(o, st, m) {
        forall x ensures x in after.reader.output <==> x in st.rows && InWindow(o, x, start, m.num) { }
      } else {
        var x :| x in st.rows && x.room == o.room && st.reader.cursor < x.num < m.num && Deliverable(o, x);
        assert InWindow(o, x, start, m.num) && x !in after.reader.output;
      }
    }
  }

  /** The rows of a page are the next rows, so none is skipped. */
  lemma {:induction false} HandlePage(o: Options, start: int, st: State, page: seq<Message>)
    requires Exact(o, start, st) && Ascending(page)
    requires forall m :: m in page ==> m in st.rows && m.room == o.room
    requires forall m, x :: m in page && x in st.rows && x.room == o.room && st.reader.cursor < x.num < m.num ==> x in page
    ensures Exact(o, start, st.(reader := HandleAll(o, st.reader, page)))
    decreases page
  {
    if st.reader.ended {
      EndedStays(o, st.reader, page);
    } else if page != [] {
      var m, rest := page[0], page[1..];
      var next := st.(reader := Handle(o, st.reader, m));
      assert m in page;
      AscendingRises(page);
      RisingTail(NumOf(), page);
      assert forall x :: x in page ==> m.num <= NumOf()(x) == x.num;
      assert NothingBelow(o, st, m);
      HandOverIff(o, start, st, m);
      forall y, x | y in rest && x in st.rows && x.room == o.room && next.reader.cursor < x.num < y.num ensures x in rest {
        assert y in page && st.reader.cursor <= next.reader.cursor && m.num <= next.reader.cursor;
        assert x in page && x != m;
      }
      HandlePage(o, start, next, rest);
    }
  }

  lemma TakeAscending(rows: seq<Message>, room: RoomId, floor: int, limit: nat)
    requires Ordered(rows)
    ensures var page := Take(Past(rows, room, floor), limit);
      && Ascending(page)
      && (forall m :: m in page ==> m in rows && m.room == room && floor < m.num)
      && (forall m, x :: m in page && x in rows && x.room == room && floor < x.num < m.num ==> x in page)
  {
    var all := Past(rows, room, floor);
    PastMembers(rows, room, floor);
    PastAscending(rows, room, floor);
    var page := Take(all, limit);
    forall m | m in page ensures m in all {}
    forall m, x | m in page && x in all && x.num < m.num ensures x in page { TakenBelow(all, limit, m, x); }
  }

  lemma TakenBelow(all: seq<Message>, limit: nat, m: Message, x: Message)
    requires Ascending(all) && m in Take(all, limit) && x in all && x.num < m.num
    ensures x in Take(all, limit)
  {
    var page := Take(all, limit);
    var i :| 0 <= i < |page| && page[i] == m;
    var j :| 0 <= j < |all| && all[j] == x;
    assert all[i] == m && j < i;
    assert page[j] == x;
  }

  lemma PullKeepsExact(o: Options, start: int, st: State)
    requires Exact(o, start, st)
    ensures Exact(o, start, Step(o, st, Pulled))
  {
    var page := Take(Past(st.rows, o.room, st.reader.cursor), FOLLOW_PAGE);
    TakeAscending(st.rows, o.room, st.reader.cursor, FOLLOW_PAGE);
    AscendingRises(page);
    SortFixed(NumOf(), page);
    HandlePage(o, start, st, page);
  }

  lemma {:induction false} FirstChatExact(o: Options, page: seq<Message>) returns (i: nat)
    requires FirstChat(o, page).Some?
    ensures i < |page| && page[i] == FirstChat(o, page).value && IsChat(o, page[i])
    ensures forall j :: 0 <= j < i ==> !IsChat(o, page[j])
  {
    if IsChat(o, page[0]) {
      i := 0;
    } else {
      var k := FirstChatExact(o, page[1..]);
      i := k + 1;
      forall j | 0 <= j < i ensures !IsChat(o, page[j]) { if j > 0 { assert page[j] == page[1..][j - 1]; } }
    }
  }

  lemma LookBackKeepsExact(o: Options, start: int, st: State)
    requires Exact(o, start, st)
    ensures Exact(o, start, Step(o, st, LookedBack))
  {
    var found := FirstChat(o, Take(Past(st.rows, o.room, st.reader.cursor), WAIT_PAGE));
    if found.Some? && !st.reader.ended {
      FoundIsFirst(o, st);
      HandOverIff(o, start, st, found.value);
    }
  }

  lemma FoundIsFirst(o: Options, st: State)
    requires Ordered(st.rows)
    requires FirstChat(o, Take(Past(st.rows, o.room, st.reader.cursor), WAIT_PAGE)).Some?
    ensures var m := FirstChat(o, Take(Past(st.rows, o.room, st.reader.cursor), WAIT_PAGE)).value;
      m in st.rows && m.room == o.room && NothingBelow(o, st, m)
  {
    var page := Take(Past(st.rows, o.room, st.reader.cursor), WAIT_PAGE);
    TakeAscending(st.rows, o.room, st.reader.cursor, WAIT_PAGE);
    var i := FirstChatExact(o, page);
    forall x | x in page && x.num < page[i].num ensures !IsChat(o, x) {
      var j :| 0 <= j < |page| && page[j] == x;
      assert j < i;
    }
    assert page[i] in page;
  }

  lemma InsertKeepsExact(o: Options, start: int, st: State, m: Message)
    requires Exact(o, start, st) && Legal(o, st, Inserted(m))
    ensures Exact(o, start, Step(o, st, Inserted(m)))
  {
    var rows := st.rows + [m];
    assert forall x :: x in rows <==> x in st.rows || x == m;
    if st.reader.cursor != start {
      var x :| x in st.rows && x.room == o.room && x.num == st.reader.cursor;
      assert x in rows;
    }
  }

  lemma {:induction false} RetainedMembers(rows: seq<Message>, gone: set<string>, room: RoomId, cursor: int)
    ensures forall m :: m in Retained(rows, gone, room, cursor) <==> m in rows && !(m.id in gone && (m.room != room || cursor < m.num))
    decreases rows
  {
    if rows != [] {
      RetainedMembers(rows[1..], gone, room, cursor);
      assert rows == [rows[0]] + rows[1..];
    }
  }

  lemma {:induction false} RetainedOrdered(rows: seq<Message>, gone: set<string>, room: RoomId, cursor: int)
    requires Ordered(rows)
    ensures Ordered(Retained(rows, gone, room, cursor))
    decreases rows
  {
    if rows != [] {
      var rest := Retained(rows[1..], gone, room, cursor);
      RetainedMembers(rows[1..], gone, room, cursor);
      RetainedOrdered(rows[1..], gone, room, cursor);
      forall i | 0 <= i < |rest| && rest[i].room == rows[0].room ensures rows[0].num < rest[i].num {
        assert rest[i] in rest;
        var k :| 0 <= k < |rows[1..]| && rows[1..][k] == rest[i];
        assert rows[k + 1] == rest[i];
      }
    }
  }

  lemma PurgeKeepsExact(o: Options, start: int, st: State, gone: set<string>)
    requires Exact(o, start, st)
    ensures Exact(o, start, Step(o, st, Purged(gone)))
  {
    RetainedMembers(st.rows, gone, o.room, st.reader.cursor);
    RetainedOrdered(st.rows, gone, o.room, st.reader.cursor);
    if st.reader.cursor != start {
      var m :| m in st.rows && m.room == o.room && m.num == st.reader.cursor;
      assert m in Retained(st.rows, gone, o.room, st.reader.cursor);
    }
  }

  /** Not a live push that skips an unread deliverable row. */
  ghost predicate SkipsNothing(o: Options, st: State, e: Event) {
    e.Pushed? && !st.reader.ended ==> NothingBelow(o, st, e.m)
  }

  /** A live push is of a row that retention has not taken away since. */
  predicate PushesRow(st: State, e: Event) {
    e.Pushed? ==> e.m in st.rows
  }

  lemma StepExactIff(o: Options, start: int, st: State, e: Event)
    requires Exact(o, start, st) && Legal(o, st, e) && PushesRow(st, e)
    ensures Exact(o, start, Step(o, st, e)) <==> SkipsNothing(o, st, e)
  {
    match e
    case Inserted(m) => InsertKeepsExact(o, start, st, m);
    case Purged(gone) => PurgeKeepsExact(o, start, st, gone);
    case Pulled => PullKeepsExact(o, start, st);
    case LookedBack => LookBackKeepsExact(o, start, st);
    case Pushed(m) => if !st.reader.ended { HandOverIff(o, start, st, m); }
    case _ =>
  }

  ghost predicate ExactThroughout(o: Options, start: int, run: History, last: State) {
    Exact(o, start, last) && forall i :: 0 <= i < |run| ==> Exact(o, start, run[i].st)
  }

  /** Across any number of reconnects, the output is exact at every point of a run if and
      only if no live push skipped an unread deliverable row. */
  lemma ExactThroughoutIff(o: Options, start: int, first: State, run: History, last: State)
    requires Exact(o, start, first) && IsHistory(o, first, run, last)
    requires forall i :: 0 <= i < |run| ==> PushesRow(run[i].st, run[i].e)
    ensures ExactThroughout(o, start, run, last) <==> (forall i :: 0 <= i < |run| ==> SkipsNothing(o, run[i].st, run[i].e))
  {
    var leads := (st: State, e: Event, next: State) => LeadsTo(o, st, e, next) && PushesRow(st, e);
    var exact := (st: State) => Exact(o, start, st);
    var keeps := (st: State, e: Event) => SkipsNothing(o, st, e);
    var anything := (st: State) => true;
    forall st, e, next | leads(st, e, next) && exact(st) ensures exact(next) <==> keeps(st, e) { StepExactIff(o, start, st, e); }
    forall i | 0 <= i < |run| ensures LeadsOn(leads, run, last, i) { assert LeadsOn(Steps(o), run, last, i); }
    ThroughoutIff(leads, anything, exact, keeps, first, run, last);
  }

  /** From any starting cursor, such a run prints exactly the deliverable rows past it up to
      where the reader is, in order, each once: those that retention did not take before
      they were read, up to the first end of conversation. */
  lemma FollowsExactly(o: Options, start: int, rows: seq<Message>, run: History, last: State)
    requires Ordered(rows) && IsHistory(o, Starting(rows, start), run, last)
    requires forall i :: 0 <= i < |run| ==> PushesRow(run[i].st, run[i].e) && SkipsNothing(o, run[i].st, run[i].e)
    ensures last.reader.output == Delivered(o, last.rows, start, last.reader.cursor) && OutputOk(o, start, last.reader)
  {
    ExactThroughoutIff(o, start, Starting(rows, start), run, last);
    DeliveredExact(o, last.rows, start, last.reader.cursor);
    AscendingRises(last.reader.output);
    AscendingRises(Delivered(o, last.rows, start, last.reader.cursor));
    RisingUnique(NumOf(), last.reader.output, Delivered(o, last.rows, start, last.reader.cursor));
  }

  /** Why a row of the room is not printed: no chat, the reader's own, or filtered out. */
  predicate Passed(o: Options, m: Message) {
    || m.metaType == Some("thinking") || m.metaType == Some("system")
    || m.agentId == o.agentId || (m.agentName == o.agentName && !o.stableIdentity)
    || (o.onlyFrom.Some? && o.onlyFrom != Some(m.agentName))
    || o.notFrom == Some(m.agentName)
    || (o.onlyKind.Some? && o.onlyKind != m.kind)
  }

  lemma DeliverableUnlessPassed(o: Options, m: Message)
    ensures Deliverable(o, m) <==> !Passed(o, m)
  {
  }

  /** In every run, what is printed is of the room, past the start, and nothing the options
      pass over; a conversation end is printed last, and only then is the reader done. */
  lemma PrintedSuits(o: Options, start: int, rows: seq<Message>, run: History, last: State)
    requires IsHistory(o, Starting(rows, start), run, last)
    ensures forall m :: m in last.reader.output ==> m.room == o.room && start < m.num <= last.reader.cursor && !Passed(o, m)
    ensures forall i :: 0 <= i < |last.reader.output| - 1 ==> last.reader.output[i].kind != Some("conversation_end")
    ensures last.reader.ended <==>
      last.reader.output != [] && last.reader.output[|last.reader.output| - 1].kind == Some("conversation_end")
  {
    OutputsIncrease(o, start, Starting(rows, start), run, last);
    forall m | m in last.reader.output ensures !Passed(o, m) { DeliverableUnlessPassed(o, m); }
  }

  /** If no push skips an unread row that is to be printed, a row of the room is printed if and
      only if it lies past the start, the reader has got to it, and the options do not pass it over. */
  lemma PrintedIff(o: Options, start: int, rows: seq<Message>, run: History, last: State, m: Message)
    requires Ordered(rows) && IsHistory(o, Starting(rows, start), run, last)
    requires forall i :: 0 <= i < |run| ==> PushesRow(run[i].st, run[i].e) && SkipsNothing(o, run[i].st, run[i].e)
    requires m in last.rows && m.room == o.room
    ensures m in last.reader.output <==> start < m.num <= last.reader.cursor && !Passed(o, m)
  {
    ExactThroughoutIff(o, start, Starting(rows, start), run, last);
    DeliverableUnlessPassed(o, m);
  }

  // --- Progress and loss ---

  lemma {:induction false} HandleAllReaches(o: Options, r: Reader, page: seq<Message>)
    requires Ascending(page) && page != [] && r.cursor < page[0].num
    ensures var after := HandleAll(o, r, page);
      after.ended || after.cursor == page[|page| - 1].num
    decreases page
  {
    if !r.ended {
      var next := Handle(o, r, page[0]);
      if |page| > 1 {
        assert page[0].num < page[1].num;
        HandleAllReaches(o, next, page[1..]);
      }
    } else {
      EndedStays(o, r, page);
    }
  }

  lemma {:induction false} EndedStays(o: Options, r: Reader, page: seq<Message>)
    requires r.ended
    ensures HandleAll(o, r, page) == r
  {
    if page != [] { EndedStays(o, r, page[1..]); }
  }

  /** No row pins the reader: each pull takes up to 500 rows off the unread ones, whatever
      they are, unless the conversation ends. */
  lemma PullAdvances(o: Options, rows: seq<Message>, r: Reader)
    requires Ordered(rows)
    ensures var unread := Past(rows, o.room, r.cursor);
      var after := Pull(o, rows, r);
      after.ended || Past(rows, o.room, after.cursor) == if |unread| <= FOLLOW_PAGE then [] else unread[FOLLOW_PAGE..]
  {
    var unread := Past(rows, o.room, r.cursor);
    var page := Take(unread, FOLLOW_PAGE);
    TakeAscending(rows, o.room, r.cursor, FOLLOW_PAGE);
    AscendingRises(page);
    SortFixed(NumOf(), page);
    if page != [] {
      assert page[0] in page;
      HandleAllReaches(o, r, page);
      PageContinues(rows, o.room, r.cursor, |page|);
    }
  }

  /** Whatever is pushed, the reader gets to it ... */
  lemma PushReaches(o: Options, st: State, m: Message)
    requires !st.reader.ended
    ensures Step(o, st, Pushed(m)).reader.cursor == if st.reader.cursor < m.num then m.num else st.reader.cursor
  {
  }

  /** ... and looking back gets on whenever the backlog has a chat. */
  lemma LookBackReaches(o: Options, st: State, x: Message)
    requires !st.reader.ended && IsChat(o, x)
    requires x in Take(Past(st.rows, o.room, st.reader.cursor), WAIT_PAGE)
    ensures Step(o, st, LookedBack).reader.cursor > st.reader.cursor
  {
    var page := Take(Past(st.rows, o.room, st.reader.cursor), WAIT_PAGE);
    ChatIsFound(o, page, x);
    FirstChatAmong(o, page);
    PageIsPast(st.rows, o.room, st.reader.cursor, WAIT_PAGE, FirstChat(o, page).value);
  }

  lemma PageIsPast(rows: seq<Message>, room: RoomId, floor: int, limit: nat, m: Message)
    requires m in Take(Past(rows, room, floor), limit)
    ensures m in rows && m.room == room && floor < m.num
  {
    PastMembers(rows, room, floor);
    assert m in Past(rows, room, floor);
  }

  lemma {:induction false} ChatIsFound(o: Options, page: seq<Message>, x: Message)
    requires x in page && IsChat(o, x)
    ensures FirstChat(o, page).Some?
  {
    if !IsChat(o, page[0]) { ChatIsFound(o, page[1..], x); }
  }

  /** A row that the cursor has passed without printing it is never printed. */
  lemma SkippedForever(o: Options, start: int, st: State, run: History, last: State, lost: Message)
    requires OutputOk(o, start, st.reader) && IsHistory(o, st, run, last)
    requires lost.num <= st.reader.cursor && lost !in st.reader.output
    ensures lost !in last.reader.output
  {
    OutputsIncrease(o, start, st, run, last);
    var before, after := st.reader.output, last.reader.output;
    forall i | 0 <= i < |after| ensures after[i] != lost {
      assert i < |before| ==> before[i] == after[i] && before[i] in before;
    }
  }

  const MINE := Options("r", true, "me", "me", None, None, None)
  const FIRST := Message("a", "r", 1, "you", "you", None, None)
  const SECOND := Message("b", "r", 2, "you", "you", None, None)

  /** `m` is retained, wanted, and never printed whatever happens from here. */
  ghost predicate LostForGood(o: Options, st: State, m: Message) {
    && m in st.rows && m.room == o.room && Deliverable(o, m)
    && forall run, last :: IsHistory(o, st, run, last) ==> m !in last.reader.output
  }

  /** Two messages arrive while the reader waits, and the second is pushed to it first. */
  lemma PushOvertakes()
    ensures exists run, last :: IsHistory(MINE, Starting([], 0), run, last) && LostForGood(MINE, last, FIRST)
  {
    var empty, one, both := Starting([], 0), Starting([FIRST], 0), Starting([FIRST, SECOND], 0);
    var last := State([FIRST, SECOND], Reader(2, [SECOND], false));
    var run := [Moment(empty, Inserted(FIRST)), Moment(one, Inserted(SECOND)), Moment(both, Pushed(SECOND))];
    assert [] + [FIRST] == [FIRST] && [FIRST] + [SECOND] == [FIRST, SECOND] && [] + [SECOND] == [SECOND];
    assert Step(MINE, empty, Inserted(FIRST)) == one && Step(MINE, one, Inserted(SECOND)) == both;
    assert Step(MINE, both, Pushed(SECOND)) == last;
    assert IsHistory(MINE, empty, run, last);
    assert OutputOk(MINE, 0, last.reader) && FIRST !in last.reader.output && FIRST in last.rows;
    forall more, later | IsHistory(MINE, last, more, later) ensures FIRST !in later.reader.output {
      SkippedForever(MINE, 0, last, more, later, FIRST);
    }
    assert LostForGood(MINE, last, FIRST);
  }

  /** The follower process: its cursor and what it has printed. */
  class Follower {
    const options: Options
    var cursor: int
    var output: seq<Message>
    var ended: bool

    ghost function View(): Reader
      reads this
    {
      Reader(cursor, output, ended)
    }

    constructor (options: Options, start: int)
      ensures this.options == options && View() == Reader(start, [], false)
    {
      this.options := options;
      cursor, output, ended := start, [], false;
    }

    method RunBatch(batch: seq<Message>)
      requires !ended
      modifies this
      ensures View() == HandleAll(options, old(View()), batch)
    {
      var i := 0;
      assert batch[0..] == batch;
      while i < |batch|
        invariant 0 <= i <= |batch| && !ended
        invariant HandleAll(options, View(), batch[i..]) == HandleAll(options, old(View()), batch)
      {
        var m := batch[i];
        assert batch[i..][1..] == batch[i + 1..];
        i := i + 1;
        if m.num <= cursor { continue; }
        if m.metaType == Some("thinking") { cursor := m.num; continue; }
        if m.metaType == Some("system") || IsSelf(options, m) { cursor := m.num; continue; }
        if (options.onlyFrom.Some? && m.agentName != options.onlyFrom.value)
           || (options.notFrom.Some? && m.agentName == options.notFrom.value)
           || (options.onlyKind.Some? && m.kind != Some(options.onlyKind.value)) {
          cursor := m.num;
          continue;
        }
        output := output + [m];
        cursor := m.num;
        if m.kind == Some("conversation_end") {
          ended := true;
          EndedStays(options, View(), batch[i..]);
          return;
        }
      }
    }

    method PullHistory(store: Store)
      requires !ended && Ordered(store.rows)
      modifies this
      ensures View() == Pull(options, store.rows, old(View()))
    {
      var batch := store.GetHistory(options.room, cursor, FOLLOW_PAGE);
      RunBatch(Sort(NumOf(), batch));
    }

    /** The wait: the first chat of the backlog, else the pushed message, else nothing. */
    method WaitForMessage(store: Store, push: Option<Message>) returns (m: Option<Message>)
      ensures var found := FirstChat(options, Take(Past(store.rows, options.room, cursor), WAIT_PAGE));
        m == if found.Some? then found
             else if push.Some? && push.value.room == options.room && push.value.metaType != Some("system") && !IsSelf(options, push.value)
             then push else None
    {
      var backlog := store.GetHistory(options.room, cursor, WAIT_PAGE);
      var i := 0;
      assert backlog[0..] == backlog;
      while i < |backlog|
        invariant 0 <= i <= |backlog| && FirstChat(options, backlog[i..]) == FirstChat(options, backlog)
      {
        assert backlog[i..][1..] == backlog[i + 1..];
        if IsChat(options, backlog[i]) { return Some(backlog[i]); }
        i := i + 1;
      }
      if push.Some? && push.value.room == options.room && push.value.metaType != Some("system") && !IsSelf(options, push.value) {
        return push;
      }
      m := None;
    }
  }
}
