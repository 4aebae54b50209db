/**
The durable message log: the `messages` and `room_sequences` tables, their two
triggers, retention, re-opening, and the paged history query.
*/
module MessageStore {
  import opened Wrappers
  import opened Maps

  type RoomId = string

  /** A stored chat message. `num` is its per-room sequence number; `metaType` and
      `kind` are the two metadata fields that readers look at. */
  datatype Message = Message(
    id: string, room: RoomId, num: int, agentId: string, agentName: string,
    metaType: Option<string>, kind: Option<string>)

  datatype InsertError = NoSuchRoom | DuplicateId | BelowHighWater

  /** Rows in insertion order, and the high-water counter of each room. */
  datatype Log = Log(rooms: set<RoomId>, rows: seq<Message>, tips: map<RoomId, int>)

  function Tip(log: Log, room: RoomId): int {
    if room in log.tips then log.tips[room] else 0
  }

  /** A raw INSERT as the two triggers and the key constraints see it. */
  function RawInsert(log: Log, m: Message): Result<Log, InsertError> {
    if m.room !in log.rooms then Err(NoSuchRoom)
    else if HasId(log.rows, m.id) then Err(DuplicateId)
    else if m.num <= Tip(log, m.room) then Err(BelowHighWater)
    else Ok(log.(rows := log.rows + [m], tips := log.tips[m.room := m.num]))
  }

  predicate HasId(rows: seq<Message>, id: string) {
    exists m :: m in rows && m.id == id
  }

  /** The message `insert_message` stores: the draft, numbered one above the tip. */
  function Numbered(log: Log, draft: Message): Message {
    draft.(num := Tip(log, draft.room) + 1)
  }

  function InsertMessage(log: Log, draft: Message): Result<Log, InsertError> {
    RawInsert(log, Numbered(log, draft))
  }

  /** Retention deletes rows and leaves the counters alone. */
  function Purge(log: Log, gone: set<string>): Log {
    log.(rows := Without(log.rows, gone))
  }

  function Without(rows: seq<Message>, gone: set<string>): seq<Message> {
    if rows == [] then []
    else (if rows[0].id in gone then [] else [rows[0]]) + Without(rows[1..], gone)
  }

  /** Opening the database seeds each room's counter from the retained rows. */
  ghost function Reopen(log: Log): Log {
    log.(tips := log.tips + Tabulate(log.rooms, r => Seed(log, r)))
  }

  function Seed(log: Log, room: RoomId): int {
    var high := HighestNum(log.rows, room);
    if room in log.tips then Max(log.tips[room], high) else high
  }

  function Max(a: int, b: int): int { if a < b then b else a }

  /** COALESCE(MAX(seq), 0) over a room's retained rows; stored numbers are positive. */
  function HighestNum(rows: seq<Message>, room: RoomId): int {
    if rows == [] then 0
    else Max(if rows[0].room == room then rows[0].num else 0, HighestNum(rows[1..], room))
  }

  // --- What every store operation keeps ---

  ghost predicate Ordered(rows: seq<Message>) {
    forall i, j :: 0 <= i < j < |rows| && rows[i].room == rows[j].room ==> rows[i].num < rows[j].num
  }

  ghost predicate LogOk(log: Log) {
    && Ordered(log.rows)
    && DistinctIds(log.rows)
    && (forall m :: m in log.rows ==> m.room in log.rooms && 1 <= m.num <= Tip(log, m.room))
    && (forall r :: r in log.tips ==> r in log.rooms && 0 <= log.tips[r])
  }

  /** (room, number) is a key. */
  lemma SameRow(rows: seq<Message>, a: Message, b: Message)
    requires Ordered(rows) && a in rows && b in rows
    requires a.room == b.room && a.num == b.num
    ensures a == b
  {
    var i :| 0 <= i < |rows| && rows[i] == a;
    var j :| 0 <= j < |rows| && rows[j] == b;
    assert i == j;
  }

  lemma {:induction false} WithoutMembers(rows: seq<Message>, gone: set<string>)
    ensures forall m :: m in Without(rows, gone) <==> m in rows && m.id !in gone
  {
    if rows != [] {
      WithoutMembers(rows[1..], gone);
      assert rows == [rows[0]] + rows[1..];
    }
  }

  ghost predicate DistinctIds(rows: seq<Message>) {
    forall i, j :: 0 <= i < j < |rows| ==> rows[i].id != rows[j].id
  }

  lemma {:induction false} WithoutOrdered(rows: seq<Message>, gone: set<string>)
    requires Ordered(rows)
    ensures Ordered(Without(rows, gone))
  {
    if rows != [] {
      var rest, kept := rows[1..], Without(rows[1..], gone);
      WithoutOrdered(rest, gone);
      WithoutMembers(rest, gone);
      forall i | 0 <= i < |kept| && kept[i].room == rows[0].room ensures rows[0].num < kept[i].num {
        assert kept[i] in kept;
        var k :| 0 <= k < |rest| && rest[k] == kept[i];
        assert rows[k + 1] == kept[i];
      }
    }
  }

  lemma {:induction false} WithoutDistinct(rows: seq<Message>, gone: set<string>)
    requires DistinctIds(rows)
    ensures DistinctIds(Without(rows, gone))
  {
    if rows != [] {
      var rest, kept := rows[1..], Without(rows[1..], gone);
      WithoutDistinct(rest, gone);
      WithoutMembers(rest, gone);
      forall i | 0 <= i < |kept| ensures kept[i].id != rows[0].id {
        assert kept[i] in kept;
        var k :| 0 <= k < |rest| && rest[k] == kept[i];
        assert rows[k + 1] == kept[i];
      }
    }
  }

  lemma {:induction false} HighestNumBound(rows: seq<Message>, room: RoomId, bound: int)
    requires 0 <= bound
    requires forall m :: m in rows && m.room == room ==> m.num <= bound
    ensures 0 <= HighestNum(rows, room) <= bound
  {
    if rows != [] { HighestNumBound(rows[1..], room, bound); }
  }

  /** An accepted insert keeps the log well formed, lands above every earlier number
      of its room, and moves that room's tip to exactly its own number. */
  lemma RawInsertKeepsLog(log: Log, m: Message)
    requires LogOk(log)
    requires RawInsert(log, m).Ok?
    ensures LogOk(RawInsert(log, m).value)
    ensures Tip(log, m.room) < m.num == Tip(RawInsert(log, m).value, m.room)
    ensures forall r :: r != m.room ==> Tip(RawInsert(log, m).value, r) == Tip(log, r)
  {
    var after := RawInsert(log, m).value;
    forall x | x in after.rows ensures x.room in after.rooms && 1 <= x.num <= Tip(after, x.room) {
      if x in log.rows { assert x.num <= Tip(log, x.room); }
    }
    assert forall i :: 0 <= i < |log.rows| ==> log.rows[i] in log.rows;
  }

  /** A number allocated by `insert_message` is never refused: storing a message fails only for
      an unknown room or a repeated id. */
  lemma InsertedIff(log: Log, draft: Message)
    ensures var r := InsertMessage(log, draft);
      && (r.Ok? <==> draft.room in log.rooms && forall m :: m in log.rows ==> m.id != draft.id)
      && (r.Err? ==> r.error == if draft.room in log.rooms then DuplicateId else NoSuchRoom)
      && (r.Ok? ==> r.value.rows == log.rows + [draft.(num := Tip(log, draft.room) + 1)])
  {
  }

  lemma PurgeKeepsLog(log: Log, gone: set<string>)
    requires LogOk(log)
    ensures LogOk(Purge(log, gone))
  {
    WithoutMembers(log.rows, gone);
    WithoutOrdered(log.rows, gone);
    WithoutDistinct(log.rows, gone);
  }

  /** On a log the server wrote, re-opening changes no tip: retention may have removed
      every row, and the counter still does not fall back. */
  lemma ReopenKeepsTips(log: Log)
    requires LogOk(log)
    ensures LogOk(Reopen(log))
    ensures forall r :: Tip(Reopen(log), r) == Tip(log, r)
  {
    TabulateExact(log.rooms, r => Seed(log, r));
    forall r ensures Tip(Reopen(log), r) == Tip(log, r) && HighestNum(log.rows, r) <= Tip(log, r) {
      HighestNumBound(log.rows, r, Tip(log, r));
    }
  }

  // --- Runs of the store ---

  /** `Legacy` is an insert by an older binary, which picks its own number. */
  datatype StoreEvent =
    | Insert(draft: Message)
    | Legacy(row: Message)
    | Expire(gone: set<string>)
    | Open

  ghost function StoreStep(log: Log, e: StoreEvent): (Log, seq<Message>) {
    match e
    case Insert(draft) =>
      (match InsertMessage(log, draft)
       case Ok(after) => (after, [Numbered(log, draft)])
       case Err(_) => (log, []))
    case Legacy(row) =>
      (match RawInsert(log, row)
       case Ok(after) => (after, [row])
       case Err(_) => (log, []))
    case Expire(gone) => (Purge(log, gone), [])
    case Open => (Reopen(log), [])
  }

  ghost function StoreRun(log: Log, events: seq<StoreEvent>): Log
    decreases events
  {
    if events == [] then log else StoreRun(StoreStep(log, events[0]).0, events[1..])
  }

  /** Every row accepted during the run, in order, whether or not it was retained. */
  ghost function Accepted(log: Log, events: seq<StoreEvent>): seq<Message>
    decreases events
  {
    if events == [] then []
    else
      var (after, row) := StoreStep(log, events[0]);
      row + Accepted(after, events[1..])
  }

  lemma StoreStepKeepsLog(log: Log, e: StoreEvent)
    requires LogOk(log)
    ensures LogOk(StoreStep(log, e).0)
    ensures forall r :: Tip(log, r) <= Tip(StoreStep(log, e).0, r)
    ensures forall m :: m in StoreStep(log, e).1 ==>
      Tip(log, m.room) < m.num == Tip(StoreStep(log, e).0, m.room)
    ensures |StoreStep(log, e).1| <= 1
  {
    match e
    case Insert(draft) => if InsertMessage(log, draft).Ok? { RawInsertKeepsLog(log, Numbered(log, draft)); }
    case Legacy(row) => if RawInsert(log, row).Ok? { RawInsertKeepsLog(log, row); }
    case Expire(gone) => PurgeKeepsLog(log, gone);
    case Open => ReopenKeepsTips(log);
  }

  /** Over any run of inserts, older-binary inserts, purges and re-opens: the numbers
      accepted in a room only ever increase, all lie above the tip the run started
      from and none above the tip it ends at, and no tip falls. */
  lemma {:induction false} AcceptedNumbersIncrease(log: Log, events: seq<StoreEvent>)
    requires LogOk(log)
    ensures LogOk(StoreRun(log, events))
    ensures Ordered(Accepted(log, events))
    ensures forall m :: m in Accepted(log, events) ==>
      Tip(log, m.room) < m.num <= Tip(StoreRun(log, events), m.room)
    ensures forall r :: Tip(log, r) <= Tip(StoreRun(log, events), r)
    decreases events
  {
    if events != [] {
      var (after, row) := StoreStep(log, events[0]);
      StoreStepKeepsLog(log, events[0]);
      AcceptedNumbersIncrease(after, events[1..]);
      var later := Accepted(after, events[1..]);
      assert forall i :: 0 <= i < |later| ==> later[i] in later;
      assert |row| == 1 ==> row[0] in row;
    }
  }

  /** A room's tip is the highest number ever accepted there, so `insert_message`
      continues from that row even when retention has deleted it. */
  lemma {:induction false} TipIsHighestAccepted(log: Log, events: seq<StoreEvent>, room: RoomId)
    requires LogOk(log)
    ensures Tip(StoreRun(log, events), room) == Max(Tip(log, room), HighestNum(Accepted(log, events), room))
    decreases events
  {
    if events == [] {
      assert 0 <= Tip(log, room);
    } else {
      var (after, row) := StoreStep(log, events[0]);
      StoreStepKeepsLog(log, events[0]);
      TipIsHighestAccepted(after, events[1..], room);
      var later := Accepted(after, events[1..]);
      assert 0 <= Tip(log, room) <= Tip(after, room);
      if row == [] {
        StepWithoutRow(log, events[0], room);
        assert row + later == later;
      } else {
        assert (row + later)[1..] == later && row[0] in row;
        StepWithRow(log, events[0], room);
      }
    }
  }

  lemma StepWithRow(log: Log, e: StoreEvent, room: RoomId)
    requires LogOk(log) && StoreStep(log, e).1 != []
    ensures var m := StoreStep(log, e).1[0];
      Tip(StoreStep(log, e).0, room) == if m.room == room then m.num else Tip(log, room)
  {
    RawInsertKeepsLog(log, StoreStep(log, e).1[0]);
  }

  /** Only an accepted insert moves a tip. */
  lemma StepWithoutRow(log: Log, e: StoreEvent, room: RoomId)
    requires LogOk(log)
    requires StoreStep(log, e).1 == []
    ensures Tip(StoreStep(log, e).0, room) == Tip(log, room)
  {
    if e.Open? { ReopenKeepsTips(log); }
  }

  // --- History ---

  /** Rows of `room` numbered above `floor`, in number order. */
  function Past(rows: seq<Message>, room: RoomId, floor: int): seq<Message> {
    if rows == [] then []
    else (if rows[0].room == room && floor < rows[0].num then [rows[0]] else []) + Past(rows[1..], room, floor)
  }

  function Take<T>(s: seq<T>, limit: nat): seq<T> {
    if |s| <= limit then s else s[..limit]
  }

  ghost predicate Ascending(rows: seq<Message>) {
    forall i, j :: 0 <= i < j < |rows| ==> rows[i].num < rows[j].num
  }

  lemma {:induction false} PastMembers(rows: seq<Message>, room: RoomId, floor: int)
    ensures forall m :: m in Past(rows, room, floor) <==> m in rows && m.room == room && floor < m.num
  {
    if rows != [] {
      PastMembers(rows[1..], room, floor);
      assert rows == [rows[0]] + rows[1..];
    }
  }

  /** The history query's ORDER BY: insertion order already is number order. */
  lemma {:induction false} PastAscending(rows: seq<Message>, room: RoomId, floor: int)
    requires Ordered(rows)
    ensures Ascending(Past(rows, room, floor))
  {
    if rows != [] {
      var rest := rows[1..];
      PastAscending(rest, room, floor);
      PastMembers(rest, room, floor);
      var tail := Past(rest, room, floor);
      forall i | 0 <= i < |tail| && rows[0].room == room ensures rows[0].num < tail[i].num {
        assert tail[i] in tail;
        var k :| 0 <= k < |rest| && rest[k] == tail[i];
        assert rows[k + 1] == tail[i];
      }
    }
  }

  lemma {:induction false} PastConcat(a: seq<Message>, b: seq<Message>, room: RoomId, floor: int)
    ensures Past(a + b, room, floor) == Past(a, room, floor) + Past(b, room, floor)
  {
    if a == [] {
      assert a + b == b;
    } else {
      assert (a + b)[1..] == a[1..] + b;
      PastConcat(a[1..], b, room, floor);
    }
  }

  lemma {:induction false} PastTighten(rows: seq<Message>, room: RoomId, low: int, high: int)
    requires low <= high
    ensures Past(Past(rows, room, low), room, high) == Past(rows, room, high)
  {
    if rows != [] {
      PastTighten(rows[1..], room, low, high);
      var head := if rows[0].room == room && low < rows[0].num then [rows[0]] else [];
      PastConcat(head, Past(rows[1..], room, low), room, high);
      if head != [] { assert head[1..] == []; }
    }
  }

  lemma {:induction false} PastAll(rows: seq<Message>, room: RoomId, floor: int)
    requires forall m :: m in rows ==> m.room == room && floor < m.num
    ensures Past(rows, room, floor) == rows
  {
    if rows != [] { PastAll(rows[1..], room, floor); }
  }

  lemma {:induction false} PastNone(rows: seq<Message>, room: RoomId, floor: int)
    requires forall m :: m in rows ==> m.num <= floor
    ensures Past(rows, room, floor) == []
  {
    if rows != [] { PastNone(rows[1..], room, floor); }
  }

  /** Continuing from the last row of a page yields exactly the rows after that page. */
  lemma PageContinues(rows: seq<Message>, room: RoomId, floor: int, n: nat)
    requires Ordered(rows)
    requires 0 < n <= |Past(rows, room, floor)|
    ensures Past(rows, room, Past(rows, room, floor)[n - 1].num) == Past(rows, room, floor)[n..]
  {
    var all := Past(rows, room, floor);
    var last := all[n - 1].num;
    PastMembers(rows, room, floor);
    PastAscending(rows, room, floor);
    assert all[n - 1] in all;
    PastTighten(rows, room, floor, last);
    PageSplits(all, room, n);
  }

  lemma PageSplits(all: seq<Message>, room: RoomId, n: nat)
    requires Ascending(all) && 0 < n <= |all| && forall m :: m in all ==> m.room == room
    ensures Past(all, room, all[n - 1].num) == all[n..]
  {
    var last := all[n - 1].num;
    assert all == all[..n] + all[n..];
    PastConcat(all[..n], all[n..], room, last);
    PastNone(all[..n], room, last);
    PastAll(all[n..], room, last);
  }

  /** One more row looked at. */
  lemma PastFrom(rows: seq<Message>, i: nat, room: RoomId, floor: int, page: seq<Message>)
    requires i < |rows|
    ensures page + Past(rows[i..], room, floor) ==
      (if rows[i].room == room && floor < rows[i].num then page + [rows[i]] else page) + Past(rows[i + 1..], room, floor)
  {
    assert rows[i..][1..] == rows[i + 1..];
  }

  /** The message tables, updated in place. */
  class Store {
    var rooms: set<RoomId>
    var rows: seq<Message>
    var tips: map<RoomId, int>

    ghost function View(): Log
      reads this
    {
      Log(rooms, rows, tips)
    }

    constructor (initial: set<RoomId>)
      ensures View() == Log(initial, [], map[]) && LogOk(View())
    {
      rooms, rows, tips := initial, [], map[];
    }

    method RoomTip(room: RoomId) returns (tip: int)
      ensures tip == Tip(View(), room)
    {
      tip := if room in tips then tips[room] else 0;
    }

    /** Allocates the next number and inserts, in one transaction. */
    method Insert(draft: Message) returns (r: Result<Message, InsertError>)
      modifies this
      ensures r.Ok? <==> InsertMessage(old(View()), draft).Ok?
      ensures r.Ok? ==> r.value == Numbered(old(View()), draft) && InsertMessage(old(View()), draft) == Ok(View())
      ensures r.Err? ==> InsertMessage(old(View()), draft) == Err(r.error) && unchanged(this)
    {
      var num := (if draft.room in tips then tips[draft.room] else 0) + 1;
      var m := draft.(num := num);
      if m.room !in rooms { return Err(NoSuchRoom); }
      if exists x :: x in rows && x.id == m.id { return Err(DuplicateId); }
      rows := rows + [m];
      tips := tips[m.room := num];
      r := Ok(m);
    }

    method PurgeRows(gone: set<string>)
      modifies this`rows
      ensures View() == Purge(old(View()), gone)
    {
      rows := Without(rows, gone);
    }

    /** One page of history: at most `limit` rows past `floor`, oldest first. */
    method GetHistory(room: RoomId, floor: int, limit: nat) returns (page: seq<Message>)
      ensures page == Take(Past(rows, room, floor), limit)
    {
      page := [];
      var i := 0;
      assert rows[0..] == rows;
      while i < |rows| && |page| < limit
        invariant 0 <= i <= |rows| && |page| <= limit
        invariant Past(rows, room, floor) == page + Past(rows[i..], room, floor)
      {
        PastFrom(rows, i, room, floor, page);
        if rows[i].room == room && floor < rows[i].num { page := page + [rows[i]]; }
        i := i + 1;
      }
    }
  
    method GetMessage(id: string) returns (m: Option<Message>)
      ensures m.Some? <==> HasId(rows, id)
      ensures m.Some? ==> m.value in rows && m.value.id == id
    {
      if x :| x in rows && x.id == id { m := Some(x); } else { m := None; }
    }
  }
}
