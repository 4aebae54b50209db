/** Reconstructing reasoning threads from room history, one pass over the messages. */
module Lantern {
  import opened Wrappers
  import opened Sequences
  import opened Sorting

  /** A verb envelope: the fields that reconstruction reads. `delta` is a non-null
      `shared_state_delta`. */
  datatype Verb = Verb(verb: string, thread: Option<int>, from: string, basis: Option<string>, delta: Option<string>)

  datatype Parsed = Hello(agent: string) | Told(envelope: Verb)

  /** A history message: its seq, and what its content parses as, if anything. */
  datatype Entry = Entry(num: int, parsed: Option<Parsed>)

  datatype ThreadMessage = ThreadMessage(num: int, from: string, verb: string, basis: Option<string>)

  datatype ThreadState = Open | Resolved | Fused

  datatype Thread = Thread(id: int, messages: seq<ThreadMessage>, state: ThreadState, resolveBasis: Option<string>)

  datatype Reconstructed = Reconstructed(hellos: seq<(int, string)>, threads: seq<Thread>, sharedState: seq<string>, fuseCount: nat)

  predicate IsVerb(e: Entry) {
    e.parsed.Some? && e.parsed.value.Told?
  }

  /** An opening verb anchors a thread at its own seq; a reply names its thread. */
  function ThreadOf(e: Entry): int
    requires IsVerb(e)
  {
    var v := e.parsed.value.envelope;
    if v.thread.Some? then v.thread.value else e.num
  }

  function MessageOf(e: Entry): ThreadMessage
    requires IsVerb(e)
  {
    var v := e.parsed.value.envelope;
    ThreadMessage(e.num, v.from, v.verb, v.basis)
  }

  predicate Belongs(e: Entry, id: int) {
    IsVerb(e) && ThreadOf(e) == id
  }

  function NumOf(): ThreadMessage -> int {
    (m: ThreadMessage) => m.num
  }

  function Gathering(id: int): Entry -> seq<ThreadMessage> {
    (e: Entry) => if Belongs(e, id) then [MessageOf(e)] else []
  }

  /** The messages of a thread, in history order. */
  function Gathered(history: seq<Entry>, id: int): seq<ThreadMessage> {
    Join(Gathering(id), history)
  }

  predicate Says(messages: seq<ThreadMessage>, verb: string) {
    exists m :: m in messages && m.verb == verb
  }

  function StateOf(messages: seq<ThreadMessage>): ThreadState {
    if Says(messages, "FUSE") then Fused else if Says(messages, "RESOLVE") then Resolved else Open
  }

  /** The basis of the first RESOLVE. */
  function BasisOf(messages: seq<ThreadMessage>): Option<string> {
    if messages == [] then None
    else if messages[0].verb == "RESOLVE" then messages[0].basis
    else BasisOf(messages[1..])
  }

  function Built(id: int, gathered: seq<ThreadMessage>): Thread {
    var messages := Sort(NumOf(), gathered);
    Thread(id, messages, StateOf(messages), BasisOf(messages))
  }

  function ThreadIds(history: seq<Entry>): set<int> {
    set e | e in history && IsVerb(e) :: ThreadOf(e)
  }

  function HelloOf(e: Entry): seq<(int, string)> {
    if e.parsed.Some? && e.parsed.value.Hello? then [(e.num, e.parsed.value.agent)] else []
  }

  predicate IsFuse(e: Entry) {
    IsVerb(e) && e.parsed.value.envelope.verb == "FUSE"
  }

  function FuseOf(e: Entry): seq<Entry> {
    if IsFuse(e) then [e] else []
  }

  /** The committed shared-state delta of a FUSE. */
  function DeltaOf(e: Entry): seq<string> {
    if IsFuse(e) && e.parsed.value.envelope.delta.Some? then [e.parsed.value.envelope.delta.value] else []
  }

  predicate HasId(threads: seq<Thread>, id: int) {
    exists i :: 0 <= i < |threads| && threads[i].id == id
  }

  /** The threads of a history: one per id, in id order. */
  ghost predicate AreThreads(history: seq<Entry>, threads: seq<Thread>) {
    && (forall i, j :: 0 <= i < j < |threads| ==> threads[i].id < threads[j].id)
    && (forall id :: id in ThreadIds(history) <==> HasId(threads, id))
    && (forall i :: 0 <= i < |threads| ==> threads[i] == Built(threads[i].id, Gathered(history, threads[i].id)))
  }

  // --- The pass over history ---

  method Reconstruct(history: seq<Entry>) returns (r: Reconstructed)
    ensures AreThreads(history, r.threads)
    ensures r.hellos == Join(HelloOf, history) && r.sharedState == Join(DeltaOf, history) && r.fuseCount == |Join(FuseOf, history)|
  {
    var hellos: seq<(int, string)>, sharedState: seq<string>, fuseCount := [], [], 0;
    var byThread: map<int, seq<ThreadMessage>> := map[];
    for i := 0 to |history|
      invariant hellos == Join(HelloOf, history[..i]) && sharedState == Join(DeltaOf, history[..i])
      invariant fuseCount == |Join(FuseOf, history[..i])|
      invariant Grouped(history[..i], byThread)
    {
      var e := history[i];
      assert history[..i + 1] == history[..i] + [e];
      JoinAppend(HelloOf, history[..i], e);
      JoinAppend(DeltaOf, history[..i], e);
      JoinAppend(FuseOf, history[..i], e);
      GroupedAppend(history[..i], e, byThread);
      if e.parsed.Some? {
        match e.parsed.value
        case Hello(agent) => hellos := hellos + [(e.num, agent)];
        case Told(v) =>
          var tid := if v.thread.Some? then v.thread.value else e.num;
          if v.verb == "FUSE" {
            fuseCount := fuseCount + 1;
            if v.delta.Some? { sharedState := sharedState + [v.delta.value]; }
          }
          byThread := byThread[tid := (if tid in byThread then byThread[tid] else []) + [ThreadMessage(e.num, v.from, v.verb, v.basis)]];
      }
    }
    assert history[..|history|] == history;
    var threads := BuildThreads(byThread);
    r := Reconstructed(hellos, threads, sharedState, fuseCount);
  }

  /** The map holds every thread's messages so far, and no other thread. */
  ghost predicate Grouped(history: seq<Entry>, byThread: map<int, seq<ThreadMessage>>) {
    && byThread.Keys == ThreadIds(history)
    && forall id :: id in byThread ==> byThread[id] == Gathered(history, id)
  }

  lemma GatheredAppend(history: seq<Entry>, e: Entry, id: int)
    ensures Gathered(history + [e], id) == Gathered(history, id) + if Belongs(e, id) then [MessageOf(e)] else []
  {
    JoinAppend(Gathering(id), history, e);
  }

  lemma ThreadIdsAppend(history: seq<Entry>, e: Entry)
    ensures ThreadIds(history + [e]) == ThreadIds(history) + if IsVerb(e) then {ThreadOf(e)} else {}
  {
    assert forall x :: x in history + [e] <==> x in history || x == e;
  }

  lemma GroupedAppend(history: seq<Entry>, e: Entry, byThread: map<int, seq<ThreadMessage>>)
    requires Grouped(history, byThread)
    ensures !IsVerb(e) ==> Grouped(history + [e], byThread)
    ensures IsVerb(e) ==>
      Grouped(history + [e], byThread[ThreadOf(e) := (if ThreadOf(e) in byThread then byThread[ThreadOf(e)] else []) + [MessageOf(e)]])
  {
    ThreadIdsAppend(history, e);
    forall id ensures Gathered(history + [e], id) == Gathered(history, id) + if Belongs(e, id) then [MessageOf(e)] else [] {
      GatheredAppend(history, e, id);
    }
    if IsVerb(e) && ThreadOf(e) !in byThread { NoneGathered(history, ThreadOf(e)); }
  }

  lemma {:induction false} NoneGathered(history: seq<Entry>, id: int)
    requires id !in ThreadIds(history)
    ensures Gathered(history, id) == []
  {
    if history != [] {
      assert history[0] in history && forall e :: e in history[1..] ==> e in history;
      assert !Belongs(history[0], id);
      NoneGathered(history[1..], id);
    }
  }

  method Pick<T>(s: set<T>) returns (x: T)
    requires s != {}
    ensures x in s
  {
    x :| x in s;
  }

  method Lowest(ids: set<int>) returns (low: int)
    requires ids != {}
    ensures low in ids && forall id | id in ids :: low <= id
  {
    low := Pick(ids);
    var todo := ids - {low};
    while todo != {}
      invariant low in ids
      invariant todo <= ids
      invariant forall id | id in ids :: id in todo || low <= id
      decreases todo
    {
      var id := Pick(todo);
      todo := todo - {id};
      if id < low { low := id; }
    }
  }

  /** The sorted map's entries in key order, each built into a thread. */
  method BuildThreads(byThread: map<int, seq<ThreadMessage>>) returns (threads: seq<Thread>)
    ensures forall i, j :: 0 <= i < j < |threads| ==> threads[i].id < threads[j].id
    ensures forall id :: id in byThread <==> HasId(threads, id)
    ensures forall i :: 0 <= i < |threads| ==> threads[i].id in byThread && threads[i] == Built(threads[i].id, byThread[threads[i].id])
  {
    threads := [];
    var todo := byThread.Keys;
    while todo != {}
      invariant todo <= byThread.Keys
      invariant forall i, j :: 0 <= i < j < |threads| ==> threads[i].id < threads[j].id
      invariant forall i :: 0 <= i < |threads| ==> threads[i].id in byThread && threads[i] == Built(threads[i].id, byThread[threads[i].id])
      invariant forall id | id in byThread :: id in todo || HasId(threads, id)
      invariant forall i, id :: 0 <= i < |threads| && id in todo ==> threads[i].id < id
      decreases todo
    {
      var id := Lowest(todo);
      ghost var before := threads;
      threads := threads + [Built(id, byThread[id])];
      todo := todo - {id};
      assert threads[|before|].id == id;
      forall x | HasId(before, x) ensures HasId(threads, x) {
        var i :| 0 <= i < |before| && before[i].id == x;
        assert threads[i].id == x;
      }
    }
  }

  // --- What reconstruction means ---

  lemma GatheredExact(history: seq<Entry>, id: int)
    ensures forall m :: m in Gathered(history, id) <==> exists e :: e in history && Belongs(e, id) && MessageOf(e) == m
  {
    JoinMembers(Gathering(id), history);
    forall m ensures m in Gathered(history, id) <==> exists e :: e in history && Belongs(e, id) && MessageOf(e) == m {
      if m in Gathered(history, id) {
        var e :| e in history && m in Gathering(id)(e);
        assert Belongs(e, id) && MessageOf(e) == m;
      }
      if e :| e in history && Belongs(e, id) && MessageOf(e) == m {
        assert m in Gathering(id)(e);
      }
    }
  }

  /** Every verb message is in exactly one thread, the one it names or opens, and threads
      hold nothing else. */
  lemma EachVerbInOneThread(history: seq<Entry>, threads: seq<Thread>, e: Entry)
    requires AreThreads(history, threads) && e in history && IsVerb(e)
    ensures exists i :: 0 <= i < |threads| && threads[i].id == ThreadOf(e) && MessageOf(e) in threads[i].messages
    ensures forall i, j :: 0 <= i < |threads| && 0 <= j < |threads| && threads[i].id == threads[j].id ==> i == j
    ensures forall i, m :: 0 <= i < |threads| && m in threads[i].messages ==>
      exists x :: x in history && Belongs(x, threads[i].id) && MessageOf(x) == m
  {
    var id := ThreadOf(e);
    assert id in ThreadIds(history);
    var i :| 0 <= i < |threads| && threads[i].id == id;
    GatheredExact(history, id);
    SortExact(NumOf(), Gathered(history, id));
    assert Belongs(e, id) && MessageOf(e) in threads[i].messages;
    forall k, m | 0 <= k < |threads| && m in threads[k].messages
      ensures exists x :: x in history && Belongs(x, threads[k].id) && MessageOf(x) == m
    {
      GatheredExact(history, threads[k].id);
      SortExact(NumOf(), Gathered(history, threads[k].id));
    }
  }

  /** A thread is fused exactly when some FUSE belongs to it, resolved exactly when some
      RESOLVE does and no FUSE, and its messages are in seq order. */
  lemma ThreadStateIff(history: seq<Entry>, threads: seq<Thread>, i: nat)
    requires AreThreads(history, threads) && i < |threads|
    ensures SortedBy(NumOf(), threads[i].messages)
    ensures threads[i].state == Fused <==> exists e :: e in history && Belongs(e, threads[i].id) && MessageOf(e).verb == "FUSE"
    ensures threads[i].state != Open <==>
      exists e :: e in history && Belongs(e, threads[i].id) && (MessageOf(e).verb == "FUSE" || MessageOf(e).verb == "RESOLVE")
  {
    var id := threads[i].id;
    GatheredExact(history, id);
    SortExact(NumOf(), Gathered(history, id));
    assert forall m :: m in threads[i].messages <==> m in Gathered(history, id);
  }

  /** A message with these contents is in the thread. */
  predicate Holds(t: Thread, num: int, v: Verb) {
    exists m :: m in t.messages && m.num == num && m.from == v.from && m.verb == v.verb && m.basis == v.basis
  }

  /** A verb that names a thread is in that thread, one that names none opens the thread of its
      own number, and it is in no other. */
  lemma VerbIsPlaced(history: seq<Entry>, threads: seq<Thread>, e: Entry, v: Verb)
    requires AreThreads(history, threads) && e in history && e.parsed == Some(Told(v))
    ensures exists i :: 0 <= i < |threads| && threads[i].id == (if v.thread.Some? then v.thread.value else e.num) && Holds(threads[i], e.num, v)
    ensures DistinctKeys(NumOfEntry(), history) ==>
      forall i :: 0 <= i < |threads| && Holds(threads[i], e.num, v) ==> threads[i].id == if v.thread.Some? then v.thread.value else e.num
  {
    EachVerbInOneThread(history, threads, e);
    var i :| 0 <= i < |threads| && threads[i].id == ThreadOf(e) && MessageOf(e) in threads[i].messages;
    assert Holds(threads[i], e.num, v);
    if DistinctKeys(NumOfEntry(), history) {
      forall j | 0 <= j < |threads| && Holds(threads[j], e.num, v) ensures threads[j].id == ThreadOf(e) {
        var m :| m in threads[j].messages && m.num == e.num && m.from == v.from && m.verb == v.verb && m.basis == v.basis;
        var x :| x in history && Belongs(x, threads[j].id) && MessageOf(x) == m;
        SameNumber(history, x, e);
      }
    }
  }

  lemma SameNumber(history: seq<Entry>, x: Entry, e: Entry)
    requires DistinctKeys(NumOfEntry(), history) && x in history && e in history && x.num == e.num
    ensures x == e
  {
    var i :| 0 <= i < |history| && history[i] == x;
    var j :| 0 <= j < |history| && history[j] == e;
    assert NumOfEntry()(history[i]) == NumOfEntry()(history[j]);
  }

  /** A thread's resolution basis is that of its first RESOLVE in seq order, if it has one. */
  lemma BasisIsFirst(history: seq<Entry>, threads: seq<Thread>, i: nat)
    requires AreThreads(history, threads) && i < |threads|
    ensures var messages := threads[i].messages;
      if exists m :: m in messages && m.verb == "RESOLVE" then
        exists k :: 0 <= k < |messages| && messages[k].verb == "RESOLVE" && messages[k].basis == threads[i].resolveBasis
          && forall j :: 0 <= j < k ==> messages[j].verb != "RESOLVE"
      else threads[i].resolveBasis == None
  {
    FirstBasis(threads[i].messages);
  }

  lemma {:induction false} FirstBasis(messages: seq<ThreadMessage>)
    ensures if exists m :: m in messages && m.verb == "RESOLVE" then
        exists k :: 0 <= k < |messages| && messages[k].verb == "RESOLVE" && messages[k].basis == BasisOf(messages)
          && forall j :: 0 <= j < k ==> messages[j].verb != "RESOLVE"
      else BasisOf(messages) == None
  {
    if messages != [] && messages[0].verb != "RESOLVE" {
      FirstBasis(messages[1..]);
      assert messages == [messages[0]] + messages[1..];
      if exists m :: m in messages[1..] && m.verb == "RESOLVE" {
        var k :| 0 <= k < |messages[1..]| && messages[1..][k].verb == "RESOLVE" && messages[1..][k].basis == BasisOf(messages[1..])
          && forall j :: 0 <= j < k ==> messages[1..][j].verb != "RESOLVE";
        assert messages[k + 1].verb == "RESOLVE";
        forall j | 0 <= j < k + 1 ensures messages[j].verb != "RESOLVE" { if j > 0 { assert messages[1..][j - 1].verb != "RESOLVE"; } }
      }
    } else if messages != [] {
      assert messages[0] in messages;
    }
  }

  function Fuses(history: seq<Entry>): set<nat> {
    set i: nat | i < |history| && history[i].parsed.Some? && history[i].parsed.value.Told? && history[i].parsed.value.envelope.verb == "FUSE"
  }

  /** The summary has every hello and every delta a FUSE commits, and counts the FUSEs. */
  lemma SummaryExact(history: seq<Entry>)
    ensures forall n, a :: (n, a) in Join(HelloOf, history) <==> Entry(n, Some(Hello(a))) in history
    ensures forall d :: d in Join(DeltaOf, history) <==>
      exists e, v :: e in history && e.parsed == Some(Told(v)) && v.verb == "FUSE" && v.delta == Some(d)
    ensures |Join(FuseOf, history)| == |Fuses(history)|
  {
    JoinMembers(HelloOf, history);
    JoinMembers(DeltaOf, history);
    FusesCounted(history);
    forall n, a ensures (n, a) in Join(HelloOf, history) <==> Entry(n, Some(Hello(a))) in history {
      if Entry(n, Some(Hello(a))) in history { assert (n, a) in HelloOf(Entry(n, Some(Hello(a)))); }
    }
    forall d ensures d in Join(DeltaOf, history) <==>
      exists e, v :: e in history && e.parsed == Some(Told(v)) && v.verb == "FUSE" && v.delta == Some(d)
    {
      if d in Join(DeltaOf, history) {
        var e :| e in history && d in DeltaOf(e);
        assert e.parsed == Some(Told(e.parsed.value.envelope));
      }
      if e, v :| e in history && e.parsed == Some(Told(v)) && v.verb == "FUSE" && v.delta == Some(d) { assert d in DeltaOf(e); }
    }
  }

  lemma FusesAppend(history: seq<Entry>)
    requires history != []
    ensures var n := |history| - 1;
      Fuses(history) == (if IsFuse(history[n]) then Fuses(history[..n]) + {n} else Fuses(history[..n])) && n !in Fuses(history[..n])
  {
  }

  lemma {:induction false} FusesCounted(history: seq<Entry>)
    ensures |Join(FuseOf, history)| == |Fuses(history)|
    decreases |history|
  {
    if history != [] {
      var n := |history| - 1;
      FusesCounted(history[..n]);
      JoinAppend(FuseOf, history[..n], history[n]);
      assert history == history[..n] + [history[n]];
      FusesAppend(history);
    }
  }

  function Rank(s: ThreadState): nat {
    match s case Open => 0 case Resolved => 1 case Fused => 2
  }

  /** More history never takes a thread back: it keeps its thread and its state only advances. */
  lemma StatesOnlyAdvance(history: seq<Entry>, more: seq<Entry>, before: seq<Thread>, after: seq<Thread>, i: nat)
    requires AreThreads(history, before) && AreThreads(history + more, after) && i < |before|
    ensures exists j :: 0 <= j < |after| && after[j].id == before[i].id && Rank(before[i].state) <= Rank(after[j].state)
  {
    var id := before[i].id;
    assert id in ThreadIds(history);
    var e :| e in history && IsVerb(e) && ThreadOf(e) == id;
    assert e in history + more;
    assert id in ThreadIds(history + more);
    var j :| 0 <= j < |after| && after[j].id == id;
    ThreadStateIff(history, before, i);
    ThreadStateIff(history + more, after, j);
    assert forall x :: x in history ==> x in history + more;
  }

  // --- Order of arrival ---

  function NumOfEntry(): Entry -> int {
    (e: Entry) => e.num
  }

  lemma {:induction false} GatheredDistinct(history: seq<Entry>, id: int)
    requires DistinctKeys(NumOfEntry(), history)
    ensures DistinctKeys(NumOf(), Gathered(history, id))
    ensures forall m :: m in Gathered(history, id) ==> exists e :: e in history && e.num == m.num
    decreases history
  {
    GatheredExact(history, id);
    if history != [] {
      var e, rest := history[0], Gathered(history[1..], id);
      GatheredDistinct(history[1..], id);
      forall i | 0 <= i < |rest| ensures NumOf()(rest[i]) != e.num {
        assert rest[i] in rest;
        var x :| x in history[1..] && x.num == rest[i].num;
        var k :| 0 <= k < |history[1..]| && history[1..][k] == x;
        assert history[k + 1] == x && NumOfEntry()(history[0]) != NumOfEntry()(history[k + 1]);
      }
      assert Gathered(history, id) == Gathering(id)(e) + rest;
    }
  }

  /** The threads do not depend on the order in which history arrives. */
  lemma ArrivalOrderIrrelevant(a: seq<Entry>, b: seq<Entry>, ta: seq<Thread>, tb: seq<Thread>)
    requires multiset(a) == multiset(b) && DistinctKeys(NumOfEntry(), a)
    requires AreThreads(a, ta) && AreThreads(b, tb)
    ensures ta == tb
  {
    assert forall e :: e in a <==> e in multiset(a);
    assert forall e :: e in b <==> e in multiset(b);
    assert ThreadIds(a) == ThreadIds(b);
    forall id ensures Built(id, Gathered(a, id)) == Built(id, Gathered(b, id)) {
      var ga, gb := Gathered(a, id), Gathered(b, id);
      JoinPermutes(Gathering(id), a, b);
      GatheredDistinct(a, id);
      SortExact(NumOf(), ga);
      SortExact(NumOf(), gb);
      DistinctAfterSort(ga);
      SortedUnique(NumOf(), Sort(NumOf(), ga), Sort(NumOf(), gb));
    }
    forall t ensures t in ta <==> t in tb {
      HasThread(a, ta, t);
      HasThread(b, tb, t);
    }
    assert Rising(IdOf(), ta) && Rising(IdOf(), tb);
    RisingUnique(IdOf(), ta, tb);
  }

  function IdOf(): Thread -> int {
    (t: Thread) => t.id
  }

  lemma HasThread(history: seq<Entry>, threads: seq<Thread>, t: Thread)
    requires AreThreads(history, threads)
    ensures t in threads <==> t.id in ThreadIds(history) && t == Built(t.id, Gathered(history, t.id))
  {
    if t.id in ThreadIds(history) {
      var i :| 0 <= i < |threads| && threads[i].id == t.id;
    }
  }

  lemma DistinctAfterSort(s: seq<ThreadMessage>)
    requires DistinctKeys(NumOf(), s)
    ensures DistinctKeys(NumOf(), Sort(NumOf(), s))
  {
    var t := Sort(NumOf(), s);
    SortExact(NumOf(), s);
    forall i, j | 0 <= i < j < |t| ensures NumOf()(t[i]) != NumOf()(t[j]) {
      SortStable(NumOf(), s, NumOf()(t[i]));
      AtMostOne(s, NumOf()(t[i]));
      if NumOf()(t[i]) == NumOf()(t[j]) { TwoWithKey(t, i, j); }
    }
  }

  lemma {:induction false} AtMostOne(s: seq<ThreadMessage>, k: int)
    requires DistinctKeys(NumOf(), s)
    ensures |WithKey(NumOf(), s, k)| <= 1
    ensures (forall m :: m in s ==> m.num != k) ==> WithKey(NumOf(), s, k) == []
    decreases s
  {
    if s != [] {
      var n := |s| - 1;
      AtMostOne(s[..n], k);
      assert s == s[..n] + [s[n]];
      if s[n].num == k {
        forall m | m in s[..n] ensures m.num != k {
          var i :| 0 <= i < n && s[i] == m;
          assert NumOf()(s[i]) != NumOf()(s[n]);
        }
      }
    }
  }

  lemma {:induction false} TwoWithKey(t: seq<ThreadMessage>, i: nat, j: nat)
    requires i < j < |t| && t[i].num == t[j].num
    ensures |WithKey(NumOf(), t, t[i].num)| >= 2
    decreases t
  {
    var n := |t| - 1;
    if j == n {
      OneWithKey(t[..n], i);
    } else {
      TwoWithKey(t[..n], i, j);
    }
  }

  lemma {:induction false} OneWithKey(t: seq<ThreadMessage>, i: nat)
    requires i < |t|
    ensures |WithKey(NumOf(), t, t[i].num)| >= 1
    decreases t
  {
    if i < |t| - 1 { OneWithKey(t[..|t| - 1], i); }
  }

}
