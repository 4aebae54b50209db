/** Sealed ballots: until a vote closes, nothing the server says depends on the options chosen in it. */
module VoteSecrecy {
  import opened Wrappers
  import opened Maps
  import opened Runs
  import opened Votes
  import opened VoteRuns
  import opened VoteResults

  // --- Two states that differ only in the options chosen in one vote ---

  predicate SameBallot(b: Ballot, c: Ballot) {
    b.agent == c.agent && b.name == c.name
  }

  predicate SameBallots(p: seq<Ballot>, q: seq<Ballot>) {
    |p| == |q| && forall i :: 0 <= i < |p| ==> SameBallot(p[i], q[i])
  }

  predicate SameActive(x: Option<ActiveVote>, y: Option<ActiveVote>) {
    && x.Some? == y.Some?
    && (x.Some? ==> y.value == x.value.(ballots := y.value.ballots) && SameBallots(x.value.ballots, y.value.ballots))
  }

  predicate SameEnding(x: Option<Ending>, y: Option<Ending>) {
    && x.Some? == y.Some?
    && (x.Some? ==> SameActive(Some(x.value.vote), Some(y.value.vote)) && x.value.reply == y.value.reply)
  }

  predicate SameRow(x: Option<StoredVote>, y: Option<StoredVote>) {
    && x.Some? == y.Some?
    && (x.Some? ==> y.value == x.value.(ballots := y.value.ballots) && SameBallots(x.value.ballots, y.value.ballots))
  }

  /** The vote, while it is opening or active. */
  function Known(st: State, v: VoteId): Option<ActiveVote> {
    if v in st.memory then Some(st.memory[v]) else Find(st.opening, v)
  }

  /** Both ballots name an option of the vote, if it is known, or are the same ballot. */
  predicate BothValid(vote: Option<ActiveVote>, b: Ballot, c: Ballot) {
    SameBallot(b, c) && (b == c || (vote.Some? ==> b.option < |vote.value.question.options| && c.option < |vote.value.question.options|))
  }

  predicate SameCast(v: VoteId, vote: Option<ActiveVote>, c: Cast, d: Cast) {
    c.vote == d.vote && (if c.vote == v then BothValid(vote, c.ballot, d.ballot) else c == d)
  }

  predicate SameCasts(v: VoteId, vote: Option<ActiveVote>, p: seq<Cast>, q: seq<Cast>) {
    |p| == |q| && forall i :: 0 <= i < |p| ==> SameCast(v, vote, p[i], q[i])
  }

  predicate SameLocal(secret: bool, l: Local, m: Local) {
    && l.opening == m.opening
    && (if secret then SameActive(l.memory, m.memory) && SameEnding(l.ending, m.ending) && SameRow(l.stored, m.stored)
        else l.memory == m.memory && l.ending == m.ending && l.stored == m.stored && l.missed == m.missed)
  }

  predicate SameAt(v: VoteId, a: State, b: State, id: VoteId) {
    SameLocal(id == v, At(a, id), At(b, id))
  }

  ghost predicate SameEverywhere(v: VoteId, a: State, b: State) {
    forall id :: SameAt(v, a, b, id)
  }

  ghost predicate Alike(v: VoteId, a: State, b: State) {
    && SameEverywhere(v, a, b)
    && SameCasts(v, Known(a, v), a.pending, b.pending)
    && a.closing == b.closing && a.created == b.created && a.announced == b.announced
  }

  /** The same event, up to the valid option cast in `v` and what was chosen in the ballots
      of `v` that a restart reads back. */
  ghost predicate SameEvent(v: VoteId, a: State, e: Event, f: Event) {
    match e
    case PersistBallot(id, b, inRoom) =>
      f.PersistBallot? && f.vote == id && f.inRoom == inRoom && (if id == v then BothValid(Known(a, v), b, f.ballot) else b == f.ballot)
    case Restarted(orders) =>
      && f.Restarted? && orders.Keys == f.orders.Keys
      && forall id :: id in orders ==> if id == v then SameBallots(orders[id], f.orders[id]) else orders[id] == f.orders[id]
    case _ => e == f
  }

  /** A result was broadcast, or the stored row is closed. */
  predicate Closed(st: State, v: VoteId) {
    (exists a :: a in st.announced && a.vote == v) || (v in st.stored && !st.stored[v].open)
  }

  // --- Facts about ballots that differ only in their options ---

  lemma SameVoters(p: seq<Ballot>, q: seq<Ballot>)
    requires SameBallots(p, q)
    ensures Voters(p) == Voters(q)
    ensures forall agent :: HasAgent(p, agent) == HasAgent(q, agent)
  {
    forall agent ensures HasAgent(p, agent) == HasAgent(q, agent) && (agent in Voters(p) <==> agent in Voters(q)) {
      HasAgentByIndex(p, agent);
      HasAgentByIndex(q, agent);
    }
  }

  lemma HasAgentByIndex(p: seq<Ballot>, agent: AgentId)
    ensures HasAgent(p, agent) <==> exists i :: 0 <= i < |p| && p[i].agent == agent
    ensures HasAgent(p, agent) <==> agent in Voters(p)
  {
    if HasAgent(p, agent) {
      var b :| b in p && b.agent == agent;
      var i :| 0 <= i < |p| && p[i] == b;
      assert p[i].agent == agent;
    }
  }

  // --- Each kind of step ---

  lemma CreateSameHere(v: VoteId, a: State, b: State, id: VoteId, q: Question, members: seq<AgentId>, ephemeral: bool)
    requires SameAt(v, a, b, id)
    ensures SameAt(v, Create(a, id, q, members, ephemeral).0, Create(b, id, q, members, ephemeral).0, id)
  {
    CreateAt(a, id, q, members, ephemeral);
    CreateAt(b, id, q, members, ephemeral);
    SameCreated(id == v, At(a, id), At(b, id), q, members, ephemeral);
  }

  lemma SameCreated(secret: bool, l: Local, m: Local, q: Question, members: seq<AgentId>, ephemeral: bool)
    requires SameLocal(secret, l, m)
    ensures SameLocal(secret, CreatedAs(l, q, members, ephemeral), CreatedAs(m, q, members, ephemeral))
  {
  }

  lemma CreateSameAt(v: VoteId, a: State, b: State, id: VoteId, q: Question, members: seq<AgentId>, ephemeral: bool, i: VoteId)
    requires SameAt(v, a, b, i)
    ensures SameAt(v, Create(a, id, q, members, ephemeral).0, Create(b, id, q, members, ephemeral).0, i)
  {
    if i == id {
      CreateSameHere(v, a, b, id, q, members, ephemeral);
    } else {
      CreateElsewhere(a, id, q, members, ephemeral, i);
      CreateElsewhere(b, id, q, members, ephemeral, i);
    }
  }

  lemma CreateSameCasts(v: VoteId, a: State, b: State, id: VoteId, q: Question, members: seq<AgentId>, ephemeral: bool)
    requires SameCasts(v, Known(a, v), a.pending, b.pending) && LocalOk(At(a, id)) && id !in a.created
    ensures SameCasts(v, Known(Create(a, id, q, members, ephemeral).0, v), a.pending, b.pending)
  {
    if v == id {
      forall i | 0 <= i < |a.pending| ensures a.pending[i].vote != v {
        PendingHere(a.pending, i);
      }
    }
  }

  lemma CreateSameEverywhere(v: VoteId, a: State, b: State, id: VoteId, q: Question, members: seq<AgentId>, ephemeral: bool)
    requires SameEverywhere(v, a, b)
    ensures SameEverywhere(v, Create(a, id, q, members, ephemeral).0, Create(b, id, q, members, ephemeral).0)
  {
    forall i ensures SameAt(v, Create(a, id, q, members, ephemeral).0, Create(b, id, q, members, ephemeral).0, i) {
      assert SameAt(v, a, b, i);
      CreateSameAt(v, a, b, id, q, members, ephemeral, i);
    }
  }

  lemma CreateAlike(v: VoteId, a: State, b: State, id: VoteId, q: Question, members: seq<AgentId>, ephemeral: bool)
    requires Alike(v, a, b) && Inv(a) && id !in a.created
    ensures Alike(v, Create(a, id, q, members, ephemeral).0, Create(b, id, q, members, ephemeral).0)
    ensures Create(a, id, q, members, ephemeral).1 == Create(b, id, q, members, ephemeral).1
  {
    CreateSameEverywhere(v, a, b, id, q, members, ephemeral);
    InvAt(a, id);
    CreateKeepsRest(a, id, q, members, ephemeral);
    CreateKeepsRest(b, id, q, members, ephemeral);
    CreateSameCasts(v, a, b, id, q, members, ephemeral);
  }

  lemma InvAt(st: State, id: VoteId)
    requires Inv(st)
    ensures LocalOk(At(st, id))
  {
  }

  lemma CreateKeepsRest(st: State, id: VoteId, q: Question, members: seq<AgentId>, ephemeral: bool)
    ensures var after := Create(st, id, q, members, ephemeral).0;
      && after.pending == st.pending && after.closing == st.closing && after.announced == st.announced
      && after.created == if q.createdBy in members && |q.options| >= 2 then st.created + {id} else st.created
  {
  }

  lemma SameOpening(v: VoteId, a: State, b: State, id: VoteId)
    requires SameAt(v, a, b, id)
    ensures Find(a.opening, id) == Find(b.opening, id)
  {
    assert At(a, id).opening == Find(a.opening, id) && At(b, id).opening == Find(b.opening, id);
  }

  lemma OpenSameAt(v: VoteId, a: State, b: State, id: VoteId, i: VoteId)
    requires id in a.opening && id in b.opening && a.opening[id] == b.opening[id] && SameAt(v, a, b, i)
    ensures SameAt(v, Open(a, id).0, Open(b, id).0, i)
  {
    if i == id {
      OpenHere(a, id);
      OpenHere(b, id);
    } else {
      OpenElsewhere(a, id, i);
      OpenElsewhere(b, id, i);
    }
  }

  lemma OpenSameCasts(v: VoteId, a: State, p: seq<Cast>, q: seq<Cast>, id: VoteId)
    requires id in a.opening && LocalOk(At(a, id)) && SameCasts(v, Known(a, v), p, q)
    ensures SameCasts(v, Known(Open(a, id).0, v), p, q)
  {
    assert At(a, id).opening == Find(a.opening, id) && At(a, id).memory == Find(a.memory, id);
    assert Known(Open(a, id).0, v) == Known(a, v);
  }

  lemma OpenAlike(v: VoteId, a: State, b: State, id: VoteId)
    requires Alike(v, a, b) && Inv(a) && id in a.opening && id in b.opening
    ensures Alike(v, Open(a, id).0, Open(b, id).0)
    ensures Open(a, id).1 == Open(b, id).1
  {
    assert SameAt(v, a, b, id) && LocalOk(At(a, id));
    SameOpening(v, a, b, id);
    forall i ensures SameAt(v, Open(a, id).0, Open(b, id).0, i) {
      assert SameAt(v, a, b, i);
      OpenSameAt(v, a, b, id, i);
    }
    OpenSameCasts(v, a, a.pending, b.pending, id);
  }

  lemma SameInserted(secret: bool, l: Local, m: Local, x: Ballot, y: Ballot)
    requires SameLocal(secret, l, m) && l.stored.Some?
    requires if secret then SameBallot(x, y) else x == y
    ensures m.stored.Some? && SameLocal(secret, Inserted(l, x), Inserted(m, y))
    ensures HasAgent(l.stored.value.ballots, x.agent) == HasAgent(m.stored.value.ballots, y.agent)
  {
    SameVoters(l.stored.value.ballots, m.stored.value.ballots);
  }

  lemma InsertSameAt(v: VoteId, a: State, b: State, id: VoteId, x: Ballot, y: Ballot, i: VoteId)
    requires SameAt(v, a, b, i) && SameAt(v, a, b, id)
    requires if id == v then SameBallot(x, y) else x == y
    ensures SameAt(v, InsertBallot(a, id, x).0, InsertBallot(b, id, y).0, i)
  {
    if i == id {
      InsertAt(a, id, x);
      InsertAt(b, id, y);
      if id in a.stored { SameInserted(id == v, At(a, id), At(b, id), x, y); }
    } else {
      InsertElsewhere(a, id, x, i);
      InsertElsewhere(b, id, y, i);
    }
  }

  lemma InsertSameReply(v: VoteId, a: State, b: State, id: VoteId, x: Ballot, y: Ballot)
    requires SameAt(v, a, b, id)
    requires if id == v then SameBallot(x, y) else x == y
    ensures InsertBallot(a, id, x).1 == InsertBallot(b, id, y).1
    ensures (InsertBallot(a, id, x).0.pending == a.pending && InsertBallot(b, id, y).0.pending == b.pending)
         || (InsertBallot(a, id, x).0.pending == a.pending + [Cast(id, x)] && InsertBallot(b, id, y).0.pending == b.pending + [Cast(id, y)])
  {
    assert At(a, id).stored == Find(a.stored, id) && At(b, id).stored == Find(b.stored, id);
    if id in a.stored { SameInserted(id == v, At(a, id), At(b, id), x, y); }
  }

  lemma InsertSameEverywhere(v: VoteId, a: State, b: State, id: VoteId, x: Ballot, y: Ballot)
    requires SameEverywhere(v, a, b)
    requires if id == v then SameBallot(x, y) else x == y
    ensures SameEverywhere(v, InsertBallot(a, id, x).0, InsertBallot(b, id, y).0)
  {
    forall i ensures SameAt(v, InsertBallot(a, id, x).0, InsertBallot(b, id, y).0, i) {
      assert SameAt(v, a, b, i) && SameAt(v, a, b, id);
      InsertSameAt(v, a, b, id, x, y, i);
    }
  }

  lemma InsertAlike(v: VoteId, a: State, b: State, id: VoteId, x: Ballot, y: Ballot)
    requires Alike(v, a, b)
    requires if id == v then BothValid(Known(a, v), x, y) else x == y
    ensures Alike(v, InsertBallot(a, id, x).0, InsertBallot(b, id, y).0)
    ensures InsertBallot(a, id, x).1 == InsertBallot(b, id, y).1
  {
    assert SameAt(v, a, b, id);
    InsertSameReply(v, a, b, id, x, y);
    InsertSameEverywhere(v, a, b, id, x, y);
  }

  /** A cast in an ephemeral vote goes on without an INSERT. */
  lemma PendAlike(v: VoteId, a: State, b: State, c: Cast, d: Cast)
    requires Alike(v, a, b) && SameCast(v, Known(a, v), c, d)
    ensures Alike(v, a.(pending := a.pending + [c]), b.(pending := b.pending + [d]))
  {
    forall i ensures SameAt(v, a.(pending := a.pending + [c]), b.(pending := b.pending + [d]), i) { assert SameAt(v, a, b, i); }
  }

  lemma PersistAlike(v: VoteId, a: State, b: State, id: VoteId, x: Ballot, y: Ballot, inRoom: bool)
    requires Alike(v, a, b)
    requires if id == v then BothValid(Known(a, v), x, y) else x == y
    ensures Alike(v, Persist(a, id, x, inRoom).0, Persist(b, id, y, inRoom).0)
    ensures Persist(a, id, x, inRoom).1 == Persist(b, id, y, inRoom).1
  {
    assert SameAt(v, a, b, id);
    SameBarrier(v, a, b, id, x, y, inRoom);
    InsertAlike(v, a, b, id, x, y);
    PendAlike(v, a, b, Cast(id, x), Cast(id, y));
  }

  lemma SameBarrier(v: VoteId, a: State, b: State, id: VoteId, x: Ballot, y: Ballot, inRoom: bool)
    requires SameAt(v, a, b, id)
    requires if id == v then BothValid(Known(a, v), x, y) else x == y
    ensures Barrier(a, id, x, inRoom) == Barrier(b, id, y, inRoom)
    ensures id in a.memory <==> id in b.memory
    ensures id in a.memory ==> a.memory[id].ephemeral == b.memory[id].ephemeral
  {
    SameMemory(v, a, b, id);
    SameStored(v, a, b, id);
  }

  lemma SameStored(v: VoteId, a: State, b: State, id: VoteId)
    requires SameAt(v, a, b, id)
    ensures if id == v then SameRow(Find(a.stored, id), Find(b.stored, id)) else Find(a.stored, id) == Find(b.stored, id)
    ensures id in a.stored <==> id in b.stored
  {
    assert At(a, id).stored == Find(a.stored, id) && At(b, id).stored == Find(b.stored, id);
  }

  /** What two alike states hold of a vote in memory. */
  lemma SameMemory(v: VoteId, a: State, b: State, id: VoteId)
    requires SameAt(v, a, b, id)
    ensures if id == v then SameActive(Find(a.memory, id), Find(b.memory, id)) else Find(a.memory, id) == Find(b.memory, id)
    ensures id in a.memory <==> id in b.memory
  {
    assert At(a, id).memory == Find(a.memory, id) && At(b, id).memory == Find(b.memory, id);
  }

  lemma SameRefusal(secret: bool, l: ActiveVote, m: ActiveVote, x: Ballot, y: Ballot)
    requires if secret then SameActive(Some(l), Some(m)) && BothValid(Some(l), x, y) else l == m && x == y
    ensures Refusal(l, x) == Refusal(m, y)
  {
    SameVoters(l.ballots, m.ballots);
  }

  lemma SamePushed(secret: bool, l: Local, m: Local, x: Ballot, y: Ballot, p: seq<Ballot>, q: seq<Ballot>)
    requires SameLocal(secret, l, m) && (if secret then BothValid(l.memory, x, y) else x == y)
    ensures Accepts(l, x) == Accepts(m, y)
    ensures Accepts(l, x) ==> SameLocal(secret, Pushed(l, x, p), Pushed(m, y, q))
    ensures SameLocal(secret, Overlooked(l, x, p), Overlooked(m, y, q))
  {
    if l.memory.Some? { SameRefusal(secret, l.memory.value, m.memory.value, x, y); }
  }

  lemma RecordSameHere(v: VoteId, a: State, b: State, i: nat)
    requires i < |a.pending| == |b.pending|
    requires SameCast(v, At(a, a.pending[i].vote).memory, a.pending[i], b.pending[i])
    requires SameAt(v, a, b, a.pending[i].vote)
    ensures SameAt(v, Record(a, i).0, Record(b, i).0, a.pending[i].vote)
  {
    var id := a.pending[i].vote;
    var l, m := At(a, id), At(b, id);
    var p, q := PendingFor(RemoveAt(a.pending, i), id), PendingFor(RemoveAt(b.pending, i), id);
    RecordAt(a, i);
    RecordAt(b, i);
    SamePushed(id == v, l, m, a.pending[i].ballot, b.pending[i].ballot, p, q);
  }

  lemma RecordSameAt(v: VoteId, a: State, b: State, i: nat, id: VoteId)
    requires i < |a.pending| == |b.pending|
    requires SameCast(v, At(a, a.pending[i].vote).memory, a.pending[i], b.pending[i])
    requires SameAt(v, a, b, id)
    ensures SameAt(v, Record(a, i).0, Record(b, i).0, id)
  {
    if id == a.pending[i].vote {
      RecordSameHere(v, a, b, i);
    } else {
      RecordElsewhereAt(a, i, id);
      RecordElsewhereAt(b, i, id);
    }
  }

  /** What recording a ballot in a vote answers, and whether it then has to remove the vote. */
  function Answer(memory: Option<ActiveVote>, id: VoteId, b: Ballot): (seq<Output>, seq<Closer>) {
    if memory.None? then ([Failed(VoteNotFound)], [])
    else
      var (n, eligible) := (|memory.value.ballots| + 1, memory.value.eligibleVoters);
      if Refusal(memory.value, b).Some? then ([Failed(Refusal(memory.value, b).value)], [])
      else if n >= eligible then ([], [Closer(id, n, eligible)])
      else ([CastOk(id, n, eligible)], [])
  }

  lemma RecordAnswers(st: State, i: nat)
    requires i < |st.pending|
    ensures var Cast(id, b) := st.pending[i];
      var (out, claims) := Answer(Find(st.memory, id), id, b);
      Record(st, i).1 == out && Record(st, i).0.closing == st.closing + claims
  {
  }

  lemma RecordSameReply(v: VoteId, a: State, b: State, i: nat)
    requires i < |a.pending| == |b.pending| && SameAt(v, a, b, a.pending[i].vote)
    requires SameCast(v, Known(a, v), a.pending[i], b.pending[i]) && a.closing == b.closing
    ensures Record(a, i).1 == Record(b, i).1 && Record(a, i).0.closing == Record(b, i).0.closing
  {
    var id := a.pending[i].vote;
    SameMemory(v, a, b, id);
    RecordAnswers(a, i);
    RecordAnswers(b, i);
    SameAnswer(id == v, Find(a.memory, id), Find(b.memory, id), id, a.pending[i].ballot, b.pending[i].ballot);
  }

  lemma SameAnswer(secret: bool, l: Option<ActiveVote>, m: Option<ActiveVote>, id: VoteId, x: Ballot, y: Ballot)
    requires if secret then SameActive(l, m) && BothValid(l, x, y) else l == m && x == y
    ensures Answer(l, id, x) == Answer(m, id, y)
  {
    if l.Some? { SameRefusal(secret, l.value, m.value, x, y); }
  }

  lemma RecordSameCasts(v: VoteId, a: State, b: State, i: nat)
    requires SameCasts(v, Known(a, v), a.pending, b.pending) && i < |a.pending|
    ensures SameCasts(v, Known(Record(a, i).0, v), Record(a, i).0.pending, Record(b, i).0.pending)
  {
    RecordKeepsQuestion(a, i, v);
    RecordKeepsQuestion(b, i, v);
    var p, q := RemoveAt(a.pending, i), RemoveAt(b.pending, i);
    assert SameCasts(v, Known(a, v), p, q);
    forall j | 0 <= j < |p| ensures SameCast(v, Known(Record(a, i).0, v), p[j], q[j]) {
      assert SameCast(v, Known(a, v), p[j], q[j]);
    }
  }

  lemma RecordSameEverywhere(v: VoteId, a: State, b: State, i: nat)
    requires SameEverywhere(v, a, b) && i < |a.pending| == |b.pending|
    requires SameCast(v, At(a, a.pending[i].vote).memory, a.pending[i], b.pending[i])
    ensures SameEverywhere(v, Record(a, i).0, Record(b, i).0)
  {
    forall j ensures SameAt(v, Record(a, i).0, Record(b, i).0, j) {
      assert SameAt(v, a, b, j);
      RecordSameAt(v, a, b, i, j);
    }
  }

  lemma RecordAlike(v: VoteId, a: State, b: State, i: nat)
    requires Alike(v, a, b) && i < |a.pending|
    ensures Alike(v, Record(a, i).0, Record(b, i).0)
    ensures Record(a, i).1 == Record(b, i).1
  {
    PendingAlike(v, a, b, i);
    RecordSameEverywhere(v, a, b, i);
    RecordSameReply(v, a, b, i);
    RecordSameCasts(v, a, b, i);
    RecordKeepsRest(a, i);
    RecordKeepsRest(b, i);
  }

  lemma PendingAlike(v: VoteId, a: State, b: State, i: nat)
    requires Alike(v, a, b) && i < |a.pending|
    ensures |a.pending| == |b.pending| && SameAt(v, a, b, a.pending[i].vote)
    ensures SameCast(v, Known(a, v), a.pending[i], b.pending[i])
    ensures SameCast(v, At(a, a.pending[i].vote).memory, a.pending[i], b.pending[i])
  {
    var id := a.pending[i].vote;
    assert SameAt(v, a, b, id);
    assert At(a, id).memory == Find(a.memory, id);
    assert SameCast(v, Known(a, v), a.pending[i], b.pending[i]);
  }

  lemma RecordKeepsRest(st: State, i: nat)
    requires i < |st.pending|
    ensures Record(st, i).0.created == st.created && Record(st, i).0.announced == st.announced
  {
  }

  lemma RecordKeepsQuestion(a: State, i: nat, v: VoteId)
    requires i < |a.pending|
    ensures v in a.memory <==> v in Record(a, i).0.memory
    ensures v in a.memory ==> Record(a, i).0.memory[v].question == a.memory[v].question
    ensures Record(a, i).0.pending == RemoveAt(a.pending, i)
  {
  }

  lemma RemoveSameAt(v: VoteId, a: State, b: State, id: VoteId, reply: Option<Closer>, i: VoteId)
    requires id in a.memory && SameAt(v, a, b, id) && SameAt(v, a, b, i)
    requires id != v ==> SameCastsFor(a, b, id)
    ensures id in b.memory && SameAt(v, Remove(a, id, reply), Remove(b, id, reply), i)
  {
    SameMemory(v, a, b, id);
    if i == id {
      RemoveHere(a, id, reply);
      RemoveHere(b, id, reply);
    } else {
      RemoveElsewhere(a, id, reply, i);
      RemoveElsewhere(b, id, reply, i);
    }
  }

  predicate SameCastsFor(a: State, b: State, id: VoteId) {
    PendingFor(a.pending, id) == PendingFor(b.pending, id)
  }

  lemma {:induction false} OthersPendAlike(v: VoteId, vote: Option<ActiveVote>, p: seq<Cast>, q: seq<Cast>, id: VoteId)
    requires SameCasts(v, vote, p, q) && id != v
    ensures PendingFor(p, id) == PendingFor(q, id)
  {
    if p != [] {
      assert SameCast(v, vote, p[0], q[0]);
      assert SameCasts(v, vote, p[1..], q[1..]);
      OthersPendAlike(v, vote, p[1..], q[1..], id);
    }
  }

  lemma RemoveSameEverywhere(v: VoteId, a: State, b: State, id: VoteId, reply: Option<Closer>)
    requires SameEverywhere(v, a, b) && id in a.memory && (id != v ==> SameCastsFor(a, b, id))
    ensures id in b.memory && SameEverywhere(v, Remove(a, id, reply), Remove(b, id, reply))
  {
    assert SameAt(v, a, b, id);
    SameMemory(v, a, b, id);
    forall i ensures SameAt(v, Remove(a, id, reply), Remove(b, id, reply), i) {
      assert SameAt(v, a, b, i);
      RemoveSameAt(v, a, b, id, reply, i);
    }
  }

  /** A vote in memory is not opening. */
  predicate OneOf(st: State, v: VoteId) {
    v in st.memory ==> v !in st.opening
  }

  lemma InvIsOneOf(st: State, v: VoteId)
    requires Inv(st)
    ensures OneOf(st, v)
  {
    assert LocalOk(At(st, v));
    assert At(st, v).memory == Find(st.memory, v) && At(st, v).opening == Find(st.opening, v);
  }

  lemma RemoveSameCasts(v: VoteId, a: State, b: State, id: VoteId, reply: Option<Closer>)
    requires id in a.memory && OneOf(a, v) && SameCasts(v, Known(a, v), a.pending, b.pending)
    ensures SameCasts(v, Known(Remove(a, id, reply), v), a.pending, b.pending)
  {
    forall j | 0 <= j < |a.pending| ensures SameCast(v, Known(Remove(a, id, reply), v), a.pending[j], b.pending[j]) {
      assert SameCast(v, Known(a, v), a.pending[j], b.pending[j]);
    }
  }

  lemma RemoveAlike(v: VoteId, a: State, b: State, id: VoteId, reply: Option<Closer>)
    requires Alike(v, a, b) && OneOf(a, v) && id in a.memory
    ensures id in b.memory && Alike(v, Remove(a, id, reply), Remove(b, id, reply))
  {
    if id != v { OthersPendAlike(v, Known(a, v), a.pending, b.pending, id); }
    RemoveSameEverywhere(v, a, b, id, reply);
    RemoveSameCasts(v, a, b, id, reply);
  }

  lemma ExpireAlike(v: VoteId, a: State, b: State, id: VoteId)
    requires Alike(v, a, b) && OneOf(a, v)
    ensures Alike(v, Expire(a, id), Expire(b, id))
  {
    assert SameAt(v, a, b, id);
    SameMemory(v, a, b, id);
    if id in a.memory { RemoveAlike(v, a, b, id, None); }
  }

  lemma UnclaimedAlike(v: VoteId, a: State, b: State, closing: seq<Closer>)
    requires Alike(v, a, b)
    ensures Alike(v, a.(closing := closing), b.(closing := closing))
  {
    forall j ensures SameAt(v, a.(closing := closing), b.(closing := closing), j) { assert SameAt(v, a, b, j); }
  }

  lemma RemoveFullAlike(v: VoteId, a: State, b: State, i: nat)
    requires Alike(v, a, b) && OneOf(a, v) && i < |a.closing|
    ensures Alike(v, RemoveFull(a, i).0, RemoveFull(b, i).0)
    ensures RemoveFull(a, i).1 == RemoveFull(b, i).1
  {
    var id, rest := a.closing[i].vote, RemoveAt(a.closing, i);
    assert SameAt(v, a, b, id);
    SameMemory(v, a, b, id);
    UnclaimedAlike(v, a, b, rest);
    if id in a.memory { RemoveAlike(v, a.(closing := rest), b.(closing := rest), id, Some(a.closing[i])); }
  }

  lemma EndSameAt(v: VoteId, a: State, b: State, id: VoteId, i: VoteId)
    requires id in a.ending && id in b.ending && id != v && SameAt(v, a, b, i)
    ensures SameAt(v, End(a, id).0, End(b, id).0, i)
  {
    if i == id {
      EndHere(a, id);
      EndHere(b, id);
    } else {
      EndElsewhere(a, id, i);
      EndElsewhere(b, id, i);
    }
  }

  lemma EndAlike(v: VoteId, a: State, b: State, id: VoteId)
    requires Alike(v, a, b) && id in a.ending && id in b.ending && id != v
    ensures Alike(v, End(a, id).0, End(b, id).0)
    ensures End(a, id).1 == End(b, id).1
  {
    assert SameAt(v, a, b, id);
    assert At(a, id).ending == Find(a.ending, id) && At(b, id).ending == Find(b.ending, id);
    forall i ensures SameAt(v, End(a, id).0, End(b, id).0, i) {
      assert SameAt(v, a, b, i);
      EndSameAt(v, a, b, id, i);
    }
  }

  lemma EndingCloses(st: State, v: VoteId)
    requires v in st.ending
    ensures Closed(End(st, v).0, v)
  {
    assert ResultOf(v, st.ending[v].vote) in End(st, v).0.announced;
  }

  lemma RepairAlike(x: StoredVote, y: StoredVote)
    requires y == x.(ballots := y.ballots) && SameBallots(x.ballots, y.ballots)
    ensures Repair(y) == Repair(x).(ballots := y.ballots)
  {
    SameVoters(x.ballots, y.ballots);
  }

  function Restarting(l: Local, order: seq<Ballot>): (Option<ActiveVote>, Option<StoredVote>) {
    var row := if l.stored.Some? then Some(Repair(l.stored.value)) else None;
    (if row.Some? && row.value.open then Some(Reload(row.value, order)) else None, row)
  }

  lemma SameRestarting(secret: bool, l: Local, m: Local, p: seq<Ballot>, q: seq<Ballot>)
    requires SameLocal(secret, l, m) && (if secret then SameBallots(p, q) else p == q)
    ensures var (x, r), (y, t) := Restarting(l, p), Restarting(m, q);
      if secret then SameActive(x, y) && SameRow(r, t) else x == y && r == t
  {
    if secret && l.stored.Some? { RepairAlike(l.stored.value, m.stored.value); }
  }

  lemma RestartSameAt(v: VoteId, a: State, b: State, orders: map<VoteId, seq<Ballot>>, others: map<VoteId, seq<Ballot>>, id: VoteId)
    requires SameAt(v, a, b, id) && SameEvent(v, a, Restarted(orders), Restarted(others))
    ensures SameAt(v, Restart(a, orders), Restart(b, others), id)
  {
    RestartAt(a, orders, id);
    RestartAt(b, others, id);
    SameStored(v, a, b, id);
    SameRestarting(id == v, At(a, id), At(b, id), Ordered(a, orders, id), Ordered(b, others, id));
  }

  lemma RestartAlike(v: VoteId, a: State, b: State, orders: map<VoteId, seq<Ballot>>, others: map<VoteId, seq<Ballot>>)
    requires Alike(v, a, b) && SameEvent(v, a, Restarted(orders), Restarted(others))
    ensures Alike(v, Restart(a, orders), Restart(b, others))
  {
    forall id ensures SameAt(v, Restart(a, orders), Restart(b, others), id) {
      assert SameAt(v, a, b, id);
      RestartSameAt(v, a, b, orders, others, id);
    }
  }

  lemma StatusAlike(v: VoteId, a: State, b: State, id: VoteId)
    requires Alike(v, a, b) && !Closed(a, v)
    ensures GetStatus(a, id) == GetStatus(b, id)
  {
    assert SameAt(v, a, b, id);
  }

  /** What a listing shows of one vote. */
  function Shown(st: State, id: VoteId, room: RoomId): Option<VoteInfo> {
    if id in st.memory then (if st.memory[id].question.room == room then Some(InfoOf(id, st.memory[id])) else None)
    else if id in st.stored && st.stored[id].question.room == room then Some(StoredInfo(id, st.stored[id]))
    else None
  }

  lemma ListShows(st: State, room: RoomId)
    ensures forall info :: info in ListVotes(st, room).infos <==> Shown(st, info.id, room) == Some(info)
  {
  }

  lemma ListAlike(v: VoteId, a: State, b: State, room: RoomId)
    requires Alike(v, a, b) && !Closed(a, v)
    ensures ListVotes(a, room) == ListVotes(b, room)
  {
    ListShows(a, room);
    ListShows(b, room);
    forall id ensures Shown(a, id, room) == Shown(b, id, room) {
      assert SameAt(v, a, b, id);
    }
    assert ListVotes(a, room).infos == ListVotes(b, room).infos;
  }

  // --- Whole runs ---

  lemma StepAlike(v: VoteId, a: State, b: State, e: Event, f: Event)
    requires Alike(v, a, b) && Inv(a) && Legal(a, e) && Legal(b, f) && SameEvent(v, a, e, f)
    requires !Closed(Step(a, e).0, v)
    ensures Alike(v, Step(a, e).0, Step(b, f).0)
    ensures Step(a, e).1 == Step(b, f).1
  {
    InvIsOneOf(a, v);
    match e
    case CreateVote(id, q, members, ephemeral) => CreateAlike(v, a, b, id, q, members, ephemeral);
    case OpenVote(id) => OpenAlike(v, a, b, id);
    case PersistBallot(id, x, inRoom) => PersistAlike(v, a, b, id, x, f.ballot, inRoom);
    case RecordBallot(i) => RecordAlike(v, a, b, i);
    case LastBallotIn(i) => RemoveFullAlike(v, a, b, i);
    case Deadline(id) => ExpireAlike(v, a, b, id);
    case EndVote(id) => if id == v { EndingCloses(a, v); } else { EndAlike(v, a, b, id); }
    case Restarted(orders) => RestartAlike(v, a, b, orders, f.orders);
    case AskStatus(id) => StatusAlike(v, a, b, id);
    case AskList(room) => ListAlike(v, a, b, room);
  }

  /** Two runs with the same schedule that differ only in the options cast in `v`. */
  ghost predicate SameSchedule(v: VoteId, p: History, q: History) {
    |p| == |q| && forall i :: 0 <= i < |p| ==> SameEvent(v, p[i].st, p[i].e, q[i].e)
  }

  /** Every reply and broadcast of the run's step. */
  ghost function Said(m: Moment<State, Event>): seq<Output> {
    if Legal(m.st, m.e) then Step(m.st, m.e).1 else []
  }

  ghost predicate SaySame(p: History, q: History) {
    |p| == |q| && forall i :: 0 <= i < |p| ==> Said(p[i]) == Said(q[i])
  }

  lemma ClosedStays(st: State, e: Event, v: VoteId)
    requires Inv(st) && Legal(st, e) && Closed(st, v)
    ensures Closed(Step(st, e).0, v)
  {
    if a :| a in st.announced && a.vote == v {
      StepAnnounces(st, e);
      assert a in Step(st, e).0.announced;
    } else {
      RowsAreCreated(st, v);
      ClosedRowStays(st, e, v);
    }
  }

  lemma RowsAreCreated(st: State, v: VoteId)
    requires Inv(st)
    ensures v in st.stored ==> v in st.created
  {
    assert LocalOk(At(st, v));
    assert At(st, v).stored == Find(st.stored, v);
  }

  lemma {:induction false} RunsAlike(v: VoteId, a: State, b: State, p: History, c: State, q: History, d: State)
    requires Alike(v, a, b) && Inv(a)
    requires IsRun(LeadsTo, a, p, c) && IsRun(LeadsTo, b, q, d) && SameSchedule(v, p, q)
    requires !Closed(c, v)
    ensures SaySame(p, q) && Alike(v, c, d)
    decreases |p|
  {
    if p != [] {
      var n := |p| - 1;
      RunPrefix(LeadsTo, a, p, c, n);
      RunPrefix(LeadsTo, b, q, d, n);
      RunKeepsInv(a, p, c);
      if Closed(p[n].st, v) { ClosedStays(p[n].st, p[n].e, v); }
      RunsAlike(v, a, b, p[..n], p[n].st, q[..n], q[n].st);
      StepAlike(v, p[n].st, q[n].st, p[n].e, q[n].e);
      forall i | 0 <= i < |p| ensures Said(p[i]) == Said(q[i]) {
        if i < n { assert Said(p[..n][i]) == Said(q[..n][i]); }
      }
    }
  }

  /** From a fresh server, two such runs send out the same replies and broadcasts for as
      long as the vote has not closed. */
  lemma BallotsStaySealed(v: VoteId, p: History, c: State, q: History, d: State)
    requires IsRun(LeadsTo, EMPTY, p, c) && IsRun(LeadsTo, EMPTY, q, d) && SameSchedule(v, p, q)
    requires !Closed(c, v)
    ensures SaySame(p, q) && !Closed(d, v)
  {
    EmptyIsInv();
    RunsAlike(v, EMPTY, EMPTY, p, c, q, d);
    assert SameAt(v, c, d, v);
  }
}
