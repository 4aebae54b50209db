/**
Selecting rooms in the Mac client: every selection starts a task that waits for the one
before it, then leaves, joins and loads, checking after each reply whether it is still the
current selection. A step is what runs between two awaits, or the server handling a request.
*/
module RoomTransitions {
  import opened Wrappers
  import opened Runs
  import opened Sorting

  type Room = string

  datatype Message = Message(id: string, room: Room, num: int)

  datatype Request = Leave | Join | History | Members

  datatype Outcome = Completed | Stale | Failed(at: Request)

  /** `applied` says whether the server has handled the request. */
  datatype Stage =
    | Waiting
    | Leaving(applied: bool)
    | Joining(applied: bool)
    | LoadingHistory
    | LoadingMembers
    | Ended(how: Outcome)

  datatype Transition = Transition(room: Room, generation: nat, stage: Stage)

  /** `server` is the set of rooms the server has this client in; `members` is the room whose
      member list is shown, and `refreshes` the rooms whose list was asked for because
      somebody joined or left. */
  datatype State = State(
    selected: Option<Room>, generation: nat, joined: Option<Room>, messages: seq<Message>,
    members: Option<Room>, loading: bool, tasks: seq<Transition>, server: set<Room>, refreshes: seq<Room>)

  const IDLE := State(None, 0, None, [], None, false, [], {}, [])

  // --- Messages ---

  function HasId(messages: seq<Message>, id: string): bool {
    exists m :: m in messages && m.id == id
  }

  function NumOf(): Message -> int {
    (m: Message) => m.num
  }

  /** The last message with each id, as a dictionary filled in order holds them. */
  function Latest(messages: seq<Message>): seq<Message> {
    if messages == [] then []
    else (if HasId(messages[1..], messages[0].id) then [] else [messages[0]]) + Latest(messages[1..])
  }

  function Merging(history: seq<Message>, live: seq<Message>): seq<Message> {
    Sort(NumOf(), Latest(history + live))
  }

  const SHOWN_CAP: nat := 200

  function LastOf(messages: seq<Message>, n: nat): seq<Message> {
    if |messages| > n then messages[|messages| - n..] else messages
  }

  function Append(messages: seq<Message>, m: Message): seq<Message> {
    if HasId(messages, m.id) then messages else LastOf(Sort(NumOf(), messages + [m]), SHOWN_CAP)
  }

  // --- Selecting ---

  function Select(st: State, room: Room): State {
    st.(selected := Some(room), generation := st.generation + 1, messages := [], members := None, loading := true,
        tasks := st.tasks + [Transition(room, st.generation + 1, Waiting)])
  }

  function At(st: State, i: nat, stage: Stage): State
    requires i < |st.tasks|
  {
    st.(tasks := st.tasks[i := st.tasks[i].(stage := stage)])
  }

  predicate IsCurrent(st: State, i: nat)
    requires i < |st.tasks|
  {
    st.tasks[i].generation == st.generation && st.selected == Some(st.tasks[i].room)
  }

  /** The previous transition has ended. */
  function Begin(st: State, i: nat): State
    requires i < |st.tasks|
  {
    if st.tasks[i].generation != st.generation then At(st, i, Ended(Stale))
    else if st.joined.Some? && st.joined.value != st.tasks[i].room then At(st, i, Leaving(false))
    else JoinNext(st, i)
  }

  function JoinNext(st: State, i: nat): State
    requires i < |st.tasks|
  {
    if st.joined != Some(st.tasks[i].room) then At(st, i, Joining(false)) else LoadNext(st, i)
  }

  function LoadNext(st: State, i: nat): State
    requires i < |st.tasks|
  {
    At(st, i, if st.tasks[i].generation != st.generation then Ended(Stale) else LoadingHistory)
  }

  /** The server handles a leave or a join. */
  function Apply(st: State, i: nat): State
    requires i < |st.tasks| && (st.tasks[i].stage.Leaving? || st.tasks[i].stage.Joining?)
  {
    if st.tasks[i].stage.Leaving? then
      At(st, i, Leaving(true)).(server := st.server - (if st.joined.Some? then {st.joined.value} else {}))
    else At(st, i, Joining(true)).(server := st.server + {st.tasks[i].room})
  }

  /** The reply to the request in flight is Ok; `history` is what a history request returned. */
  function Succeed(st: State, i: nat, history: seq<Message>): State
    requires i < |st.tasks|
  {
    match st.tasks[i].stage
    case Leaving(_) => JoinNext(st.(joined := None), i)
    case Joining(_) => LoadNext(st.(joined := Some(st.tasks[i].room)), i)
    case LoadingHistory =>
      if IsCurrent(st, i) then At(st, i, LoadingMembers).(messages := Merging(history, st.messages)) else At(st, i, Ended(Stale))
    case LoadingMembers =>
      if IsCurrent(st, i) then At(st, i, Ended(Completed)).(members := Some(st.tasks[i].room), loading := false)
      else At(st, i, Ended(Stale))
    case _ => st
  }

  function RequestOf(stage: Stage): Request {
    match stage
    case Leaving(_) => Leave
    case Joining(_) => Join
    case LoadingMembers => Members
    case _ => History
  }

  /** The request in flight fails. */
  function Fail(st: State, i: nat): State
    requires i < |st.tasks|
  {
    var ended := At(st, i, Ended(Failed(RequestOf(st.tasks[i].stage))));
    if IsCurrent(st, i) then ended.(loading := false) else ended
  }

  /** A pushed message, or the reply to one just sent. */
  function Receive(st: State, m: Message): State {
    if st.selected == Some(m.room) then st.(messages := Append(st.messages, m)) else st
  }

  // --- The member list, outside transitions ---

  /** Somebody joined or left: the list of the room selected now is asked for. */
  function AskMembers(st: State): State {
    if st.selected.Some? then st.(refreshes := st.refreshes + [st.selected.value]) else st
  }

  /** The answer, which counts only if that room is still, or again, selected. */
  function RefreshMembers(st: State, i: nat, ok: bool): State
    requires i < |st.refreshes|
  {
    var room := st.refreshes[i];
    st.(refreshes := st.refreshes[..i] + st.refreshes[i + 1..],
        members := if ok && st.selected == Some(room) then Some(room) else st.members)
  }

  function DestroyRoom(st: State, room: Room): State {
    if st.selected == Some(room) then st.(members := None) else st
  }

  // --- Runs ---

  datatype Event =
    | SelectRoom(room: Room)
    | Resume(task: nat)
    | ServerApplies(task: nat)
    | ReplyOk(task: nat, history: seq<Message>)
    | ReplyError(task: nat)
    | Push(message: Message)
    | MembershipChanged
    | MembersReply(refresh: nat, ok: bool)
    | RoomDestroyed(room: Room)

  predicate InFlight(stage: Stage) {
    stage.Leaving? || stage.Joining? || stage.LoadingHistory? || stage.LoadingMembers?
  }

  /** A transition resumes once the one before it has ended. A failed leave or join was not
      handled by the server, and history holds messages of the room it was asked for. */
  predicate Legal(st: State, e: Event) {
    match e
    case Resume(i) => i < |st.tasks| && st.tasks[i].stage == Waiting && (i > 0 ==> st.tasks[i - 1].stage.Ended?)
    case ServerApplies(i) => i < |st.tasks| && (st.tasks[i].stage == Leaving(false) || st.tasks[i].stage == Joining(false))
    case ReplyOk(i, history) =>
      && i < |st.tasks| && InFlight(st.tasks[i].stage)
      && st.tasks[i].stage != Leaving(false) && st.tasks[i].stage != Joining(false)
      && forall m :: m in history ==> m.room == st.tasks[i].room
    case ReplyError(i) =>
      i < |st.tasks| && InFlight(st.tasks[i].stage) && st.tasks[i].stage != Leaving(true) && st.tasks[i].stage != Joining(true)
    case MembersReply(i, _) => i < |st.refreshes|
    case _ => true
  }

  function Step(st: State, e: Event): State
    requires Legal(st, e)
  {
    match e
    case SelectRoom(room) => Select(st, room)
    case Resume(i) => Begin(st, i)
    case ServerApplies(i) => Apply(st, i)
    case ReplyOk(i, history) => Succeed(st, i, history)
    case ReplyError(i) => Fail(st, i)
    case Push(m) => Receive(st, m)
    case MembershipChanged => AskMembers(st)
    case MembersReply(i, ok) => RefreshMembers(st, i, ok)
    case RoomDestroyed(room) => DestroyRoom(st, room)
  }

  predicate LeadsTo(st: State, e: Event, next: State) {
    Legal(st, e) && next == Step(st, e)
  }

  type History = seq<Moment<State, Event>>
}
