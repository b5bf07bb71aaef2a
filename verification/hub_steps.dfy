/** The WebSocket hub of websocket/hub.go as a machine whose steps are what one goroutine
    does between two points where others may run. */
module HubSteps {

  datatype Item<M> = Broadcast(msg: M) | Direct(msg: M) | ToRoom(msg: M)

  /** A client's send channel: everything ever put in, how much the writer has taken out,
      and whether it is closed; and the rooms the client says it is in. */
  datatype Line<M> = Line(enqueued: seq<Item<M>>, taken: nat, closed: bool, rooms: set<string>)

  datatype Phase<C> = Idle | Sending(todo: set<C>, dead: set<C>)

  /** Stuck: the event loop waits for a lock it holds itself. */
  datatype Status = Running | Stuck | Crashed | Stopped

  /** backlog: the broadcasts waiting in the hub's own channel, which holds up to room of
      them; closed: whether shutdown has closed the hub's channels.  published, processed:
      the broadcasts ever put into that channel, and taken off it.  joined and left record, for
      each client, how many there had been when it was first registered and when its
      channel was closed. */
  datatype State<C, M> = State(
    status: Status,
    phase: Phase<C>,
    clients: set<C>,
    lines: map<C, Line<M>>,
    room: nat,
    backlog: seq<M>,
    closed: bool,
    published: seq<M>,
    processed: seq<M>,
    joined: map<C, nat>,
    left: map<C, nat>)

  /** waiting: the writer goroutine stands ready to receive on an empty channel; ready: so
      does the event loop. */
  datatype Step<C, M> =
    | Register(c: C)
    | Unregister(c: C)
    | Publish(msg: M, ready: bool)
    | PublishRoom
    | Begin
    | Offer(c: C, waiting: bool)
    | Finish
    | Shutdown
    | RoomOffer(c: C, msg: M, waiting: bool)
    | Send(c: C, msg: M, waiting: bool)
    | Drain(c: C)
    | Join(c: C, room: string)
    | Leave(c: C, room: string)

  function EmptyLine<M>(): Line<M> {
    Line([], 0, false, {})
  }

  function Pending<M>(line: Line<M>): int {
    |line.enqueued| - line.taken
  }

  /** A send without blocking goes through when there is room or a receiver. */
  predicate Accepts<M>(line: Line<M>, capacity: nat, waiting: bool) {
    Pending(line) < capacity || (waiting && Pending(line) == 0)
  }

  function Put<M>(line: Line<M>, item: Item<M>, waiting: bool): Line<M> {
    line.(enqueued := line.enqueued + [item],
          taken := if waiting && Pending(line) == 0 then line.taken + 1 else line.taken)
  }

  ghost function LineOf<C, M>(s: State<C, M>, c: C): Line<M> {
    if c in s.lines then s.lines[c] else EmptyLine()
  }

  ghost function Start<C, M>(room: nat): State<C, M> {
    State(Running, Idle, {}, map[], room, [], false, [], [], map[], map[])
  }

  // ---------- Steps ----------

  /** The event loop runs between broadcasts, others whenever the process is alive. */
  ghost predicate Enabled<C, M>(s: State<C, M>, step: Step<C, M>) {
    match step
    case Offer(c, _) => s.status == Running && s.phase.Sending? && c in s.phase.todo
    case Finish => s.status == Running && s.phase.Sending? && s.phase.todo == {}
    case Begin => s.status == Running && s.phase == Idle && s.backlog != []
    case Publish(_, _) => s.status != Crashed
    case PublishRoom => s.status != Crashed
    case Send(_, _, _) => s.status != Crashed
    case Drain(_) => s.status != Crashed
    case Join(_, _) => s.status != Crashed
    case Leave(_, _) => s.status != Crashed
    case _ => s.status == Running && s.phase == Idle
  }

  ghost function SetLine<C, M>(s: State<C, M>, c: C, line: Line<M>): State<C, M> {
    s.(lines := s.lines[c := line])
  }

  ghost function Crash<C, M>(s: State<C, M>): State<C, M> {
    s.(status := Crashed)
  }

  /** One non-blocking send by anyone but a broadcast; on a closed channel it panics. */
  ghost function TrySend<C, M>(s: State<C, M>, capacity: nat, c: C, item: Item<M>, waiting: bool): State<C, M> {
    var line := LineOf(s, c);
    if line.closed then Crash(s)
    else if Accepts(line, capacity, waiting) then SetLine(s, c, Put(line, item, waiting))
    else s
  }

  /** BroadcastToAll called from anywhere: a send on a closed channel panics, and one that
      finds no room is dropped. */
  ghost function DoPublish<C, M>(s: State<C, M>, msg: M, ready: bool): State<C, M> {
    if s.closed then Crash(s)
    else if |s.backlog| < s.room || (ready && s.backlog == [] && s.status == Running && s.phase == Idle) then
      s.(backlog := s.backlog + [msg], published := s.published + [msg])
    else s
  }

  ghost function DoBegin<C, M>(s: State<C, M>): State<C, M>
    requires s.backlog != []
  {
    s.(processed := s.processed + [s.backlog[0]], backlog := s.backlog[1..], phase := Sending(s.clients, {}))
  }

  ghost function DoOffer<C, M>(s: State<C, M>, capacity: nat, c: C, waiting: bool): State<C, M>
    requires s.phase.Sending?
  {
    var line := LineOf(s, c);
    if line.closed || s.processed == [] then Crash(s)
    else if Accepts(line, capacity, waiting) then
      var item := Broadcast(s.processed[|s.processed| - 1]);
      SetLine(s, c, Put(line, item, waiting)).(phase := s.phase.(todo := s.phase.todo - {c}))
    else s.(phase := Sending(s.phase.todo - {c}, s.phase.dead + {c}))
  }

  /** Closing the channels of some clients of which none may be closed already. */
  ghost function CloseAll<C, M>(s: State<C, M>, gone: set<C>, at: nat): State<C, M> {
    if exists c | c in gone :: LineOf(s, c).closed then Crash(s)
    else s.(lines := map c | c in s.lines.Keys + gone ::
            if c in gone then LineOf(s, c).(closed := true) else s.lines[c],
            left := map c | c in s.left.Keys + gone :: if c in gone then at else s.left[c])
  }

  ghost function DoUnregister<C, M>(s: State<C, M>, c: C): State<C, M> {
    if c !in s.clients then s
    else
      var t := CloseAll(s, {c}, |s.processed|);
      if t.status == Crashed then t
      else t.(clients := s.clients - {c}, status := if LineOf(s, c).rooms == {} then s.status else Stuck)
  }

  ghost function DoFinish<C, M>(s: State<C, M>): State<C, M>
    requires s.phase.Sending?
  {
    var gone := s.phase.dead * s.clients;
    var t := CloseAll(s, gone, if |s.processed| > 0 then |s.processed| - 1 else 0);
    if t.status == Crashed then t else t.(clients := s.clients - gone, phase := Idle)
  }

  ghost function DoShutdown<C, M>(s: State<C, M>): State<C, M> {
    var t := CloseAll(s, s.clients, |s.processed|);
    if t.status == Crashed then t else t.(status := Stopped, closed := true)
  }

  ghost function Next<C, M>(s: State<C, M>, capacity: nat, step: Step<C, M>): State<C, M>
    requires Enabled(s, step)
  {
    match step
    case Register(c) =>
      s.(clients := s.clients + {c}, joined := if c in s.joined then s.joined else s.joined[c := |s.processed|])
    case Unregister(c) => DoUnregister(s, c)
    case Publish(msg, ready) => DoPublish(s, msg, ready)
    case PublishRoom => if s.closed then Crash(s) else s
    case Begin => DoBegin(s)
    case Offer(c, waiting) => DoOffer(s, capacity, c, waiting)
    case Finish => DoFinish(s)
    case Shutdown => DoShutdown(s)
    case RoomOffer(c, msg, waiting) => TrySend(s, capacity, c, ToRoom(msg), waiting)
    case Send(c, msg, waiting) => TrySend(s, capacity, c, Direct(msg), waiting)
    case Drain(c) =>
      var line := LineOf(s, c);
      if Pending(line) > 0 then SetLine(s, c, line.(taken := line.taken + 1)) else s
    case Join(c, room) => SetLine(s, c, LineOf(s, c).(rooms := LineOf(s, c).rooms + {room}))
    case Leave(c, room) => SetLine(s, c, LineOf(s, c).(rooms := LineOf(s, c).rooms - {room}))
  }

  /** A run of enabled steps from s to t. */
  ghost predicate Leads<C, M>(s: State<C, M>, capacity: nat, steps: seq<Step<C, M>>, t: State<C, M>)
    decreases |steps|
  {
    if steps == [] then s == t
    else Enabled(s, steps[0]) && Leads(Next(s, capacity, steps[0]), capacity, steps[1..], t)
  }

  // ---------- No gaps ----------

  /** The broadcasts among the items of a channel. */
  function Broadcasts<M>(items: seq<Item<M>>): seq<M> {
    if items == [] then []
    else
      var front, last := items[..|items| - 1], items[|items| - 1];
      Broadcasts(front) + (if last.Broadcast? then [last.msg] else [])
  }

  /** How far into the processed broadcasts a client has been served. */
  ghost function UpTo<C, M>(s: State<C, M>, c: C): int {
    if c in s.left then s.left[c]
    else if s.phase.Sending? && c in s.phase.todo + s.phase.dead then |s.processed| - 1
    else |s.processed|
  }

  /** What a client got is one contiguous block, complete up to the present or its removal. */
  ghost predicate Served<C, M>(s: State<C, M>, c: C) {
    var got := Broadcasts(LineOf(s, c).enqueued);
    if c in s.joined then
      0 <= s.joined[c] <= UpTo(s, c) <= |s.processed| && got == s.processed[s.joined[c]..UpTo(s, c)]
    else got == []
  }

  /** A channel is closed exactly when the client's removal has been recorded, and never
      holds more than its capacity. */
  ghost predicate Sound<C, M>(s: State<C, M>, capacity: nat, c: C) {
    var line := LineOf(s, c);
    (line.closed <==> c in s.left) && 0 <= Pending(line) <= capacity
  }

  ghost predicate Inv<C, M>(s: State<C, M>, capacity: nat) {
    && s.published == s.processed + s.backlog
    && (s.status == Running || s.status == Stuck ==> !s.closed) && (s.status == Stopped ==> s.closed)
    && s.clients <= s.joined.Keys && s.left.Keys <= s.joined.Keys && s.joined.Keys - s.left.Keys <= s.clients
    && (s.phase.Sending? ==> s.processed != [] && s.phase.todo <= s.clients && s.phase.dead <= s.clients
                             && s.phase.todo !! s.phase.dead)
    && (forall c | c in s.lines.Keys + s.joined.Keys :: Served(s, c) && Sound(s, capacity, c))
  }

  lemma Everyone<C, M>(s: State<C, M>, capacity: nat, c: C)
    requires Inv(s, capacity)
    ensures Served(s, c) && Sound(s, capacity, c)
  {
  }

  lemma BroadcastsSnoc<M>(items: seq<Item<M>>, item: Item<M>)
    ensures Broadcasts(items + [item]) == Broadcasts(items) + (if item.Broadcast? then [item.msg] else [])
  {
    assert (items + [item])[..|items|] == items;
  }

  lemma Advance<M>(got: seq<M>, processed: seq<M>, from: nat)
    requires from < |processed| && got == processed[from..|processed| - 1]
    ensures got + [processed[|processed| - 1]] == processed[from..|processed|]
  {
  }

  /** A change of one client's line that leaves its broadcasts and its closing alone. */
  lemma OneLine<C, M>(s: State<C, M>, capacity: nat, c: C, line: Line<M>)
    requires Inv(s, capacity)
    requires Broadcasts(line.enqueued) == Broadcasts(LineOf(s, c).enqueued)
    requires line.closed == LineOf(s, c).closed && 0 <= Pending(line) <= capacity
    ensures Inv(SetLine(s, c, line), capacity)
  {
    var t := SetLine(s, c, line);
    Everyone(s, capacity, c);
    forall d | d in t.lines.Keys + t.joined.Keys ensures Served(t, d) && Sound(t, capacity, d) {
      Everyone(s, capacity, d);
    }
  }

  lemma TrySendKeeps<C, M>(s: State<C, M>, capacity: nat, c: C, item: Item<M>, waiting: bool)
    requires Inv(s, capacity) && !item.Broadcast?
    ensures Inv(TrySend(s, capacity, c, item, waiting), capacity)
  {
    var line := LineOf(s, c);
    Everyone(s, capacity, c);
    if line.closed {
      CrashKeeps(s, capacity);
    } else if Accepts(line, capacity, waiting) {
      BroadcastsSnoc(line.enqueued, item);
      OneLine(s, capacity, c, Put(line, item, waiting));
    }
  }

  lemma CrashKeeps<C, M>(s: State<C, M>, capacity: nat)
    requires Inv(s, capacity)
    ensures Inv(Crash(s), capacity)
  {
    forall c | c in s.lines.Keys + s.joined.Keys ensures Served(Crash(s), c) && Sound(Crash(s), capacity, c) {
      Everyone(s, capacity, c);
    }
  }

  /** What an offer does to the client it goes to. */
  lemma OfferIs<C, M>(s: State<C, M>, capacity: nat, c: C, waiting: bool)
    requires s.phase.Sending? && c in s.phase.todo && c !in s.left && s.processed != [] && !LineOf(s, c).closed
    ensures var t, line, n := DoOffer(s, capacity, c, waiting), LineOf(s, c), |s.processed|;
            && t.joined == s.joined && t.left == s.left && t.processed == s.processed
            && if Accepts(line, capacity, waiting)
               then LineOf(t, c) == Put(line, Broadcast(s.processed[n - 1]), waiting)
                    && (c !in s.phase.dead ==> UpTo(t, c) == n)
               else LineOf(t, c) == line && UpTo(t, c) == n - 1
  {
  }

  lemma OfferServes<C, M>(s: State<C, M>, capacity: nat, c: C, waiting: bool)
    requires Inv(s, capacity) && s.phase.Sending? && c in s.phase.todo && !LineOf(s, c).closed
    ensures Served(DoOffer(s, capacity, c, waiting), c) && Sound(DoOffer(s, capacity, c, waiting), capacity, c)
  {
    var line, n := LineOf(s, c), |s.processed|;
    Everyone(s, capacity, c);
    assert c in s.joined && c !in s.left && UpTo(s, c) == n - 1;
    OfferIs(s, capacity, c, waiting);
    if Accepts(line, capacity, waiting) {
      BroadcastsSnoc(line.enqueued, Broadcast(s.processed[n - 1]));
      Advance(Broadcasts(line.enqueued), s.processed, s.joined[c]);
    }
  }

  lemma OfferSpares<C, M>(s: State<C, M>, capacity: nat, c: C, waiting: bool, d: C)
    requires Inv(s, capacity) && s.phase.Sending? && c in s.phase.todo && !LineOf(s, c).closed && d != c
    ensures Served(DoOffer(s, capacity, c, waiting), d) && Sound(DoOffer(s, capacity, c, waiting), capacity, d)
  {
    var t := DoOffer(s, capacity, c, waiting);
    Everyone(s, capacity, d);
    assert LineOf(t, d) == LineOf(s, d);
    assert UpTo(t, d) == UpTo(s, d);
  }

  lemma OfferKeeps<C, M>(s: State<C, M>, capacity: nat, c: C, waiting: bool)
    requires Inv(s, capacity) && s.phase.Sending? && c in s.phase.todo
    ensures Inv(DoOffer(s, capacity, c, waiting), capacity)
  {
    var t := DoOffer(s, capacity, c, waiting);
    if LineOf(s, c).closed {
      CrashKeeps(s, capacity);
    } else {
      forall d | d in t.lines.Keys + t.joined.Keys ensures Served(t, d) && Sound(t, capacity, d) {
        if d == c {
          OfferServes(s, capacity, c, waiting);
        } else {
          OfferSpares(s, capacity, c, waiting, d);
        }
      }
    }
  }

  lemma CloseAllKeeps<C, M>(s: State<C, M>, capacity: nat, gone: set<C>, at: nat)
    requires Inv(s, capacity) && gone <= s.joined.Keys
    requires forall c | c in gone && c !in s.left :: UpTo(s, c) == at
    ensures Inv(CloseAll(s, gone, at), capacity)
  {
    var t := CloseAll(s, gone, at);
    if exists c | c in gone :: LineOf(s, c).closed {
      CrashKeeps(s, capacity);
    } else {
      forall d | d in t.lines.Keys + t.joined.Keys ensures Served(t, d) && Sound(t, capacity, d) {
        Everyone(s, capacity, d);
        assert LineOf(t, d) == if d in gone then LineOf(s, d).(closed := true) else LineOf(s, d);
      }
    }
  }

  /** A state that differs only in what no client's record depends on. */
  lemma SameRecords<C, M>(s: State<C, M>, t: State<C, M>, capacity: nat)
    requires Inv(s, capacity)
    requires t.lines == s.lines && t.joined == s.joined && t.left == s.left && t.processed == s.processed
    requires t.published == t.processed + t.backlog
    requires (t.status == Running || t.status == Stuck ==> !t.closed) && (t.status == Stopped ==> t.closed)
    requires s.joined.Keys - s.left.Keys <= t.clients <= t.joined.Keys
    requires t.phase == Idle
    requires forall c | c in s.joined && c !in s.left :: UpTo(s, c) == |s.processed|
    ensures Inv(t, capacity)
  {
    forall c | c in t.lines.Keys + t.joined.Keys ensures Served(t, c) && Sound(t, capacity, c) {
      Everyone(s, capacity, c);
    }
  }

  lemma UnregisterKeeps<C, M>(s: State<C, M>, capacity: nat, c: C)
    requires Inv(s, capacity) && s.status == Running && s.phase == Idle
    ensures Inv(DoUnregister(s, c), capacity)
  {
    if c in s.clients {
      var t := CloseAll(s, {c}, |s.processed|);
      CloseAllKeeps(s, capacity, {c}, |s.processed|);
      if t.status != Crashed {
        SameRecords(t, DoUnregister(s, c), capacity);
      }
    }
  }

  lemma FinishKeeps<C, M>(s: State<C, M>, capacity: nat)
    requires Inv(s, capacity) && s.phase.Sending? && s.phase.todo == {}
    ensures Inv(DoFinish(s), capacity)
  {
    var gone := s.phase.dead * s.clients;
    CloseAllKeeps(s, capacity, gone, |s.processed| - 1);
    var t := CloseAll(s, gone, |s.processed| - 1);
    if t.status != Crashed {
      assert forall c | c in t.joined && c !in t.left :: UpTo(t, c) == |t.processed|;
      SameRecords(t, t.(clients := s.clients - gone, phase := Idle), capacity);
    }
  }

  lemma ShutdownKeeps<C, M>(s: State<C, M>, capacity: nat)
    requires Inv(s, capacity) && s.phase == Idle
    ensures Inv(DoShutdown(s), capacity)
  {
    CloseAllKeeps(s, capacity, s.clients, |s.processed|);
    var t := CloseAll(s, s.clients, |s.processed|);
    if t.status != Crashed {
      SameRecords(t, DoShutdown(s), capacity);
    }
  }

  lemma BeginServes<C, M>(s: State<C, M>, capacity: nat, c: C)
    requires Inv(s, capacity) && s.phase == Idle && s.backlog != []
    ensures Served(DoBegin(s), c) && Sound(DoBegin(s), capacity, c)
  {
    var t := DoBegin(s);
    Everyone(s, capacity, c);
    if c in s.joined {
      assert t.processed[s.joined[c]..UpTo(s, c)] == s.processed[s.joined[c]..UpTo(s, c)];
    }
  }

  lemma BeginKeeps<C, M>(s: State<C, M>, capacity: nat)
    requires Inv(s, capacity) && s.status == Running && s.phase == Idle && s.backlog != []
    ensures Inv(DoBegin(s), capacity)
  {
    var t := DoBegin(s);
    assert s.backlog == [s.backlog[0]] + s.backlog[1..];
    assert t.processed + t.backlog == s.processed + s.backlog;
    forall c | c in t.lines.Keys + t.joined.Keys ensures Served(t, c) && Sound(t, capacity, c) {
      BeginServes(s, capacity, c);
    }
  }

  lemma PublishKeeps<C, M>(s: State<C, M>, capacity: nat, msg: M, ready: bool)
    requires Inv(s, capacity)
    ensures Inv(DoPublish(s, msg, ready), capacity)
  {
    var t := DoPublish(s, msg, ready);
    assert s.processed + (s.backlog + [msg]) == s.processed + s.backlog + [msg];
    forall c | c in t.lines.Keys + t.joined.Keys ensures Served(t, c) && Sound(t, capacity, c) {
      Everyone(s, capacity, c);
    }
  }

  lemma RegisterKeeps<C, M>(s: State<C, M>, capacity: nat, c: C)
    requires Inv(s, capacity) && s.status == Running && s.phase == Idle
    ensures Inv(Next(s, capacity, Register(c)), capacity)
  {
    var t := Next(s, capacity, Register(c));
    Everyone(s, capacity, c);
    forall d | d in t.lines.Keys + t.joined.Keys ensures Served(t, d) && Sound(t, capacity, d) {
      Everyone(s, capacity, d);
    }
  }

  lemma NextKeeps<C, M>(s: State<C, M>, capacity: nat, step: Step<C, M>)
    requires Inv(s, capacity) && Enabled(s, step)
    ensures Inv(Next(s, capacity, step), capacity)
  {
    match step
    case Register(c) => RegisterKeeps(s, capacity, c);
    case Unregister(c) => UnregisterKeeps(s, capacity, c);
    case Publish(msg, ready) => PublishKeeps(s, capacity, msg, ready);
    case PublishRoom => CrashKeeps(s, capacity);
    case Begin => BeginKeeps(s, capacity);
    case Offer(c, waiting) => OfferKeeps(s, capacity, c, waiting);
    case Finish => FinishKeeps(s, capacity);
    case Shutdown => ShutdownKeeps(s, capacity);
    case RoomOffer(c, msg, waiting) => TrySendKeeps(s, capacity, c, ToRoom(msg), waiting);
    case Send(c, msg, waiting) => TrySendKeeps(s, capacity, c, Direct(msg), waiting);
    case Drain(c) =>
      Everyone(s, capacity, c);
      var line := LineOf(s, c);
      if Pending(line) > 0 {
        OneLine(s, capacity, c, line.(taken := line.taken + 1));
      }
    case Join(c, room) =>
      Everyone(s, capacity, c);
      OneLine(s, capacity, c, LineOf(s, c).(rooms := LineOf(s, c).rooms + {room}));
    case Leave(c, room) =>
      Everyone(s, capacity, c);
      OneLine(s, capacity, c, LineOf(s, c).(rooms := LineOf(s, c).rooms - {room}));
  }

  lemma {:induction false} RunKeeps<C, M>(s: State<C, M>, capacity: nat, steps: seq<Step<C, M>>, t: State<C, M>)
    requires Inv(s, capacity) && Leads(s, capacity, steps, t)
    ensures Inv(t, capacity)
    decreases |steps|
  {
    if steps != [] {
      NextKeeps(s, capacity, steps[0]);
      RunKeeps(Next(s, capacity, steps[0]), capacity, steps[1..], t);
    }
  }

  /** In every run, however it interleaves, crashes or gets stuck: the broadcasts put into
      a client's channel are one contiguous block of those the hub took, from its
      registration up to its removal or, if it still belongs to the hub, up to the present
      (the one being sent excepted until its turn); no channel holds more than fits; and the
      hub takes the broadcasts in the order in which they got into its own channel. */
  lemma BroadcastsReachEveryClient<C, M>(room: nat, capacity: nat, steps: seq<Step<C, M>>, t: State<C, M>, c: C)
    requires Leads(Start(room), capacity, steps, t) && c in t.joined
    ensures 0 <= t.joined[c] <= UpTo(t, c) <= |t.processed|
    ensures Broadcasts(LineOf(t, c).enqueued) == t.processed[t.joined[c]..UpTo(t, c)]
    ensures c !in t.left && t.phase == Idle ==> UpTo(t, c) == |t.processed|
    ensures 0 <= Pending(LineOf(t, c)) <= capacity
    ensures t.processed <= t.published && t.published == t.processed + t.backlog
  {
    RunKeeps(Start(room), capacity, steps, t);
    Everyone(t, capacity, c);
  }

  // ---------- Removal is final, and happens once ----------

  /** Once a channel is closed nothing more goes in, and its record stays. */
  lemma RemovedStays<C, M>(s: State<C, M>, capacity: nat, step: Step<C, M>, c: C)
    requires Inv(s, capacity) && Enabled(s, step) && c in s.left
    ensures var t := Next(s, capacity, step);
            && c in t.left && t.left[c] == s.left[c] && t.joined[c] == s.joined[c]
            && LineOf(t, c).enqueued == LineOf(s, c).enqueued && LineOf(t, c).closed
  {
    Everyone(s, capacity, c);
  }

  lemma {:induction false} RemovedForGood<C, M>(s: State<C, M>, capacity: nat, steps: seq<Step<C, M>>, t: State<C, M>,
                                                c: C)
    requires Inv(s, capacity) && Leads(s, capacity, steps, t) && c in s.left
    ensures c in t.left && t.left[c] == s.left[c] && LineOf(t, c).enqueued == LineOf(s, c).enqueued
            && LineOf(t, c).closed
    decreases |steps|
  {
    Everyone(s, capacity, c);
    if steps != [] {
      NextKeeps(s, capacity, steps[0]);
      RemovedStays(s, capacity, steps[0], c);
      RemovedForGood(Next(s, capacity, steps[0]), capacity, steps[1..], t, c);
    }
  }

  /** Every connection is registered at most once, as ServeWS does. */
  ghost predicate FreshStep<C, M>(s: State<C, M>, step: Step<C, M>) {
    step.Register? ==> step.c !in s.joined
  }

  /** As long as the event loop runs, the channels of its clients are open. */
  ghost predicate Open<C, M>(s: State<C, M>) {
    s.status == Running ==> s.clients !! s.left.Keys
  }

  /** The event loop never closes a channel twice nor broadcasts into a closed one: only a
      direct send, a room message or a call of a broadcast method can find a closed channel. */
  lemma LoopNeverPanics<C, M>(s: State<C, M>, capacity: nat, step: Step<C, M>)
    requires Inv(s, capacity) && Open(s) && Enabled(s, step) && FreshStep(s, step)
    ensures Open(Next(s, capacity, step))
    ensures s.status != Crashed && !step.Send? && !step.RoomOffer? && !Publishes(step) ==>
              Next(s, capacity, step).status != Crashed
  {
    forall c | c in s.clients && s.status == Running ensures !LineOf(s, c).closed {
      Everyone(s, capacity, c);
    }
  }

  /** A call of BroadcastToAll or BroadcastToRoom. */
  ghost predicate Publishes<C, M>(step: Step<C, M>) {
    step.Publish? || step.PublishRoom?
  }

  ghost predicate FreshRun<C, M>(s: State<C, M>, capacity: nat, steps: seq<Step<C, M>>, t: State<C, M>)
    decreases |steps|
  {
    if steps == [] then s == t
    else Enabled(s, steps[0]) && FreshStep(s, steps[0])
         && FreshRun(Next(s, capacity, steps[0]), capacity, steps[1..], t)
  }

  /** Some broadcast method is called after a shutdown, or at all if that came before. */
  ghost predicate PublishesLate<C, M>(steps: seq<Step<C, M>>, closed: bool) {
    exists j | 0 <= j < |steps| :: Publishes(steps[j]) && (closed || exists i | 0 <= i < j :: steps[i].Shutdown?)
  }

  lemma PublishesLateTail<C, M>(steps: seq<Step<C, M>>, closed: bool)
    requires steps != []
    ensures PublishesLate(steps, closed)
            <==> (Publishes(steps[0]) && closed) || PublishesLate(steps[1..], closed || steps[0].Shutdown?)
  {
    var rest := steps[1..];
    if j :| 0 <= j < |rest| && Publishes(rest[j])
            && ((closed || steps[0].Shutdown?) || exists i | 0 <= i < j :: rest[i].Shutdown?) {
      assert Publishes(steps[j + 1]);
      if i :| 0 <= i < j && rest[i].Shutdown? {
        assert steps[i + 1].Shutdown?;
      }
    }
    if j :| 0 < j < |steps| && Publishes(steps[j]) && (closed || exists i | 0 <= i < j :: steps[i].Shutdown?) {
      assert Publishes(rest[j - 1]);
      if i :| 0 < i < j && steps[i].Shutdown? {
        assert rest[i - 1].Shutdown?;
      }
    }
  }

  lemma ShutdownCloses<C, M>(s: State<C, M>, capacity: nat, step: Step<C, M>)
    requires Inv(s, capacity) && Open(s) && Enabled(s, step) && FreshStep(s, step) && s.status != Crashed
    requires !step.Send? && !step.RoomOffer?
    ensures var t := Next(s, capacity, step);
            && (t.status == Crashed <==> Publishes(step) && s.closed)
            && (t.status != Crashed ==> (t.closed <==> s.closed || step.Shutdown?))
  {
    LoopNeverPanics(s, capacity, step);
  }

  lemma {:induction false} FreshRunCrashes<C, M>(s: State<C, M>, capacity: nat, steps: seq<Step<C, M>>, t: State<C, M>)
    requires Inv(s, capacity) && Open(s) && FreshRun(s, capacity, steps, t) && s.status != Crashed
    requires forall k | 0 <= k < |steps| :: !steps[k].Send? && !steps[k].RoomOffer?
    ensures t.status == Crashed <==> PublishesLate(steps, s.closed)
    decreases |steps|
  {
    if steps != [] {
      var next := Next(s, capacity, steps[0]);
      NextKeeps(s, capacity, steps[0]);
      LoopNeverPanics(s, capacity, steps[0]);
      ShutdownCloses(s, capacity, steps[0]);
      PublishesLateTail(steps, s.closed);
      if next.status == Crashed {
        CrashedEnds(next, capacity, steps[1..], t);
      } else {
        FreshRunCrashes(next, capacity, steps[1..], t);
      }
    }
  }

  /** Nothing happens in a crashed process. */
  lemma CrashedEnds<C, M>(s: State<C, M>, capacity: nat, steps: seq<Step<C, M>>, t: State<C, M>)
    requires s.status == Crashed && FreshRun(s, capacity, steps, t)
    ensures t == s
  {
  }

  /** A run of fresh connections without direct sends and room messages panics exactly when
      somebody calls a broadcast method after the shutdown. */
  lemma PanicsExactly<C, M>(room: nat, capacity: nat, steps: seq<Step<C, M>>, t: State<C, M>)
    requires FreshRun(Start(room), capacity, steps, t)
    requires forall k | 0 <= k < |steps| :: !steps[k].Send? && !steps[k].RoomOffer?
    ensures t.status == Crashed <==> exists i, j | 0 <= i < j < |steps| :: steps[i].Shutdown? && Publishes(steps[j])
  {
    FreshRunCrashes(Start(room), capacity, steps, t);
    if j :| 0 <= j < |steps| && Publishes(steps[j]) && (false || exists i | 0 <= i < j :: steps[i].Shutdown?) {
      var i :| 0 <= i < j && steps[i].Shutdown?;
      assert steps[i].Shutdown? && Publishes(steps[j]);
    }
  }

  lemma PublishAfterShutdownPanics<C, M>(room: nat, capacity: nat, msg: M, ready: bool) returns (t: State<C, M>)
    ensures FreshRun(Start(room), capacity, [Shutdown, Publish(msg, ready)], t) && t.status == Crashed
  {
    var s: State<C, M> := Start(room);
    var stopped := Next(s, capacity, Shutdown);
    t := Next(stopped, capacity, Publish(msg, ready));
    var steps: seq<Step<C, M>> := [Shutdown, Publish(msg, ready)];
    assert steps[1..] == [Publish(msg, ready)] && steps[1..][1..] == [];
    assert FreshRun(t, capacity, steps[1..][1..], t);
    assert FreshRun(stopped, capacity, steps[1..], t);
  }

  /** Somebody uses a channel that is closed: the hub's own after the shutdown, or that of a
      client that was removed. */
  ghost predicate FindsClosed<C, M>(s: State<C, M>, step: Step<C, M>) {
    (Publishes(step) && s.closed) || ((step.Send? || step.RoomOffer?) && step.c in s.left)
  }

  lemma PanicStepIff<C, M>(s: State<C, M>, capacity: nat, step: Step<C, M>)
    requires Inv(s, capacity) && Open(s) && Enabled(s, step) && FreshStep(s, step) && s.status != Crashed
    ensures Next(s, capacity, step).status == Crashed <==> FindsClosed(s, step)
  {
    LoopNeverPanics(s, capacity, step);
    if step.Send? || step.RoomOffer? {
      Everyone(s, capacity, step.c);
    }
  }

  /** Some step of the run does. */
  ghost predicate Misuses<C, M>(s: State<C, M>, capacity: nat, steps: seq<Step<C, M>>)
    decreases |steps|
  {
    && steps != [] && Enabled(s, steps[0])
    && (FindsClosed(s, steps[0]) || Misuses(Next(s, capacity, steps[0]), capacity, steps[1..]))
  }

  lemma {:induction false} RunPanics<C, M>(s: State<C, M>, capacity: nat, steps: seq<Step<C, M>>, t: State<C, M>)
    requires Inv(s, capacity) && Open(s) && FreshRun(s, capacity, steps, t) && s.status != Crashed
    ensures t.status == Crashed <==> Misuses(s, capacity, steps)
    decreases |steps|
  {
    if steps != [] {
      var next := Next(s, capacity, steps[0]);
      NextKeeps(s, capacity, steps[0]);
      LoopNeverPanics(s, capacity, steps[0]);
      PanicStepIff(s, capacity, steps[0]);
      if next.status == Crashed {
        CrashedEnds(next, capacity, steps[1..], t);
      } else {
        RunPanics(next, capacity, steps[1..], t);
      }
    }
  }

  /** Any run of fresh connections panics exactly when some step of it finds a closed channel. */
  lemma PanicsIff<C, M>(room: nat, capacity: nat, steps: seq<Step<C, M>>, t: State<C, M>)
    requires FreshRun(Start(room), capacity, steps, t)
    ensures t.status == Crashed <==> Misuses(Start(room), capacity, steps)
  {
    RunPanics(Start(room), capacity, steps, t);
  }

  lemma FreshOn<C, M>(s: State<C, M>, capacity: nat, step: Step<C, M>, steps: seq<Step<C, M>>, t: State<C, M>)
    requires Enabled(s, step) && FreshStep(s, step) && FreshRun(Next(s, capacity, step), capacity, steps, t)
    ensures FreshRun(s, capacity, [step] + steps, t)
  {
    assert ([step] + steps)[1..] == steps;
  }

  /** The client's buffer is filled with n messages, and what happens then. */
  function Fill<C, M>(c: C, msg: M, n: nat, rest: seq<Step<C, M>>): seq<Step<C, M>> {
    if n == 0 then rest else [Send(c, msg, false)] + Fill(c, msg, n - 1, rest)
  }

  /** The hub idles with one client, in a room and with this many messages in its buffer. */
  ghost predicate Alone<C, M>(s: State<C, M>, c: C, pending: nat) {
    && s.status == Running && s.phase == Idle && s.clients == {c} && s.backlog == [] && !s.closed
    && c in s.joined && c in s.lines && !s.lines[c].closed && Pending(s.lines[c]) == pending
  }

  lemma {:induction false} Filled<C, M>(s: State<C, M>, capacity: nat, c: C, msg: M, n: nat, rest: seq<Step<C, M>>)
    returns (u: State<C, M>)
    requires n <= capacity && Alone(s, c, capacity - n)
    ensures Alone(u, c, capacity)
            && forall t | FreshRun(u, capacity, rest, t) :: FreshRun(s, capacity, Fill(c, msg, n, rest), t)
    decreases n
  {
    if n == 0 {
      u := s;
    } else {
      var step := Send(c, msg, false);
      u := Filled(Next(s, capacity, step), capacity, c, msg, n - 1, rest);
      forall t | FreshRun(u, capacity, rest, t) ensures FreshRun(s, capacity, Fill(c, msg, n, rest), t) {
        FreshOn(s, capacity, step, Fill(c, msg, n - 1, rest), t);
      }
    }
  }

  /** A broadcast finds the buffer full and evicts the client; a room message still goes to it. */
  function Evict<C, M>(c: C, msg: M): seq<Step<C, M>> {
    [Publish(msg, true)] + ([Begin] + ([Offer(c, false)] + ([Finish] + ([RoomOffer(c, msg, false)] + []))))
  }

  lemma EvictPanics<C, M>(s: State<C, M>, capacity: nat, c: C, msg: M) returns (t: State<C, M>)
    requires Alone(s, c, capacity)
    ensures FreshRun(s, capacity, Evict(c, msg), t) && t.status == Crashed
  {
    var s1 := Next(s, capacity, Publish(msg, true));
    var s2 := Next(s1, capacity, Begin);
    var s3 := Next(s2, capacity, Offer(c, false));
    var s4 := Next(s3, capacity, Finish);
    assert s3.phase == Sending({}, {c});
    assert LineOf(s4, c).closed;
    t := Next(s4, capacity, RoomOffer(c, msg, false));
    FreshOn(s4, capacity, RoomOffer(c, msg, false), [], t);
    FreshOn(s3, capacity, Finish, [RoomOffer(c, msg, false)] + [], t);
    FreshOn(s2, capacity, Offer(c, false), [Finish] + ([RoomOffer(c, msg, false)] + []), t);
    FreshOn(s1, capacity, Begin, [Offer(c, false)] + ([Finish] + ([RoomOffer(c, msg, false)] + [])), t);
    FreshOn(s, capacity, Publish(msg, true), [Begin]
            + ([Offer(c, false)] + ([Finish] + ([RoomOffer(c, msg, false)] + []))), t);
  }

  /** A client that joined a room stays in it when it is evicted for a full buffer; the next
      message there is sent on its closed channel and panics. */
  lemma RoomMessageAfterEviction<C, M>(room: nat, capacity: nat, c: C, name: string, msg: M) returns (t: State<C, M>)
    ensures var steps := [Register(c)] + ([Join(c, name)] + Fill(c, msg, capacity, Evict(c, msg)));
            FreshRun(Start(room), capacity, steps, t) && t.status == Crashed
  {
    var s: State<C, M> := Start(room);
    var s1 := Next(s, capacity, Register(c));
    var s2 := Next(s1, capacity, Join(c, name));
    var full := Filled(s2, capacity, c, msg, capacity, Evict(c, msg));
    t := EvictPanics(full, capacity, c, msg);
    FreshOn(s1, capacity, Join(c, name), Fill(c, msg, capacity, Evict(c, msg)), t);
    FreshOn(s, capacity, Register(c), [Join(c, name)] + Fill(c, msg, capacity, Evict(c, msg)), t);
  }

  /** The step that gets the loop stuck: unregistering a client that is in a room. */
  lemma StuckExactly<C, M>(s: State<C, M>, capacity: nat, step: Step<C, M>)
    requires Inv(s, capacity) && Open(s) && Enabled(s, step) && s.status == Running
    ensures Next(s, capacity, step).status == Stuck
            <==> step.Unregister? && step.c in s.clients && LineOf(s, step.c).rooms != {}
  {
    if step.Unregister? {
      Everyone(s, capacity, step.c);
    }
  }

  /** And such a run: register, join a room, unregister. */
  lemma StuckIsReached<C, M>(room: nat, capacity: nat, c: C, name: string) returns (t: State<C, M>)
    ensures FreshRun(Start(room), capacity, [Register(c), Join(c, name), Unregister(c)], t) && t.status == Stuck
  {
    var steps: seq<Step<C, M>> := [Register(c), Join(c, name), Unregister(c)];
    var s: State<C, M> := Start(room);
    var s1 := Next(s, capacity, Register(c));
    var s2 := Next(s1, capacity, Join(c, name));
    t := Next(s2, capacity, Unregister(c));
    assert name in LineOf(s2, c).rooms;
    assert steps[1..] == [Join(c, name), Unregister(c)] && steps[1..][1..] == [Unregister(c)]
           && steps[1..][1..][1..] == [];
    assert FreshRun(t, capacity, steps[1..][1..][1..], t);
    assert FreshRun(s2, capacity, steps[1..][1..], t);
    assert FreshRun(s1, capacity, steps[1..], t);
  }
}
