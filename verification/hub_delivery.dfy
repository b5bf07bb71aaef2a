/** What the hub's channels keep and what they lose. */
module HubDelivery {
  import opened HubSteps

  /** A published message goes to the end of the backlog, unless the backlog is full and the event
      loop does not stand ready; only then is it lost. */
  lemma PublishIsKeptIff<C, M>(s: State<C, M>, capacity: nat, msg: M, ready: bool)
    requires Enabled(s, Publish(msg, ready)) && !s.closed
    ensures var t := Next(s, capacity, Publish(msg, ready));
            var received := ready && s.backlog == [] && s.status == Running && s.phase == Idle;
            && t.status == s.status
            && (if |s.backlog| < s.room || received then t.backlog == s.backlog + [msg]
                && t.published == s.published + [msg]
                else t == s)
            && (t == s <==> |s.backlog| >= s.room && !received)
  {
    assert s.backlog + [msg] != s.backlog;
  }

  /** Calls of BroadcastToAll, one for each message. */
  function PublishAll<C, M>(msgs: seq<M>, ready: seq<bool>): seq<Step<C, M>>
    requires |msgs| == |ready|
  {
    seq(|msgs|, i requires 0 <= i < |msgs| => Publish(msgs[i], ready[i]))
  }

  /** As many as the hub's channel holds are all kept, in order, whatever the event loop does. */
  lemma {:induction false} PublishesAll<C, M>(s: State<C, M>, capacity: nat, msgs: seq<M>, ready: seq<bool>)
    returns (t: State<C, M>)
    requires |msgs| == |ready| && s.status != Crashed && !s.closed && |s.backlog| + |msgs| <= s.room
    ensures Leads(s, capacity, PublishAll(msgs, ready), t)
    ensures t.backlog == s.backlog + msgs && t.published == s.published + msgs
    decreases |msgs|
  {
    var steps: seq<Step<C, M>> := PublishAll(msgs, ready);
    if msgs == [] {
      t := s;
    } else {
      PublishIsKeptIff(s, capacity, msgs[0], ready[0]);
      t := PublishesAll(Next(s, capacity, steps[0]), capacity, msgs[1..], ready[1..]);
      assert steps[1..] == PublishAll(msgs[1..], ready[1..]);
      assert msgs == [msgs[0]] + msgs[1..];
    }
  }

  lemma FreshHubKeeps<C, M>(room: nat, capacity: nat, msgs: seq<M>, ready: seq<bool>) returns (t: State<C, M>)
    requires |msgs| == |ready| && |msgs| <= room
    ensures Leads(Start(room), capacity, PublishAll(msgs, ready), t) && t.backlog == msgs && t.published == msgs
  {
    var s: State<C, M> := Start(room);
    t := PublishesAll(s, capacity, msgs, ready);
  }

  /** A broadcast is put into a client's open channel, and the client is evicted exactly when that
      is full and its writer does not stand ready. */
  lemma EvictedIff<C, M>(s: State<C, M>, capacity: nat, c: C, waiting: bool)
    requires Enabled(s, Offer(c, waiting)) && s.processed != [] && !LineOf(s, c).closed && c !in s.phase.dead
    ensures var t, line := Next(s, capacity, Offer(c, waiting)), LineOf(s, c);
            && t.status == s.status && t.phase.Sending? && c !in t.phase.todo
            && (c in t.phase.dead <==> Pending(line) >= capacity && !(waiting && Pending(line) == 0))
            && LineOf(t, c).enqueued == line.enqueued
               + if c in t.phase.dead then [] else [Broadcast(s.processed[|s.processed| - 1])]
  {
  }

  /** The writer takes one message at a time, the oldest, as long as there is one; a full buffer has
      room again then. */
  lemma DrainTakes<C, M>(s: State<C, M>, capacity: nat, c: C)
    requires Enabled(s, Drain(c)) && Pending(LineOf(s, c)) >= 0
    ensures var t, line := Next(s, capacity, Drain(c)), LineOf(s, c);
            && LineOf(t, c).enqueued == line.enqueued && LineOf(t, c).closed == line.closed
            && LineOf(t, c).taken == line.taken + (if Pending(line) > 0 then 1 else 0)
            && (0 < Pending(line) <= capacity ==> Accepts(LineOf(t, c), capacity, false))
  {
  }

  /** Only the rooms a client has left no longer hold it. */
  lemma RoomsAre<C, M>(s: State<C, M>, capacity: nat, c: C, name: string)
    requires s.status != Crashed
    ensures name in LineOf(Next(s, capacity, Join(c, name)), c).rooms
    ensures LineOf(Next(s, capacity, Leave(c, name)), c).rooms == LineOf(s, c).rooms - {name}
  {
  }
}
