/** The hub and its clients as objects: each method does exactly the steps of the machine. */
module Hubs {
  import opened HubSteps

  class Client<M> {
    const capacity: nat
    var buffer: seq<Item<M>>
    var closed: bool
    var rooms: set<string>
    ghost var drained: seq<Item<M>>

    ghost function Line(): Line<M>
      reads this
    {
      HubSteps.Line(drained + buffer, |drained|, closed, rooms)
    }

    constructor (capacity: nat)
      ensures this.capacity == capacity && Line() == EmptyLine()
    {
      this.capacity := capacity;
      buffer, closed, rooms, drained := [], false, {}, [];
    }

    /** The non-blocking send on the channel, which must be open. */
    method TrySend(item: Item<M>, waiting: bool) returns (ok: bool)
      requires !closed
      modifies this`buffer, this`drained
      ensures ok <==> Accepts(old(Line()), capacity, waiting)
      ensures Line() == if ok then Put(old(Line()), item, waiting) else old(Line())
    {
      if waiting && buffer == [] {
        drained := drained + [item];
        assert drained + buffer == old(drained + buffer) + [item];
        ok := true;
      } else if |buffer| < capacity {
        buffer := buffer + [item];
        assert drained + buffer == old(drained + buffer) + [item];
        ok := true;
      } else {
        ok := false;
      }
    }

    /** A direct send: an error when the buffer is full, a panic when the channel is closed. */
    method Send(message: M, waiting: bool) returns (sent: bool, panicked: bool)
      modifies this`buffer, this`drained
      ensures panicked <==> old(closed)
      ensures sent <==> !old(closed) && Accepts(old(Line()), capacity, waiting)
      ensures Line() == if sent then Put(old(Line()), Direct(message), waiting) else old(Line())
    {
      if closed {
        return false, true;
      }
      sent := TrySend(Direct(message), waiting);
      panicked := false;
    }

    method Close()
      requires !closed
      modifies this`closed
      ensures Line() == old(Line()).(closed := true)
    {
      closed := true;
    }
  }

  class Hub<M> {
    const capacity: nat
    const broadcastCapacity: nat
    var clients: set<Client<M>>
    var broadcast: seq<M>
    var channelsClosed: bool
    ghost var known: set<Client<M>>
    ghost var published: seq<M>
    ghost var processed: seq<M>
    ghost var joined: map<Client<M>, nat>
    ghost var left: map<Client<M>, nat>

    ghost function Lines(): map<Client<M>, Line<M>>
      reads this, known
    {
      map c | c in known :: c.Line()
    }

    /** The machine's state, given what the event loop is doing. */
    ghost function Abs(status: Status, phase: Phase<Client<M>>): State<Client<M>, M>
      reads this, known
    {
      State(status, phase, clients, Lines(), broadcastCapacity, broadcast, channelsClosed, published, processed, joined,
            left)
    }

    ghost predicate Valid()
      reads this, known
    {
      && clients <= known && (forall c | c in known :: c.capacity == capacity)
    }

    constructor (capacity: nat, broadcastCapacity: nat)
      ensures Valid() && this.capacity == capacity && fresh(known) && Abs(Running, Idle) == Start(broadcastCapacity)
    {
      this.capacity, this.broadcastCapacity := capacity, broadcastCapacity;
      clients, known, published, processed, joined, left := {}, {}, [], [], map[], map[];
      broadcast, channelsClosed := [], false;
    }

    /** The exported BroadcastToAll: a send on the hub's own channel, dropped when that is
        full, and a panic when it is closed; ready: the event loop waits for input. */
    method Publish(message: M, ready: bool, ghost status: Status, ghost phase: Phase<Client<M>>)
      returns (panicked: bool)
      requires Valid() && status != Crashed && (ready ==> status == Running && phase == Idle)
      modifies this`broadcast, this`published
      ensures Valid() && (panicked <==> channelsClosed)
      ensures Abs(if panicked then Crashed else status, phase)
              == Next(old(Abs(status, phase)), capacity, HubSteps.Publish(message, ready))
    {
      panicked := channelsClosed;
      if !panicked && (|broadcast| < broadcastCapacity || (ready && |broadcast| == 0)) {
        broadcast := broadcast + [message];
        published := published + [message];
      }
    }

    /** The connection part of ServeWS: a new client with a channel of its own. */
    method Connect() returns (client: Client<M>)
      requires Valid()
      modifies this`known
      ensures Valid() && fresh(client) && known == old(known) + {client}
      ensures Abs(Running, Idle) == SetLine(old(Abs(Running, Idle)), client, EmptyLine())
    {
      client := new Client<M>(capacity);
      known := known + {client};
      assert Lines() == old(Lines())[client := EmptyLine()];
    }

    method RegisterClient(client: Client<M>)
      requires Valid() && client in known
      modifies this`clients, this`joined
      ensures Valid() && Abs(Running, Idle) == Next(old(Abs(Running, Idle)), capacity, Register(client))
    {
      clients := clients + {client};
      joined := if client in joined then joined else joined[client := |processed|];
    }

    method UnregisterClient(client: Client<M>) returns (status: Status)
      requires Valid()
      modifies this`clients, this`left, client`closed
      ensures Valid() && Abs(status, Idle) == Next(old(Abs(Running, Idle)), capacity, Unregister(client))
    {
      status := Running;
      if client in clients {
        ghost var s := Abs(Running, Idle);
        assert LineOf(s, client) == client.Line();
        if client.closed {
          return Crashed;
        }
        UnregisterIs(s, client);
        CloseTurn(client, |processed|);
        Delete({client});
        if client.rooms != {} {
          status := Stuck;
        }
      }
    }

    /** One turn of the sending loop. */
    method OfferOne(client: Client<M>, message: M, waiting: bool, ghost todo: set<Client<M>>,
                    ghost dead: set<Client<M>>)
      returns (ok: bool)
      requires Valid() && client in todo && todo <= clients && !client.closed
      requires processed != [] && processed[|processed| - 1] == message
      modifies client`buffer, client`drained
      ensures Valid()
      ensures Abs(Running, Sending(todo - {client}, if ok then dead else dead + {client}))
              == Next(old(Abs(Running, Sending(todo, dead))), capacity, Offer(client, waiting))
    {
      ghost var lines := Lines();
      assert lines[client] == client.Line();
      ok := client.TrySend(Broadcast(message), waiting);
      assert Lines() == lines[client := client.Line()];
    }

    /** The sending loop: every client once, in any order, up to a closed channel. */
    method OfferAll(message: M, waiting: set<Client<M>>, ghost start: State<Client<M>, M>,
                    ghost before: seq<Step<Client<M>, M>>)
      returns (panicked: bool, dead: set<Client<M>>, ghost todo: set<Client<M>>, ghost steps: seq<Step<Client<M>, M>>)
      requires Valid() && processed != [] && processed[|processed| - 1] == message
      requires Leads(start, capacity, before, Abs(Running, Sending(clients, {}))) && BeginsThenOffers(before)
      modifies clients`buffer, clients`drained
      ensures Valid() && BeginsThenOffers(steps)
      ensures panicked ==>
                && (exists c | c in clients :: c.closed)
                && Leads(start, capacity, steps, Abs(Crashed, Sending(todo, dead)))
      ensures !panicked ==>
                && Leads(start, capacity, steps, Abs(Running, Sending({}, dead)))
                && dead <= clients && forall c | c in dead :: !c.closed
    {
      var rest: set<Client<M>> := clients;
      dead, steps := {}, before;
      while rest != {}
        invariant Valid() && rest <= clients && dead <= clients && rest !! dead
        invariant forall c | c in dead :: !c.closed
        invariant Leads(start, capacity, steps, Abs(Running, Sending(rest, dead))) && BeginsThenOffers(steps)
      {
        var client :| client in rest;
        LeadsSnoc(start, capacity, steps, Abs(Running, Sending(rest, dead)), Offer(client, client in waiting));
        steps := steps + [Offer(client, client in waiting)];
        if client.closed {
          assert Lines()[client] == client.Line();
          panicked, todo := true, rest;
          return;
        }
        var ok := OfferOne(client, message, client in waiting, rest, dead);
        rest := rest - {client};
        if !ok {
          dead := dead + {client};
        }
      }
      panicked, todo := false, {};
    }

    /** Takes a broadcast off the channel and offers it to every client, then removes those whose buffer was full; with
        the writers of some clients waiting for input. */
    method BroadcastToAll(waiting: set<Client<M>>)
      returns (status: Status, ghost phase: Phase<Client<M>>, ghost steps: seq<Step<Client<M>, M>>)
      requires Valid() && broadcast != []
      modifies this`clients, this`broadcast, this`processed, this`left, clients
      ensures Valid() && steps != [] && Leads(old(Abs(Running, Idle)), capacity, steps, Abs(status, phase))
      ensures status == Crashed || (status == Running && phase == Idle)
      ensures (forall c | c in old(clients) :: !old(c.closed)) ==> status == Running
      ensures BeginsThenOffers(if status == Running then steps[..|steps| - 1] else steps)
      ensures status == Running ==> steps[|steps| - 1] == Finish
    {
      ghost var start := Abs(Running, Idle);
      var message := broadcast[0];
      broadcast := broadcast[1..];
      processed := processed + [message];
      assert Abs(Running, Sending(clients, {})) == Next(start, capacity, Begin) by {
        assert Lines() == start.lines;
      }
      var panicked, dead;
      ghost var todo, offers;
      panicked, dead, todo, offers := OfferAll(message, waiting, start, [Begin]);
      if panicked {
        status, phase, steps := Crashed, Sending(todo, dead), offers;
        return;
      }
      LeadsSnoc(start, capacity, offers, Abs(Running, Sending({}, dead)), Finish);
      steps := offers + [Finish];
      assert steps[..|steps| - 1] == offers;
      RemoveDead(dead);
      status, phase := Running, Idle;
    }

    method Delete(gone: set<Client<M>>)
      requires Valid()
      modifies this`clients
      ensures Valid() && Abs(Running, Idle) == old(Abs(Running, Idle)).(clients := old(clients) - gone)
    {
      clients := clients - gone;
      assert Lines() == old(Lines());
    }

    method CloseTurn(client: Client<M>, ghost at: nat)
      requires Valid() && client in known && !client.closed
      modifies this`left, client`closed
      ensures Valid() && client.closed
      ensures var s := old(Abs(Running, Idle));
              client in s.lines && Abs(Running, Idle)
              == s.(lines := s.lines[client := s.lines[client].(closed := true)], left := s.left[client := at])
    {
      ghost var lines := Lines();
      client.Close();
      assert Lines() == lines[client := lines[client].(closed := true)];
      left := left[client := at];
    }

    /** Closes channels one by one, up to the first that is closed already. */
    method CloseEach(gone: set<Client<M>>, ghost at: nat) returns (panicked: bool)
      requires Valid() && gone <= known
      modifies this`left, gone`closed
      ensures Valid()
      ensures panicked <==> exists c | c in gone :: old(c.closed)
      ensures !panicked ==> Abs(Running, Idle) == CloseAll(old(Abs(Running, Idle)), gone, at)
    {
      ghost var start := Abs(Running, Idle);
      var todo := gone;
      ghost var done: set<Client<M>> := {};
      CloseNone(start, at);
      while todo != {}
        invariant Valid() && todo !! done && todo + done == gone
        invariant forall c | c in done :: !old(c.closed)
        invariant forall c | c in todo :: c.closed == old(c.closed)
        invariant Abs(Running, Idle) == CloseAll(start, done, at)
      {
        var client :| client in todo;
        if client.closed {
          panicked := true;
          return;
        }
        CloseNext(start, done, client, at);
        CloseTurn(client, at);
        todo, done := todo - {client}, done + {client};
      }
      panicked := false;
    }

    /** Deletes and closes the clients that could not keep up. */
    method RemoveDead(dead: set<Client<M>>)
      requires Valid() && dead <= clients && processed != [] && forall c | c in dead :: !c.closed
      modifies this`clients, this`left, dead`closed
      ensures Valid() && Abs(Running, Idle) == DoFinish(old(Abs(Running, Sending({}, dead))))
    {
      ghost var start := Abs(Running, Idle);
      FinishIs(start, dead);
      var panicked := CloseEach(dead, |processed| - 1);
      Delete(dead);
    }

    method Shutdown() returns (status: Status)
      requires Valid()
      modifies this`left, this`channelsClosed, clients`closed
      ensures Valid()
      ensures status == Stopped || status == Crashed
      ensures (forall c | c in clients :: !old(c.closed)) <==> status == Stopped
      ensures status == Stopped ==> Abs(Stopped, Idle) == Next(old(Abs(Running, Idle)), capacity, HubSteps.Shutdown)
    {
      var panicked := CloseEach(clients, |processed|);
      if panicked {
        return Crashed;
      }
      channelsClosed := true;
      status := Stopped;
    }
  }

  ghost predicate BeginsThenOffers<C, M>(steps: seq<Step<C, M>>) {
    steps != [] && steps[0] == Begin && forall k | 0 < k < |steps| :: steps[k].Offer?
  }

  lemma CloseNone<C, M>(s: State<C, M>, at: nat)
    ensures CloseAll(s, {}, at) == s
  {
    var t := CloseAll(s, {}, at);
    assert t.lines == s.lines;
    assert t.left == s.left;
  }

  lemma UnregisterIs<C, M>(s: State<C, M>, c: C)
    requires s.status == Running && c in s.clients && c in s.lines && !s.lines[c].closed
    ensures DoUnregister(s, c)
            == s.(lines := s.lines[c := s.lines[c].(closed := true)], left := s.left[c := |s.processed|],
                  clients := s.clients - {c}, status := if s.lines[c].rooms == {} then Running else Stuck)
  {
    CloseOne(s, c, |s.processed|);
  }

  lemma CloseNext<C, M>(s: State<C, M>, gone: set<C>, c: C, at: nat)
    requires c !in gone && forall d | d in gone + {c} :: !LineOf(s, d).closed
    requires c in s.lines
    ensures var t := CloseAll(s, gone, at);
            c in t.lines && CloseAll(s, gone + {c}, at)
            == t.(lines := t.lines[c := t.lines[c].(closed := true)], left := t.left[c := at])
  {
    var t, u := CloseAll(s, gone, at), CloseAll(s, gone + {c}, at);
    assert u.lines == t.lines[c := LineOf(s, c).(closed := true)];
    assert u.left == t.left[c := at];
  }

  lemma FinishIs<C, M>(s: State<C, M>, dead: set<C>)
    requires s.phase == Idle && s.status == Running && s.processed != []
    requires dead <= s.clients && forall c | c in dead :: !LineOf(s, c).closed
    ensures var t := CloseAll(s, dead, |s.processed| - 1);
            DoFinish(s.(phase := Sending({}, dead))) == t.(clients := t.clients - dead)
  {
    var u := s.(phase := Sending({}, dead));
    assert dead * s.clients == dead;
    assert forall c | c in dead :: LineOf(u, c) == LineOf(s, c);
    assert CloseAll(u, dead, |s.processed| - 1).lines == CloseAll(s, dead, |s.processed| - 1).lines;
    assert CloseAll(u, dead, |s.processed| - 1).left == CloseAll(s, dead, |s.processed| - 1).left;
  }

  lemma {:induction false} LeadsSnoc<C, M>(s: State<C, M>, capacity: nat, steps: seq<Step<C, M>>, t: State<C, M>,
                                           step: Step<C, M>)
    requires Leads(s, capacity, steps, t) && Enabled(t, step)
    ensures Leads(s, capacity, steps + [step], Next(t, capacity, step))
    decreases |steps|
  {
    var all := steps + [step];
    if steps == [] {
      assert all[1..] == [];
    } else {
      LeadsSnoc(Next(s, capacity, steps[0]), capacity, steps[1..], t, step);
      assert all[1..] == steps[1..] + [step];
    }
  }

  lemma CloseOne<C, M>(s: State<C, M>, c: C, at: nat)
    requires !LineOf(s, c).closed
    ensures CloseAll(s, {c}, at) == s.(lines := s.lines[c := LineOf(s, c).(closed := true)], left := s.left[c := at])
  {
    var t := CloseAll(s, {c}, at);
    assert t.lines == s.lines[c := LineOf(s, c).(closed := true)];
    assert t.left == s.left[c := at];
  }
}
