/** The associations of one udp listener: the receive loop looks clients up in a shared map and creates what
    is missing, while association tasks that end take their client out of the map again.

    Looking up, creating and inserting are separate steps, because the map's lock is not held across them and
    a new association runs from the moment it is spawned. */
module Association {
  import Lifecycle

  type Client = nat
  /** Index into `tasks`. */
  type Sock = nat

  datatype Task = Task(client: Client, ended: bool)
  /** The receive loop: between datagrams, about to insert what it has just created, or stopped. */
  datatype Loop = Idle | Inserting(client: Client, sock: Sock) | Stopped

  /** `routes` logs the socket each datagram was sent through; `hasty` the associations that ended before
      the receive loop had inserted them. */
  datatype Listener = Listener(entries: map<Client, Sock>, tasks: seq<Task>, loop: Loop,
                               routes: seq<(Client, Sock)>, hasty: set<Sock>)

  datatype Step =
    | Receive(client: Client)
    | Insert
    | End(sock: Sock)
    | Stop

  const FRESH := Listener(map[], [], Idle, [], {})

  predicate Enabled(l: Listener, s: Step) {
    match s
    case Receive(_) => l.loop == Idle
    case Insert => l.loop.Inserting?
    case End(sock) => sock < |l.tasks| && !l.tasks[sock].ended
    case Stop => l.loop == Idle
  }

  function Take(l: Listener, s: Step): Listener
    requires Enabled(l, s)
  {
    match s
    case Receive(client) =>
      if client in l.entries then l.(routes := l.routes + [(client, l.entries[client])])
      else l.(tasks := l.tasks + [Task(client, false)], loop := Inserting(client, |l.tasks|))
    case Insert =>
      l.(entries := l.entries[l.loop.client := l.loop.sock], loop := Idle,
         routes := l.routes + [(l.loop.client, l.loop.sock)])
    case End(sock) =>
      // an ending association takes out whatever is under its client's address
      l.(entries := l.entries - {l.tasks[sock].client}, tasks := l.tasks[sock := l.tasks[sock].(ended := true)],
         hasty := if l.loop.Inserting? && l.loop.sock == sock then l.hasty + {sock} else l.hasty)
    case Stop => l.(entries := map[], loop := Stopped)
  }

  /** Any schedule: a step that is not possible when its turn comes does nothing. */
  function Run(l: Listener, steps: seq<Step>): Listener
    decreases |steps|
  {
    if steps == [] then l
    else Run(if Enabled(l, steps[0]) then Take(l, steps[0]) else l, steps[1..])
  }

  predicate Running(l: Listener, sock: Sock) {
    sock < |l.tasks| && !l.tasks[sock].ended
  }

  /** While the loop runs, an association that has not ended is the one the map has for its client, or the
      one about to be inserted. */
  ghost predicate Known(l: Listener) {
    && (forall sock: Sock :: Running(l, sock) && l.loop != Stopped ==>
          || (l.tasks[sock].client in l.entries && l.entries[l.tasks[sock].client] == sock)
          || l.loop == Inserting(l.tasks[sock].client, sock))
    && (l.loop.Inserting? ==>
          l.loop.sock < |l.tasks| && l.tasks[l.loop.sock].client == l.loop.client && l.loop.client !in l.entries)
    && (l.loop.Inserting? ==> (l.tasks[l.loop.sock].ended <==> l.loop.sock in l.hasty))
    && (forall c <- l.entries :: l.entries[c] < |l.tasks| && l.tasks[l.entries[c]].client == c)
    && (forall c <- l.entries :: l.tasks[l.entries[c]].ended <==> l.entries[c] in l.hasty)
    && (forall i :: 0 <= i < |l.routes| ==> l.routes[i].1 < |l.tasks| && l.tasks[l.routes[i].1].client == l.routes[i].0)
    && (forall sock <- l.hasty :: sock < |l.tasks| && l.tasks[sock].ended)
    && (l.loop == Stopped ==> l.entries == map[])
  }

  /** While the loop runs, a client has one association at most. */
  ghost predicate Unique(l: Listener) {
    forall a: Sock, b: Sock :: Running(l, a) && Running(l, b) && l.tasks[a].client == l.tasks[b].client ==> a == b
  }

  lemma ReceiveKnown(l: Listener, client: Client)
    requires Known(l) && Unique(l) && Enabled(l, Receive(client))
    ensures Known(Take(l, Receive(client))) && Unique(Take(l, Receive(client)))
  {
    var end := Take(l, Receive(client));
    forall sock: Sock | sock < |l.tasks|
      ensures end.tasks[sock] == l.tasks[sock] && Running(end, sock) == Running(l, sock)
    {
    }
  }

  lemma InsertKnown(l: Listener)
    requires Known(l) && Unique(l) && Enabled(l, Insert)
    ensures Known(Take(l, Insert)) && Unique(Take(l, Insert))
  {
    forall sock: Sock ensures Running(Take(l, Insert), sock) == Running(l, sock) {
    }
  }

  lemma EndKnown(l: Listener, sock: Sock)
    requires Known(l) && Unique(l) && Enabled(l, End(sock))
    ensures Known(Take(l, End(sock))) && Unique(Take(l, End(sock)))
  {
    forall other: Sock ensures Running(Take(l, End(sock)), other) == (Running(l, other) && other != sock) {
    }
  }

  lemma StepKnown(l: Listener, s: Step)
    requires Known(l) && Unique(l) && Enabled(l, s)
    ensures Known(Take(l, s)) && Unique(Take(l, s))
  {
    match s
    case Receive(client) => ReceiveKnown(l, client);
    case Insert => InsertKnown(l);
    case End(sock) => EndKnown(l, sock);
    case Stop =>
  }

  lemma {:induction false} RunKnown(l: Listener, steps: seq<Step>)
    requires Known(l) && Unique(l)
    ensures Known(Run(l, steps)) && Unique(Run(l, steps))
    decreases |steps|
  {
    if steps != [] {
      if Enabled(l, steps[0]) {
        StepKnown(l, steps[0]);
        RunKnown(Take(l, steps[0]), steps[1..]);
      } else {
        RunKnown(l, steps[1..]);
      }
    }
  }

  /** In every run a client has at most one association that has not ended, even across the teardown of the
      loop. */
  lemma OneAssociationEach(steps: seq<Step>, a: Sock, b: Sock)
    ensures var l := Run(FRESH, steps);
      Running(l, a) && Running(l, b) && l.tasks[a].client == l.tasks[b].client ==> a == b
  {
    RunKnown(FRESH, steps);
  }

  /** Every datagram goes through a socket whose answers go back to the client it came from. */
  lemma AnswersGoBack(steps: seq<Step>, i: nat)
    ensures var l := Run(FRESH, steps);
      i < |l.routes| ==> l.routes[i].1 < |l.tasks| && l.tasks[l.routes[i].1].client == l.routes[i].0
  {
    RunKnown(FRESH, steps);
  }

  /** An association that ends takes out its own entry and no other: whatever the map still held for its
      client was this association. */
  lemma EndTakesItsOwn(steps: seq<Step>, sock: Sock, client: Client)
    ensures var l := Run(FRESH, steps);
      Enabled(l, End(sock)) && client in l.entries ==>
        (client in Take(l, End(sock)).entries <==> l.entries[client] != sock)
  {
    RunKnown(FRESH, steps);
  }

  /** Exactly when an entry is of use: its association runs unless it ended before it was inserted. */
  lemma EntryServesUnlessHasty(steps: seq<Step>, client: Client)
    ensures var l := Run(FRESH, steps);
      client in l.entries ==> (Running(l, l.entries[client]) <==> l.entries[client] !in l.hasty)
  {
    RunKnown(FRESH, steps);
  }

  /** An association that ends before it is inserted leaves an entry that nobody answers on. */
  lemma HastyEndLeavesAnEntry(client: Client)
    ensures var l := Run(FRESH, [Receive(client), End(0), Insert]);
      l.entries == map[client := 0] && !Running(l, 0)
  {
    var a := Take(FRESH, Receive(client));
    var b := Take(a, End(0));
    assert Run(b, [Insert]) == Run(Take(b, Insert), []);
    assert Run(a, [End(0), Insert]) == Run(b, [Insert]);
    assert Run(FRESH, [Receive(client), End(0), Insert]) == Run(a, [End(0), Insert]);
  }

  /** Such an entry stays, and its client gets no answer, for as long as the loop runs. */
  lemma {:induction false} HastyEntryStays(l: Listener, client: Client, steps: seq<Step>)
    requires Known(l) && Unique(l) && client in l.entries && !Running(l, l.entries[client])
    requires Stop !in steps
    ensures var end := Run(l, steps);
      client in end.entries && end.entries[client] == l.entries[client]
      && forall sock: Sock :: Running(end, sock) ==> end.tasks[sock].client != client
    decreases |steps|
  {
    if steps != [] {
      if Enabled(l, steps[0]) {
        StepKnown(l, steps[0]);
        HastyEntryStays(Take(l, steps[0]), client, steps[1..]);
      } else {
        HastyEntryStays(l, client, steps[1..]);
      }
    }
  }

  // ---------------------------------------------------------------- nothing is lost

  /** The clients whose datagrams the loop takes in along a run, in order. */
  ghost function Received(l: Listener, steps: seq<Step>): seq<Client>
    decreases |steps|
  {
    if steps == [] then []
    else
      var next := if Enabled(l, steps[0]) then Take(l, steps[0]) else l;
      (if Enabled(l, steps[0]) && steps[0].Receive? then [steps[0].client] else []) + Received(next, steps[1..])
  }

  /** The clients whose datagrams have been sent on, in order. */
  ghost function SentFor(l: Listener): seq<Client> {
    seq(|l.routes|, i requires 0 <= i < |l.routes| => l.routes[i].0)
  }

  /** The client whose datagram the loop has in its hand. */
  ghost function InHand(l: Listener): seq<Client> {
    if l.loop.Inserting? then [l.loop.client] else []
  }

  lemma StepSends(l: Listener, s: Step)
    requires Enabled(l, s)
    ensures var l' := Take(l, s);
            SentFor(l') + InHand(l') == SentFor(l) + InHand(l) + if s.Receive? then [s.client] else []
  {
    var l' := Take(l, s);
    if |l'.routes| > |l.routes| {
      assert SentFor(l') == SentFor(l) + [l'.routes[|l.routes|].0];
    }
  }

  /** Under every interleaving every datagram the loop takes in is sent on, once and in order; at most the last one is
      still in its hand. */
  lemma {:induction false} EveryDatagramIsSent(l: Listener, steps: seq<Step>)
    ensures var end := Run(l, steps);
            SentFor(end) + InHand(end) == SentFor(l) + InHand(l) + Received(l, steps)
    decreases |steps|
  {
    if steps != [] {
      var next := if Enabled(l, steps[0]) then Take(l, steps[0]) else l;
      if Enabled(l, steps[0]) {
        StepSends(l, steps[0]);
      }
      EveryDatagramIsSent(next, steps[1..]);
      hide SentFor, InHand, Take, Enabled;
    }
  }

  // ---------------------------------------------------------------- the object

  /** The steps of a batch when no association task gets in between. */
  function Batch(clients: seq<Client>): seq<Step> {
    if clients == [] then [] else Batch(clients[..|clients| - 1]) + [Receive(clients[|clients| - 1]), Insert]
  }

  /** When its turn comes, group `i` has a socket or can be given one. */
  ghost predicate Opens(l: Listener, clients: seq<Client>, creates: seq<bool>, i: nat)
    requires i < |clients| == |creates|
  {
    creates[i] || clients[i] in Run(l, Batch(clients[..i])).entries
  }

  lemma BatchStep(l: Listener, clients: seq<Client>, i: nat)
    requires i < |clients|
    ensures Run(l, Batch(clients[..i + 1])) == Run(Run(l, Batch(clients[..i])), [Receive(clients[i]), Insert])
  {
    assert clients[..i + 1][..i] == clients[..i];
    RunAppends(l, Batch(clients[..i]), [Receive(clients[i]), Insert]);
  }

  lemma {:induction false} RunAppends(l: Listener, first: seq<Step>, rest: seq<Step>)
    ensures Run(l, first + rest) == Run(Run(l, first), rest)
    decreases |first|
  {
    if first == [] {
      assert first + rest == rest;
    } else {
      assert (first + rest)[1..] == first[1..] + rest;
      RunAppends(if Enabled(l, first[0]) then Take(l, first[0]) else l, first[1..], rest);
    }
  }

  /** The listener as the program has it. */
  class UdpListener {
    var entries: map<Client, Sock>
    var tasks: seq<Task>
    var loop: Loop
    var routes: seq<(Client, Sock)>
    var hasty: set<Sock>

    function Value(): Listener
      reads this
    {
      Listener(entries, tasks, loop, routes, hasty)
    }

    constructor ()
      ensures Value() == FRESH
    {
      entries, tasks, loop, routes, hasty := map[], [], Idle, [], {};
    }

    /** Finds the client's socket or makes one, for the group to be sent through. `creates` says whether a socket
        can be made; if it is needed and cannot, nothing changes. */
    method FindOrInsert(client: Client, creates: bool) returns (sock: Lifecycle.Option<Sock>)
      requires loop == Idle
      modifies this
      ensures loop == Idle && (sock.Some? <==> creates || client in old(entries))
      ensures sock.None? ==> Value() == old(Value())
      ensures sock.Some? ==>
                && Value() == Run(old(Value()), [Receive(client), Insert])
                && client in entries && entries[client] == sock.value
      ensures client in old(entries) ==> entries == old(entries) && tasks == old(tasks)
      ensures client !in old(entries) && sock.Some? ==>
                sock.value == |old(tasks)| && entries == old(entries)[client := sock.value]
    {
      ghost var l := Value();
      var found: Sock;
      if client in entries {
        found := entries[client];
      } else if creates {
        found := |tasks|;
        tasks := tasks + [Task(client, false)];
        entries := entries[client := found];
      } else {
        return Lifecycle.None;
      }
      routes := routes + [(client, found)];
      assert [Receive(client), Insert][1..] == [Insert];
      assert Run(l, [Receive(client), Insert]) == Run(Take(l, Receive(client)), [Insert]);
      return Lifecycle.Some(found);
    }

    /** Relays a batch: one lookup for every group, up to the first whose socket cannot be made or whose send
        fails. */
    method Relay(clients: seq<Client>, creates: seq<bool>, sends: seq<bool>) returns (reached: nat, ok: bool)
      requires loop == Idle && |creates| == |sends| == |clients|
      modifies this
      ensures loop == Idle && reached <= |clients| && Value() == Run(old(Value()), Batch(clients[..reached]))
      ensures forall j :: 0 <= j < reached ==> clients[j] in entries && Opens(old(Value()), clients, creates, j)
      ensures forall j :: 0 <= j < reached - 1 ==> sends[j]
      ensures ok ==> reached == |clients| && (reached > 0 ==> sends[reached - 1])
      ensures !ok ==>
                || (reached < |clients| && !Opens(old(Value()), clients, creates, reached))
                || (0 < reached && !sends[reached - 1])
    {
      ghost var l := Value();
      reached := 0;
      while reached < |clients|
        invariant reached <= |clients| && loop == Idle && Value() == Run(l, Batch(clients[..reached]))
        invariant forall j :: 0 <= j < reached ==> clients[j] in entries && Opens(l, clients, creates, j) && sends[j]
      {
        var sock := FindOrInsert(clients[reached], creates[reached]);
        if sock.None? {
          return reached, false;
        }
        BatchStep(l, clients, reached);
        reached := reached + 1;
        if !sends[reached - 1] {
          return reached, false;
        }
      }
      ok := true;
    }

    /** The end of an association task. */
    method Remove(sock: Sock)
      requires Running(Value(), sock)
      modifies this
      ensures Value() == Take(old(Value()), End(sock))
    {
      if loop.Inserting? && loop.sock == sock {
        hasty := hasty + {sock};
      }
      entries, tasks := entries - {tasks[sock].client}, tasks[sock := tasks[sock].(ended := true)];
    }

    /** The teardown of the receive loop. */
    method Clear()
      requires loop == Idle
      modifies this
      ensures Value() == Take(old(Value()), Stop)
    {
      entries, loop := map[], Stopped;
    }
  }
}
