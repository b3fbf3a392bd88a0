/** High priority processes, the daemon and low priority processes on one bus:
    when all messages have been handled, who agrees with whom. */
module Agreement {
  import opened TaskKind
  import opened Daemon

  // What waits for the daemon.
  datatype Message =
    | SetBitmap(sender: string, kinds: set<nat>)
    | OwnerLost(name: string)
    | GetConfig(client: string)

  // A low priority process.  Signals queue up from the moment it subscribes,
  // but it handles none before GetConfig has been answered.
  datatype Low = Low(
    bitmap: set<nat>,
    queue: seq<set<nat>>,
    answered: bool,
    // History: has a signal been sent to it, and was the bitmap in the answer
    // the one announced last?
    signalled: bool,
    current: bool)

  datatype Net = Net(
    // The bitmap last set by each connected high priority process.
    world: Processes,
    inbox: seq<Message>,
    // The daemon: its table, and the bitmap announced last.
    procs: Processes,
    announced: set<nat>,
    lows: map<string, Low>)

  datatype Event =
    | Send(sender: string, kinds: set<nat>)
    | Disconnect(name: string)
    | Subscribe(client: string)
    | Ask(client: string)
    | Handle
    | Announce
    | Receive(client: string)

  const START := Net(map[], [], map[], {}, map[])

  // The table of the daemon after a message.
  function Process(procs: Processes, m: Message): Processes {
    match m
    case SetBitmap(p, kinds) => if Granted(kinds) then procs[p := kinds] else procs
    case OwnerLost(p) => procs - {p}
    case GetConfig(_) => procs
  }

  function ProcessAll(procs: Processes, inbox: seq<Message>): Processes
    decreases |inbox|
  {
    if inbox == [] then procs else ProcessAll(Process(procs, inbox[0]), inbox[1..])
  }

  function Answer(net: Net, m: Message): map<string, Low> {
    // A process asks once.
    if m.GetConfig? && m.client in net.lows && !net.lows[m.client].answered then
      var bitmap := Global(net.procs);
      net.lows[m.client := net.lows[m.client].(bitmap := bitmap, answered := true,
                                               current := bitmap == net.announced)]
    else
      net.lows
  }

  predicate Requesting(inbox: seq<Message>, p: string) {
    exists m :: m in inbox && m.SetBitmap? && m.sender == p
  }

  ghost predicate Step(net: Net, e: Event, net': Net) {
    match e
    case Send(p, kinds) =>
      // The sender waits for the reply, so it has one request on its way at a
      // time.  A bitmap with unknown bits is refused.
      && !Requesting(net.inbox, p)
      && net' == net.(inbox := net.inbox + [SetBitmap(p, kinds)],
                   world := Process(net.world, SetBitmap(p, kinds)))
    case Disconnect(p) =>
      net' == net.(inbox := net.inbox + [OwnerLost(p)], world := net.world - {p})
    case Subscribe(l) =>
      && l !in net.lows
      && net' == net.(lows := net.lows[l := Low({}, [], false, false, false)])
    case Ask(l) =>
      && l in net.lows && !net.lows[l].answered && GetConfig(l) !in net.inbox
      && net' == net.(inbox := net.inbox + [GetConfig(l)])
    case Handle =>
      && net.inbox != []
      && net' == net.(inbox := net.inbox[1..], procs := Process(net.procs, net.inbox[0]),
                      lows := Answer(net, net.inbox[0]))
    case Announce =>
      // Only when there is nothing more to handle, and only net changes.
      && net.inbox == [] && net.announced != Global(net.procs)
      && net' == net.(announced := Global(net.procs),
                      lows := map l | l in net.lows :: net.lows[l].(
                        queue := net.lows[l].queue + [Global(net.procs)], signalled := true))
    case Receive(l) =>
      && l in net.lows && net.lows[l].answered && net.lows[l].queue != []
      && net' == net.(lows := net.lows[l := net.lows[l].(
           bitmap := net.lows[l].queue[0], queue := net.lows[l].queue[1..])])
  }

  ghost predicate Run(net: Net, events: seq<Event>, net': Net)
    decreases |events|
  {
    if events == [] then net' == net
    else exists mid :: Step(net, events[0], mid) && Run(mid, events[1..], net')
  }

  // The daemon waits and every low priority process has handled its signals.
  ghost predicate Quiet(net: Net) {
    && net.inbox == [] && net.announced == Global(net.procs)
    && forall l :: l in net.lows ==> net.lows[l].answered && net.lows[l].queue == []
  }

  // ------------------------------------------------------------- invariants

  // The last thing a low priority process will hear is what was announced last.
  ghost predicate Follows(low: Low, announced: set<nat>) {
    && (low.queue != [] ==> low.signalled && low.queue[|low.queue| - 1] == announced)
    && (low.answered && low.queue == [] && low.signalled ==> low.bitmap == announced)
    && (low.answered && !low.signalled ==> (low.bitmap == announced <==> low.current))
    && (!low.answered && low.signalled ==> low.queue != [])
  }

  ghost predicate Invariant(net: Net) {
    && ProcessAll(net.procs, net.inbox) == net.world
    && (forall p :: p in net.procs ==> Granted(net.procs[p]))
    && forall l :: l in net.lows ==> Follows(net.lows[l], net.announced)
  }

  lemma {:induction false} ProcessMore(procs: Processes, inbox: seq<Message>, m: Message)
    ensures ProcessAll(procs, inbox + [m]) == Process(ProcessAll(procs, inbox), m)
    decreases |inbox|
  {
    if inbox == [] {
      assert inbox + [m] == [m];
    } else {
      assert (inbox + [m])[1..] == inbox[1..] + [m];
      ProcessMore(Process(procs, inbox[0]), inbox[1..], m);
    }
  }

  lemma StepKeeps(net: Net, e: Event, net': Net)
    requires Invariant(net) && Step(net, e, net')
    ensures Invariant(net')
  {
    match e
    case Send(p, kinds) => ProcessMore(net.procs, net.inbox, SetBitmap(p, kinds));
    case Disconnect(p) => ProcessMore(net.procs, net.inbox, OwnerLost(p));
    case Ask(l) => ProcessMore(net.procs, net.inbox, GetConfig(l));
    case Subscribe(l) =>
    case Handle => HandleKeeps(net, net');
    case Announce =>
      forall l | l in net'.lows
        ensures Follows(net'.lows[l], net'.announced)
      {
        assert Follows(net.lows[l], net.announced);
      }
    case Receive(l) => assert Follows(net.lows[l], net.announced);
  }

  lemma HandleKeeps(net: Net, net': Net)
    requires Invariant(net) && Step(net, Handle, net')
    ensures Invariant(net')
  {
    var m := net.inbox[0];
    forall l | l in net'.lows
      ensures Follows(net'.lows[l], net'.announced)
    {
      assert Follows(net.lows[l], net.announced);
    }
  }

  lemma {:induction false} RunKeeps(net: Net, events: seq<Event>, net': Net)
    requires Invariant(net) && Run(net, events, net')
    ensures Invariant(net')
    decreases |events|
  {
    if events != [] {
      var mid :| Step(net, events[0], mid) && Run(mid, events[1..], net');
      StepKeeps(net, events[0], mid);
      RunKeeps(mid, events[1..], net');
    }
  }

  // ---------------------------------------------------------------- results

  // What the connected processes have set changes in two ways only: a process
  // sets kinds that exist, or its name is lost.
  lemma WorldFollows(net: Net, e: Event, net': Net, p: string)
    requires Step(net, e, net')
    ensures e == Disconnect(p) ==> p !in net'.world
    ensures e.Send? && e.sender == p && e.kinds <= {0, 1} ==> p in net'.world && net'.world[p] == e.kinds
    ensures e != Disconnect(p) && !(e.Send? && e.sender == p && e.kinds <= {0, 1}) ==>
              (p in net'.world <==> p in net.world) && (p in net.world ==> net'.world[p] == net.world[p])
  {
  }


  // When everything is quiet, the daemon's table is what the connected
  // processes last set, and a low priority process has the bitwise or of it
  // if and only if a signal was sent since it subscribed, or it was answered
  // while no change was waiting to be announced.
  lemma AgreementWhenQuiet(events: seq<Event>, net: Net)
    requires Run(START, events, net) && Quiet(net)
    requires |net.world| < 0x1_0000_0000
    ensures net.procs == net.world
    ensures forall l :: l in net.lows ==>
      (net.lows[l].bitmap == Union(net.world) <==> net.lows[l].signalled || net.lows[l].current)
  {
    RunKeeps(START, events, net);
    QuietAgrees(net);
  }

  lemma QuietAgrees(net: Net)
    requires Invariant(net) && Quiet(net) && |net.world| < WORD
    ensures net.procs == net.world
    ensures forall l :: l in net.lows ==>
      (net.lows[l].bitmap == Union(net.world) <==> net.lows[l].signalled || net.lows[l].current)
  {
    GlobalIsUnion(net.procs);
    forall l | l in net.lows
      ensures net.lows[l].bitmap == Union(net.world) <==> net.lows[l].signalled || net.lows[l].current
    {
      assert Follows(net.lows[l], net.announced);
    }
  }

  // The other case happens: a process starts some work, a low priority process
  // joins, the first one disconnects, and only then the daemon looks for news,
  // of which there is none.  The low priority process waits forever.
  lemma JoinBetweenAnnouncements(p: string, l: string) returns (events: seq<Event>, net: Net)
    ensures Run(START, events, net) && Quiet(net) && net.world == map[]
    ensures l in net.lows && net.lows[l].bitmap == {0}
  {
    var n4 := Sent(p, l);
    var rest := [Handle, Handle, Handle];
    net := n4.(inbox := [], lows := map[l := Low({0}, [], true, false, false)]);
    Handled(p, l, n4, net);
    rest := Sending(p, l, n4, rest, net);
    var n2 := n4.(inbox := [SetBitmap(p, {0})], world := map[p := {0}]);
    var n1 := n2.(lows := map[]);
    Then(n1, Subscribe(l), n2, rest, net);
    Then(START, Send(p, {0}), n1, [Subscribe(l)] + rest, net);
    events := [Send(p, {0})] + ([Subscribe(l)] + rest);
    Busy(p);
  }

  // The network when all messages have been sent and none was handled.
  function Sent(p: string, l: string): Net {
    START.(inbox := [SetBitmap(p, {0}), GetConfig(l), OwnerLost(p)],
           lows := map[l := Low({}, [], false, false, false)])
  }

  lemma Sending(p: string, l: string, n4: Net, rest: seq<Event>, net: Net) returns (events: seq<Event>)
    requires n4 == Sent(p, l) && Run(n4, rest, net)
    ensures Run(n4.(inbox := [SetBitmap(p, {0})], world := map[p := {0}]), events, net)
  {
    var n3 := n4.(inbox := [SetBitmap(p, {0}), GetConfig(l)], world := map[p := {0}]);
    var n2 := n3.(inbox := [SetBitmap(p, {0})]);
    assert n3.inbox + [OwnerLost(p)] == n4.inbox && n3.world - {p} == n4.world;
    Then(n3, Disconnect(p), n4, rest, net);
    Then(n2, Ask(l), n3, [Disconnect(p)] + rest, net);
    events := [Ask(l)] + ([Disconnect(p)] + rest);
  }

  lemma Handled(p: string, l: string, n4: Net, n7: Net)
    requires n4 == Sent(p, l)
    requires n7 == n4.(inbox := [], lows := map[l := Low({0}, [], true, false, false)])
    ensures Run(n4, [Handle, Handle, Handle], n7)
  {
    Busy(p);
    var n5 := n4.(inbox := [GetConfig(l), OwnerLost(p)], procs := map[p := {0}]);
    var n6 := n5.(inbox := [OwnerLost(p)], lows := n7.lows);
    assert n4.inbox[1..] == n5.inbox && n5.inbox[1..] == n6.inbox && n6.inbox[1..] == n7.inbox;
    assert Answer(n5, GetConfig(l)) == n7.lows && n6.procs - {p} == n7.procs;
    Then(n6, Handle, n7, [], n7);
    assert [Handle] + [] == [Handle];
    Then(n5, Handle, n6, [Handle], n7);
    assert [Handle] + [Handle] == [Handle, Handle];
    Then(n4, Handle, n5, [Handle, Handle], n7);
    assert [Handle] + [Handle, Handle] == [Handle, Handle, Handle];
  }

  lemma Busy(p: string)
    ensures Global(map[p := {0}]) == {0} && Global(map[]) == {}
  {
    GlobalIsUnion(map[p := {0}]);
    GlobalIsUnion(map[]);
  }

  lemma Then(net: Net, e: Event, mid: Net, rest: seq<Event>, net': Net)
    requires Step(net, e, mid) && Run(mid, rest, net')
    ensures Run(net, [e] + rest, net')
  {
    assert ([e] + rest)[1..] == rest;
  }
}
