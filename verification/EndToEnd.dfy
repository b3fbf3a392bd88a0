/** High priority processes, the bus with the daemon, and low priority processes
    in one system.  What a high priority worker has staged is what it sends, what
    the daemon signals is what a low priority worker handles. */
module EndToEnd {
  import opened TaskKind
  import D = Daemon
  import A = Agreement
  import H = HighPrio
  import L = LowPrio

  datatype World = World(highs: map<string, H.State>, net: A.Net, lows: map<string, L.State>)

  datatype Event =
    | Connect(p: string)
    | High(p: string, high: H.Event)
    | Request(p: string)
    | Reply(p: string)
    | Die(p: string)
    | Subscribe(l: string)
    | Ask(l: string)
    | Handle
    | Announce
    | Low(l: string, low: L.Event)
    | Deliver(l: string)

  const START := World(map[], A.START, map[])

  function Staged(s: H.State): set<nat> {
    set k: nat | k < |s.slots| && s.slots[k].staged
  }

  function Told(s: H.State): set<nat> {
    set k: nat | k < |s.slots| && s.slots[k].told
  }

  // Kinds of which the process has a task.
  function Running(s: H.State): set<nat> {
    set k: nat | k < |s.slots| && s.slots[k].count > 0
  }

  // The workers of low priority processes start when GetConfig is answered.
  function Answered(lows: map<string, L.State>, net: A.Net): map<string, L.State> {
    map l | l in net.lows && net.lows[l].answered :: if l in lows then lows[l] else L.Start(net.lows[l].bitmap)
  }

  ghost predicate Step(w: World, e: Event, w': World) {
    match e
    case Connect(p) => p !in w.highs && w' == w.(highs := w.highs[p := H.START])
    case High(p, high) =>
      && p in w.highs && p in w'.highs && high != H.Call && H.Step(w.highs[p], high, w'.highs[p])
      && w' == w.(highs := w.highs[p := w'.highs[p]])
    case Request(p) =>
      // The worker sends what it has staged, ...
      && p in w.highs && w.highs[p].worker == H.Calling && D.Runs(w.net.world, p) != Staged(w.highs[p])
      && A.Step(w.net, A.Send(p, Staged(w.highs[p])), w'.net) && w' == w.(net := w'.net)
    case Reply(p) =>
      // ... and goes on when this has been handled.
      && p in w.highs && p in w'.highs && D.Runs(w.net.world, p) == Staged(w.highs[p])
      && !A.Requesting(w.net.inbox, p)
      && H.Step(w.highs[p], H.Call, w'.highs[p]) && w' == w.(highs := w.highs[p := w'.highs[p]])
    case Die(p) =>
      p in w.highs && A.Step(w.net, A.Disconnect(p), w'.net) && w' == w.(highs := w.highs - {p}, net := w'.net)
    case Subscribe(l) => A.Step(w.net, A.Subscribe(l), w'.net) && w' == w.(net := w'.net)
    case Ask(l) => A.Step(w.net, A.Ask(l), w'.net) && w' == w.(net := w'.net)
    case Handle =>
      A.Step(w.net, A.Handle, w'.net) && w' == w.(net := w'.net, lows := Answered(w.lows, w'.net))
    case Announce => A.Step(w.net, A.Announce, w'.net) && w' == w.(net := w'.net)
    case Low(l, low) =>
      // The worker unlocks when the bus has nothing more for it.
      && l in w.lows && l in w'.lows && !low.Signal?
      && (low.Unlock? && l in w.net.lows ==> w.net.lows[l].queue == [])
      && L.Step(w.lows[l], low, w'.lows[l]) && w' == w.(lows := w.lows[l := w'.lows[l]])
    case Deliver(l) =>
      && l in w.lows && l in w'.lows && A.Step(w.net, A.Receive(l), w'.net)
      && L.Step(w.lows[l], L.Signal(w.net.lows[l].queue[0]), w'.lows[l])
      && w' == w.(net := w'.net, lows := w.lows[l := w'.lows[l]])
  }

  ghost predicate Run(w: World, events: seq<Event>, w': World)
    decreases |events|
  {
    if events == [] then w' == w
    else exists mid :: Step(w, events[0], mid) && Run(mid, events[1..], w')
  }

  // ------------------------------------------------------------- invariants

  // The bitmap last set by a process is what its worker has told the daemon, or
  // is telling it now.
  predicate HighFits(s: H.State, sent: set<nat>) {
    H.Good(s) && (sent == Told(s) || (s.worker == H.Calling && sent == Staged(s)))
  }

  predicate LowFits(s: L.State, low: A.Low) {
    L.Good(s) && low.answered && s.bitmap == low.bitmap
  }

  ghost predicate Fits(w: World) {
    && A.Invariant(w.net)
    && (forall p | p in w.net.world :: p in w.highs)
    && (forall p | p in w.highs :: HighFits(w.highs[p], D.Runs(w.net.world, p)))
    && (forall l | l in w.net.lows && w.net.lows[l].answered :: l in w.lows)
    && (forall l | l in w.lows :: l in w.net.lows && LowFits(w.lows[l], w.net.lows[l]))
  }

  lemma StartFits()
    ensures Fits(START)
  {
  }

  lemma StagedIsGranted(s: H.State)
    requires H.Good(s)
    ensures Granted(Staged(s))
  {
  }

  // What one step of a high priority process does to its bitmaps.
  lemma HighStep(s: H.State, e: H.Event, s': H.State, sent: set<nat>)
    requires HighFits(s, sent) && H.Step(s, e, s') && (e == H.Call ==> sent == Staged(s))
    ensures HighFits(s', sent)
  {
    H.StepKeeps(s, e, s');
    assert forall k: nat | k < KINDS :: H.SlotOk(s.slots[k], s.worker);
    match e
    case Pass =>
      if s.worker == H.Woken {
        assert forall k: nat | k < KINDS :: s.slots[k].told == s'.slots[k].told;
        assert Told(s') == Told(s);
      }
    case Call => assert Told(s') == Staged(s);
    case Poll => assert Told(s') == Told(s) && Staged(s') == Staged(s);
    case _ =>
      assert Told(s') == Told(s) && Staged(s') == Staged(s);
  }

  lemma HighKeeps(w: World, e: Event, w': World)
    requires Fits(w) && Step(w, e, w') && (e.Connect? || e.High? || e.Request? || e.Reply? || e.Die?)
    ensures Fits(w')
  {
    match e
    case Connect(p) => assert HighFits(H.START, {}) by { assert Told(H.START) == {}; }
    case High(p, high) => HighStep(w.highs[p], high, w'.highs[p], D.Runs(w.net.world, p));
    case Request(p) => A.StepKeeps(w.net, A.Send(p, Staged(w.highs[p])), w'.net); StagedIsGranted(w.highs[p]);
    case Reply(p) => HighStep(w.highs[p], H.Call, w'.highs[p], D.Runs(w.net.world, p));
    case Die(p) => A.StepKeeps(w.net, A.Disconnect(p), w'.net);
  }

  lemma BusKeeps(w: World, e: Event, w': World)
    requires Fits(w) && Step(w, e, w') && (e.Subscribe? || e.Ask? || e.Announce?)
    ensures Fits(w')
  {
    match e
    case Subscribe(l) => A.StepKeeps(w.net, A.Subscribe(l), w'.net);
    case Ask(l) => A.StepKeeps(w.net, A.Ask(l), w'.net);
    case Announce => A.StepKeeps(w.net, A.Announce, w'.net);
  }

  // An answer starts the worker that asked, and concerns nobody else.
  lemma HandleKeeps(w: World, w': World)
    requires Fits(w) && Step(w, Handle, w')
    ensures Fits(w')
  {
    A.StepKeeps(w.net, A.Handle, w'.net);
    forall l | l in w'.lows ensures l in w'.net.lows && LowFits(w'.lows[l], w'.net.lows[l]) {
      if l in w.lows { assert LowFits(w.lows[l], w.net.lows[l]); }
    }
  }

  lemma LowKeeps(w: World, e: Event, w': World)
    requires Fits(w) && Step(w, e, w') && (e.Low? || e.Deliver?)
    ensures Fits(w')
  {
    match e
    case Low(l, low) => L.StepKeeps(w.lows[l], low, w'.lows[l]);
    case Deliver(l) =>
      A.StepKeeps(w.net, A.Receive(l), w'.net);
      L.StepKeeps(w.lows[l], L.Signal(w.net.lows[l].queue[0]), w'.lows[l]);
  }

  lemma StepKeeps(w: World, e: Event, w': World)
    requires Fits(w) && Step(w, e, w')
    ensures Fits(w')
  {
    if e.Low? || e.Deliver? { LowKeeps(w, e, w'); }
    else if e.Handle? { HandleKeeps(w, w'); }
    else if e.Subscribe? || e.Ask? || e.Announce? { BusKeeps(w, e, w'); }
    else { HighKeeps(w, e, w'); }
  }

  lemma {:induction false} RunKeeps(w: World, events: seq<Event>, w': World)
    requires Fits(w) && Run(w, events, w')
    ensures Fits(w')
    decreases |events|
  {
    if events != [] {
      var mid :| Step(w, events[0], mid) && Run(mid, events[1..], w');
      StepKeeps(w, events[0], mid);
      RunKeeps(mid, events[1..], w');
    }
  }

  // ---------------------------------------------------------------- results

  predicate Idle(s: H.State) {
    s.worker == H.Polling && forall k | 0 <= k < |s.slots| :: s.slots[k].timer == H.Off
  }

  // No message is under way, all workers wait in ppoll, and no timer is set.
  ghost predicate AtRest(w: World) {
    && A.Quiet(w.net)
    && (forall p | p in w.highs :: Idle(w.highs[p]))
    && (forall l | l in w.lows :: w.lows[l].worker == L.Polling)
  }

  // Some high priority process has a task of kind k.
  ghost predicate Busy(w: World, k: nat) {
    exists p :: p in w.highs && k in Running(w.highs[p])
  }

  // A low priority process has been told what there is to know: by a signal, or
  // by an answer that was up to date.
  predicate Informed(low: A.Low) {
    low.signalled || low.current
  }

  lemma SentIsRunning(w: World, p: string)
    requires Fits(w) && AtRest(w) && p in w.highs
    ensures D.Runs(w.net.world, p) == Running(w.highs[p])
  {
    var s := w.highs[p];
    assert HighFits(s, D.Runs(w.net.world, p));
    forall k: nat | k < KINDS ensures s.slots[k].told <==> s.slots[k].count > 0 {
      assert H.SlotOk(s.slots[k], s.worker);
    }
    assert Told(s) == Running(s);
  }

  lemma UnionIsBusy(w: World, k: nat)
    requires Fits(w) && AtRest(w)
    ensures k in D.Union(w.net.world) <==> Busy(w, k)
  {
    forall p | p in w.highs ensures D.Runs(w.net.world, p) == Running(w.highs[p]) { SentIsRunning(w, p); }
    if Busy(w, k) {
      var p :| p in w.highs && k in Running(w.highs[p]);
      assert p in w.net.world && k in w.net.world[p];
    }
  }

  lemma SmallWorld(w: World)
    requires Fits(w) && |w.highs| < WORD
    ensures |w.net.world| < WORD
  {
    D.Fits(w.net.world.Keys, w.highs.Keys);
    assert |w.net.world.Keys| == |w.net.world| && |w.highs.Keys| == |w.highs|;
  }

  // At rest, after any run: the bitmap of a low priority process says of every
  // kind whether some high priority process has a task of it, if and only if it
  // has been informed.
  lemma BitmapsTellTheTruth(events: seq<Event>, w: World, l: string)
    requires Run(START, events, w) && AtRest(w) && |w.highs| < 0x1_0000_0000 && l in w.lows
    ensures l in w.net.lows
    ensures (forall k: nat :: k in w.lows[l].bitmap <==> Busy(w, k)) <==> Informed(w.net.lows[l])
  {
    StartFits();
    RunKeeps(START, events, w);
    SmallWorld(w);
    A.QuietAgrees(w.net);
    assert LowFits(w.lows[l], w.net.lows[l]);
    forall k: nat ensures k in D.Union(w.net.world) <==> Busy(w, k) { UnionIsBusy(w, k); }
  }

  // So of an informed process the threads that sleep wait for real work, ...
  lemma SleepersWaitForWork(events: seq<Event>, w: World, l: string, t: L.Thread)
    requires Run(START, events, w) && AtRest(w) && |w.highs| < 0x1_0000_0000 && l in w.lows
    requires l in w.net.lows && Informed(w.net.lows[l])
    requires t in w.lows[l].threads && w.lows[l].threads[t].Asleep?
    ensures Busy(w, w.lows[l].threads[t].k)
  {
    BitmapsTellTheTruth(events, w, l);
    StartFits();
    RunKeeps(START, events, w);
    assert L.ThreadOk(w.lows[l], w.lows[l].threads[t]);
  }

  // ... and the others run, or do so as soon as they get the free mutex.
  lemma FreeKindsRun(events: seq<Event>, w: World, l: string, t: L.Thread) returns (s': L.State)
    requires Run(START, events, w) && AtRest(w) && |w.highs| < 0x1_0000_0000 && l in w.lows
    requires l in w.net.lows && Informed(w.net.lows[l])
    requires t in w.lows[l].threads && !Busy(w, w.lows[l].threads[t].k)
    ensures var a := w.lows[l].threads[t];
            a.Running? || (L.Step(w.lows[l], L.Recheck(t), s') && t in s'.threads && s'.threads[t] == L.Running(a.k))
  {
    BitmapsTellTheTruth(events, w, l);
    StartFits();
    RunKeeps(START, events, w);
    var s := w.lows[l];
    assert L.ThreadOk(s, s.threads[t]);
    s' := s.(threads := s.threads[t := L.Tested(s, s.threads[t].k)]);
  }

  // A thread that asks for a busy kind has to wait.
  lemma BusyKindsWait(events: seq<Event>, w: World, l: string, t: L.Thread, k: nat, s': L.State)
    requires Run(START, events, w) && AtRest(w) && |w.highs| < 0x1_0000_0000 && l in w.lows
    requires l in w.net.lows && Informed(w.net.lows[l]) && Busy(w, k)
    requires L.Step(w.lows[l], L.SchedStart(t, k), s')
    ensures t in s'.threads && s'.threads[t] == L.Asleep(k)
  {
    BitmapsTellTheTruth(events, w, l);
  }

  // ------------------------------------------------------- getting to rest

  // What needs no new task, thread or process to happen.
  predicate Internal(e: Event) {
    match e
    case High(_, high) => high.Tick? || high.Poll? || high.Pass?
    case Low(_, low) => low.Lock? || low.Unlock? || low.Notify?
    case _ => e.Request? || e.Reply? || e.Ask? || e.Handle? || e.Announce? || e.Deliver?
  }

  ghost predicate Goes(w: World, e: Event, w': World) {
    Internal(e) && Step(w, e, w')
  }

  lemma HighGoes(w: World, p: string) returns (e: Event, w': World)
    requires Fits(w) && w.net.inbox == [] && p in w.highs && !Idle(w.highs[p])
    ensures Goes(w, e, w')
  {
    var s := w.highs[p];
    var n := |s.slots|;
    match s.worker
    case Polling =>
      var k :| 0 <= k < n && s.slots[k].timer.Armed?;
      if H.Expired(s.slots[k].timer, s.now) {
        e := High(p, H.Poll);
        var woken := seq(n, k requires 0 <= k < n => H.PolledSlot(s.slots[k], s.now));
        w' := w.(highs := w.highs[p := s.(worker := H.Woken, slots := woken)]);
      } else {
        e := High(p, H.Tick(s.slots[k].timer.deadline - s.now));
        w' := w.(highs := w.highs[p := s.(now := s.slots[k].timer.deadline)]);
      }
    case Woken =>
      e := High(p, H.Pass);
      var passed := seq(n, k requires 0 <= k < n => H.Passed(s.slots[k], s.now));
      w' := w.(highs := w.highs[p := s.(worker := if H.Changed(s) then H.Calling else H.Polling, slots := passed)]);
    case Calling =>
      if D.Runs(w.net.world, p) == Staged(s) {
        e := Reply(p);
        var told := seq(n, k requires 0 <= k < n => H.ToldSlot(s.slots[k]));
        w' := w.(highs := w.highs[p := s.(worker := H.Polling, slots := told)]);
      } else {
        e := Request(p);
        var m := A.SetBitmap(p, Staged(s));
        w' := w.(net := w.net.(inbox := w.net.inbox + [m], world := A.Process(w.net.world, m)));
      }
  }

  lemma LowGoes(w: World, l: string) returns (e: Event, w': World)
    requires Fits(w) && l in w.lows && (w.lows[l].worker != L.Polling || w.net.lows[l].queue != [])
    ensures Goes(w, e, w')
  {
    assert LowFits(w.lows[l], w.net.lows[l]);
    if w.lows[l].worker == L.Processing && w.net.lows[l].queue != [] {
      e, w' := Delivery(w, l);
    } else {
      var low, s' := LowMoves(w.lows[l]);
      e, w' := Low(l, low), w.(lows := w.lows[l := s']);
    }
  }

  lemma Delivery(w: World, l: string) returns (e: Event, w': World)
    requires l in w.lows && l in w.net.lows && LowFits(w.lows[l], w.net.lows[l])
    requires w.lows[l].worker == L.Processing && w.net.lows[l].queue != []
    ensures Goes(w, e, w')
  {
    var low := w.net.lows[l];
    var low' := low.(bitmap := low.queue[0], queue := low.queue[1..]);
    e := Deliver(l);
    w' := w.(net := w.net.(lows := w.net.lows[l := low']),
             lows := w.lows[l := w.lows[l].(bitmap := low.queue[0])]);
  }

  // What the worker of a low priority process does next.
  lemma LowMoves(s: L.State) returns (low: L.Event, s': L.State)
    requires L.Good(s)
    ensures L.Step(s, low, s') && (low.Lock? || low.Unlock? || low.Notify?)
    ensures low.Unlock? ==> s.worker == L.Processing
  {
    match s.worker
    case Polling =>
      low, s' := L.Lock, s.(worker := L.Processing);
    case Processing =>
      low, s' := L.Unlock, s.(oldBitmap := s.bitmap, worker := L.Notifying(s.oldBitmap - s.bitmap, 0));
    case Notifying(cleared, next) =>
      low := L.Notify;
      s' := if next == KINDS then s.(worker := L.Polling) else s.(
        threads := if next in cleared then L.NotifyAll(s.threads, next) else s.threads,
        worker := L.Notifying(cleared, next + 1));
  }

  lemma BusGoes(w: World) returns (e: Event, w': World)
    requires Fits(w)
    requires w.net.inbox != [] || w.net.announced != D.Global(w.net.procs)
          || exists l :: l in w.net.lows && !w.net.lows[l].answered
    ensures Goes(w, e, w')
  {
    if w.net.inbox != [] {
      e := Handle;
      var net := w.net.(inbox := w.net.inbox[1..], procs := A.Process(w.net.procs, w.net.inbox[0]),
                        lows := A.Answer(w.net, w.net.inbox[0]));
      w' := w.(net := net, lows := Answered(w.lows, net));
    } else if w.net.announced != D.Global(w.net.procs) {
      e := Announce;
      var news := D.Global(w.net.procs);
      w' := w.(net := w.net.(announced := news, lows := map l | l in w.net.lows ::
        w.net.lows[l].(queue := w.net.lows[l].queue + [news], signalled := true)));
    } else {
      var l :| l in w.net.lows && !w.net.lows[l].answered;
      e := Ask(l);
      w' := w.(net := w.net.(inbox := w.net.inbox + [A.GetConfig(l)]));
    }
  }

  // Until it is at rest the system always finds something to do by itself.
  lemma GoesOn(events: seq<Event>, w: World) returns (e: Event, w': World)
    requires Run(START, events, w) && !AtRest(w)
    ensures Goes(w, e, w')
  {
    StartFits();
    RunKeeps(START, events, w);
    if w.net.inbox != [] || w.net.announced != D.Global(w.net.procs)
       || exists l :: l in w.net.lows && !w.net.lows[l].answered
    {
      e, w' := BusGoes(w);
    } else if l :| l in w.lows && (w.lows[l].worker != L.Polling || w.net.lows[l].queue != []) {
      e, w' := LowGoes(w, l);
    } else {
      var p :| p in w.highs && !Idle(w.highs[p]);
      e, w' := HighGoes(w, p);
    }
  }
}
