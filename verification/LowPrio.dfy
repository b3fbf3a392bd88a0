/** A low priority process: threads wait on one condition variable per kind
    until the bit of their kind is 0, and a worker that handles the signals of
    the daemon wakes them.  The mutex is held by the worker from the moment
    ppoll has returned until it has compared bitmaps; everything a thread does
    under the mutex is one step. */
module LowPrio {
  import opened TaskKind

  type Thread = nat

  // Woken threads must still get the mutex and look at the bitmap again.
  datatype Activity = Asleep(k: nat) | Woken(k: nat) | Running(k: nat)

  datatype Worker =
    // In ppoll, without the mutex.
    | Polling
    // Handling signals, with the mutex.
    | Processing
    // Between unlock and the next ppoll: kinds from next on are to be notified
    // if they are in the set.
    | Notifying(cleared: set<nat>, next: nat)

  datatype State = State(
    bitmap: set<nat>,
    oldBitmap: set<nat>,
    worker: Worker,
    threads: map<Thread, Activity>)

  datatype Event =
    | SchedStart(t: Thread, k: nat)
    | Recheck(t: Thread)
    | Spurious(t: Thread)
    | SchedEnd(t: Thread)
    | Lock
    | Signal(bitmap: set<nat>)
    | Unlock
    | Notify

  // The worker starts from the bitmap that GetConfig returned.
  function Start(config: set<nat>): State {
    State(config, config, Polling, map[])
  }

  predicate LockFree(s: State) {
    !s.worker.Processing?
  }

  // The predicate that wait tests, and what becomes of the thread.
  function Tested(s: State, k: nat): Activity {
    if k in s.bitmap then Asleep(k) else Running(k)
  }

  function NotifyAll(threads: map<Thread, Activity>, k: nat): map<Thread, Activity> {
    map t | t in threads :: if threads[t] == Asleep(k) then Woken(k) else threads[t]
  }

  ghost predicate Step(s: State, e: Event, s': State) {
    match e
    case SchedStart(t, k) =>
      LockFree(s) && t !in s.threads && k < KINDS && s' == s.(threads := s.threads[t := Tested(s, k)])
    case Recheck(t) =>
      && LockFree(s) && t in s.threads && s.threads[t].Woken?
      && s' == s.(threads := s.threads[t := Tested(s, s.threads[t].k)])
    case Spurious(t) =>
      && t in s.threads && s.threads[t].Asleep?
      && s' == s.(threads := s.threads[t := Woken(s.threads[t].k)])
    case SchedEnd(t) =>
      t in s.threads && s.threads[t].Running? && s' == s.(threads := s.threads - {t})
    case Lock =>
      s.worker == Polling && s' == s.(worker := Processing)
    case Signal(bitmap) =>
      s.worker == Processing && s' == s.(bitmap := bitmap)
    case Unlock =>
      s.worker == Processing && s' == s.(oldBitmap := s.bitmap, worker := Notifying(s.oldBitmap - s.bitmap, 0))
    case Notify =>
      && s.worker.Notifying?
      && s' ==
         if s.worker.next == KINDS then s.(worker := Polling)
         else s.(
           threads := if s.worker.next in s.worker.cleared then NotifyAll(s.threads, s.worker.next) else s.threads,
           worker := Notifying(s.worker.cleared, s.worker.next + 1))
  }

  ghost predicate Run(s: State, events: seq<Event>, s': State)
    decreases |events|
  {
    if events == [] then s' == s
    else exists mid :: Step(s, events[0], mid) && Run(mid, events[1..], s')
  }

  // ------------------------------------------------------------- invariants

  // A notification is on its way to the sleepers of kind k.
  predicate Pending(w: Worker, k: nat) {
    w.Notifying? && k in w.cleared && w.next <= k
  }

  predicate Good(s: State) {
    && (LockFree(s) ==> s.oldBitmap == s.bitmap)
    && (s.worker.Notifying? ==> s.worker.next <= KINDS)
    && forall t :: t in s.threads ==> ThreadOk(s, s.threads[t])
  }

  predicate ThreadOk(s: State, a: Activity) {
    a.k < KINDS && (a.Asleep? ==> a.k in s.oldBitmap || Pending(s.worker, a.k))
  }

  lemma StepKeeps(s: State, e: Event, s': State)
    requires Good(s) && Step(s, e, s')
    ensures Good(s')
  {
    forall t | t in s'.threads
      ensures ThreadOk(s', s'.threads[t])
    {
      if t in s.threads {
        assert ThreadOk(s, s.threads[t]);
      }
    }
  }

  lemma {:induction false} RunKeeps(s: State, events: seq<Event>, s': State)
    requires Good(s) && Run(s, events, s')
    ensures Good(s')
    decreases |events|
  {
    if events != [] {
      var mid :| Step(s, events[0], mid) && Run(mid, events[1..], s');
      StepKeeps(s, events[0], mid);
      RunKeeps(mid, events[1..], s');
    }
  }

  // ---------------------------------------------------------------- results

  // Whenever the mutex is free the worker has compared the current bitmap, and
  // a thread that sleeps although its bit is 0 will still be notified.
  lemma NoWakeUpIsLost(config: set<nat>, events: seq<Event>, s: State, t: Thread)
    requires Run(Start(config), events, s) && LockFree(s)
    ensures s.oldBitmap == s.bitmap
    ensures t in s.threads && s.threads[t].Asleep? && s.threads[t].k !in s.bitmap ==>
      Pending(s.worker, s.threads[t].k)
  {
    RunKeeps(Start(config), events, s);
    if t in s.threads {
      assert ThreadOk(s, s.threads[t]);
    }
  }

  // When the worker is back in ppoll, all who sleep have to.
  lemma SleepersWaitForABit(config: set<nat>, events: seq<Event>, s: State, t: Thread)
    requires Run(Start(config), events, s) && s.worker == Polling
    requires t in s.threads && s.threads[t].Asleep?
    ensures s.threads[t].k in s.bitmap
  {
    NoWakeUpIsLost(config, events, s, t);
  }

  // Then nobody is held up whose bit is 0: such a thread runs already, or has
  // been woken, and runs as soon as it gets the mutex, which is free.
  lemma ClearMeansRunnable(config: set<nat>, events: seq<Event>, s: State, t: Thread) returns (s': State)
    requires Run(Start(config), events, s) && s.worker == Polling
    requires t in s.threads && s.threads[t].k !in s.bitmap
    ensures s.threads[t].Running? || Step(s, Recheck(t), s')
    ensures s.threads[t].Running? || (t in s'.threads && s'.threads[t] == Running(s.threads[t].k))
  {
    RunKeeps(Start(config), events, s);
    assert ThreadOk(s, s.threads[t]);
    s' := s.(threads := s.threads[t := Tested(s, s.threads[t].k)]);
  }

  // How many more steps of the worker until a pending notification is given.
  function Distance(w: Worker, k: nat): nat
    requires w.Notifying? && w.next <= k
  {
    k + 1 - w.next
  }

  // The worker needs nobody else to give its notifications: no step of a
  // thread delays one, and each step of its own brings it closer.
  lemma NotificationComes(s: State, e: Event, s': State, k: nat)
    requires Good(s) && Step(s, e, s') && k < KINDS && Pending(s.worker, k)
    ensures e == Notify ==>
      if Pending(s'.worker, k) then Distance(s'.worker, k) < Distance(s.worker, k)
      else forall t :: t in s'.threads ==> s'.threads[t] != Asleep(k)
    ensures e != Notify ==> s'.worker == s.worker
    ensures s.bitmap == s'.bitmap
  {
  }
}
