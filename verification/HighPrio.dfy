/** A high priority process: tasks start and end under a mutex and arm one
    timer per kind; a worker is woken by the timers and tells the daemon what
    has changed.  Each transition is what happens while the mutex is held, or
    one system call of the worker. */
module HighPrio {
  import opened TaskKind

  // Nanoseconds from an event to the expiry that tells the worker about it.
  const PROMPT: nat := 1
  const GRACE: nat := 1_000_000_000

  datatype Timer = Off | Armed(deadline: nat)

  // All there is about one kind.
  datatype Slot = Slot(
    count: nat,
    bit: bool,       // in Bitmap
    timer: Timer,
    polled: bool,    // POLLIN was in revents when the worker woke up
    staged: bool,    // in OldBitmap of the worker
    told: bool)      // in the bitmap the daemon was told last

  // The worker waits in ppoll, has woken up, or has unlocked the mutex and is
  // about to call the daemon.
  datatype Worker = Polling | Woken | Calling

  datatype State = State(now: nat, slots: seq<Slot>, worker: Worker)

  datatype Event = Tick(d: nat) | SchedStart(k: nat) | SchedEnd(k: nat) | Poll | Pass | Call

  const IDLE := Slot(0, false, Off, false, false, false)
  const START := State(0, [IDLE, IDLE], Polling)

  // Readable: expired and not read since it was set.
  predicate Expired(t: Timer, now: nat) {
    t.Armed? && t.deadline <= now
  }

  function Started(s: Slot, now: nat): Slot {
    s.(count := s.count + 1, bit := true, timer := if s.count == 0 then Armed(now + PROMPT) else s.timer)
  }

  function Ended(s: Slot, now: nat): Slot
    requires s.count > 0
  {
    s.(count := s.count - 1, bit := s.count != 1, timer := if s.count == 1 then Armed(now + GRACE) else s.timer)
  }

  // What the worker does for one kind: a bit that became 1 is always staged, a
  // bit that became 0 only if the timer has gone off and not been set again.
  function Passed(s: Slot, now: nat): Slot {
    if s.polled && Expired(s.timer, now) then s.(timer := Off, staged := s.bit)
    else s.(staged := s.staged || s.bit)
  }

  function PolledSlot(s: Slot, now: nat): Slot {
    s.(polled := Expired(s.timer, now))
  }

  function ToldSlot(s: Slot): Slot {
    s.(told := s.staged)
  }

  predicate Changed(s: State) {
    exists k :: 0 <= k < |s.slots| && s.slots[k].staged != Passed(s.slots[k], s.now).staged
  }

  ghost predicate Polls(s: State, s': State) {
    && s.worker == Polling && s'.worker == Woken
    && s'.now == s.now && |s'.slots| == |s.slots|
    && (exists k :: 0 <= k < |s.slots| && Expired(s.slots[k].timer, s.now))
    && forall k :: 0 <= k < |s.slots| ==> s'.slots[k] == PolledSlot(s.slots[k], s.now)
  }

  ghost predicate Passes(s: State, s': State) {
    && s.worker == Woken && s'.worker == (if Changed(s) then Calling else Polling)
    && s'.now == s.now && |s'.slots| == |s.slots|
    && forall k :: 0 <= k < |s.slots| ==> s'.slots[k] == Passed(s.slots[k], s.now)
  }

  ghost predicate Calls(s: State, s': State) {
    && s.worker == Calling && s'.worker == Polling
    && s'.now == s.now && |s'.slots| == |s.slots|
    && forall k :: 0 <= k < |s.slots| ==> s'.slots[k] == ToldSlot(s.slots[k])
  }

  ghost predicate Step(s: State, e: Event, s': State) {
    match e
    case Tick(d) => s' == s.(now := s.now + d)
    case SchedStart(k) =>
      k < |s.slots| && s' == s.(slots := s.slots[k := Started(s.slots[k], s.now)])
    case SchedEnd(k) =>
      k < |s.slots| && s.slots[k].count > 0 && s' == s.(slots := s.slots[k := Ended(s.slots[k], s.now)])
    case Poll => Polls(s, s')
    case Pass => Passes(s, s')
    case Call => Calls(s, s')
  }

  ghost predicate StepAt(events: seq<Event>, trace: seq<State>, i: nat)
    requires i < |events| && |trace| == |events| + 1
  {
    Step(trace[i], events[i], trace[i + 1])
  }

  // The states of a run, one after each event.
  ghost predicate Trace(events: seq<Event>, trace: seq<State>) {
    && |trace| == |events| + 1
    && trace[0] == START
    && forall i: nat :: i < |events| ==> StepAt(events, trace, i)
  }

  // ------------------------------------------------------------- invariants

  predicate SlotOk(x: Slot, worker: Worker) {
    && (x.bit <==> x.count != 0)
    && (x.staged != x.bit ==> x.timer.Armed?)
    && (worker != Calling ==> x.told == x.staged)
  }

  predicate Good(s: State) {
    |s.slots| == KINDS && forall k :: 0 <= k < KINDS ==> SlotOk(s.slots[k], s.worker)
  }

  lemma StepKeeps(s: State, e: Event, s': State)
    requires Good(s) && Step(s, e, s')
    ensures Good(s')
  {
    forall k | 0 <= k < KINDS
      ensures SlotOk(s'.slots[k], s'.worker)
    {
      assert SlotOk(s.slots[k], s.worker);
    }
  }

  lemma {:induction false} TraceKeeps(events: seq<Event>, trace: seq<State>, n: nat)
    requires Trace(events, trace) && n < |trace|
    ensures Good(trace[n])
  {
    if n > 0 {
      TraceKeeps(events, trace, n - 1);
      assert StepAt(events, trace, n - 1);
      StepKeeps(trace[n - 1], events[n - 1], trace[n]);
    }
  }

  // In every state of every run: a bit is 1 exactly while its count is not
  // zero, a change that is not staged yet has a timer that is armed or expired
  // and not read, and what is staged the daemon knows or is about to be told.
  lemma NoUpdateIsLost(events: seq<Event>, trace: seq<State>, n: nat, k: nat)
    requires Trace(events, trace) && n < |trace| && k < 2
    ensures |trace[n].slots| == 2
    ensures var x := trace[n].slots[k];
      && (x.bit <==> x.count != 0)
      && (x.staged != x.bit ==> x.timer.Armed?)
      && (x.told != x.staged ==> trace[n].worker == Calling)
  {
    TraceKeeps(events, trace, n);
    assert SlotOk(trace[n].slots[k], trace[n].worker);
  }

  // The count of kind k has been zero from state i to state n.
  predicate IdleFrom(trace: seq<State>, i: nat, n: nat, k: nat)
    requires i <= n < |trace|
  {
    forall j :: i <= j <= n ==> k < |trace[j].slots| && trace[j].slots[k].count == 0
  }

  // While a count is zero, the timer is set to the end of the grace period
  // that began when the count became zero.
  lemma {:induction false} TimerMeasures(events: seq<Event>, trace: seq<State>, n: nat, k: nat) returns (i: nat)
    requires Trace(events, trace) && n < |trace| && k < 2
    requires k < |trace[n].slots| && trace[n].slots[k].count == 0 && trace[n].slots[k].timer.Armed?
    ensures i <= n && IdleFrom(trace, i, n, k) && trace[n].slots[k].timer.deadline == trace[i].now + 1_000_000_000
  {
    TraceKeeps(events, trace, n - 1);
    assert StepAt(events, trace, n - 1);
    if events[n - 1] == SchedEnd(k) {
      i := n;
    } else {
      i := TimerMeasures(events, trace, n - 1, k);
    }
  }

  // A bit is withdrawn only after its count has been zero, without a break,
  // for the whole grace period.
  lemma GraceIsKept(events: seq<Event>, trace: seq<State>, n: nat, k: nat) returns (i: nat)
    requires Trace(events, trace) && n < |events| && k < 2
    requires k < |trace[n].slots| == |trace[n + 1].slots|
    requires trace[n].slots[k].staged && !trace[n + 1].slots[k].staged
    ensures i <= n && IdleFrom(trace, i, n, k) && trace[i].now + 1_000_000_000 <= trace[n].now
  {
    TraceKeeps(events, trace, n);
    assert StepAt(events, trace, n);
    assert SlotOk(trace[n].slots[k], trace[n].worker);
    i := TimerMeasures(events, trace, n, k);
  }

  // Kind k has had a task from state i to state n, and had none before.
  predicate BusyFrom(events: seq<Event>, trace: seq<State>, i: nat, n: nat, k: nat)
    requires i <= n < |trace| == |events| + 1
  {
    && (forall j :: i <= j <= n ==> k < |trace[j].slots| && trace[j].slots[k].count > 0)
    && i > 0 && events[i - 1] == SchedStart(k)
    && k < |trace[i - 1].slots| && trace[i - 1].slots[k].count == 0
  }

  // A task that has started and is not staged yet is to be told within a
  // nanosecond of its start.
  lemma {:induction false} StartIsPrompt(events: seq<Event>, trace: seq<State>, n: nat, k: nat) returns (i: nat)
    requires Trace(events, trace) && n < |trace| && k < 2
    requires k < |trace[n].slots| && trace[n].slots[k].count > 0 && !trace[n].slots[k].staged
    ensures i <= n && BusyFrom(events, trace, i, n, k)
    ensures trace[n].slots[k].timer.Armed? && trace[n].slots[k].timer.deadline <= trace[i].now + 1
  {
    TraceKeeps(events, trace, n - 1);
    assert SlotOk(trace[n - 1].slots[k], trace[n - 1].worker);
    assert StepAt(events, trace, n - 1);
    if trace[n - 1].slots[k].count == 0 {
      i := n;
    } else {
      i := StartIsPrompt(events, trace, n - 1, k);
    }
  }

  // After that nanosecond a worker in ppoll wakes up, and what it does then
  // stages the bit and tells the daemon.
  lemma StartIsTold(events: seq<Event>, trace: seq<State>, n: nat, k: nat, i: nat) returns (woken: State, passed: State)
    requires Trace(events, trace) && n < |trace| && k < 2 && trace[n].worker == Polling
    requires k < |trace[n].slots| && trace[n].slots[k].count > 0 && !trace[n].slots[k].staged
    requires i <= n && BusyFrom(events, trace, i, n, k) && trace[n].now >= trace[i].now + 1
    ensures Step(trace[n], Poll, woken) && Step(woken, Pass, passed)
    ensures k < |passed.slots| && passed.slots[k].staged && passed.worker == Calling
  {
    var s := trace[n];
    var i' := StartIsPrompt(events, trace, n, k);
    OneStart(events, trace, i, i', n, k);
    var size := |s.slots|;
    woken := s.(worker := Woken, slots := seq(size, j requires 0 <= j < size => PolledSlot(s.slots[j], s.now)));
    passed := woken.(worker := if Changed(woken) then Calling else Polling,
                     slots := seq(size, j requires 0 <= j < size => Passed(woken.slots[j], s.now)));
    TraceKeeps(events, trace, n);
    assert SlotOk(s.slots[k], s.worker);
    assert woken.slots[k].staged != Passed(woken.slots[k], woken.now).staged;
  }

  lemma OneStart(events: seq<Event>, trace: seq<State>, i: nat, j: nat, n: nat, k: nat)
    requires i <= n < |trace| == |events| + 1 && j <= n
    requires BusyFrom(events, trace, i, n, k) && BusyFrom(events, trace, j, n, k)
    ensures i == j
  {
    assert !(i <= j - 1) && !(j <= i - 1);
  }

  // Every pass stages all kinds that have a task, whoever woke the worker, and
  // it makes the worker call the daemon exactly if that changes something.
  lemma PassStages(events: seq<Event>, trace: seq<State>, n: nat)
    requires Trace(events, trace) && n < |events| && events[n] == Pass
    ensures |trace[n].slots| == |trace[n + 1].slots| == 2
    ensures forall k :: 0 <= k < 2 && trace[n].slots[k].count > 0 ==> trace[n + 1].slots[k].staged
    ensures trace[n + 1].worker == Calling <==>
            exists k :: 0 <= k < 2 && trace[n + 1].slots[k].staged != trace[n].slots[k].staged
  {
    TraceKeeps(events, trace, n);
    assert StepAt(events, trace, n);
    assert forall k :: 0 <= k < KINDS ==> SlotOk(trace[n].slots[k], trace[n].worker);
    assert forall k :: 0 <= k < KINDS ==> trace[n + 1].slots[k] == Passed(trace[n].slots[k], trace[n].now);
  }

  // Once nothing starts or ends for the grace period, the next time the worker
  // wakes up everything is staged.
  lemma Settles(s: State, woken: State, passed: State)
    requires Good(s) && Step(s, Poll, woken) && Step(woken, Pass, passed)
    requires forall k :: 0 <= k < 2 && s.slots[k].timer.Armed? ==> s.slots[k].timer.deadline <= s.now
    ensures forall k :: 0 <= k < 2 ==> passed.slots[k].staged == s.slots[k].bit == (s.slots[k].count != 0)
  {
    forall k | 0 <= k < KINDS
      ensures passed.slots[k].staged == s.slots[k].bit == (s.slots[k].count != 0)
    {
      assert SlotOk(s.slots[k], s.worker);
    }
  }

  // No timer is ever further away than the grace period.
  lemma {:induction false} DeadlinesAreNear(events: seq<Event>, trace: seq<State>, n: nat)
    requires Trace(events, trace) && n < |trace|
    ensures forall k :: 0 <= k < |trace[n].slots| && trace[n].slots[k].timer.Armed? ==>
      trace[n].slots[k].timer.deadline <= trace[n].now + 1_000_000_000
  {
    if n > 0 {
      DeadlinesAreNear(events, trace, n - 1);
      assert StepAt(events, trace, n - 1);
    }
  }
}
