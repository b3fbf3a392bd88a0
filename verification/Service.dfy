/** The schedule service inside a high priority process, and the guards that
    the API functions hold while a task runs. */
module Service {
  import opened TaskKind
  import opened HighPrio

  // Something has changed exactly if the new bitmap is not the old one.
  lemma ChangedBitmap(s: State, mapToSet: set<nat>, oldBitmap: set<nat>)
    requires Granted(mapToSet) && Granted(oldBitmap) && |s.slots| == KINDS
    requires forall k :: 0 <= k < KINDS ==> (Passed(s.slots[k], s.now).staged <==> k in mapToSet)
    requires forall k :: 0 <= k < KINDS ==> (s.slots[k].staged <==> k in oldBitmap)
    ensures Changed(s) <==> mapToSet != oldBitmap
  {
    if x :| x in mapToSet && x !in oldBitmap {
      assert s.slots[x].staged != Passed(s.slots[x], s.now).staged;
    } else if x :| x in oldBitmap && x !in mapToSet {
      assert s.slots[x].staged != Passed(s.slots[x], s.now).staged;
    }
  }

  // Bitmaps are the sets of the kinds whose bits are 1: AssignKind, Cleared
  // and FlipKind in TaskKind show that what the service does with words is
  // what is done with sets here.
  class ScheduleService {
    // Shared under the mutex.
    var bitmap: set<nat>
    var count: seq<nat>
    var timer: seq<Timer>
    // Of the worker.
    var oldBitmap: set<nat>
    var toldBitmap: set<nat>
    var revents: seq<bool>
    var worker: Worker
    var now: nat

    function SlotOf(k: nat): Slot
      requires k < |count| && k < |timer| && k < |revents|
      reads this
    {
      Slot(count[k], k in bitmap, timer[k], revents[k], k in oldBitmap, k in toldBitmap)
    }

    predicate Shaped()
      reads this
    {
      |count| == KINDS && |timer| == KINDS && |revents| == KINDS
    }

    function View(): State
      requires Shaped()
      reads this
    {
      State(now, [SlotOf(0), SlotOf(1)], worker)
    }

    ghost predicate Valid()
      reads this
    {
      && Shaped() && Good(View())
      && Granted(bitmap) && Granted(oldBitmap)
    }

    constructor ()
      ensures Valid() && View() == START
    {
      bitmap, oldBitmap, toldBitmap := {}, {}, {};
      count, timer, revents := [0, 0], [Off, Off], [false, false];
      worker, now := Polling, 0;
    }

    method SchedStart(k: nat)
      requires Valid() && k < KINDS
      modifies `bitmap, `count, `timer
      ensures Valid() && Step(old(View()), Event.SchedStart(k), View())
      ensures count == old(count)[k := old(count[k]) + 1]
    {
      ghost var s := View();
      var oldCount := count[k];
      count := count[k := oldCount + 1];
      bitmap := Assigned(bitmap, k, 1);
      if oldCount == 0 {
        timer := timer[k := Armed(now + PROMPT)];
      }
      assert View().slots == s.slots[k := Started(s.slots[k], now)];
      StepKeeps(s, Event.SchedStart(k), View());
    }

    method SchedEnd(k: nat)
      requires Valid() && k < KINDS && count[k] > 0
      modifies `bitmap, `count, `timer
      ensures Valid() && Step(old(View()), Event.SchedEnd(k), View())
      ensures count == old(count)[k := old(count[k]) - 1]
    {
      ghost var s := View();
      var newCount := count[k] - 1;
      count := count[k := newCount];
      bitmap := Assigned(bitmap, k, newCount);
      if newCount == 0 {
        timer := timer[k := Armed(now + GRACE)];
      }
      assert View().slots == s.slots[k := Ended(s.slots[k], now)];
      StepKeeps(s, Event.SchedEnd(k), View());
    }

    // ------------------------------------------------------------- the worker

    // ppoll returns when some timer can be read.
    method Poll()
      requires Valid() && worker == Polling
      requires exists k :: 0 <= k < KINDS && Expired(timer[k], now)
      modifies `revents, `worker
      ensures Valid() && Step(old(View()), Event.Poll, View())
    {
      ghost var s := View();
      revents := [Expired(timer[0], now), Expired(timer[1], now)];
      worker := Woken;
      assert Expired(s.slots[0].timer, s.now) || Expired(s.slots[1].timer, s.now);
      StepKeeps(s, Event.Poll, View());
    }

    // Consume the expiry of a timer, unless it was set again meanwhile.
    method Read(k: nat) returns (ok: bool)
      requires k < |timer|
      modifies `timer
      ensures ok == Expired(old(timer)[k], now)
      ensures timer == if ok then old(timer)[k := Off] else old(timer)
    {
      ok := Expired(timer[k], now);
      if ok {
        timer := timer[k := Off];
      }
    }

    // A change is staged if the timer of the kind has gone off and was not set
    // again, or if it is from 0 to 1; else it is reverted.
    method StageKind(kind: nat, cleared: set<nat>, mapToSet: set<nat>) returns (mapToSet': set<nat>)
      requires Shaped() && kind < KINDS
      requires kind in mapToSet <==> SlotOf(kind).bit
      requires kind in cleared <==> SlotOf(kind).staged && !SlotOf(kind).bit
      modifies `timer
      ensures timer == old(timer)[kind := Passed(old(SlotOf(kind)), now).timer]
      ensures mapToSet' == if Passed(old(SlotOf(kind)), now).staged then mapToSet + {kind} else mapToSet
    {
      mapToSet' := mapToSet;
      if revents[kind] {
        var ok := Read(kind);
        if ok {
          return;
        }
      }
      if kind in cleared {
        mapToSet' := mapToSet + {kind};
      }
    }

    method StageChanges() returns (mapToSet: set<nat>)
      requires Shaped() && Granted(bitmap)
      modifies `timer
      ensures Shaped() && Granted(mapToSet)
      ensures forall k :: 0 <= k < KINDS ==> timer[k] == Passed(old(SlotOf(k)), now).timer
      ensures forall k :: 0 <= k < KINDS ==> (k in mapToSet <==> Passed(old(SlotOf(k)), now).staged)
    {
      var cleared := oldBitmap - bitmap;
      mapToSet := bitmap;
      var kind := 0;
      while kind < KINDS
        invariant kind <= KINDS && Shaped() && Granted(mapToSet)
        invariant forall k :: 0 <= k < kind ==> timer[k] == Passed(old(SlotOf(k)), now).timer
        invariant forall k :: kind <= k < KINDS ==> timer[k] == old(timer)[k]
        invariant forall k :: 0 <= k < kind ==> (k in mapToSet <==> Passed(old(SlotOf(k)), now).staged)
        invariant forall k :: kind <= k < KINDS ==> (k in mapToSet <==> k in bitmap)
      {
        assert SlotOf(kind) == old(SlotOf(kind));
        mapToSet := StageKind(kind, cleared, mapToSet);
        kind := kind + 1;
      }
    }

    method WorkerPass()
      requires Valid() && worker == Woken
      modifies `timer, `oldBitmap, `worker
      ensures Valid() && Step(old(View()), Event.Pass, View())
    {
      ghost var s := View();
      var mapToSet := StageChanges();
      worker := if mapToSet == oldBitmap then Polling else Calling;
      ChangedBitmap(s, mapToSet, oldBitmap);
      oldBitmap := mapToSet;
      StepKeeps(s, Event.Pass, View());
    }

    // The daemon is told what has been staged.
    method Call()
      requires Valid() && worker == Calling
      modifies `toldBitmap, `worker
      ensures Valid() && Step(old(View()), Event.Call, View())
      ensures toldBitmap == oldBitmap
    {
      ghost var s := View();
      toldBitmap := oldBitmap;
      worker := Polling;
      StepKeeps(s, Event.Call, View());
    }
  }

  // Kind KINDS stands for a guard that holds nothing.
  class SchedGuard {
    var kind: nat

    constructor (k: nat)
      ensures kind == k
    {
      kind := k;
    }
  }

  // The kind and the flag that a callback gets packed into one number.
  function Pack(k: nat, release: bool): int {
    var data: int := k;
    if release then -data else data
  }

  function PackedKind(data: int): nat {
    if data < 0 then -data else data
  }

  // The kind always survives.  That the event must be released is seen by the
  // callback unless the kind is 0, which has no sign.
  lemma PackingLosesZero(k: nat, release: bool)
    ensures PackedKind(Pack(k, release)) == k
    ensures (Pack(k, release) < 0 <==> release) <==> (!release || k != 0)
  {
  }

  ghost function Holding(guards: set<SchedGuard>, k: nat): set<SchedGuard>
    reads guards
  {
    set g | g in guards && g.kind == k
  }

  lemma OneMore(guards: set<SchedGuard>, g: SchedGuard)
    requires g !in guards
    ensures forall j: nat :: |Holding(guards + {g}, j)| == |Holding(guards, j)| + if j == g.kind then 1 else 0
  {
    forall j: nat
      ensures |Holding(guards + {g}, j)| == |Holding(guards, j)| + if j == g.kind then 1 else 0
    {
      var before := Holding(guards, j);
      assert Holding(guards + {g}, j) == if j == g.kind then before + {g} else before;
    }
  }

  // Events with a callback pending for kind k.
  function Bound(pending: multiset<int>, k: nat): nat {
    if k == 0 then pending[0] else pending[k] + pending[-k]
  }

  lemma Swap<T>(a: set<T>, g: T, h: T)
    requires g in a && h !in a
    ensures |a - {g} + {h}| == |a|
  {
  }

  lemma BoundAdd(pending: multiset<int>, data: int, k: nat)
    ensures Bound(pending + multiset{data}, k) == Bound(pending, k) + if PackedKind(data) == k then 1 else 0
  {
  }

  lemma BoundRemove(pending: multiset<int>, data: int, k: nat)
    requires data in pending
    ensures Bound(pending - multiset{data}, k) == Bound(pending, k) - if PackedKind(data) == k then 1 else 0
    ensures PackedKind(data) == k ==> Bound(pending, k) > 0
  {
    BoundAdd(pending - multiset{data}, data, k);
    assert pending - multiset{data} + multiset{data} == pending;
  }

  // The guards alive, and the callbacks registered with events.
  class Clients {
    const service: ScheduleService
    ghost var guards: set<SchedGuard>
    var pending: multiset<int>

    // Every unit of a count is a guard or a pending callback.
    ghost predicate Conserved()
      reads this, service, guards
    {
      && |service.count| == KINDS
      && (forall g :: g in guards ==> g.kind <= KINDS)
      && forall k: nat :: k < KINDS ==> service.count[k] == |Holding(guards, k)| + Bound(pending, k)
    }

    // No callback is for a kind that does not exist.
    ghost predicate Sensible()
      reads this
    {
      forall data :: data in pending ==> PackedKind(data) < KINDS
    }

    constructor (service: ScheduleService)
      requires service.Valid() && service.View() == START
      ensures this.service == service && Conserved() && guards == {} && pending == multiset{}
    {
      this.service, guards, pending := service, {}, multiset{};
      new;
      assert service.View().slots[0] == IDLE && service.View().slots[1] == IDLE;
      assert forall k: nat :: Holding(guards, k) == {};
    }

    method Schedule(k: nat) returns (g: SchedGuard)
      requires service.Valid() && Conserved() && k < KINDS
      modifies this, service
      ensures service.Valid() && Conserved()
      ensures fresh(g) && g.kind == k && guards == old(guards) + {g} && pending == old(pending)
      ensures Step(old(service.View()), Event.SchedStart(k), service.View())
    {
      service.SchedStart(k);
      g := new SchedGuard(k);
      OneMore(guards, g);
      guards := guards + {g};
    }

    // The new guard takes over; the old one holds nothing any more.
    method Move(g: SchedGuard) returns (h: SchedGuard)
      requires Conserved() && g in guards
      modifies this, g
      ensures Conserved() && pending == old(pending)
      ensures fresh(h) && h.kind == old(g.kind) && g.kind == KINDS && guards == old(guards) + {h}
    {
      h := new SchedGuard(g.kind);
      g.kind := KINDS;
      guards := guards + {h};
      forall j: nat | j < KINDS
        ensures |Holding(guards, j)| == |old(Holding(guards, j))|
      {
        ghost var before := old(Holding(guards, j));
        if j == old(g.kind) {
          assert Holding(guards, j) == before - {g} + {h};
          Swap(before, g, h);
        } else {
          assert Holding(guards, j) == before;
        }
      }
    }

    // A guard that holds a kind ends its task.
    method Destroy(g: SchedGuard)
      requires service.Valid() && Conserved() && g in guards
      modifies this, service
      ensures service.Valid() && Conserved()
      ensures guards == old(guards) - {g} && pending == old(pending)
      ensures if g.kind < 2 then Step(old(service.View()), Event.SchedEnd(g.kind), service.View())
              else service.View() == old(service.View())
    {
      ghost var before := guards;
      forall j: nat | j < KINDS
        ensures |Holding(before - {g}, j)| == |Holding(before, j)| - if j == g.kind then 1 else 0
      {
        assert Holding(before - {g}, j) == if j == g.kind then Holding(before, j) - {g} else Holding(before, j);
      }
      if g.kind < KINDS {
        assert g in Holding(guards, g.kind);
        service.SchedEnd(g.kind);
      }
      guards := guards - {g};
    }

    // The work ends with an event instead of with the guard.  A guard that holds
    // nothing, and only such a one, leaves a callback for no kind.
    method BindToEvent(g: SchedGuard, isNull: bool, release: bool)
      requires Conserved() && g in guards
      modifies this`pending, g
      ensures Conserved() && (isNull ==> g.kind == old(g.kind) && pending == old(pending))
      ensures !isNull ==> g.kind == KINDS && pending == old(pending) + multiset{Pack(old(g.kind), release)}
      ensures Sensible() <==> old(Sensible()) && (isNull || old(g.kind) < KINDS)
    {
      if isNull {
        return;
      }
      var data := Pack(g.kind, release);
      PackingLosesZero(g.kind, release);
      forall j: nat | j < KINDS
        ensures Bound(pending + multiset{data}, j) == Bound(pending, j) + if j == g.kind then 1 else 0
      {
        BoundAdd(pending, data, j);
      }
      pending := pending + multiset{data};
      g.kind := KINDS;
      forall j: nat | j < KINDS
        ensures |Holding(guards, j)| == |old(Holding(guards, j))| - if j == old(g.kind) then 1 else 0
      {
        ghost var before := old(Holding(guards, j));
        assert Holding(guards, j) == if j == old(g.kind) then before - {g} else before;
      }
    }

    // An event is complete: its callback ends what was bound to it.
    method SchedEndOnEventCallback(data: int) returns (release: bool)
      requires service.Valid() && Conserved() && data in pending && PackedKind(data) < KINDS
      modifies this, service
      ensures service.Valid() && Conserved()
      ensures release == (data < 0)
      ensures pending == old(pending) - multiset{data} && guards == old(guards)
      ensures Step(old(service.View()), Event.SchedEnd(PackedKind(data)), service.View())
    {
      var kind := data;
      release := kind < 0;
      if release {
        kind := -kind;
      }
      forall j: nat | j < KINDS
        ensures Bound(pending - multiset{data}, j) == Bound(pending, j) - if j == kind then 1 else 0
        ensures j == kind ==> Bound(pending, j) > 0
      {
        BoundRemove(pending, data, j);
      }
      service.SchedEnd(kind);
      pending := pending - multiset{data};
    }
  }
}
