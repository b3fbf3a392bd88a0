/** A queue that the user created in-order is emulated on queues that run
    commands in any order that their wait lists allow: each command waits for
    the one before it, the blocker of the queue. */
module InOrder {
  import opened Wrappers
  import opened Headers

  type EventId = nat

  datatype Status = Queued | Started | Complete

  // The headers of a launch, in groups of w items.
  datatype Table = Table(headers: seq<int>, w: nat)

  // An event object of the vendor and the command it stands for.
  datatype Entry = Entry(
    named: seq<EventId>,    // what the user asked it to wait for
    waits: seq<EventId>,    // what it does wait for
    status: Status,
    refs: int,
    handles: nat,           // references that the user owns
    work: bool,             // owned by the callback data of an unfinished launch
    table: Option<Table>)   // only of the user event that stands for a launch

  datatype Queue = Queue(
    shallReorder: bool,
    blocker: Option<EventId>,
    events: seq<Entry>,
    issued: seq<EventId>)   // the commands of this queue, oldest first

  datatype Event =
    // A user event, or a command of another queue.
    | Foreign
    | Reorder(waits: seq<EventId>, want: bool)
    | Launch(waits: seq<EventId>, want: bool, threads: nat, w: nat)
    | Start(e: EventId)
    // A slice of a launch has ended and its headers have been read.
    | SliceEnd(e: EventId, read: seq<int>)
    | Finish(e: EventId)
    | Retain(e: EventId)
    | Release(e: EventId)

  function Create(shallReorder: bool): Queue {
    Queue(shallReorder, None, [], [])
  }

  predicate Known(q: Queue, waits: seq<EventId>) {
    forall w :: w in waits ==> w < |q.events|
  }

  // The user's wait list with the blocker at its end.
  function WithBlocker(blocker: Option<EventId>, waits: seq<EventId>): seq<EventId> {
    match blocker
    case None => waits
    case Some(b) => waits + [b]
  }

  function AddRefs(events: seq<Entry>, e: EventId, n: int): seq<Entry>
    requires e < |events|
  {
    events[e := events[e].(refs := events[e].refs + n)]
  }

  // The new event becomes the blocker, and the queue gives up the old one.
  function Swapped(q: Queue, e: EventId): Queue
    requires q.blocker.Some? ==> q.blocker.value < |q.events|
  {
    q.(blocker := Some(e),
       events := if q.blocker.Some? then AddRefs(q.events, q.blocker.value, -1) else q.events)
  }

  function Given(want: bool): nat {
    if want then 1 else 0
  }

  // A command of the vendor with an event for the user, if one is wanted.
  function Command(named: seq<EventId>, waits: seq<EventId>, refs: int, want: bool): Entry {
    Entry(named, waits, Queued, refs + Given(want), Given(want), false, None)
  }

  function Issue(q: Queue, x: Entry): Queue {
    q.(events := q.events + [x], issued := q.issued + [|q.events|])
  }

  function Reordered(q: Queue, waits: seq<EventId>, want: bool): Queue
    requires q.blocker.Some? ==> q.blocker.value < |q.events|
  {
    var all := WithBlocker(q.blocker, waits);
    if q.shallReorder then Swapped(Issue(q, Command(waits, all, 1, want)), |q.events|)
    else Issue(q, Command(waits, all, 0, want))
  }

  // A launch is a user event with its headers; what the user gets is the event
  // of a marker that waits for it.
  function Final(q: Queue, waits: seq<EventId>, threads: nat, w: nat): Entry {
    Entry(waits, WithBlocker(q.blocker, waits), Queued, if q.shallReorder then 2 else 1, 0, true,
          Some(Table(seq(threads, _ => 1), w)))
  }

  function Launched(q: Queue, waits: seq<EventId>, want: bool, threads: nat, w: nat): Queue
    requires q.blocker.Some? ==> q.blocker.value < |q.events|
  {
    var final := |q.events|;
    var q1 := Issue(q, Final(q, waits, threads, w));
    var q2 := q1.(events := q1.events + [Command([final], [final], 0, want)]);
    if q.shallReorder then Swapped(q2, final) else q2
  }

  function Update(q: Queue, e: EventId, x: Entry): Queue
    requires e < |q.events|
  {
    q.(events := q.events[e := x])
  }

  // The callback data goes away with the last slice of a launch.
  function AfterSlice(x: Entry, read: seq<int>): Option<Entry>
    requires x.table.Some? && x.table.value.w > 0
  {
    match Judge(read, x.table.value.w)
    case Abort => None
    case Done => Some(x.(status := Complete, work := false, refs := x.refs - 1,
                         table := Some(Table(read, x.table.value.w))))
    case Again(headers) => Some(x.(table := Some(Table(headers, x.table.value.w))))
  }

  ghost predicate Step(q: Queue, event: Event, q': Queue) {
    match event
    case Foreign => q' == q.(events := q.events + [Entry([], [], Started, 1, 1, false, None)])
    case Reorder(waits, want) =>
      Known(q, waits) && (q.blocker.Some? ==> q.blocker.value < |q.events|) && q' == Reordered(q, waits, want)
    case Launch(waits, want, threads, w) =>
      && w > 0 && Known(q, waits) && (q.blocker.Some? ==> q.blocker.value < |q.events|)
      && q' == Launched(q, waits, want, threads, w)
    case Start(e) =>
      // The vendor starts a command only when all it waits for is complete.
      && e < |q.events| && q.events[e].status == Queued
      && (forall w :: w in q.events[e].waits ==> w < |q.events| && q.events[w].status == Complete)
      && q' == Update(q, e, q.events[e].(status := Started))
    case SliceEnd(e, read) =>
      && e < |q.events| && q.events[e].status == Started && q.events[e].work
      && q.events[e].table.Some? && q.events[e].table.value.w > 0
      && |read| == |q.events[e].table.value.headers|
      && AfterSlice(q.events[e], read).Some?
      && q' == Update(q, e, AfterSlice(q.events[e], read).value)
    case Finish(e) =>
      && e < |q.events| && q.events[e].status == Started && !q.events[e].work
      && q' == Update(q, e, q.events[e].(status := Complete))
    case Retain(e) =>
      && e < |q.events| && q.events[e].handles > 0
      && q' == Update(q, e, q.events[e].(handles := q.events[e].handles + 1, refs := q.events[e].refs + 1))
    case Release(e) =>
      && e < |q.events| && q.events[e].handles > 0
      && q' == Update(q, e, q.events[e].(handles := q.events[e].handles - 1, refs := q.events[e].refs - 1))
  }

  ghost predicate Run(q: Queue, events: seq<Event>, q': Queue)
    decreases |events|
  {
    if events == [] then q' == q
    else exists mid :: Step(q, events[0], mid) && Run(mid, events[1..], q')
  }

  // ------------------------------------------------------------- invariants

  // Who owns references to an event.
  function Owned(q: Queue, e: EventId): int
    requires e < |q.events|
  {
    q.events[e].handles + (if q.blocker == Some(e) then 1 else 0) + (if q.events[e].work then 1 else 0)
  }

  // A launch is complete only if the headers it left are all 0.
  predicate TableOk(x: Entry) {
    match x.table
    case None => !x.work
    case Some(t) =>
      t.w > 0 && (x.work <==> x.status != Complete) && (x.status == Complete ==> !Unfinished(t.headers))
  }

  predicate EntryOk(q: Queue, e: EventId)
    requires e < |q.events|
  {
    && q.events[e].refs == Owned(q, e) && TableOk(q.events[e])
    && (forall w :: w in q.events[e].waits ==>
         w < |q.events| && (q.events[e].status != Queued ==> q.events[w].status == Complete))
  }

  // What the i-th command waits for: what the user named, and on an in-order
  // queue the command before it.
  predicate WaitsRight(q: Queue, i: nat)
    requires i < |q.issued|
  {
    && q.issued[i] < |q.events|
    && q.events[q.issued[i]].waits ==
       q.events[q.issued[i]].named + if q.shallReorder && i > 0 then [q.issued[i - 1]] else []
  }

  // The last command is the blocker.
  predicate BlockerRight(q: Queue) {
    && q.blocker == (if q.shallReorder && q.issued != [] then Some(q.issued[|q.issued| - 1]) else None)
    && (q.blocker.Some? ==> q.blocker.value < |q.events|)
  }

  predicate Chained(q: Queue) {
    BlockerRight(q) && forall i: nat :: i < |q.issued| ==> WaitsRight(q, i)
  }

  predicate Good(q: Queue) {
    Chained(q) && forall e: nat :: e < |q.events| ==> EntryOk(q, e)
  }

  // No command was added or given up, and nobody waits for anything else.
  predicate SameChain(q: Queue, q': Queue) {
    && q'.shallReorder == q.shallReorder && q'.issued == q.issued && q'.blocker == q.blocker
    && SameWaits(q, q')
  }

  predicate SameWaits(q: Queue, q': Queue) {
    && |q.events| <= |q'.events|
    && forall e: nat :: e < |q.events| ==>
      q'.events[e].waits == q.events[e].waits && q'.events[e].named == q.events[e].named
  }

  // One command was added, which waits for the blocker and becomes the blocker.
  predicate LongerChain(q: Queue, waits: seq<EventId>, q': Queue) {
    && q'.shallReorder == q.shallReorder && q'.issued == q.issued + [|q.events|]
    && SameWaits(q, q') && |q.events| < |q'.events|
    && q'.events[|q.events|].waits == WithBlocker(q.blocker, waits) && q'.events[|q.events|].named == waits
    && q'.blocker == if q.shallReorder then Some(|q.events|) else q.blocker
  }

  lemma StepLengthens(q: Queue, event: Event, q': Queue)
    requires Step(q, event, q')
    ensures event.Reorder? || event.Launch? ==> LongerChain(q, event.waits, q')
    ensures !event.Reorder? && !event.Launch? ==> SameChain(q, q')
  {
  }

  lemma ChainStays(q: Queue, q': Queue)
    requires Chained(q) && SameChain(q, q')
    ensures Chained(q')
  {
    forall i: nat | i < |q'.issued| ensures WaitsRight(q', i) { assert WaitsRight(q, i); }
  }

  lemma ChainGrows(q: Queue, waits: seq<EventId>, q': Queue)
    requires Chained(q) && LongerChain(q, waits, q')
    ensures Chained(q')
  {
    forall i: nat | i < |q'.issued| ensures WaitsRight(q', i) {
      if i < |q.issued| { assert WaitsRight(q, i); }
    }
  }

  lemma ChainKept(q: Queue, event: Event, q': Queue)
    requires Good(q) && Step(q, event, q')
    ensures Chained(q')
  {
    StepLengthens(q, event, q');
    if event.Reorder? || event.Launch? {
      ChainGrows(q, event.waits, q');
    } else {
      ChainStays(q, q');
    }
  }

  lemma EntryKept(q: Queue, event: Event, q': Queue, e: EventId)
    requires Good(q) && Step(q, event, q') && e < |q'.events|
    ensures EntryOk(q', e)
  {
    if event.Reorder? {
      ReorderKeeps(q, event, q', e);
    } else if event.Launch? {
      LaunchKeeps(q, event, q', e);
    } else if event.Foreign? {
      if e < |q.events| { assert EntryOk(q, e); }
    } else {
      assert EntryOk(q, e) && EntryOk(q, event.e);
      UpdateKeeps(q, event.e, q'.events[event.e], e);
    }
  }

  // One entry changes: nobody's waiting is disturbed, and who owns it agrees.
  lemma UpdateKeeps(q: Queue, changed: EventId, x: Entry, e: EventId)
    requires changed < |q.events| && e < |q.events| && EntryOk(q, e) && EntryOk(q, changed)
    requires x.waits == q.events[changed].waits && (q.events[changed].status == Complete ==> x.status == Complete)
    requires x.status != Queued ==>
      forall w :: w in x.waits ==> w < |q.events| && q.events[w].status == Complete
    requires TableOk(x) && x.refs - x.handles - (if x.work then 1 else 0) ==
      q.events[changed].refs - q.events[changed].handles - (if q.events[changed].work then 1 else 0)
    ensures EntryOk(Update(q, changed, x), e)
  {
  }

  lemma ReorderKeeps(q: Queue, event: Event, q': Queue, e: EventId)
    requires Good(q) && Step(q, event, q') && e < |q'.events| && event.Reorder?
    ensures EntryOk(q', e)
  {
    if e < |q.events| { assert EntryOk(q, e); }
  }

  lemma LaunchKeeps(q: Queue, event: Event, q': Queue, e: EventId)
    requires Good(q) && Step(q, event, q') && e < |q'.events| && event.Launch?
    ensures EntryOk(q', e)
  {
    if e < |q.events| { assert EntryOk(q, e); }
  }

  lemma StepKeeps(q: Queue, event: Event, q': Queue)
    requires Good(q) && Step(q, event, q')
    ensures Good(q') && q'.shallReorder == q.shallReorder
  {
    ChainKept(q, event, q');
    StepLengthens(q, event, q');
    forall e: nat | e < |q'.events|
      ensures EntryOk(q', e)
    {
      EntryKept(q, event, q', e);
    }
  }

  lemma {:induction false} RunKeeps(q: Queue, events: seq<Event>, q': Queue)
    requires Good(q) && Run(q, events, q')
    ensures Good(q') && q'.shallReorder == q.shallReorder
    decreases |events|
  {
    if events != [] {
      var mid :| Step(q, events[0], mid) && Run(mid, events[1..], q');
      StepKeeps(q, events[0], mid);
      RunKeeps(mid, events[1..], q');
    }
  }

  // ---------------------------------------------------------------- results

  lemma {:induction false} EarlierComplete(q: Queue, i: nat, j: nat)
    requires Good(q) && q.shallReorder && i < j < |q.issued|
    requires q.issued[i] < |q.events| && q.issued[j] < |q.events|
    requires q.events[q.issued[j]].status != Queued
    ensures q.events[q.issued[i]].status == Complete
    decreases j
  {
    assert EntryOk(q, q.issued[j]) && WaitsRight(q, j) && WaitsRight(q, j - 1);
    assert q.issued[j - 1] in q.events[q.issued[j]].waits;
    if i < j - 1 {
      EarlierComplete(q, i, j - 1);
    }
  }

  // On a queue created in-order no command has started unless every command
  // issued before it is complete; and a launch is complete only if the headers
  // that its last slice left are all 0.
  lemma InOrderExecution(events: seq<Event>, q: Queue, i: nat, j: nat)
    requires Run(Create(true), events, q) && i < j < |q.issued|
    ensures q.issued[i] < |q.events| && q.issued[j] < |q.events|
    ensures q.events[q.issued[j]].status != Queued ==>
      var x := q.events[q.issued[i]];
      x.status == Complete && (x.table.Some? ==> !Unfinished(x.table.value.headers))
  {
    RunKeeps(Create(true), events, q);
    assert WaitsRight(q, i) && WaitsRight(q, j);
    if q.events[q.issued[j]].status != Queued {
      EarlierComplete(q, i, j);
      assert EntryOk(q, q.issued[i]);
    }
  }

  // The event that the user got for a launch is complete only after the last
  // slice: whatever waits for a launch, on any queue, finds its headers all 0.
  lemma WaitingForALaunch(shallReorder: bool, events: seq<Event>, q: Queue, e: EventId, launch: EventId)
    requires Run(Create(shallReorder), events, q) && e < |q.events|
    requires launch in q.events[e].waits && q.events[e].status != Queued
    ensures launch < |q.events|
    ensures q.events[launch].table.Some? ==> !Unfinished(q.events[launch].table.value.headers)
  {
    RunKeeps(Create(shallReorder), events, q);
    assert EntryOk(q, e);
    assert EntryOk(q, launch);
  }

  // On any queue the reference count of an event is the handles of the user,
  // one if the event is the blocker and one while a launch is unfinished; so
  // the blocker that is put into wait lists is never a dead event.
  lemma ReferencesAreOwned(shallReorder: bool, events: seq<Event>, q: Queue, e: EventId)
    requires Run(Create(shallReorder), events, q) && e < |q.events|
    ensures q.events[e].refs == Owned(q, e) >= 0
    ensures q.blocker == Some(e) ==> q.events[e].refs > 0
  {
    RunKeeps(Create(shallReorder), events, q);
    assert EntryOk(q, e);
  }

  // The emulation costs nothing else: in every run each command waits exactly
  // for what the user named and, on an in-order queue, the command before it.
  lemma OnlyNecessaryWaits(shallReorder: bool, events: seq<Event>, q: Queue, i: nat)
    requires Run(Create(shallReorder), events, q) && i < |q.issued|
    ensures q.issued[i] < |q.events|
    ensures q.events[q.issued[i]].waits ==
      q.events[q.issued[i]].named + if shallReorder && i > 0 then [q.issued[i - 1]] else []
  {
    RunKeeps(Create(shallReorder), events, q);
    assert WaitsRight(q, i);
  }

  // ------------------------------------------------ from the call to its event

  // What a step leaves alone: which events there are, what they wait for, and
  // whether they stand for a launch of so many items.
  predicate Extends(q: Queue, q': Queue) {
    && SameWaits(q, q')
    && forall e: nat :: e < |q.events| ==> SameLaunch(q.events[e], q'.events[e])
  }

  predicate SameLaunch(x: Entry, y: Entry) {
    && (x.table.Some? <==> y.table.Some?)
    && (x.table.Some? ==> |x.table.value.headers| == |y.table.value.headers| && x.table.value.w == y.table.value.w)
  }

  lemma StepExtends(q: Queue, event: Event, q': Queue)
    requires Step(q, event, q')
    ensures Extends(q, q')
  {
    StepLengthens(q, event, q');
  }

  lemma {:induction false} RunExtends(q: Queue, events: seq<Event>, q': Queue)
    requires Run(q, events, q')
    ensures Extends(q, q')
    decreases |events|
  {
    if events != [] {
      var mid :| Step(q, events[0], mid) && Run(mid, events[1..], q');
      StepExtends(q, events[0], mid);
      RunExtends(mid, events[1..], q');
    }
  }

  // A command is not started before all the events that the user named for it
  // are complete; the user owns one reference to its event, if one was wanted.
  lemma NamedComeFirst(shallReorder: bool, before: seq<Event>, q: Queue, waits: seq<EventId>, want: bool, q1: Queue,
                       after: seq<Event>, q': Queue, w: EventId)
    requires Run(Create(shallReorder), before, q) && Step(q, Reorder(waits, want), q1) && Run(q1, after, q')
    requires w in waits
    ensures w < |q.events| < |q'.events|
    ensures |q.events| < |q1.events| && q1.events[|q.events|].handles == (if want then 1 else 0)
    ensures q'.events[|q.events|].status != Queued ==> q'.events[w].status == Complete
  {
    RunKeeps(Create(shallReorder), before, q);
    StepKeeps(q, Reorder(waits, want), q1);
    RunKeeps(q1, after, q');
    StepLengthens(q, Reorder(waits, want), q1);
    RunExtends(q1, after, q');
    assert EntryOk(q', |q.events|) && w in q1.events[|q.events|].waits;
  }

  // Nor is a launch.  The event that the user gets for a launch is that of the
  // command after it: until the launch is complete, which means that a slice has
  // left all headers 0, the event is neither started nor complete.
  lemma UserWaitsForLaunch(shallReorder: bool, before: seq<Event>, q: Queue, waits: seq<EventId>, want: bool,
                           threads: nat, w: nat, q1: Queue, after: seq<Event>, q': Queue)
    requires Run(Create(shallReorder), before, q) && Step(q, Launch(waits, want, threads, w), q1)
    requires Run(q1, after, q')
    ensures |q.events| + 1 < |q'.events|
    ensures |q.events| + 1 < |q1.events| && q1.events[|q.events| + 1].handles == (if want then 1 else 0)
    ensures var start := q1.events[|q.events|].table;
            start.Some? && start.value.w == w && start.value.headers == seq(threads, _ => 1)
    ensures q'.events[|q.events| + 1].waits == [|q.events|]
    ensures var launch, given := q'.events[|q.events|], q'.events[|q.events| + 1];
            && (launch.status != Queued ==>
                  forall e :: e in waits ==> e < |q'.events| && q'.events[e].status == Complete)
            && (given.status != Queued ==> launch.status == Complete)
            && (launch.status == Complete ==>
                  launch.table.Some? && |launch.table.value.headers| == threads
                  && forall i | 0 <= i < threads :: launch.table.value.headers[i] == 0)
  {
    var e := Launch(waits, want, threads, w);
    RunKeeps(Create(shallReorder), before, q);
    StepKeeps(q, e, q1);
    RunKeeps(q1, after, q');
    StepLengthens(q, e, q1);
    RunExtends(q1, after, q');
    var n := |q.events|;
    assert EntryOk(q', n) && EntryOk(q', n + 1);
    assert n in q1.events[n + 1].waits;
    assert forall x :: x in waits ==> x in q1.events[n].waits;
  }
}
