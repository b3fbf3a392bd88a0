/** What the runtime does to a queue when the user enqueues something. */
module Reorder {
  import opened Wrappers
  import opened InOrder
  import Headers

  class QueueInfo {
    const shallReorder: bool
    var taskBlocker: Option<EventId>
    // The vendor's event objects, and the commands of this queue.
    var events: seq<Entry>
    ghost var issued: seq<EventId>

    ghost function View(): Queue
      reads this
    {
      Queue(shallReorder, taskBlocker, events, issued)
    }

    constructor (shallReorder: bool)
      ensures View() == Create(shallReorder)
    {
      this.shallReorder, taskBlocker, events, issued := shallReorder, None, [], [];
    }

    // ----------------------------------------------------- the vendor's calls

    // The command has an event object only if the caller asks for one.
    method VendorEnqueue(named: seq<EventId>, waits: seq<EventId>, want: bool) returns (e: EventId)
      modifies `events
      ensures e == old(|events|)
      ensures events == old(events) + [Entry(named, waits, Queued, Given(want), 0, false, None)]
    {
      e := |events|;
      events := events + [Entry(named, waits, Queued, Given(want), 0, false, None)];
    }

    method RetainEvent(e: EventId)
      requires e < |events|
      modifies `events
      ensures events == AddRefs(old(events), e, 1)
    {
      events := AddRefs(events, e, 1);
    }

    method ReleaseEvent(e: EventId)
      requires e < |events|
      modifies `events
      ensures events == AddRefs(old(events), e, -1)
    {
      events := AddRefs(events, e, -1);
    }

    // One reference now belongs to the user.
    method HandOver(e: EventId)
      requires e < |events|
      modifies `events
      ensures events == old(events)[e := old(events)[e].(handles := old(events)[e].handles + 1)]
    {
      events := events[e := events[e].(handles := events[e].handles + 1)];
    }

    // The guard of the new event swaps with the blocker and then goes out of
    // scope, releasing what it got.
    method SetBlocker(e: EventId)
      requires taskBlocker.Some? ==> taskBlocker.value < |events|
      modifies `events, `taskBlocker
      ensures View() == Swapped(old(View()), e)
    {
      var guard := taskBlocker;
      taskBlocker := Some(e);
      if guard.Some? {
        ReleaseEvent(guard.value);
      }
    }

    // ---------------------------------------------------------- the runtime

    // The user's wait list, and the blocker if there is one.
    method AppendBlocker(waitingList: seq<EventId>) returns (waits: seq<EventId>)
      ensures waits == WithBlocker(taskBlocker, waitingList)
    {
      waits := waitingList;
      if taskBlocker.Some? {
        waits := waits + [taskBlocker.value];
      }
    }

    // The API call may fail; then nothing has changed.
    method ReorderCore(waitingList: seq<EventId>, want: bool, fails: bool)
      returns (ok: bool, event: Option<EventId>)
      requires Good(View()) && Known(View(), waitingList)
      modifies `events, `issued, `taskBlocker
      ensures Good(View()) && ok == !fails
      ensures View() == if ok then Reordered(old(View()), waitingList, want) else old(View())
      ensures event == if ok && want then Some(old(|events|)) else None
    {
      ghost var q := View();
      var waits := AppendBlocker(waitingList);
      ok, event := !fails, None;
      if fails {
        return;
      }
      if !shallReorder {
        var e := VendorEnqueue(waitingList, waits, want);
        if want {
          HandOver(e);
          event := Some(e);
        }
        issued := issued + [e];
      } else {
        var altEvent := VendorEnqueue(waitingList, waits, true);
        if want {
          RetainEvent(altEvent);
          HandOver(altEvent);
          event := Some(altEvent);
        }
        issued := issued + [altEvent];
        SetBlocker(altEvent);
      }
      StepKeeps(q, Event.Reorder(waitingList, want), View());
    }

    // The user event of a launch is completed by the callback of the last
    // slice, so it has one reference for the callback data and one that
    // becomes the blocker, or is given up at once.  The user gets the event of
    // a marker that waits for it.
    method EnqueueKernel(waitingList: seq<EventId>, want: bool, threads: nat, w: nat)
      returns (event: Option<EventId>)
      requires Good(View()) && Known(View(), waitingList) && w > 0
      modifies `events, `issued, `taskBlocker
      ensures Good(View()) && View() == Launched(old(View()), waitingList, want, threads, w)
      ensures event == if want then Some(old(|events|) + 1) else None
    {
      ghost var q := View();
      var waits := AppendBlocker(waitingList);
      var final := CreateUserEvent(waitingList, waits, threads, w);
      RetainEvent(final);
      var marker := VendorEnqueue([final], [final], want);
      event := None;
      if want {
        HandOver(marker);
        event := Some(marker);
      }
      issued := issued + [final];
      if shallReorder {
        SetBlocker(final);
      } else {
        ReleaseEvent(final);
      }
      StepKeeps(q, Event.Launch(waitingList, want, threads, w), View());
    }

    method CreateUserEvent(named: seq<EventId>, waits: seq<EventId>, threads: nat, w: nat) returns (e: EventId)
      modifies `events
      ensures e == old(|events|)
      ensures events == old(events) + [Entry(named, waits, Queued, 1, 0, true, Some(Table(seq(threads, _ => 1), w)))]
    {
      e := |events|;
      var headers := seq(threads, _ => 1);
      events := events + [Entry(named, waits, Queued, 1, 0, true, Some(Table(headers, w)))];
    }

    // The callback at the end of a slice: nothing happens to the queue when the
    // next slice starts, and the last slice completes the launch and gives up
    // the reference of the callback data.
    method ResumeOrFinish(e: EventId, read: seq<int>) returns (aborted: bool)
      requires Good(View()) && e < |events| && events[e].status == Started && events[e].work
      requires events[e].table.Some? && events[e].table.value.w > 0
      requires |read| == |events[e].table.value.headers|
      modifies `events
      ensures Good(View())
      ensures aborted <==> Headers.AnyClash(read, old(events)[e].table.value.w)
      ensures aborted ==> View() == old(View())
      ensures !aborted ==> Step(old(View()), Event.SliceEnd(e, read), View())
    {
      ghost var q := View();
      var w := events[e].table.value.w;
      match Headers.Judge(read, w) {
        case Abort =>
          return true;
        case Done =>
          events := events[e := events[e].(status := Complete, work := false, table := Some(Table(read, w)))];
          ReleaseEvent(e);
        case Again(headers) =>
          events := events[e := events[e].(table := Some(Table(headers, w)))];
      }
      StepKeeps(q, Event.SliceEnd(e, read), View());
      aborted := false;
    }
  }
}
