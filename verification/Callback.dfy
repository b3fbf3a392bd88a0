/** The callback at the end of a slice: look at the headers that were read
    back, and finish or start the next slice. */
module Callback {
  import opened Headers

  datatype Status = Running | Complete | Aborted

  class CallbackData {
    // The headers on the host and those on the device.
    const hostHeader: array<int>
    const deviceHeader: array<int>
    const workGrpSize: nat
    // The user event that stands for the whole launch.
    var final: Status
    // Slices enqueued so far.
    var runs: nat

    ghost predicate Valid()
      reads this, hostHeader, deviceHeader
    {
      && hostHeader != deviceHeader && hostHeader.Length == deviceHeader.Length && workGrpSize > 0
      && (final == Running ==> hostHeader[..] == deviceHeader[..])
    }

    // Every item starts with header 1, on both sides.
    constructor (threads: nat, workGrpSize: nat)
      requires workGrpSize > 0
      ensures Valid() && final == Running && runs == 1
      ensures this.workGrpSize == workGrpSize && fresh(hostHeader) && fresh(deviceHeader)
      ensures hostHeader[..] == seq(threads, _ => 1)
    {
      hostHeader, deviceHeader := new int[threads](_ => 1), new int[threads](_ => 1);
      this.workGrpSize, final, runs := workGrpSize, Running, 1;
    }

    // A slice leaves new headers on the device, and the host reads them back.
    method ReadBack(headers: seq<int>)
      requires Valid() && final == Running && |headers| == hostHeader.Length
      modifies hostHeader, deviceHeader
      ensures Valid() && hostHeader[..] == headers
    {
      forall i | 0 <= i < |headers| { deviceHeader[i] := headers[i]; }
      forall i | 0 <= i < |headers| { hostHeader[i] := headers[i]; }
    }

    // The launch is complete exactly if all headers are 0.  Otherwise the next
    // slice starts, on a device whose headers are those of the host even if
    // nothing was written back.
    method ResumeOrFinish()
      requires Valid() && final == Running
      modifies this, hostHeader, deviceHeader
      ensures Valid()
      ensures final == Aborted <==> AnyClash(old(hostHeader[..]), workGrpSize)
      ensures final == Complete <==> !AnyClash(old(hostHeader[..]), workGrpSize) && !Unfinished(old(hostHeader[..]))
      ensures final == Running ==> deviceHeader[..] == ReleaseAll(old(hostHeader[..]), workGrpSize)
      ensures Judge(old(hostHeader[..]), workGrpSize) ==
        match final case Aborted => Abort case Complete => Done case Running => Again(deviceHeader[..])
      ensures runs == old(runs) + if final == Running then 1 else 0
    {
      ghost var headers := hostHeader[..];
      var progress, ok := UpdateHeader(hostHeader, workGrpSize);
      if !ok {
        final := Aborted;
        return;
      }
      if progress == 0 {
        final := Complete;
        return;
      }
      if progress < 0 {
        WriteBack();
        BlockedIsUnfinished(headers, workGrpSize);
      } else {
        UnchangedUnlessBlocked(headers, workGrpSize);
      }
      runs := runs + 1;
    }

    method WriteBack()
      requires hostHeader != deviceHeader && hostHeader.Length == deviceHeader.Length
      modifies deviceHeader
      ensures deviceHeader[..] == hostHeader[..]
    {
      forall i | 0 <= i < hostHeader.Length { deviceHeader[i] := hostHeader[i]; }
    }
  }
}
