/** The per-item headers and the host's summary of them between slices.
    0 = finished, 1 = not started, n > 1 = resume at label n,
    -n = blocked by the barrier before label n. */
module Headers {
  import Toolkit

  // Some items of the group are blocked by different barriers.
  predicate Clash(h: seq<int>) {
    exists i, j :: 0 <= i < |h| && 0 <= j < |h| && h[i] < 0 && h[j] < 0 && h[i] != h[j]
  }

  // The whole group is blocked by one barrier.
  predicate Blocked(h: seq<int>) {
    |h| > 0 && forall i | 0 <= i < |h| :: h[i] < 0 && h[i] == h[0]
  }

  // The group's headers after the host has let a blocked group pass.
  function Released(h: seq<int>): (r: seq<int>)
    ensures |r| == |h|
  {
    if Blocked(h) then seq(|h|, i requires 0 <= i < |h| => -h[i]) else h
  }

  predicate Unfinished(h: seq<int>) {
    exists i :: 0 <= i < |h| && h[i] != 0
  }

  // The same for a whole header table, cut into groups of `w` items.

  predicate AnyClash(h: seq<int>, w: nat)
    requires w > 0
  {
    if |h| < w then h != [] else Clash(h[..w]) || AnyClash(h[w..], w)
  }

  predicate AnyBlocked(h: seq<int>, w: nat)
    requires w > 0
  {
    |h| >= w && (Blocked(h[..w]) || AnyBlocked(h[w..], w))
  }

  function ReleaseAll(h: seq<int>, w: nat): (r: seq<int>)
    requires w > 0
    ensures |r| == |h|
  {
    if |h| < w then h else Released(h[..w]) + ReleaseAll(h[w..], w)
  }

  // 0 if every item has finished, -1 if a blocked group was let pass, else 1.
  function Progress(h: seq<int>, w: nat): int
    requires w > 0
  {
    if AnyBlocked(h, w) then -1 else if Unfinished(h) then 1 else 0
  }

  lemma ClashWitness(h: seq<int>, first: nat, rear: nat, at: nat, tag: int)
    requires first <= at < rear <= |h|
    requires h[at] < 0 && tag != h[at] && tag < 0
    requires exists i :: first <= i < at && h[i] == tag
    ensures Clash(h[first..rear])
  {
    var i :| first <= i < at && h[i] == tag;
    var group := h[first..rear];
    assert group[i - first] == tag && group[at - first] == h[at];
  }

  lemma GroupVerdict(h: seq<int>, first: nat, rear: nat, tag: int, tagCount: nat)
    requires first < rear <= |h|
    requires forall i | first <= i < rear && h[i] < 0 :: h[i] == tag
    requires tagCount == rear - first <==> forall i | first <= i < rear :: h[i] < 0
    ensures var group := h[first..rear];
            !Clash(group) && (Blocked(group) <==> tagCount == rear - first) &&
            (Blocked(group) ==> forall i | 0 <= i < |group| :: group[i] == tag)
  {
    var group := h[first..rear];
    assert forall i | first <= i < rear :: group[i - first] == h[i];
  }

  // What the host is to find in a table, and the table that is to replace it.
  datatype Outcome = Outcome(table: seq<int>, clash: bool, blocked: bool, busy: bool)

  function Summary(h: seq<int>, w: nat): Outcome
    requires w > 0
  {
    Outcome(ReleaseAll(h, w), AnyClash(h, w), AnyBlocked(h, w), Unfinished(h))
  }

  // A group in front of a table adds its own part to the summary of the rest.
  function AddGroup(group: seq<int>, o: Outcome): Outcome {
    Outcome(Released(group) + o.table, Clash(group) || o.clash, Blocked(group) || o.blocked,
            Unfinished(group) || o.busy)
  }

  lemma SummaryStep(h: seq<int>, w: nat)
    requires w > 0 && |h| >= w
    ensures Summary(h, w) == AddGroup(h[..w], Summary(h[w..], w))
  {
    var group, rest := h[..w], h[w..];
    assert h == group + rest;
    forall i | 0 <= i < |rest| ensures rest[i] == h[w + i] {}
  }

  // What is still to be found when the groups before `rest` gave `progress`.
  function Completed(out: seq<int>, progress: int, o: Outcome): Outcome {
    Outcome(out + o.table, o.clash, progress == -1 || o.blocked, progress != 0 || o.busy)
  }

  // What a group makes of the progress so far.
  function Advance(progress: int, group: seq<int>): int {
    if Blocked(group) then -1 else if Unfinished(group) && progress == 0 then 1 else progress
  }

  lemma OneGroup(out: seq<int>, progress: int, group: seq<int>, o: Outcome)
    requires progress in {-1, 0, 1} && !Clash(group)
    ensures Completed(out, progress, AddGroup(group, o)) ==
            Completed(out + Released(group), Advance(progress, group), o)
  {
    assert Blocked(group) ==> group[0] != 0;
    assert out + (Released(group) + o.table) == (out + Released(group)) + o.table;
  }

  // The table after the group in front of `rest` has been dealt with.
  lemma Splice(out: seq<int>, group: seq<int>, rest: seq<int>, tag: int, h: seq<int>)
    requires group <= rest && group != [] && |h| == |out| + |rest|
    requires Blocked(group) ==> forall i | 0 <= i < |group| :: group[i] == tag
    requires forall i | 0 <= i < |h| ::
      h[i] == if i < |out| then out[i]
              else if i < |out| + |group| && Blocked(group) then -tag else rest[i - |out|]
    ensures h == (out + Released(group)) + rest[|group|..]
  {
  }

  // Traverse the items of one group: does any of them still have work, and does
  // one barrier block them all?
  method Inspect(h: array<int>, first: nat, rear: nat) returns (busy: bool, tag: int, tagCount: nat, ok: bool)
    requires first < rear <= h.Length
    ensures ok <==> !Clash(h[first..rear])
    ensures ok ==> (busy <==> Unfinished(h[first..rear]))
    ensures ok ==> (tagCount == rear - first <==> Blocked(h[first..rear]))
    ensures ok && Blocked(h[first..rear]) ==> forall i | first <= i < rear :: h[i] == tag
  {
    ghost var was := h[..];
    busy, tag, tagCount := false, 0, 0;
    var front := first;
    while front < rear
      invariant first <= front <= rear
      invariant busy <==> exists i :: first <= i < front && h[i] != 0
      invariant tag <= 0 && tagCount <= front - first
      invariant tagCount == 0 <==> tag == 0
      invariant tag != 0 ==> exists i :: first <= i < front && h[i] == tag
      invariant forall i | first <= i < front && h[i] < 0 :: h[i] == tag
      invariant tagCount == front - first <==> forall i | first <= i < front :: h[i] < 0
    {
      if h[front] != 0 {
        busy := true;
        if h[front] < 0 {
          if tag == 0 {
            tag := h[front];
          } else if tag != h[front] {
            ClashWitness(was, first, rear, front, tag);
            assert was[first..rear] == h[first..rear];
            return busy, tag, tagCount, false;
          }
          tagCount := tagCount + 1;
        }
      }
      front := front + 1;
    }
    GroupVerdict(was, first, rear, tag, tagCount);
    assert was[first..rear] == h[first..rear];
    ok := true;
  }

  // The table has been dealt with up to `rest`.
  ghost predicate SoFar(h: seq<int>, w: nat, out: seq<int>, progress: int, rest: seq<int>)
    requires w > 0
  {
    progress in {-1, 0, 1} && Summary(h, w) == Completed(out, progress, Summary(rest, w))
  }

  lemma Step(h: seq<int>, w: nat, out: seq<int>, progress: int, rest: seq<int>)
    requires 0 < w <= |rest| && SoFar(h, w, out, progress, rest) && !Clash(rest[..w])
    ensures SoFar(h, w, out + Released(rest[..w]), Advance(progress, rest[..w]), rest[w..])
  {
    SummaryStep(rest, w);
    OneGroup(out, progress, rest[..w], Summary(rest[w..], w));
  }

  lemma Aborts(h: seq<int>, w: nat, out: seq<int>, progress: int, rest: seq<int>)
    requires w > 0 && SoFar(h, w, out, progress, rest)
    requires if |rest| < w then rest != [] else Clash(rest[..w])
    ensures AnyClash(h, w)
  {
    assert Summary(h, w).clash;
  }

  lemma Ends(h: seq<int>, w: nat, out: seq<int>, progress: int)
    requires w > 0 && SoFar(h, w, out, progress, [])
    ensures !AnyClash(h, w) && ReleaseAll(h, w) == out && Progress(h, w) == progress
  {
    assert Summary(h, w).table == out + [];
  }

  // Summarise one group and let it pass if it is blocked.
  method UpdateGroup(h: array<int>, first: nat, rear: nat, progress: int,
                     ghost out: seq<int>, ghost group: seq<int>, ghost rest: seq<int>)
    returns (progress': int, ok: bool)
    requires first == |out| && rear == first + |group| && group != []
    requires h[..] == out + group + rest
    modifies h
    ensures ok <==> !Clash(group)
    ensures ok ==> h[..] == out + Released(group) + rest && progress' == Advance(progress, group)
  {
    assert h[first..rear] == group;
    progress' := progress;
    var busy, tag, tagCount, calm := Inspect(h, first, rear);
    if !calm {
      return progress', false;
    }
    if busy && progress' == 0 { progress' := 1; }
    if tagCount == rear - first {
      LetPass(h, first, rear, tag);
      progress' := -1;
      forall i | 0 <= i < |group| ensures group[i] == tag { assert group[i] == old(h[first + i]); }
    }
    Splice(out, group, group + rest, tag, h[..]);
    ok := true;
  }

  // One turn of the loop over the groups; the table is `all` up to here.
  method NextGroup(h: array<int>, w: nat, first: nat, progress: int,
                   ghost all: seq<int>, ghost out: seq<int>, ghost rest: seq<int>)
    returns (progress': int, ok: bool, ghost out': seq<int>)
    requires w > 0 && first == |out| < h.Length && h[..] == out + rest
    requires SoFar(all, w, out, progress, rest)
    modifies h
    ensures !ok ==> AnyClash(all, w)
    ensures ok ==> w <= |rest| && |out'| == first + w && h[..] == out' + rest[w..]
    ensures ok ==> SoFar(all, w, out', progress', rest[w..])
  {
    var rear := first + w;
    progress', ok, out' := progress, false, out;
    if rear > h.Length {
      Aborts(all, w, out, progress, rest);
      return;
    }
    ghost var group := rest[..w];
    assert out + group + rest[w..] == out + rest;
    progress', ok := UpdateGroup(h, first, rear, progress, out, group, rest[w..]);
    if ok {
      Step(all, w, out, progress, rest);
      out' := out + Released(group);
    } else {
      Aborts(all, w, out, progress, rest);
    }
  }

  /** Rewrites the header table in place.  `ok` is false where the program
      aborts: the table is not made of whole groups, or two items of a group
      wait at different barriers. */
  method UpdateHeader(h: array<int>, w: nat) returns (progress: int, ok: bool)
    requires w > 0
    modifies h
    ensures ok <==> !AnyClash(old(h[..]), w)
    ensures ok ==> h[..] == ReleaseAll(old(h[..]), w) && progress == Progress(old(h[..]), w)
  {
    ghost var all, out, rest := h[..], [], h[..];
    progress, ok := 0, true;
    var first := 0;
    while first != h.Length
      invariant ok && |out| == first <= h.Length
      invariant h[..] == out + rest && SoFar(all, w, out, progress, rest)
    {
      ghost var out';
      progress, ok, out' := NextGroup(h, w, first, progress, all, out, rest);
      if !ok {
        return;
      }
      out, rest, first := out', rest[w..], first + w;
    }
    assert rest == [];
    Ends(all, w, out, progress);
  }

  method LetPass(h: array<int>, first: nat, rear: nat, tag: int)
    requires first < rear <= h.Length
    modifies h
    ensures forall i | first <= i < rear :: h[i] == -tag
    ensures forall i | 0 <= i < first || rear <= i < h.Length :: h[i] == old(h[i])
  {
    var front := first;
    while front < rear
      invariant first <= front <= rear
      invariant forall i | first <= i < front :: h[i] == -tag
      invariant forall i | 0 <= i < first || rear <= i < h.Length :: h[i] == old(h[i])
    {
      h[front] := -tag;
      front := front + 1;
    }
  }

  // ------------------------------------------------------- group by group

  function Flat(hs: seq<seq<int>>): seq<int> {
    if hs == [] then [] else hs[0] + Flat(hs[1..])
  }

  function ReleasedEach(hs: seq<seq<int>>): seq<seq<int>> {
    seq(|hs|, g requires 0 <= g < |hs| => Released(hs[g]))
  }

  // The table of a grid is the concatenation of its groups' headers, so the
  // pass over the table treats every group by itself.
  lemma {:induction false} FlatSummary(hs: seq<seq<int>>, w: nat)
    requires w > 0 && forall g | 0 <= g < |hs| :: |hs[g]| == w
    ensures ReleaseAll(Flat(hs), w) == Flat(ReleasedEach(hs))
    ensures AnyClash(Flat(hs), w) <==> exists g :: 0 <= g < |hs| && Clash(hs[g])
    ensures AnyBlocked(Flat(hs), w) <==> exists g :: 0 <= g < |hs| && Blocked(hs[g])
    ensures Unfinished(Flat(hs)) <==> exists g :: 0 <= g < |hs| && Unfinished(hs[g])
  {
    if hs != [] {
      FlatSummary(hs[1..], w);
      FlatStep(hs, w);
      ReleasedStep(hs);
      FirstOrRest(hs, g => Clash(g));
      FirstOrRest(hs, g => Blocked(g));
      FirstOrRest(hs, g => Unfinished(g));
    }
  }

  lemma FlatStep(hs: seq<seq<int>>, w: nat)
    requires w > 0 && hs != [] && |hs[0]| == w
    ensures var h, rest := Flat(hs), Flat(hs[1..]);
            && ReleaseAll(h, w) == Released(hs[0]) + ReleaseAll(rest, w)
            && (AnyClash(h, w) <==> Clash(hs[0]) || AnyClash(rest, w))
            && (AnyBlocked(h, w) <==> Blocked(hs[0]) || AnyBlocked(rest, w))
            && (Unfinished(h) <==> Unfinished(hs[0]) || Unfinished(rest))
  {
    var h, rest := Flat(hs), Flat(hs[1..]);
    assert h[..w] == hs[0] && h[w..] == rest;
    SummaryStep(h, w);
    assert Summary(h, w) == AddGroup(hs[0], Summary(rest, w));
  }

  lemma ReleasedStep(hs: seq<seq<int>>)
    requires hs != []
    ensures Flat(ReleasedEach(hs)) == Released(hs[0]) + Flat(ReleasedEach(hs[1..]))
  {
    assert ReleasedEach(hs)[1..] == ReleasedEach(hs[1..]);
  }

  lemma FirstOrRest(hs: seq<seq<int>>, holds: seq<int> -> bool)
    requires hs != []
    ensures (exists g :: 0 <= g < |hs| && holds(hs[g])) <==>
            holds(hs[0]) || exists g :: 0 <= g < |hs[1..]| && holds(hs[1..][g])
  {
    if g :| 0 < g < |hs| && holds(hs[g]) { assert holds(hs[1..][g - 1]); }
    if g :| 0 <= g < |hs[1..]| && holds(hs[1..][g]) { assert holds(hs[g + 1]); }
  }

  // When nothing is written back to the device, nothing has changed, so device
  // and host agree at every launch.
  lemma {:induction false} UnchangedUnlessBlocked(h: seq<int>, w: nat)
    requires w > 0 && Progress(h, w) != -1
    ensures ReleaseAll(h, w) == h
  {
    if |h| >= w {
      SummaryStep(h, w);
      if !AnyBlocked(h[w..], w) && |h| >= w {
        assert Progress(h[w..], w) != -1;
        UnchangedUnlessBlocked(h[w..], w);
      }
    }
  }

  lemma {:induction false} BlockedIsUnfinished(h: seq<int>, w: nat)
    requires w > 0 && AnyBlocked(h, w)
    ensures Unfinished(h)
  {
    if Blocked(h[..w]) {
      assert h[..w][0] == h[0] != 0;
    } else {
      BlockedIsUnfinished(h[w..], w);
      var i :| 0 <= i < |h[w..]| && h[w..][i] != 0;
      assert h[w + i] != 0;
    }
  }

  // What becomes of a launch when a slice has left these headers: the host
  // gives up, the launch is complete, or the next slice gets other headers.
  datatype Verdict = Abort | Done | Again(headers: seq<int>)

  function Judge(read: seq<int>, w: nat): (v: Verdict)
    requires w > 0
    ensures v.Done? ==> !Unfinished(read)
    ensures v.Again? ==> |v.headers| == |read|
  {
    if AnyClash(read, w) then Abort
    else if Progress(read, w) == 0 then Done
    else Again(ReleaseAll(read, w))
  }

  // ------------------------------------------------------- item by item

  // Items are numbered through the groups.
  function GroupOf(i: nat, w: nat): nat
    requires w > 0
  {
    i / w
  }

  lemma GroupBelow(i: nat, w: nat)
    requires w > 0
    ensures GroupOf(i, w) == if i < w then 0 else GroupOf(i - w, w) + 1
  {
    if i >= w {
      OneGroupOff(i, w);
    } else {
      Toolkit.DivModOf(i, w, 0);
    }
  }

  lemma OneGroupOff(n: nat, w: nat)
    requires 0 < w <= n
    ensures n / w == (n - w) / w + 1 && n % w == (n - w) % w
  {
    var q, r := (n - w) / w, (n - w) % w;
    Toolkit.DivMod(n - w, w);
    Toolkit.Times(w, q, q);
    Toolkit.DivModOf(r, w, q + 1);
  }

  // Two items of one group wait at different barriers.
  predicate Disagree(h: seq<int>, w: nat, i: nat, j: nat)
    requires w > 0
  {
    i < |h| && j < |h| && GroupOf(i, w) == GroupOf(j, w) && h[i] < 0 && h[j] < 0 && h[i] != h[j]
  }

  // The item waits at a barrier, and its whole group at the same one.
  predicate MayPass(h: seq<int>, w: nat, i: nat)
    requires w > 0
  {
    i < |h| && h[i] < 0 && forall j: nat | j < |h| && GroupOf(j, w) == GroupOf(i, w) :: h[j] == h[i]
  }

  lemma Whole(n: nat, w: nat)
    requires w > 0
    ensures n % w == 0 <==> n == 0 || (n >= w && (n - w) % w == 0)
  {
    if n >= w {
      OneGroupOff(n, w);
    } else {
      Toolkit.DivModOf(n, w, 0);
    }
  }

  // What holds of the table holds of the first group or of the rest of it.
  lemma DisagreeSplits(h: seq<int>, w: nat, i: nat, j: nat)
    requires 0 < w <= |h|
    ensures i < w && j < w ==> (Disagree(h, w, i, j) <==>
              h[..w][i] < 0 && h[..w][j] < 0 && h[..w][i] != h[..w][j])
    ensures i >= w && j >= w ==> (Disagree(h, w, i, j) <==> Disagree(h[w..], w, i - w, j - w))
    ensures Disagree(h, w, i, j) ==> (i < w <==> j < w)
  {
    GroupBelow(i, w);
    GroupBelow(j, w);
  }

  lemma PassesInFirst(h: seq<int>, w: nat, i: nat)
    requires 0 < w <= |h| && i < w
    ensures MayPass(h, w, i) <==> Blocked(h[..w])
  {
    forall j: nat ensures GroupOf(j, w) == GroupOf(i, w) <==> j < w {
      GroupBelow(j, w);
      GroupBelow(i, w);
    }
    if MayPass(h, w, i) {
      assert forall j | 0 <= j < w :: h[..w][j] == h[i];
    } else if Blocked(h[..w]) {
      assert forall j: nat | j < w :: h[j] == h[..w][j];
    }
  }

  lemma PassesInRest(h: seq<int>, w: nat, i: nat)
    requires 0 < w <= i < |h|
    ensures MayPass(h, w, i) <==> MayPass(h[w..], w, i - w)
  {
    var rest := h[w..];
    GroupBelow(i, w);
    if MayPass(h, w, i) {
      forall j: nat | j < |rest| && GroupOf(j, w) == GroupOf(i - w, w) ensures rest[j] == rest[i - w] {
        GroupBelow(j + w, w);
        assert h[j + w] == h[i];
      }
    } else if MayPass(rest, w, i - w) {
      forall j: nat | j < |h| && GroupOf(j, w) == GroupOf(i, w) ensures h[j] == h[i] {
        GroupBelow(j, w);
        assert rest[j - w] == rest[i - w];
      }
    }
  }

  // The table is made of whole groups and no two items of a group disagree.
  lemma {:induction false} ClashMeans(h: seq<int>, w: nat)
    requires w > 0
    ensures AnyClash(h, w) <==> |h| % w != 0 || exists i: nat, j: nat :: Disagree(h, w, i, j)
    decreases |h|
  {
    Whole(|h|, w);
    if |h| >= w {
      ClashMeans(h[w..], w);
      forall i: nat, j: nat
        ensures i < w && j < w ==> (Disagree(h, w, i, j) <==>
                  h[..w][i] < 0 && h[..w][j] < 0 && h[..w][i] != h[..w][j])
        ensures i >= w && j >= w ==> (Disagree(h, w, i, j) <==> Disagree(h[w..], w, i - w, j - w))
        ensures Disagree(h, w, i, j) ==> (i < w <==> j < w)
      {
        DisagreeSplits(h, w, i, j);
      }
      if i: nat, j: nat :| Disagree(h[w..], w, i, j) { assert Disagree(h, w, i + w, j + w); }
      if Clash(h[..w]) {
        var i, j :| 0 <= i < w && 0 <= j < w && h[..w][i] < 0 && h[..w][j] < 0 && h[..w][i] != h[..w][j];
        assert Disagree(h, w, i, j);
      }
    } else if |h| == 0 {
      assert forall i: nat, j: nat :: !Disagree(h, w, i, j);
    }
  }

  lemma {:induction false} ReleasedAt(h: seq<int>, w: nat, i: nat)
    requires w > 0 && |h| % w == 0 && i < |h|
    ensures ReleaseAll(h, w)[i] == if MayPass(h, w, i) then -h[i] else h[i]
    decreases |h|
  {
    Whole(|h|, w);
    if i < w {
      PassesInFirst(h, w, i);
    } else {
      Whole(|h[w..]|, w);
      ReleasedAt(h[w..], w, i - w);
      PassesInRest(h, w, i);
    }
  }

  lemma {:induction false} BlockedMeans(h: seq<int>, w: nat)
    requires w > 0 && |h| % w == 0
    ensures AnyBlocked(h, w) <==> exists i: nat :: MayPass(h, w, i)
    decreases |h|
  {
    Whole(|h|, w);
    if |h| >= w {
      BlockedMeans(h[w..], w);
      PassesInFirst(h, w, 0);
      if i: nat :| MayPass(h, w, i) {
        if i < w { PassesInFirst(h, w, i); } else { PassesInRest(h, w, i); }
      }
      if i: nat :| MayPass(h[w..], w, i) { PassesInRest(h, w, i + w); }
    }
  }

  /** The host's decision, item by item.  It gives up exactly if the table is not
      made of whole groups or two items of a group wait at different barriers.
      Else the launch is complete exactly if all headers are 0, and an item goes
      on behind its barrier exactly if its whole group waits there. */
  lemma JudgedByItem(h: seq<int>, w: nat)
    requires w > 0
    ensures var v := Judge(h, w);
            && (v.Abort? <==> |h| % w != 0 || exists i: nat, j: nat :: Disagree(h, w, i, j))
            && (!v.Abort? ==> (v.Done? <==> forall i | 0 <= i < |h| :: h[i] == 0))
            && (v.Again? ==>
                  |v.headers| == |h|
                  && forall i: nat | i < |h| :: v.headers[i] == if MayPass(h, w, i) then -h[i] else h[i])
  {
    ClashMeans(h, w);
    if !AnyClash(h, w) {
      BlockedMeans(h, w);
      forall i: nat | i < |h| ensures ReleaseAll(h, w)[i] == if MayPass(h, w, i) then -h[i] else h[i] {
        ReleasedAt(h, w, i);
      }
      if i: nat :| MayPass(h, w, i) { assert h[i] != 0; }
    }
  }
}
