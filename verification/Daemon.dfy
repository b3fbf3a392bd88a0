/** The daemon's record of which high priority process runs which kinds of
    tasks, kept up to date incrementally. */
module Daemon {
  import opened TaskKind

  type Processes = map<string, set<nat>>

  // Processes that run tasks of kind k.
  function Holders(procs: Processes, k: nat): set<string> {
    set p | p in procs && k in procs[p]
  }

  // The kinds that some process runs.
  function Union(procs: Processes): set<nat> {
    set p, k | p in procs && k in procs[p] :: k
  }

  // What the daemon's words say when it knows of these processes.
  function Global(procs: Processes): set<nat> {
    set k: nat | k < KINDS && |Holders(procs, k)| % WORD != 0
  }

  lemma HoldersBound(procs: Processes, k: nat)
    ensures |Holders(procs, k)| <= |procs|
  {
    Fits(Holders(procs, k), procs.Keys);
    assert |procs.Keys| == |procs|;
  }

  lemma {:induction false} Fits<T>(a: set<T>, b: set<T>)
    requires a <= b
    ensures |a| <= |b|
  {
    if a != {} {
      var x :| x in a;
      Fits(a - {x}, b - {x});
    }
  }

  // The global bitmap is the bitwise or of the bitmaps of all processes.
  lemma GlobalIsUnion(procs: Processes)
    requires |procs| < 0x1_0000_0000
    requires forall p :: p in procs ==> procs[p] <= {0, 1}
    ensures Global(procs) == Union(procs)
  {
    forall k: nat | k < KINDS
      ensures k in Global(procs) <==> k in Union(procs)
    {
      HoldersBound(procs, k);
      if k in Union(procs) {
        var p :| p in procs && k in procs[p];
        assert p in Holders(procs, k);
      } else {
        assert Holders(procs, k) == {};
      }
    }
  }

  // One process changes what it runs: the numbers of holders follow.
  lemma HoldersUpdate(procs: Processes, p: string, kinds: set<nat>, k: nat)
    ensures |Holders(procs[p := kinds], k)| == |Holders(procs, k)| - Holds(Runs(procs, p), k) + Holds(kinds, k)
  {
    var rest := Holders(procs, k) - {p};
    assert Holders(procs, k) == if k in Runs(procs, p) then rest + {p} else rest;
    assert Holders(procs[p := kinds], k) == if k in kinds then rest + {p} else rest;
  }

  // What a process runs; nothing if it is not known.
  function Runs(procs: Processes, p: string): set<nat> {
    if p in procs then procs[p] else {}
  }

  // Each count is the number of processes of its kind, as a machine word.
  ghost predicate Counts(counts: seq<nat>, procs: Processes) {
    |counts| == KINDS && forall k: nat :: k < KINDS ==> counts[k] == |Holders(procs, k)| % WORD
  }

  // The counts when the first n kinds have been updated.
  predicate Recounted(counts: seq<nat>, counts': seq<nat>, was: set<nat>, now: set<nat>, n: nat) {
    && |counts'| == |counts|
    && forall k: nat :: k < |counts| ==>
      counts'[k] == if k < n then Recount(counts[k], was, now, k) else counts[k]
  }

  lemma RecountedCounts(counts: seq<nat>, counts': seq<nat>, procs: Processes, p: string, now: set<nat>)
    requires Counts(counts, procs)
    requires Recounted(counts, counts', Runs(procs, p), now, KINDS)
    ensures Counts(counts', procs[p := now])
  {
    forall k: nat | k < KINDS
      ensures counts'[k] == |Holders(procs[p := now], k)| % WORD
    {
      HoldersUpdate(procs, p, now, k);
      Modulo(counts[k], |Holders(procs, k)|, Runs(procs, p), now, k, |Holders(procs[p := now], k)|);
    }
  }

  lemma Modulo(count: nat, holders: nat, was: set<nat>, now: set<nat>, k: nat, holders': nat)
    requires count == holders % WORD
    requires holders' == holders - Holds(was, k) + Holds(now, k)
    ensures Recount(count, was, now, k) == holders' % WORD
  {
    assert count - Holds(was, k) + Holds(now, k) == holders' - WORD * (holders / WORD);
  }

  // A process without tasks counts as much as one that is not known.
  lemma IdleProcess(counts: seq<nat>, procs: Processes, p: string)
    requires Runs(procs, p) == {}
    ensures Counts(counts, procs) <==> Counts(counts, procs - {p})
    ensures Counts(counts, procs) <==> Counts(counts, procs[p := {}])
  {
    forall k: nat
      ensures Holders(procs - {p}, k) == Holders(procs, k) == Holders(procs[p := {}], k)
    {
    }
  }

  // The kinds whose counts are not zero.
  function NonZero(counts: seq<nat>): set<nat> {
    set k: nat | k < |counts| && counts[k] != 0
  }

  lemma NonZeroIsGlobal(counts: seq<nat>, procs: Processes)
    requires Counts(counts, procs)
    ensures NonZero(counts) == Global(procs)
  {
  }

  lemma AssignedNonZero(counts: seq<nat>, k: nat, count: nat)
    requires k < |counts|
    ensures NonZero(counts[k := count]) == Assigned(NonZero(counts), k, count)
  {
  }

  class Scheduler {
    var procBitmap: map<string, Bitmap>
    var globalBitmap: Bitmap
    var countOfEachTaskKind: array<nat>

    // What kinds each known process runs.
    ghost function Procs(): Processes
      reads this
    {
      map p | p in procBitmap :: KindsOf(procBitmap[p])
    }

    // Each count is the number of processes of its kind; the global bitmap
    // has exactly the bits of the counts that are not zero.
    ghost predicate Valid()
      reads this, countOfEachTaskKind
    {
      && Counts(countOfEachTaskKind[..], Procs())
      && KindsOf(globalBitmap) == NonZero(countOfEachTaskKind[..])
      && InMask(globalBitmap)
    }

    constructor ()
      ensures Valid() && fresh(countOfEachTaskKind)
      ensures procBitmap == map[] && globalBitmap == 0
    {
      procBitmap := map[];
      globalBitmap := 0;
      countOfEachTaskKind := new nat[KINDS](_ => 0);
      new;
      assert forall k: nat :: Holders(Procs(), k) == {};
    }

    // The bitmap of a process in the map is replaced, and the counts and the
    // global bitmap follow.
    method UpdateProcBitmap(p: string, newMap: Bitmap)
      requires Valid() && p in procBitmap
      modifies this, countOfEachTaskKind
      ensures Valid() && countOfEachTaskKind == old(countOfEachTaskKind)
      ensures procBitmap == old(procBitmap)[p := newMap]
    {
      ghost var procs, counts := Procs(), countOfEachTaskKind[..];
      var oldMap := procBitmap[p];
      procBitmap := procBitmap[p := newMap];
      assert Procs() == procs[p := KindsOf(newMap)];
      globalBitmap := UpdateCounts(oldMap, newMap);
      RecountedCounts(counts, countOfEachTaskKind[..], procs, p, KindsOf(newMap));
    }

    method UpdateCounts(oldMap: Bitmap, newMap: Bitmap) returns (newGblMap: Bitmap)
      requires countOfEachTaskKind.Length == KINDS && forall k :: 0 <= k < KINDS ==> countOfEachTaskKind[k] < WORD
      requires InMask(globalBitmap) && KindsOf(globalBitmap) == NonZero(countOfEachTaskKind[..])
      modifies countOfEachTaskKind
      ensures Recounted(old(countOfEachTaskKind[..]), countOfEachTaskKind[..], KindsOf(oldMap), KindsOf(newMap), KINDS)
      ensures InMask(newGblMap) && KindsOf(newGblMap) == NonZero(countOfEachTaskKind[..])
    {
      newGblMap := globalBitmap;
      var kind := 0;
      while kind < KINDS
        invariant kind <= KINDS
        invariant Recounted(old(countOfEachTaskKind[..]), countOfEachTaskKind[..],
                            KindsOf(oldMap), KindsOf(newMap), kind)
        invariant InMask(newGblMap) && KindsOf(newGblMap) == NonZero(countOfEachTaskKind[..])
      {
        label Step:
        var count := countOfEachTaskKind[kind];
        newGblMap, count := UpdateGlobalBitmap(newGblMap, count, kind, oldMap, newMap);
        AssignedNonZero(countOfEachTaskKind[..], kind, count);
        countOfEachTaskKind[kind] := count;
        assert countOfEachTaskKind[..] == old@Step(countOfEachTaskKind[..])[kind := count];
        kind := kind + 1;
      }
    }

    // A bitmap with bits that belong to no kind is refused and changes nothing.
    method SetHighPrioTaskBitmap(sender: string, bitmap: Bitmap) returns (reply: bool)
      requires Valid()
      modifies this, countOfEachTaskKind
      ensures Valid() && countOfEachTaskKind == old(countOfEachTaskKind)
      ensures reply == InMask(bitmap)
      ensures procBitmap == if reply then old(procBitmap)[sender := bitmap] else old(procBitmap)
    {
      reply := InMask(bitmap);
      if reply {
        SetProcBitmap(sender, bitmap);
      }
    }

    // The entry of a process is made if it does not exist yet.
    method SetProcBitmap(p: string, bitmap: Bitmap)
      requires Valid()
      modifies this, countOfEachTaskKind
      ensures Valid() && countOfEachTaskKind == old(countOfEachTaskKind)
      ensures procBitmap == old(procBitmap)[p := bitmap]
    {
      ghost var known := procBitmap;
      if p !in procBitmap {
        AddProcess(p);
      }
      UpdateProcBitmap(p, bitmap);
      assert known[p := 0][p := bitmap] == known[p := bitmap];
    }

    // A process that was not known gets an entry without tasks.
    method AddProcess(p: string)
      requires Valid() && p !in procBitmap
      modifies this
      ensures Valid() && countOfEachTaskKind == old(countOfEachTaskKind)
      ensures procBitmap == old(procBitmap)[p := 0]
    {
      ghost var procs := Procs();
      procBitmap := procBitmap[p := 0];
      NoKinds();
      assert Procs() == procs[p := {}];
      IdleProcess(countOfEachTaskKind[..], procs, p);
    }

    // A process that left counts no more.
    method NameOwnerChangeWatcher(name: string, newOwner: string)
      requires Valid()
      modifies this, countOfEachTaskKind
      ensures Valid() && countOfEachTaskKind == old(countOfEachTaskKind)
      ensures procBitmap == if newOwner == "" then old(procBitmap) - {name} else old(procBitmap)
    {
      if newOwner == "" && name in procBitmap {
        UpdateProcBitmap(name, 0);
        RemoveProcess(name);
      }
    }

    method RemoveProcess(p: string)
      requires Valid() && p in procBitmap && procBitmap[p] == 0
      modifies this
      ensures Valid() && countOfEachTaskKind == old(countOfEachTaskKind)
      ensures procBitmap == old(procBitmap) - {p}
    {
      NoKinds();
      ghost var procs := Procs();
      procBitmap := procBitmap - {p};
      assert Procs() == procs - {p};
      IdleProcess(countOfEachTaskKind[..], procs, p);
    }

    // What a low priority process is told when it joins.
    method GetConfig() returns (bitmap: Bitmap)
      requires Valid()
      ensures KindsOf(bitmap) == Global(Procs())
    {
      NonZeroIsGlobal(countOfEachTaskKind[..], Procs());
      bitmap := globalBitmap;
    }

    // When the bus has nothing more for the daemon: is there news since the
    // bitmap that was announced last?
    method Announce(announced: Bitmap) returns (signal: bool, announced': Bitmap)
      requires Valid() && InMask(announced)
      ensures KindsOf(announced') == Global(Procs()) && InMask(announced')
      ensures signal <==> KindsOf(announced) != Global(Procs())
    {
      NonZeroIsGlobal(countOfEachTaskKind[..], Procs());
      if KindsOf(announced) == KindsOf(globalBitmap) { SameKinds(announced, globalBitmap); }
      announced' := globalBitmap;
      signal := announced != announced';
    }
  }
}
