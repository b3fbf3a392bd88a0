/** The stop and exit protocols inside one slice.  Counters and barriers bring
    a group through four modes; while the last batch copies local memory out,
    no item executes a statement of the source any more. */
module Protocol {
  import opened Sliced

  // ------------------------------------------------------------- counting

  function Count(bs: seq<bool>): nat {
    if bs == [] then 0 else (if bs[0] then 1 else 0) + Count(bs[1..])
  }

  lemma {:induction false} CountUpdate(bs: seq<bool>, i: nat, b: bool)
    requires i < |bs|
    ensures Count(bs[i := b]) == Count(bs) - (if bs[i] then 1 else 0) + (if b then 1 else 0)
  {
    if i > 0 {
      assert bs[i := b][1..] == bs[1..][i - 1 := b];
      CountUpdate(bs[1..], i - 1, b);
    } else {
      assert bs[i := b][1..] == bs[1..];
    }
  }

  lemma {:induction false} CountAll(bs: seq<bool>)
    ensures Count(bs) <= |bs|
    ensures Count(bs) == |bs| <==> forall i | 0 <= i < |bs| :: bs[i]
    ensures Count(bs) == 0 <==> forall i | 0 <= i < |bs| :: !bs[i]
  {
    if bs != [] {
      CountAll(bs[1..]);
      assert forall i | 0 <= i < |bs| - 1 :: bs[1..][i] == bs[i + 1];
      assert forall i | 1 <= i < |bs| :: bs[i] == bs[1..][i - 1];
    }
  }

  // Has decremented stop counter `idx` and not incremented it again.
  predicate Holds(pc: Pc, idx: nat) {
    (pc.Stop1? || pc.Past1? || pc.Stop2? || pc.Past2?) && pc.gate.idx == idx
  }

  // Has decremented the exit counter.
  predicate HasLeft(pc: Pc) {
    pc.Exit2? || pc.Left2? || pc.Gone?
  }

  function Holders(items: seq<Item>, idx: nat): (bs: seq<bool>)
    ensures |bs| == |items|
  {
    seq(|items|, i requires 0 <= i < |items| => Holds(items[i].pc, idx))
  }

  function Leavers(items: seq<Item>): (bs: seq<bool>)
    ensures |bs| == |items|
  {
    seq(|items|, i requires 0 <= i < |items| => HasLeft(items[i].pc))
  }

  // ---------------------------------------------------------------- modes

  // Work: some items run source code.  Second: between the two barriers of a
  // round that started with `batch` items still in the kernel.  Through: every
  // item passes the barrier with stop counter `idx`.  Drain: no item will run
  // source code again in this slice.
  datatype Mode = Work | Second(batch: int) | Through(idx: nat) | Drain(batch: int)

  predicate PcIn(words: nat, m: Mode, pc: Pc) {
    match m
    case Work => pc.Run? || pc.Stop1? || pc.Exit0? || (if words > 0 then pc.Exit1? else pc.Gone?)
    case Second(batch) =>
      pc.Past1? || pc.Stop2? || pc.Gone? || (words > 0 && (pc.Left1? || pc.Exit2?) && pc.batch == batch)
    case Through(idx) => ((pc.Past2? && pc.remain == 0) || pc.Pause?) && pc.gate.idx == idx
    case Drain(batch) =>
      || (pc.Past2? && pc.remain != 0) || pc.Exit0? || pc.Gone?
      || (words > 0 && (pc.Exit1? || (pc.Left2? && pc.batch == batch)))
  }

  // An item's position fits the mode, and what it remembers of a counter is
  // still true.
  predicate ItemOk(p: Program, gr: Group, m: Mode, pc: Pc) {
    && PcIn(p.words, m, pc)
    && (pc.Stop1? || pc.Past1? || pc.Stop2? || pc.Past2? || pc.Pause? ==> pc.gate.idx < p.stops == |gr.stops|)
    && (pc.Stop2? ==> pc.remain == gr.stops[pc.gate.idx])
    && (pc.Exit1? ==> pc.batch == gr.final)
  }

  // The counters say how many items have not decremented them.
  ghost predicate Counters(p: Program, gr: Group) {
    && WellFormed(p, gr) && |gr.items| > 0
    && (forall idx | 0 <= idx < p.stops :: gr.stops[idx] == |gr.items| - Count(Holders(gr.items, idx)))
    && (p.words > 0 ==> gr.final == |gr.items| - Count(Leavers(gr.items)))
  }

  ghost predicate Items(p: Program, gr: Group, m: Mode) {
    forall i | 0 <= i < |gr.items| :: ItemOk(p, gr, m, gr.items[i].pc)
  }

  predicate HasId(pc: Pc, eid: int) {
    (pc.Exit2? || pc.Left2?) && pc.eid == eid
  }

  predicate Taken(gr: Group, eid: int) {
    exists i :: 0 <= i < |gr.items| && HasId(gr.items[i].pc, eid)
  }

  predicate Stored(gr: Group, eid: int, batch: int) {
    |gr.lm| == |gr.buf| && batch > 0 &&
    forall w | 0 <= w < |gr.lm| && w % batch == eid :: gr.buf[w] == gr.lm[w]
  }

  // Exit ids of the current round: from the exit counter up to the batch size,
  // each taken once.
  ghost predicate IdsFit(gr: Group, m: Mode) {
    && (forall i, j | 0 <= i < |gr.items| && 0 <= j < |gr.items| && (gr.items[i].pc.Exit2? || gr.items[i].pc.Left2?) ::
          HasId(gr.items[j].pc, gr.items[i].pc.eid) ==> i == j)
    && (forall i | 0 <= i < |gr.items| && (gr.items[i].pc.Exit2? || gr.items[i].pc.Left2?) ::
          (m.Second? || m.Drain?) && gr.final <= gr.items[i].pc.eid < m.batch)
  }

  // No id of the round is left out; in the last round each id's share of the
  // local memory is stored or about to be.
  ghost predicate IdsCover(p: Program, gr: Group, m: Mode) {
    p.words > 0 && (m.Second? || m.Drain?) ==>
      && 0 <= gr.final <= |gr.items| && m.batch > 0
      && (m.Second? ==> gr.final <= m.batch && forall e | gr.final <= e < m.batch :: Taken(gr, e))
      && (m.Drain? && gr.final == 0 ==> forall e | 0 <= e < m.batch :: Stored(gr, e, m.batch) || Taken(gr, e))
  }

  ghost predicate Inv(p: Program, gr: Group, m: Mode) {
    Counters(p, gr) && Items(p, gr, m) && IdsFit(gr, m) && IdsCover(p, gr, m)
  }

  // ------------------------------------------------------ effect on counters

  lemma HoldersUpdate(items: seq<Item>, i: nat, it: Item, idx: nat)
    requires i < |items|
    ensures Count(Holders(items[i := it], idx)) ==
            Count(Holders(items, idx)) - Bit(Holds(items[i].pc, idx)) + Bit(Holds(it.pc, idx))
  {
    assert Holders(items[i := it], idx) == Holders(items, idx)[i := Holds(it.pc, idx)];
    CountUpdate(Holders(items, idx), i, Holds(it.pc, idx));
  }

  lemma LeaversUpdate(items: seq<Item>, i: nat, it: Item)
    requires i < |items|
    ensures Count(Leavers(items[i := it])) ==
            Count(Leavers(items)) - (if HasLeft(items[i].pc) then 1 else 0) + (if HasLeft(it.pc) then 1 else 0)
  {
    assert Leavers(items[i := it]) == Leavers(items)[i := HasLeft(it.pc)];
    CountUpdate(Leavers(items), i, HasLeft(it.pc));
  }

  lemma PassCounts(gr: Group)
    ensures forall idx: nat :: Holders(Pass(gr).items, idx) == Holders(gr.items, idx)
    ensures Leavers(Pass(gr).items) == Leavers(gr.items)
  {
  }

  lemma UpdateCounts(gr: Group, i: nat, it: Item)
    requires i < |gr.items|
    ensures forall idx: nat :: Count(Holders(gr.items[i := it], idx)) ==
              Count(Holders(gr.items, idx)) - Bit(Holds(gr.items[i].pc, idx)) + Bit(Holds(it.pc, idx))
    ensures Count(Leavers(gr.items[i := it])) ==
            Count(Leavers(gr.items)) - (if HasLeft(gr.items[i].pc) then 1 else 0) + (if HasLeft(it.pc) then 1 else 0)
  {
    forall idx: nat
      ensures Count(Holders(gr.items[i := it], idx)) ==
              Count(Holders(gr.items, idx)) - Bit(Holds(gr.items[i].pc, idx)) + Bit(Holds(it.pc, idx))
    {
      HoldersUpdate(gr.items, i, it, idx);
    }
    LeaversUpdate(gr.items, i, it);
  }

  function Bit(b: bool): int { if b then 1 else 0 }

  // One item moved, and the counters moved with it.
  ghost predicate Moved(p: Program, gr: Group, gr': Group, i: nat) {
    && i < |gr.items| == |gr'.items| && gr'.items == gr.items[i := gr'.items[i]]
    && WellFormed(p, gr) && WellFormed(p, gr')
    && (forall idx | 0 <= idx < p.stops ::
          gr'.stops[idx] == gr.stops[idx] + Bit(Holds(gr.items[i].pc, idx)) - Bit(Holds(gr'.items[i].pc, idx)))
    && (p.words > 0 ==> gr'.final == gr.final + Bit(HasLeft(gr.items[i].pc)) - Bit(HasLeft(gr'.items[i].pc)))
  }

  lemma MovedCounters(p: Program, gr: Group, gr': Group, i: nat)
    requires Counters(p, gr) && Moved(p, gr, gr', i)
    ensures Counters(p, gr')
  {
    UpdateCounts(gr, i, gr'.items[i]);
  }

  // ------------------------------------------------------- what acts keep

  // What running source code can do to the group, as far as the protocols care.
  ghost predicate RunEffect(gr: Group, gr': Group, i: nat) {
    && i < |gr.items| == |gr'.items| && gr.items[i].pc.Run? && gr'.items == gr.items[i := gr'.items[i]]
    && gr'.final == gr.final && gr'.buf == gr.buf && |gr'.lm| == |gr.lm|
    && var pc := gr'.items[i].pc;
       if pc.Stop1? then pc.gate.idx < |gr.stops| && gr'.stops == gr.stops[pc.gate.idx := gr.stops[pc.gate.idx] - 1]
       else (pc.Run? || pc.Exit0?) && gr'.stops == gr.stops
  }

  lemma RunHasEffect(gr: Group, gm: map<int, int>, i: nat, v: int, timer: bool)
    requires i < |gr.items| && gr.items[i].pc.Run? && CanAct(gr.items[i].pc)
    requires gr.items[i].pc.s.Stop? ==> gr.items[i].pc.s.idx < |gr.stops|
    ensures RunEffect(gr, ActRun(gr, gm, i, v, timer).0, i)
  {
  }

  lemma {:induction false} RunKeeps(p: Program, gr: Group, gr': Group, i: nat, m: Mode)
    requires Inv(p, gr, m) && RunEffect(gr, gr', i)
    ensures m == Work && Inv(p, gr', m)
  {
    assert ItemOk(p, gr, m, gr.items[i].pc);
    MovedCounters(p, gr, gr', i);
    forall j | 0 <= j < |gr.items| ensures ItemOk(p, gr', m, gr'.items[j].pc) {
      assert ItemOk(p, gr, m, gr.items[j].pc);
    }
  }

  // An item that holds no exit id moves; the others keep theirs.
  lemma TakenKept(gr: Group, gr': Group, i: nat)
    requires i < |gr.items| == |gr'.items| && gr'.items == gr.items[i := gr'.items[i]]
    requires !gr.items[i].pc.Exit2? && !gr.items[i].pc.Left2?
    ensures forall e | Taken(gr, e) :: Taken(gr', e)
  {
    forall e | Taken(gr, e) ensures Taken(gr', e) {
      var j :| 0 <= j < |gr.items| && HasId(gr.items[j].pc, e);
      assert HasId(gr'.items[j].pc, e);
    }
  }

  // Reading the remaining count, and acting on it.
  lemma {:induction false} ReadKeeps(p: Program, gr: Group, i: nat, m: Mode)
    requires Inv(p, gr, m) && i < |gr.items| && gr.items[i].pc.Past1?
    ensures Inv(p, ActProtocol(p, gr, i), m)
  {
    var gr' := ActProtocol(p, gr, i);
    assert ItemOk(p, gr, m, gr.items[i].pc);
    MovedCounters(p, gr, gr', i);
    forall j | 0 <= j < |gr.items| ensures ItemOk(p, gr', m, gr'.items[j].pc) {
      assert ItemOk(p, gr, m, gr.items[j].pc);
    }
    TakenKept(gr, gr', i);
  }

  lemma {:induction false} StopKeeps(p: Program, gr: Group, i: nat, m: Mode)
    requires Inv(p, gr, m) && i < |gr.items| && gr.items[i].pc.Past2?
    ensures Inv(p, ActProtocol(p, gr, i), m)
  {
    var gr' := ActProtocol(p, gr, i);
    assert ItemOk(p, gr, m, gr.items[i].pc);
    MovedCounters(p, gr, gr', i);
    forall j | 0 <= j < |gr.items| ensures ItemOk(p, gr', m, gr'.items[j].pc) {
      assert ItemOk(p, gr, m, gr.items[j].pc);
    }
    TakenKept(gr, gr', i);
  }

  // Entering the exit protocol, and taking an exit id.
  lemma {:induction false} EnterKeeps(p: Program, gr: Group, i: nat, m: Mode)
    requires Inv(p, gr, m) && i < |gr.items| && gr.items[i].pc.Exit0?
    ensures Inv(p, ActProtocol(p, gr, i), m)
  {
    var gr' := ActProtocol(p, gr, i);
    assert ItemOk(p, gr, m, gr.items[i].pc);
    UpdateCounts(gr, i, gr'.items[i]);
    forall j | 0 <= j < |gr.items| ensures ItemOk(p, gr', m, gr'.items[j].pc) {
      assert ItemOk(p, gr, m, gr.items[j].pc);
    }
    TakenKept(gr, gr', i);
  }

  lemma {:induction false} TakeIdKeeps(p: Program, gr: Group, i: nat, m: Mode)
    requires Inv(p, gr, m) && i < |gr.items| && gr.items[i].pc.Left1?
    ensures Inv(p, ActProtocol(p, gr, i), m)
  {
    var gr' := ActProtocol(p, gr, i);
    assert ItemOk(p, gr, m, gr.items[i].pc);
    UpdateCounts(gr, i, gr'.items[i]);
    CountAll(Leavers(gr.items));
    assert !Leavers(gr.items)[i];
    forall j | 0 <= j < |gr.items| ensures ItemOk(p, gr', m, gr'.items[j].pc) {
      assert ItemOk(p, gr, m, gr.items[j].pc);
    }
    TakenKept(gr, gr', i);
    assert HasId(gr'.items[i].pc, gr'.final);
  }

  // The last act: an item of the last batch stores its share before it leaves.
  lemma {:induction false} StoreKeeps(p: Program, gr: Group, i: nat, m: Mode)
    requires Inv(p, gr, m) && i < |gr.items| && gr.items[i].pc.Left2?
    ensures Inv(p, ActProtocol(p, gr, i), m)
  {
    var gr' := ActProtocol(p, gr, i);
    var eid := gr.items[i].pc.eid;
    assert ItemOk(p, gr, m, gr.items[i].pc);
    UpdateCounts(gr, i, gr'.items[i]);
    forall j | 0 <= j < |gr.items| ensures ItemOk(p, gr', m, gr'.items[j].pc) {
      assert ItemOk(p, gr, m, gr.items[j].pc);
    }
    forall e | Taken(gr, e) && e != eid ensures Taken(gr', e) {
      var j :| 0 <= j < |gr.items| && HasId(gr.items[j].pc, e);
      assert HasId(gr'.items[j].pc, e);
    }
  }

  lemma {:induction false} ProtocolKeeps(p: Program, gr: Group, i: nat, m: Mode)
    requires Inv(p, gr, m) && i < |gr.items| && !gr.items[i].pc.Run? && CanAct(gr.items[i].pc)
    ensures Inv(p, ActProtocol(p, gr, i), m)
  {
    match gr.items[i].pc
    case Past1(_) => ReadKeeps(p, gr, i, m);
    case Past2(_, _) => StopKeeps(p, gr, i, m);
    case Exit0 => EnterKeeps(p, gr, i, m);
    case Left1(_) => TakeIdKeeps(p, gr, i, m);
    case Left2(_, _) => StoreKeeps(p, gr, i, m);
  }

  // --------------------------------------------------- what releases keep

  // A barrier release opens a round, closes it, or lets the whole group pass.
  function NextMode(gr: Group, m: Mode): Mode {
    match m
    case Work => Second(gr.final)
    case Drain(_) => Second(gr.final)
    case Through(_) => Work
    case Second(batch) =>
      if |gr.items| > 0 && gr.items[0].pc.Stop2? && gr.items[0].pc.remain == 0 then Through(gr.items[0].pc.gate.idx)
      else Drain(batch)
  }

  // The remaining count is zero only if every item is at that very barrier.
  lemma {:induction false} NoneRemains(p: Program, gr: Group, m: Mode, i: nat)
    requires Inv(p, gr, m) && i < |gr.items| && gr.items[i].pc.Stop2? && gr.items[i].pc.remain == 0
    ensures forall j | 0 <= j < |gr.items| :: Holds(gr.items[j].pc, gr.items[i].pc.gate.idx)
  {
    var idx := gr.items[i].pc.gate.idx;
    assert ItemOk(p, gr, m, gr.items[i].pc);
    CountAll(Holders(gr.items, idx));
    forall j | 0 <= j < |gr.items| ensures Holds(gr.items[j].pc, idx) { assert Holders(gr.items, idx)[j]; }
  }

  lemma {:induction false} PassItem(p: Program, gr: Group, m: Mode, gr': Group, j: nat)
    requires Inv(p, gr, m) && CanRelease(gr) && j < |gr.items|
    requires gr'.stops == gr.stops && gr'.final == gr.final
    ensures ItemOk(p, gr', NextMode(gr, m), Past(gr.items[j].pc))
  {
    assert ItemOk(p, gr, m, gr.items[j].pc);
    assert ItemOk(p, gr, m, gr.items[0].pc);
    if gr.items[j].pc.Stop2? && gr.items[j].pc.remain == 0 { NoneRemains(p, gr, m, j); }
    if gr.items[0].pc.Stop2? && gr.items[0].pc.remain == 0 { NoneRemains(p, gr, m, 0); }
  }

  predicate NoIds(gr: Group) {
    forall i | 0 <= i < |gr.items| :: !gr.items[i].pc.Exit2? && !gr.items[i].pc.Left2?
  }

  lemma {:induction false} OpenPcs(p: Program, gr: Group, m: Mode, gr': Group)
    requires Items(p, gr, m) && CanRelease(gr) && gr' == Pass(gr) && !m.Second?
    ensures NoIds(gr')
  {
    forall j | 0 <= j < |gr.items| ensures !gr'.items[j].pc.Exit2? && !gr'.items[j].pc.Left2? {
      assert ItemOk(p, gr, m, gr.items[j].pc);
    }
  }

  // A round opens with no id taken and at least one item in the kernel.
  lemma {:induction false} OpenIds(p: Program, gr: Group, m: Mode, gr': Group)
    requires Counters(p, gr) && Items(p, gr, m) && CanRelease(gr) && NoIds(gr') && gr'.final == gr.final
        && |gr'.items| == |gr.items|
    requires !m.Second?
    ensures IdsFit(gr', NextMode(gr, m)) && IdsCover(p, gr', NextMode(gr, m))
  {
    var w :| 0 <= w < |gr.items| && Waiting(gr.items[w].pc);
    assert ItemOk(p, gr, m, gr.items[w].pc);
    CountAll(Leavers(gr.items));
    assert !Leavers(gr.items)[w];
  }

  // A round closes with the ids that it handed out.
  lemma {:induction false} CloseIds(p: Program, gr: Group, gr': Group, batch: int)
    requires IdsFit(gr, Second(batch)) && IdsCover(p, gr, Second(batch))
    requires gr'.final == gr.final && |gr'.items| == |gr.items|
    requires forall j, e | 0 <= j < |gr.items| :: HasId(gr'.items[j].pc, e) <==> HasId(gr.items[j].pc, e)
    ensures IdsFit(gr', Drain(batch)) && IdsCover(p, gr', Drain(batch))
  {
    forall j | 0 <= j < |gr.items| && (gr'.items[j].pc.Exit2? || gr'.items[j].pc.Left2?)
      ensures HasId(gr.items[j].pc, gr'.items[j].pc.eid)
    {
      assert HasId(gr'.items[j].pc, gr'.items[j].pc.eid);
    }
    forall e | Taken(gr, e) ensures Taken(gr', e) {
      var j :| 0 <= j < |gr.items| && HasId(gr.items[j].pc, e);
      assert HasId(gr'.items[j].pc, e);
    }
  }

  lemma {:induction false} ReleaseKeeps(p: Program, gr: Group, m: Mode)
    requires Inv(p, gr, m) && CanRelease(gr)
    ensures Inv(p, Pass(gr), NextMode(gr, m))
  {
    var gr', m' := Pass(gr), NextMode(gr, m);
    PassCounts(gr);
    forall j | 0 <= j < |gr.items| ensures ItemOk(p, gr', m', gr'.items[j].pc) {
      PassItem(p, gr, m, gr', j);
    }
    if !m.Second? {
      OpenPcs(p, gr, m, gr');
      OpenIds(p, gr, m, gr');
    } else if m'.Drain? {
      PassIds(p, gr, gr', m);
      CloseIds(p, gr, gr', m.batch);
    } else {
      NoneRemains(p, gr, m, 0);
      assert NoIds(gr');
    }
  }

  lemma {:induction false} PassIds(p: Program, gr: Group, gr': Group, m: Mode)
    requires Items(p, gr, m) && m.Second? && gr' == Pass(gr)
    ensures forall j, e | 0 <= j < |gr.items| :: HasId(gr'.items[j].pc, e) <==> HasId(gr.items[j].pc, e)
  {
    forall j | 0 <= j < |gr.items| ensures forall e :: HasId(gr'.items[j].pc, e) <==> HasId(gr.items[j].pc, e) {
      assert ItemOk(p, gr, m, gr.items[j].pc);
    }
  }

  // -------------------------------------------------------- what follows

  // When the whole group has left, the buffer holds its local memory.
  lemma {:induction false} SavedAtEnd(p: Program, gr: Group, m: Mode)
    requires Inv(p, gr, m) && AllGone(gr)
    ensures gr.buf == gr.lm
  {
    assert ItemOk(p, gr, m, gr.items[0].pc);
    if p.words > 0 {
      CountAll(Leavers(gr.items));
      assert gr.final == 0;
      assert forall e :: !Taken(gr, e);
      assert !Taken(gr, 0);
      assert !m.Second?;
      forall w | 0 <= w < |gr.lm| ensures gr.buf[w] == gr.lm[w] {
        assert 0 <= w % m.batch < m.batch;
        assert Stored(gr, w % m.batch, m.batch);
      }
    }
  }

  // In the round in which the exit counter reaches zero the items hold the exit
  // ids 0 .. batch-1, each exactly one.
  lemma {:induction false} LastRound(p: Program, gr: Group, m: Mode)
    requires Inv(p, gr, m) && m.Second? && p.words > 0 && gr.final == 0
    ensures forall i | 0 <= i < |gr.items| :: HasLeft(gr.items[i].pc)
    ensures forall e | 0 <= e < m.batch :: Taken(gr, e)
    ensures forall i, j | 0 <= i < |gr.items| && 0 <= j < |gr.items| && gr.items[i].pc.Exit2?
        && gr.items[j].pc.Exit2? ::
              0 <= gr.items[i].pc.eid < m.batch && gr.items[i].pc.batch == m.batch
              && (gr.items[i].pc.eid == gr.items[j].pc.eid ==> i == j)
  {
    CountAll(Leavers(gr.items));
    forall i | 0 <= i < |gr.items| ensures HasLeft(gr.items[i].pc) && ItemOk(p, gr, m, gr.items[i].pc) {
      assert Leavers(gr.items)[i];
      assert ItemOk(p, gr, m, gr.items[i].pc);
    }
    forall i, j | 0 <= i < |gr.items| && 0 <= j < |gr.items| && gr.items[i].pc.Exit2? && gr.items[j].pc.Exit2?
                  && gr.items[i].pc.eid == gr.items[j].pc.eid ensures i == j
    {
      assert HasId(gr.items[j].pc, gr.items[i].pc.eid);
    }
  }

  // In any mode: at zero nobody is left who could take part in another round,
  // and when all are gone the counter has been brought to zero.
  lemma {:induction false} ZeroMeansLeft(p: Program, gr: Group, m: Mode)
    requires Inv(p, gr, m) && p.words > 0
    ensures gr.final == 0 ==> forall i | 0 <= i < |gr.items| :: HasLeft(gr.items[i].pc)
    ensures AllGone(gr) ==> gr.final == 0
  {
    CountAll(Leavers(gr.items));
    if gr.final == 0 {
      forall i | 0 <= i < |gr.items| ensures HasLeft(gr.items[i].pc) { assert Leavers(gr.items)[i]; }
    }
  }

  // Until the next launch the counter stays at zero.
  lemma {:induction false} ZeroStays(p: Program, st: Grid, ev: Event, g: nat, m: Mode)
    requires !ev.Relaunch? && Exec(p, st, ev).Some? && g < |st.groups|
    requires Inv(p, st.groups[g], m) && p.words > 0 && st.groups[g].final == 0
    ensures var st' := Exec(p, st, ev).value;
            && g < |st'.groups| && st'.groups[g].final == 0
            && exists m' :: Inv(p, st'.groups[g], m')
  {
    ZeroMeansLeft(p, st.groups[g], m);
    if ev.g == g {
      if ev.Act? {
        assert HasLeft(st.groups[g].items[ev.i].pc);
        ProtocolKeeps(p, st.groups[g], ev.i, m);
      } else {
        ReleaseKeeps(p, st.groups[g], m);
      }
    }
  }

  lemma {:induction false} ZeroToTheEnd(p: Program, st: Grid, evs: seq<Event>, g: nat, m: Mode)
    requires (forall e | 0 <= e < |evs| :: !evs[e].Relaunch?) && ExecAll(p, st, evs).Some? && g < |st.groups|
    requires Inv(p, st.groups[g], m) && p.words > 0 && st.groups[g].final == 0
    ensures var st' := ExecAll(p, st, evs).value;
            g < |st'.groups| && forall i | 0 <= i < |st'.groups[g].items| :: HasLeft(st'.groups[g].items[i].pc)
    decreases |evs|
  {
    if evs == [] {
      ZeroMeansLeft(p, st.groups[g], m);
    } else {
      ZeroStays(p, st, evs[0], g, m);
      var st1 := Exec(p, st, evs[0]).value;
      var m' :| Inv(p, st1.groups[g], m');
      ZeroToTheEnd(p, st1, evs[1..], g, m');
    }
  }

  // Some item is past the first barrier of the exit protocol.
  predicate Leaving(gr: Group) {
    exists i :: 0 <= i < |gr.items| && (gr.items[i].pc.Left1? || HasLeft(gr.items[i].pc))
  }

  // From the first exit round on, no item is in source code.
  lemma {:induction false} LeavingIsFinal(p: Program, gr: Group, m: Mode)
    requires Inv(p, gr, m) && Leaving(gr) && p.words > 0
    ensures forall i | 0 <= i < |gr.items| :: !gr.items[i].pc.Run? && !gr.items[i].pc.Pause?
  {
    var l :| 0 <= l < |gr.items| && (gr.items[l].pc.Left1? || HasLeft(gr.items[l].pc));
    assert ItemOk(p, gr, m, gr.items[l].pc);
    forall i | 0 <= i < |gr.items| ensures !gr.items[i].pc.Run? && !gr.items[i].pc.Pause? {
      assert ItemOk(p, gr, m, gr.items[i].pc);
    }
  }

  lemma {:induction false} LeavingAct(p: Program, gr: Group, i: nat, m: Mode)
    requires Inv(p, gr, m) && Leaving(gr) && p.words > 0 && i < |gr.items| && CanAct(gr.items[i].pc)
    ensures !gr.items[i].pc.Run?
    ensures var gr' := ActProtocol(p, gr, i); Leaving(gr') && gr'.lm == gr.lm && Inv(p, gr', m)
  {
    LeavingIsFinal(p, gr, m);
    ProtocolKeeps(p, gr, i, m);
    var l :| 0 <= l < |gr.items| && (gr.items[l].pc.Left1? || HasLeft(gr.items[l].pc));
    var pc := ActProtocol(p, gr, i).items[l].pc;
    assert pc.Left1? || HasLeft(pc);
  }

  lemma {:induction false} LeavingPass(p: Program, gr: Group, m: Mode)
    requires Inv(p, gr, m) && Leaving(gr) && CanRelease(gr)
    ensures Leaving(Pass(gr)) && Inv(p, Pass(gr), NextMode(gr, m))
  {
    ReleaseKeeps(p, gr, m);
    PassLeaves(gr);
  }

  lemma PassLeaves(gr: Group)
    requires Leaving(gr)
    ensures Leaving(Pass(gr))
  {
    var l :| 0 <= l < |gr.items| && (gr.items[l].pc.Left1? || HasLeft(gr.items[l].pc));
    var pc := Pass(gr).items[l].pc;
    assert pc.Left1? || HasLeft(pc);
  }

  // ... and it stays so until the slice ends, local memory included.
  lemma {:induction false} LeavingStays(p: Program, st: Grid, ev: Event, g: nat, m: Mode)
    requires !ev.Relaunch? && Exec(p, st, ev).Some? && g < |st.groups|
    requires Inv(p, st.groups[g], m) && Leaving(st.groups[g]) && p.words > 0
    ensures var st' := Exec(p, st, ev).value;
            && |st'.groups| == |st.groups| && Leaving(st'.groups[g]) && st'.groups[g].lm == st.groups[g].lm
            && exists m' :: Inv(p, st'.groups[g], m')
  {
    if ev.g == g {
      if ev.Act? { LeavingAct(p, st.groups[g], ev.i, m); } else { LeavingPass(p, st.groups[g], m); }
    }
  }

  // What the last batch saves is the local memory that the slice ends with.
  lemma {:induction false} FrozenOnceLeaving(p: Program, st: Grid, evs: seq<Event>, g: nat, m: Mode)
    requires (forall e | 0 <= e < |evs| :: !evs[e].Relaunch?) && ExecAll(p, st, evs).Some? && g < |st.groups|
    requires Inv(p, st.groups[g], m) && Leaving(st.groups[g]) && p.words > 0
    ensures var st' := ExecAll(p, st, evs).value;
            && g < |st'.groups| && st'.groups[g].lm == st.groups[g].lm
            && (AllGone(st'.groups[g]) ==> st'.groups[g].buf == st.groups[g].lm)
    decreases |evs|
  {
    if evs == [] {
      if AllGone(st.groups[g]) { SavedAtEnd(p, st.groups[g], m); }
    } else {
      LeavingStays(p, st, evs[0], g, m);
      var st1 := Exec(p, st, evs[0]).value;
      var m' :| Inv(p, st1.groups[g], m');
      FrozenOnceLeaving(p, st1, evs[1..], g, m');
    }
  }
}
