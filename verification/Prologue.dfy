/** The text in front of the switch, item by item: counters are initialised, in
    shares; local memory is loaded; then all meet at a barrier.  However the
    items interleave, a group begins its slice as `Sliced.EnterGroup` says. */
module Prologue {
  import opened Wrappers
  import opened Kernel
  import opened Labels
  import opened Simulation
  import opened Preservation
  import O = Original
  import P = Protocol
  import S = Sliced

  // Where an item is: about to initialise stop counter `next`, or the exit
  // counter; about to load local memory; at the barrier; about to take the
  // switch; or in the kernel.
  datatype Pc = Count(next: nat) | Final | Reload | Ready | Switch | Entered(it: S.Item)

  // One group on its way in.  What is in local memory first is arbitrary.
  datatype Entry = Entry(pcs: seq<Pc>, lm: seq<int>, stops: seq<int>, final: int)

  // The program, the group as the previous slice left it, its headers, and the
  // contents that private and local memory happen to have.
  datatype Setting = Setting(p: S.Program, gr: S.Group, hdrs: seq<int>, env: int -> Env, lm: seq<int>)

  predicate Fitting(c: Setting) {
    && |c.hdrs| == |c.gr.items| > 0 && |c.lm| == c.p.words == |c.gr.buf|
  }

  // A kernel with neither barriers nor local memory shares nothing.
  predicate Meets(p: S.Program) {
    p.stops > 0 || p.words > 0
  }

  predicate Begins(c: Setting, e: Entry)
    requires Fitting(c)
  {
    && |e.pcs| == |c.gr.items| && e.lm == c.lm && |e.stops| == c.p.stops
    && forall i | 0 <= i < |e.pcs| :: e.pcs[i] == Count(i)
  }

  predicate CanAct(pc: Pc) {
    !pc.Ready? && !pc.Entered?
  }

  function Act(c: Setting, e: Entry, i: nat): Entry
    requires Fitting(c) && |e.pcs| == |c.gr.items| && i < |e.pcs| && CanAct(e.pcs[i])
  {
    var size := |c.gr.items|;
    match e.pcs[i]
    case Count(next) =>
      if next < |e.stops| then e.(pcs := e.pcs[i := Count(next + size)], stops := e.stops[next := size])
      else e.(pcs := e.pcs[i := Final])
    case Final =>
      e.(pcs := e.pcs[i := Reload], final := if c.p.words > 0 && i == 0 then size else e.final)
    case Reload =>
      e.(pcs := e.pcs[i := if Meets(c.p) then Ready else Switch], lm := if c.hdrs[i] != 1 then c.gr.buf else e.lm)
    case Switch =>
      e.(pcs := e.pcs[i := Entered(S.Enter(c.p, c.gr.items[i], c.hdrs[i], c.env(c.gr.items[i].id)))])
  }

  predicate CanRelease(e: Entry) {
    forall i | 0 <= i < |e.pcs| :: e.pcs[i].Ready?
  }

  function Pass(e: Entry): Entry {
    e.(pcs := seq(|e.pcs|, _ => Switch))
  }

  // An item acts, or the barrier releases.
  datatype Event = Step(i: nat) | Release

  ghost predicate Exec(c: Setting, e: Entry, ev: Event, e': Entry)
    requires Fitting(c) && |e.pcs| == |c.gr.items|
  {
    match ev
    case Step(i) => i < |e.pcs| && CanAct(e.pcs[i]) && e' == Act(c, e, i)
    case Release => CanRelease(e) && e' == Pass(e)
  }

  ghost predicate Run(c: Setting, e: Entry, evs: seq<Event>, e': Entry)
    requires Fitting(c) && |e.pcs| == |c.gr.items|
    decreases |evs|
  {
    if evs == [] then e' == e
    else exists mid: Entry :: |mid.pcs| == |c.gr.items| && Exec(c, e, evs[0], mid) && Run(c, mid, evs[1..], e')
  }

  // ------------------------------------------------------------- invariants

  predicate PastBarrier(pc: Pc) {
    pc.Switch? || pc.Entered?
  }

  predicate PastLoad(pc: Pc) {
    pc.Ready? || PastBarrier(pc)
  }

  // Counters are dealt out to the items in turn.
  function Owner(idx: nat, size: nat): (i: nat)
    requires size > 0
    ensures i < size
  {
    if idx < size then idx else Owner(idx - size, size)
  }

  // Item `i` has initialised stop counter `idx`.
  predicate Counted(pc: Pc, i: nat, size: nat, idx: nat)
    requires size > 0
  {
    Owner(idx, size) == i && (pc.Count? ==> idx < pc.next)
  }

  ghost predicate CountersFit(c: Setting, e: Entry)
    requires Fitting(c)
  {
    var size := |c.gr.items|;
    && |e.pcs| == size && |e.stops| == c.p.stops
    && (forall i: nat | i < size && e.pcs[i].Count? :: Owner(e.pcs[i].next, size) == i)
    && (forall i: nat, idx: nat | i < size && idx < |e.stops| && Counted(e.pcs[i], i, size, idx) ::
          e.stops[idx] == size)
    && (c.p.words > 0 && !e.pcs[0].Count? && !e.pcs[0].Final? ==> e.final == size)
  }

  ghost predicate MemoryFits(c: Setting, e: Entry)
    requires Fitting(c)
  {
    && |e.pcs| == |c.gr.items|
    && (e.lm == c.lm || (e.lm == c.gr.buf && exists i :: 0 <= i < |c.hdrs| && c.hdrs[i] != 1))
    && (forall i: nat | i < |e.pcs| && PastLoad(e.pcs[i]) && c.hdrs[i] != 1 :: e.lm == c.gr.buf)
  }

  ghost predicate PlacesFit(c: Setting, e: Entry)
    requires Fitting(c)
  {
    && |e.pcs| == |c.gr.items|
    && (forall i: nat | i < |e.pcs| && e.pcs[i].Ready? :: Meets(c.p))
    && (forall i: nat, j: nat | i < |e.pcs| && j < |e.pcs| && Meets(c.p) && PastBarrier(e.pcs[i]) ::
          PastBarrier(e.pcs[j]))
    && (forall i: nat | i < |e.pcs| && e.pcs[i].Entered? ::
          e.pcs[i].it == S.Enter(c.p, c.gr.items[i], c.hdrs[i], c.env(c.gr.items[i].id)))
  }

  ghost predicate Inv(c: Setting, e: Entry)
    requires Fitting(c)
  {
    CountersFit(c, e) && MemoryFits(c, e) && PlacesFit(c, e)
  }

  // From one counter of an item to its next there is none of its own.
  lemma {:induction false} NextShare(next: nat, idx: nat, size: nat)
    requires size > 0 && Owner(idx, size) == Owner(next, size) && idx < next + size
    ensures idx <= next
  {
    if idx >= size && next >= size { NextShare(next - size, idx - size, size); }
  }

  lemma CountKeeps(c: Setting, e: Entry, i: nat)
    requires Fitting(c) && CountersFit(c, e) && i < |e.pcs| && e.pcs[i].Count?
    ensures CountersFit(c, Act(c, e, i))
  {
    var size, next, e' := |c.gr.items|, e.pcs[i].next, Act(c, e, i);
    assert Owner(next + size, size) == i;
    forall j: nat, idx: nat | j < size && idx < |e.stops| && Counted(e'.pcs[j], j, size, idx)
      ensures e'.stops[idx] == size
    {
      if j == i {
        if idx < next + size { NextShare(next, idx, size); }
        assert idx != next ==> Counted(e.pcs[i], i, size, idx);
      } else {
        assert Counted(e.pcs[j], j, size, idx);
      }
    }
  }

  lemma ActKeeps(c: Setting, e: Entry, i: nat)
    requires Fitting(c) && Inv(c, e) && i < |e.pcs| && CanAct(e.pcs[i])
    ensures Inv(c, Act(c, e, i))
  {
    if e.pcs[i].Count? {
      CountKeeps(c, e, i);
    } else {
      CountedKept(c, e, i);
    }
  }

  // An item that is done with its counters touches none.
  lemma CountedKept(c: Setting, e: Entry, i: nat)
    requires Fitting(c) && CountersFit(c, e) && i < |e.pcs| && CanAct(e.pcs[i]) && !e.pcs[i].Count?
    ensures CountersFit(c, Act(c, e, i))
  {
    var e' := Act(c, e, i);
    forall j: nat, idx: nat | j < |e.pcs| && idx < |e.stops| && Counted(e'.pcs[j], j, |e.pcs|, idx)
      ensures e'.stops[idx] == |e.pcs|
    {
      assert Counted(e.pcs[j], j, |e.pcs|, idx);
    }
  }

  lemma ReleaseKeeps(c: Setting, e: Entry)
    requires Fitting(c) && Inv(c, e) && CanRelease(e)
    ensures Inv(c, Pass(e))
  {
    forall j: nat, idx: nat | j < |e.pcs| && idx < |e.stops| && Counted(Pass(e).pcs[j], j, |e.pcs|, idx)
      ensures e.stops[idx] == |e.pcs|
    {
      assert Counted(e.pcs[j], j, |e.pcs|, idx);
    }
  }

  lemma {:induction false} RunKeeps(c: Setting, e: Entry, evs: seq<Event>, e': Entry)
    requires Fitting(c) && Inv(c, e) && Run(c, e, evs, e')
    ensures Inv(c, e')
    decreases |evs|
  {
    if evs != [] {
      var mid: Entry :| |mid.pcs| == |c.gr.items| && Exec(c, e, evs[0], mid) && Run(c, mid, evs[1..], e');
      if evs[0].Step? { ActKeeps(c, e, evs[0].i); } else { ReleaseKeeps(c, e); }
      RunKeeps(c, mid, evs[1..], e');
    }
  }

  lemma BeginsInv(c: Setting, e: Entry)
    requires Fitting(c) && Begins(c, e)
    ensures Inv(c, e)
  {
    assert forall i: nat, idx: nat | i < |c.gr.items| :: !Counted(e.pcs[i], i, |c.gr.items|, idx);
  }

  // ---------------------------------------------------------------- results

  // Whoever is past the barrier finds every counter initialised and local
  // memory loaded, as if all this had been done at once; and what an item
  // becomes at the switch is what it becomes there.
  lemma EntersAsOne(c: Setting, e: Entry, evs: seq<Event>, e': Entry, i: nat)
    requires Fitting(c) && Begins(c, e) && Run(c, e, evs, e')
    requires i < |e'.pcs| && PastBarrier(e'.pcs[i])
    ensures var gr := S.EnterGroup(c.p, c.gr, c.hdrs, c.env, c.lm);
            && e'.stops == gr.stops && e'.lm == gr.lm && (c.p.words > 0 ==> e'.final == gr.final)
            && |e'.pcs| == |gr.items|
            && forall j | 0 <= j < |e'.pcs| && e'.pcs[j].Entered? :: e'.pcs[j].it == gr.items[j]
  {
    BeginsInv(c, e);
    RunKeeps(c, e, evs, e');
    var size, gr := |c.gr.items|, S.EnterGroup(c.p, c.gr, c.hdrs, c.env, c.lm);
    if Meets(c.p) {
      forall idx: nat | idx < |e'.stops| ensures e'.stops[idx] == size {
        var owner := Owner(idx, size);
        assert PastBarrier(e'.pcs[owner]) && Counted(e'.pcs[owner], owner, size, idx);
      }
      assert PastBarrier(e'.pcs[0]);
    }
    if j :| 0 <= j < size && c.hdrs[j] != 1 {
      assert Meets(c.p) ==> PastBarrier(e'.pcs[j]);
    }
  }

  // Where the switch leads: header 1 to the start of the kernel body with the
  // arguments, a label to what follows it with the saved variables, and anything
  // else out of the kernel.
  lemma TakesTheSwitch(c: Setting, e: Entry, evs: seq<Event>, e': Entry, i: nat)
    requires Fitting(c) && Begins(c, e) && Run(c, e, evs, e')
    requires i < |e'.pcs| && e'.pcs[i].Entered?
    ensures |e'.pcs| == |c.gr.items|
    ensures var was, it, hdr := c.gr.items[i], e'.pcs[i].it, c.hdrs[i];
            && it.id == was.id && it.hdr == hdr && it.prv == was.prv
            && (hdr == 1 ==> it.pc == S.Run(c.p.code, KStop) && it.env == was.env)
            && (hdr > 1 ==>
                  var site := Find(hdr, c.p.code, KStop);
                  if site.None? then it.pc == S.Exit0
                  else it.pc == S.Run(Skip, site.value.k)
                       && forall x | x in site.value.save :: Get(it.env, x) == Get(was.prv, x))
            && (hdr <= 0 ==> it.pc == S.Exit0)
  {
    BeginsInv(c, e);
    RunKeeps(c, e, evs, e');
  }

  // From a fresh launch the items come to where `Launch` starts, which stands
  // for the source group before its first step.
  lemma FirstEntry(p: S.Program, og: O.Group, prv: Env, buf: seq<int>, env: int -> Env,
                   e: Entry, evs: seq<Event>, e': Entry)
    requires Shaped(p) && |og.items| > 0 && |og.lm| == |buf| == p.words
    requires forall i | 0 <= i < |og.items| :: og.items[i].s == Erase(p.code) && og.items[i].k == KStop
    requires var c := Unentered(p, og, prv, buf, env); Begins(c, e) && Run(c, e, evs, e')
    requires |e'.pcs| == |og.items| && forall i | 0 <= i < |e'.pcs| :: e'.pcs[i].Entered?
    ensures var gr := S.Group(seq(|e'.pcs|, i requires 0 <= i < |e'.pcs| && e'.pcs[i].Entered? => e'.pcs[i].it),
                              e'.lm, buf, e'.stops, e'.final);
            P.Inv(p, gr, P.Work) && GroupRel(p, gr, og)
  {
    var c := Unentered(p, og, prv, buf, env);
    EntersAsOne(c, e, evs, e', 0);
    StartsFresh(p, og, prv, buf, env);
    LaunchGroupRel(p, og, prv, buf);
    var gr := S.Group(seq(|e'.pcs|, i requires 0 <= i < |e'.pcs| && e'.pcs[i].Entered? => e'.pcs[i].it),
                      e'.lm, buf, e'.stops, e'.final);
    var gr' := LaunchGroup(p, og, prv, buf);
    assert gr.items == gr'.items;
    assert gr == gr'.(final := e'.final);
    if p.words == 0 { FinalUnused(p, gr', e'.final); }
  }

  function Unentered(p: S.Program, og: O.Group, prv: Env, buf: seq<int>, env: int -> Env): Setting {
    var gr := Unstarted(og, prv, buf);
    Setting(p, gr, S.HeadersOf(gr), env, og.lm)
  }

  // Without local memory there is no exit counter.
  lemma FinalUnused(p: S.Program, gr: S.Group, final: int)
    requires p.words == 0 && P.Inv(p, gr, P.Work)
    ensures P.Inv(p, gr.(final := final), P.Work)
  {
    var gr' := gr.(final := final);
    forall i | 0 <= i < |gr.items| ensures P.ItemOk(p, gr', P.Work, gr'.items[i].pc) {
      assert P.ItemOk(p, gr, P.Work, gr.items[i].pc);
    }
  }

  // No item ever waits for nothing.
  lemma AllEnter(c: Setting, e: Entry, evs: seq<Event>, e': Entry)
    requires Fitting(c) && Begins(c, e) && Run(c, e, evs, e')
    ensures |e'.pcs| == |c.gr.items|
    ensures (forall i | 0 <= i < |e'.pcs| :: e'.pcs[i].Entered?) || exists ev, e'' :: Exec(c, e', ev, e'')
  {
    BeginsInv(c, e);
    RunKeeps(c, e, evs, e');
    if i :| 0 <= i < |e'.pcs| && CanAct(e'.pcs[i]) {
      assert Exec(c, e', Step(i), Act(c, e', i));
    } else if i :| 0 <= i < |e'.pcs| && !e'.pcs[i].Entered? {
      assert CanRelease(e');
      assert Exec(c, e', Release, Pass(e'));
    }
  }

  // Until an item has taken the switch the others may be in the kernel already.
  // They do not notice what it has become.
  lemma SwitchIsPrivate(p: S.Program, gr: S.Group, i: nat, it: S.Item, j: nat, gm: map<int, int>, v: int, timer: bool)
    requires i < |gr.items| && j < |gr.items| && i != j && S.CanAct(gr.items[j].pc) && S.WellFormed(p, gr)
    ensures var late := gr.(items := gr.items[i := it]);
            if gr.items[j].pc.Run? then
              var (gr', gm') := S.ActRun(gr, gm, j, v, timer);
              S.ActRun(late, gm, j, v, timer) == (gr'.(items := gr'.items[i := it]), gm')
            else
              var gr' := S.ActProtocol(p, gr, j);
              S.ActProtocol(p, late, j) == gr'.(items := gr'.items[i := it])
  {
    var gr' := if gr.items[j].pc.Run? then S.ActRun(gr, gm, j, v, timer).0 else S.ActProtocol(p, gr, j);
    assert gr.items[i := it][j := gr'.items[j]] == gr.items[j := gr'.items[j]][i := it];
  }
}
