/** The buffer for local memory, byte by byte.  Whoever of the last batch leaves
    stores its share of every local variable; when the group is gone its part of
    the buffer holds all of local memory, where the next slice reloads it. */
module LocalBuffer {
  import opened Kernel
  import opened Layout
  import opened Simulation
  import opened Preservation
  import opened Rounds
  import opened Sums
  import O = Original
  import P = Protocol
  import S = Sliced
  import opened Toolkit

  // The sizes of the local variables, and the bytes of each for given contents
  // of local memory.
  datatype Regions = Regions(sizes: seq<nat>, enc: seq<int> -> seq<seq<bv8>>)

  ghost predicate Proper(rs: Regions) {
    forall lm: seq<int> :: FitSizes(rs.sizes, rs.enc(lm))
  }

  predicate FitSizes(sizes: seq<nat>, src: seq<seq<bv8>>) {
    |src| == |sizes| && forall r | 0 <= r < |src| :: |src[r]| == sizes[r]
  }

  // Where region r starts in the group's part of the buffer.
  function Start(sizes: seq<nat>, r: nat): nat
    requires r <= |sizes|
  {
    Sum(Padded(sizes)[..r])
  }

  function Total(sizes: seq<nat>): nat {
    Sum(Padded(sizes))
  }

  lemma RegionIn(sizes: seq<nat>, r: nat)
    requires r < |sizes|
    ensures Start(sizes, r) + sizes[r] <= Total(sizes)
  {
    SumPrefix(Padded(sizes), r);
  }

  lemma RegionsDisjoint(sizes: seq<nat>, r: nat, q: nat)
    requires r < |sizes| && q < |sizes| && r != q
    ensures Start(sizes, r) + sizes[r] <= Start(sizes, q) || Start(sizes, q) + sizes[q] <= Start(sizes, r)
  {
    RegionsApart(Padded(sizes), if r < q then r else q, if r < q then q else r);
  }

  // An item stores its share of the regions from number r on.
  function ShareFrom(part: seq<bv8>, sizes: seq<nat>, src: seq<seq<bv8>>, r: nat, id: nat, batch: nat)
    : (part': seq<bv8>)
    requires batch > 0 && r <= |src| && FitSizes(sizes, src) && |part| == Total(sizes)
    ensures |part'| == |part|
    decreases |src| - r
  {
    if r == |src| then part
    else
      RegionIn(sizes, r);
      ShareFrom(Share(part, Start(sizes, r), src[r], id, batch), sizes, src, r + 1, id, batch)
  }

  // Byte o of region q afterwards.
  lemma {:induction false} SharedAt(part: seq<bv8>, sizes: seq<nat>, src: seq<seq<bv8>>, r: nat, id: nat, batch: nat,
                                    q: nat, o: nat)
    requires batch > 0 && r <= |src| && FitSizes(sizes, src) && |part| == Total(sizes)
    requires q < |src| && o < |src[q]|
    ensures Start(sizes, q) + o < |part|
    ensures ShareFrom(part, sizes, src, r, id, batch)[Start(sizes, q) + o] ==
            if q >= r && Owner(o, batch) == id then src[q][o] else part[Start(sizes, q) + o]
    decreases |src| - r
  {
    RegionIn(sizes, q);
    if r < |src| {
      RegionIn(sizes, r);
      if q != r { RegionsDisjoint(sizes, r, q); }
      SharedAt(Share(part, Start(sizes, r), src[r], id, batch), sizes, src, r + 1, id, batch, q, o);
    }
  }

  // The bytes that item `id` of a batch has to store are stored.
  ghost predicate HasShare(part: seq<bv8>, sizes: seq<nat>, src: seq<seq<bv8>>, id: nat, batch: nat)
    requires batch > 0 && FitSizes(sizes, src) && |part| == Total(sizes)
  {
    forall q, o | 0 <= q < |src| && 0 <= o < |src[q]| && Owner(o, batch) == id ::
      Start(sizes, q) + o < |part| && part[Start(sizes, q) + o] == src[q][o]
  }

  lemma SharesStore(part: seq<bv8>, sizes: seq<nat>, src: seq<seq<bv8>>, id: nat, batch: nat, e: nat)
    requires batch > 0 && FitSizes(sizes, src) && |part| == Total(sizes)
    requires e == id || HasShare(part, sizes, src, e, batch)
    ensures HasShare(ShareFrom(part, sizes, src, 0, id, batch), sizes, src, e, batch)
  {
    forall q, o | 0 <= q < |src| && 0 <= o < |src[q]| && Owner(o, batch) == e
      ensures Start(sizes, q) + o < |part|
      ensures ShareFrom(part, sizes, src, 0, id, batch)[Start(sizes, q) + o] == src[q][o]
    {
      SharedAt(part, sizes, src, 0, id, batch, q, o);
    }
  }

  // ---------------------------------------------------------- along a slice

  // The group's part of the buffer after an act of one of its items.
  ghost function Acted(rs: Regions, gr: S.Group, i: nat, part: seq<bv8>): (part': seq<bv8>)
    requires Proper(rs) && |part| == Total(rs.sizes) && i < |gr.items|
    ensures |part'| == |part|
  {
    match gr.items[i].pc
    case Left2(batch, eid) =>
      if gr.final == 0 && batch > 0 && eid >= 0 then
        assert FitSizes(rs.sizes, rs.enc(gr.lm));
        ShareFrom(part, rs.sizes, rs.enc(gr.lm), 0, eid, batch)
      else part
    case _ => part
  }

  // While the last batch leaves, each id's share is stored or about to be.
  ghost predicate PartFits(p: S.Program, rs: Regions, gr: S.Group, m: P.Mode, part: seq<bv8>)
    requires Proper(rs)
  {
    && |part| == Total(rs.sizes)
    && (p.words > 0 && m.Drain? && gr.final == 0 ==>
          m.batch > 0 && forall e | 0 <= e < m.batch :: P.Taken(gr, e) || ShareThere(rs, gr, part, e, m.batch))
  }

  ghost predicate ShareThere(rs: Regions, gr: S.Group, part: seq<bv8>, e: nat, batch: nat)
    requires Proper(rs) && batch > 0 && |part| == Total(rs.sizes)
  {
    assert FitSizes(rs.sizes, rs.enc(gr.lm));
    HasShare(part, rs.sizes, rs.enc(gr.lm), e, batch)
  }

  lemma StoreFits(p: S.Program, rs: Regions, gr: S.Group, i: nat, m: P.Mode, part: seq<bv8>)
    requires Proper(rs) && P.Inv(p, gr, m) && PartFits(p, rs, gr, m, part) && p.words > 0 && m.Drain? && gr.final == 0
    requires i < |gr.items| && gr.items[i].pc.Left2?
    ensures PartFits(p, rs, S.ActProtocol(p, gr, i), m, Acted(rs, gr, i, part))
  {
    var gr', part', eid := S.ActProtocol(p, gr, i), Acted(rs, gr, i, part), gr.items[i].pc.eid;
    assert P.ItemOk(p, gr, m, gr.items[i].pc) && 0 <= eid < m.batch;
    forall e | 0 <= e < m.batch ensures P.Taken(gr', e) || ShareThere(rs, gr', part', e, m.batch) {
      assert FitSizes(rs.sizes, rs.enc(gr.lm));
      if e == eid || !P.Taken(gr, e) {
        SharesStore(part, rs.sizes, rs.enc(gr.lm), eid, m.batch, e);
      } else {
        var j :| 0 <= j < |gr.items| && P.HasId(gr.items[j].pc, e);
        assert P.HasId(gr'.items[j].pc, e);
      }
    }
  }

  lemma ProtocolFits(p: S.Program, rs: Regions, gr: S.Group, i: nat, m: P.Mode, part: seq<bv8>)
    requires Proper(rs) && P.Inv(p, gr, m) && PartFits(p, rs, gr, m, part)
    requires i < |gr.items| && !gr.items[i].pc.Run? && S.CanAct(gr.items[i].pc)
    ensures PartFits(p, rs, S.ActProtocol(p, gr, i), m, Acted(rs, gr, i, part))
  {
    if p.words > 0 && m.Drain? {
      var gr' := S.ActProtocol(p, gr, i);
      assert P.ItemOk(p, gr, m, gr.items[i].pc);
      if gr.items[i].pc.Left2? {
        if gr.final == 0 { StoreFits(p, rs, gr, i, m, part); }
      } else if gr'.final == 0 {
        P.TakenKept(gr, gr', i);
        forall e | 0 <= e < m.batch ensures P.Taken(gr', e) || ShareThere(rs, gr', part, e, m.batch) {
          assert P.Taken(gr, e) || ShareThere(rs, gr, part, e, m.batch);
        }
      }
    }
  }

  // A round closes with all ids of the batch still to store.
  lemma ReleaseFits(p: S.Program, rs: Regions, gr: S.Group, m: P.Mode, part: seq<bv8>)
    requires Proper(rs) && P.Inv(p, gr, m) && PartFits(p, rs, gr, m, part) && S.CanRelease(gr)
    ensures PartFits(p, rs, S.Pass(gr), P.NextMode(gr, m), part)
  {
    var gr', m' := S.Pass(gr), P.NextMode(gr, m);
    if p.words > 0 && m'.Drain? && gr.final == 0 {
      P.PassIds(p, gr, gr', m);
      forall e | 0 <= e < m'.batch ensures P.Taken(gr', e) {
        assert P.Taken(gr, e);
        var j :| 0 <= j < |gr.items| && P.HasId(gr.items[j].pc, e);
        assert P.HasId(gr'.items[j].pc, e);
      }
    }
  }

  // ------------------------------------------------------------ along a run

  ghost function After(rs: Regions, st: S.Grid, ev: S.Event, g: nat, part: seq<bv8>): (part': seq<bv8>)
    requires Proper(rs) && |part| == Total(rs.sizes)
    ensures |part'| == |part|
  {
    if ev.Act? && ev.g == g && g < |st.groups| && ev.i < |st.groups[g].items| then Acted(rs, st.groups[g], ev.i, part)
    else part
  }

  ghost function AfterAll(p: S.Program, rs: Regions, st: S.Grid, evs: seq<S.Event>, g: nat, part: seq<bv8>)
    : (part': seq<bv8>)
    requires Proper(rs) && |part| == Total(rs.sizes)
    ensures |part'| == |part|
    decreases |evs|
  {
    if evs == [] || S.Exec(p, st, evs[0]).None? then part
    else AfterAll(p, rs, S.Exec(p, st, evs[0]).value, evs[1..], g, After(rs, st, evs[0], g, part))
  }

  lemma EventFits(p: S.Program, rs: Regions, st: S.Grid, ev: S.Event, ms: seq<P.Mode>, ost: O.Grid, g: nat,
                  part: seq<bv8>)
    requires Shaped(p) && Rel(p, st, ms, ost) && S.Exec(p, st, ev).Some? && Proper(rs)
    requires g < |st.groups| && PartFits(p, rs, st.groups[g], ms[g], part)
    ensures var st' := S.Exec(p, st, ev).value;
            |st'.groups| == |st.groups|
            && PartFits(p, rs, st'.groups[g], Modes(st, ms, ev)[g], After(rs, st, ev, g, part))
  {
    var gr := st.groups[g];
    assert P.Inv(p, gr, ms[g]) && GroupRel(p, gr, ost.groups[g]);
    match ev
    case Act(h, i, v, timer) =>
      if h == g {
        if gr.items[i].pc.Run? {
          assert P.ItemOk(p, gr, ms[g], gr.items[i].pc);
        } else {
          ProtocolFits(p, rs, gr, i, ms[g], part);
        }
      }
    case Release(h) => if h == g { ReleaseFits(p, rs, gr, ms[g], part); }
    case Relaunch(_, _) =>
  }

  lemma {:induction false} RunFits(p: S.Program, rs: Regions, st: S.Grid, evs: seq<S.Event>, ms: seq<P.Mode>,
                                   ost: O.Grid, g: nat, part: seq<bv8>)
    requires Sound(p) && Rel(p, st, ms, ost) && S.ExecAll(p, st, evs).Some? && Proper(rs)
    requires g < |st.groups| && PartFits(p, rs, st.groups[g], ms[g], part)
    ensures var end, ms' := S.ExecAll(p, st, evs).value, Trace(p, st, ms, evs).1;
            && |end.groups| == |st.groups| == |ms'|
            && PartFits(p, rs, end.groups[g], ms'[g], AfterAll(p, rs, st, evs, g, part))
    decreases |evs|
  {
    if evs != [] {
      EventFits(p, rs, st, evs[0], ms, ost, g, part);
      SimStep(p, st, evs[0], ms, ost);
      RunFits(p, rs, S.Exec(p, st, evs[0]).value, evs[1..], Modes(st, ms, evs[0]),
              O.ExecAll(ost, Meaning(st, ms, evs[0])).value, g, After(rs, st, evs[0], g, part));
    }
  }

  // ---------------------------------------------------------------- the result

  lemma GoneMeansDrained(p: S.Program, gr: S.Group, m: P.Mode)
    requires P.Inv(p, gr, m) && S.AllGone(gr) && p.words > 0
    ensures m.Drain? && gr.final == 0 && forall e :: !P.Taken(gr, e)
  {
    P.ZeroMeansLeft(p, gr, m);
    assert P.ItemOk(p, gr, m, gr.items[0].pc);
    assert forall e :: !P.Taken(gr, e);
    assert !P.Taken(gr, 0);
  }

  // When a group is gone, in any run, its part of the buffer holds every region
  // of its local memory, which is what the next slice will start with.
  lemma LocalBytesSaved(src: Stmt, claim: nat -> set<Var>, params: set<Var>, words: nat, ost: O.Grid,
                        prv: Env, buf: nat -> seq<int>, evs: seq<S.Event>, st: S.Grid,
                        rs: Regions, part: seq<bv8>, g: nat, r: nat)
    requires Reached(src, claim, params, words, ost, prv, buf, evs, st) && words > 0
    requires Proper(rs) && |part| == Total(rs.sizes) && r < |rs.sizes|
    requires g < |st.groups| && S.AllGone(st.groups[g])
    ensures var p := Compile(src, claim, params, words);
            var part' := AfterAll(p, rs, Launch(p, ost, prv, buf), evs, g, part);
            var lo := Start(rs.sizes, r);
            && st.groups[g].buf == st.groups[g].lm
            && lo + rs.sizes[r] <= |part'| && r < |rs.enc(st.groups[g].buf)|
            && part'[lo..lo + rs.sizes[r]] == rs.enc(st.groups[g].buf)[r]
  {
    var p := Compile(src, claim, params, words);
    var start := Launch(p, ost, prv, buf);
    CompileSound(src, claim, params, words);
    LaunchRel(p, ost, prv, buf);
    GroupsStay(p, start, evs);
    RunSaves(p, rs, start, evs, AllWork(|ost.groups|), ost, g, part, r);
  }

  lemma {:induction false} GroupsStay(p: S.Program, st: S.Grid, evs: seq<S.Event>)
    requires S.ExecAll(p, st, evs).Some?
    ensures |S.ExecAll(p, st, evs).value.groups| == |st.groups|
    decreases |evs|
  {
    if evs != [] { GroupsStay(p, S.Exec(p, st, evs[0]).value, evs[1..]); }
  }

  lemma RunSaves(p: S.Program, rs: Regions, st: S.Grid, evs: seq<S.Event>, ms: seq<P.Mode>, ost: O.Grid, g: nat,
                 part: seq<bv8>, r: nat)
    requires Sound(p) && Rel(p, st, ms, ost) && S.ExecAll(p, st, evs).Some? && Proper(rs) && p.words > 0
    requires g < |st.groups| && r < |rs.sizes| && ms[g] == P.Work && |part| == Total(rs.sizes)
    requires var end := S.ExecAll(p, st, evs).value; g < |end.groups| && S.AllGone(end.groups[g])
    ensures var gr, part' := S.ExecAll(p, st, evs).value.groups[g], AfterAll(p, rs, st, evs, g, part);
            var lo := Start(rs.sizes, r);
            && gr.buf == gr.lm && lo + rs.sizes[r] <= |part'| && r < |rs.enc(gr.buf)|
            && part'[lo..lo + rs.sizes[r]] == rs.enc(gr.buf)[r]
  {
    Simulates(p, st, evs, ms, ost);
    var m := Trace(p, st, ms, evs).1[g];
    RunFits(p, rs, st, evs, ms, ost, g, part);
    AllStored(p, rs, S.ExecAll(p, st, evs).value.groups[g], m, AfterAll(p, rs, st, evs, g, part), r);
  }

  lemma AllStored(p: S.Program, rs: Regions, gr: S.Group, m: P.Mode, part: seq<bv8>, r: nat)
    requires Proper(rs) && P.Inv(p, gr, m) && PartFits(p, rs, gr, m, part) && S.AllGone(gr) && p.words > 0
    requires r < |rs.sizes|
    ensures gr.buf == gr.lm
    ensures var lo := Start(rs.sizes, r);
            && lo + rs.sizes[r] <= |part| && r < |rs.enc(gr.buf)|
            && part[lo..lo + rs.sizes[r]] == rs.enc(gr.buf)[r]
  {
    P.SavedAtEnd(p, gr, m);
    GoneMeansDrained(p, gr, m);
    RegionIn(rs.sizes, r);
    var src := rs.enc(gr.lm);
    assert FitSizes(rs.sizes, src);
    forall o: nat | o < |src[r]| ensures part[Start(rs.sizes, r) + o] == src[r][o] {
      assert P.Taken(gr, Owner(o, m.batch)) || ShareThere(rs, gr, part, Owner(o, m.batch), m.batch);
    }
  }
}
