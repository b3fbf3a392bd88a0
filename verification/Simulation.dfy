/** Every run of the instrumented kernel, sliced in any way, is a run of the
    source kernel: a work-item parked at a label stands for the source item at
    the label's static continuation, and one blocked at a barrier for the item
    that waits there. */
module Simulation {
  import opened Wrappers
  import opened Kernel
  import opened Liveness
  import opened Labels
  import opened Headers
  import Instrument
  import O = Original
  import S = Sliced
  import Protocol

  // What the instrumentor guarantees about emitted code, whatever is saved.
  ghost predicate Shaped(p: S.Program) {
    && Emitted(p.code, false)
    && (forall n | n in LabelsOf(p.code) :: n >= 2)
    && Instrument.OneToOne(Instrument.Marks(p.code))
    && (forall x | x in Instrument.Marks(p.code) :: x.idx < p.stops)
  }

  // And if every label saves what is live after it.
  ghost predicate Sound(p: S.Program) {
    Shaped(p) && Instrument.SavesLive(p.code, KStop)
  }

  // A label saves what is live after it.
  predicate Covers(site: Site) {
    LiveK(site.k) <= site.save
  }

  // ------------------------------------------------------------- relation

  ghost predicate GateOk(p: S.Program, gate: S.Gate) {
    Find(gate.n, p.code, KStop) == Some(Wait(gate.b, gate.idx, gate.save, gate.k))
  }

  ghost predicate GateRel(p: S.Program, gate: S.Gate, env: Env, o: O.Item) {
    && GateOk(p, gate)
    && o.s == Barrier(gate.b) && o.k == EraseK(gate.k) && Agree(env, o.env, LiveK(gate.k))
  }

  // The source item that a header and the saved variables stand for: 0 one that
  // is done, n one at a timer test, -n one at a barrier.  At a label that saves
  // too little only the place is right.
  ghost predicate ParkRel(p: S.Program, hdr: int, prv: Env, o: O.Item) {
    if hdr == 0 then O.Done(o)
    else
      var site := Find(if hdr < 0 then -hdr else hdr, p.code, KStop);
      && site.Some? && o.k == EraseK(site.value.k)
      && (Covers(site.value) ==> Agree(prv, o.env, LiveK(site.value.k)))
      && if hdr > 0 then site.value.Resume? && o.s == Skip else site.value.Wait? && o.s == Barrier(site.value.b)
  }

  ghost predicate ItemRel(p: S.Program, it: S.Item, o: O.Item) {
    && o.id == it.id
    && match it.pc
       case Run(s, k) =>
         && Placed(p.code, s, k) && PlacedK(p.code, k)
         && o.s == Erase(s) && o.k == EraseK(k) && Agree(it.env, o.env, LiveAt(s, k))
       case Stop1(gate) => GateRel(p, gate, it.env, o)
       case Past1(gate) => GateRel(p, gate, it.env, o)
       case Stop2(gate, _) => GateRel(p, gate, it.env, o)
       case Past2(gate, _) => GateRel(p, gate, it.env, o)
       case Pause(gate) => GateRel(p, gate, it.env, o)
       case _ => ParkRel(p, it.hdr, it.prv, o)
  }

  ghost predicate GroupRel(p: S.Program, gr: S.Group, og: O.Group) {
    && |og.items| == |gr.items| && og.lm == gr.lm
    && forall i | 0 <= i < |gr.items| :: ItemRel(p, gr.items[i], og.items[i])
  }

  // -------------------------------------------------------- labels and gates

  lemma SiteAt(p: S.Program, n: nat)
    requires Shaped(p) && Find(n, p.code, KStop).Some?
    ensures n >= 2
    ensures var site := Find(n, p.code, KStop).value;
            && PlacedK(p.code, site.k)
            && (site.Resume? ==> site.k.KBody?)
            && (site.Wait? ==> site.idx < p.stops && Instrument.Mark(site.b, site.idx, n) in Instrument.Marks(p.code))
  {
    FindHits(n, p.code, KStop);
    FindPlaced(p.code, n, p.code, KStop);
    Instrument.FindMark(n, p.code, KStop);
  }

  lemma LabelHere(p: S.Program, s: Stmt, k: Cont)
    requires Shaped(p) && Placed(p.code, s, k)
    ensures s.Checkpoint? ==> Find(s.n, p.code, KStop) == Some(Resume(s.save, k))
    ensures s.Stop? ==> Find(s.n, p.code, KStop) == Some(Wait(s.b, s.idx, s.save, k)) && s.idx < p.stops
  {
    if s.Checkpoint? || s.Stop? {
      assert s.n in LabelsOf(s);
      SiteAt(p, s.n);
    }
  }

  // Two items at the same stop counter are at the same barrier.
  lemma SameGate(p: S.Program, g1: S.Gate, g2: S.Gate)
    requires Shaped(p) && GateOk(p, g1) && GateOk(p, g2)
    requires g1.idx == g2.idx || g1.b == g2.b
    ensures g1 == g2
  {
    SiteAt(p, g1.n);
    SiteAt(p, g2.n);
  }

  // ------------------------------------------------------- steps of an item

  lemma {:induction false} EraseStep(p: S.Program, s: Stmt, k: Cont, id: int, d: Data, v: int)
    requires Placed(p.code, s, k) && PlacedK(p.code, k) && Plain(s, k)
    ensures var r := PlainStep(s, k, id, d, v);
            if Stutters(s, k) then Erase(r.s) == Erase(s) && EraseK(r.k) == EraseK(k) && r.d == d
            else Plain(Erase(s), EraseK(k))
                 && PlainStep(Erase(s), EraseK(k), id, d, v) == Point(Erase(r.s), EraseK(r.k), r.d)
  {
    if Moves(s, k) {
      EraseMoves(p.code, s, k, Eval(Cond(s, k), id, d.env) != 0);
      if !Stutters(s, k) { EraseCond(s, k); }
    }
  }

  // One step of emitted source code is one step of the source, or none.
  lemma {:induction false} ItemStep(p: S.Program, it: S.Item, o: O.Item, lm: seq<int>, gm: map<int, int>, v: int)
    requires Shaped(p) && ItemRel(p, it, o) && it.pc.Run? && Plain(it.pc.s, it.pc.k)
    ensures var r := PlainStep(it.pc.s, it.pc.k, it.id, Data(it.env, lm, gm), v);
            var it' := it.(pc := S.Run(r.s, r.k), env := r.d.env);
            if Stutters(it.pc.s, it.pc.k) then ItemRel(p, it', o) && r.d.lm == lm && r.d.gm == gm
            else
              && Plain(o.s, o.k)
              && var q := PlainStep(o.s, o.k, o.id, Data(o.env, lm, gm), v);
                 q.d.lm == r.d.lm && q.d.gm == r.d.gm && ItemRel(p, it', O.Item(o.id, q.s, q.k, q.d.env))
  {
    var s, k := it.pc.s, it.pc.k;
    var d, od := Data(it.env, lm, gm), Data(o.env, lm, gm);
    StepAgree(s, k, it.id, d, od, v);
    EraseStep(p, s, k, it.id, od, v);
    if Moves(s, k) { MovePlaced(p.code, s, k, Eval(Cond(s, k), it.id, it.env) != 0); }
  }

  // ------------------------------------------------------- steps of a group

  // The act of item `i` is a step of the source kernel.
  predicate Matched(gr: S.Group, i: nat) {
    i < |gr.items| && gr.items[i].pc.Run? && Plain(gr.items[i].pc.s, gr.items[i].pc.k)
    && !Stutters(gr.items[i].pc.s, gr.items[i].pc.k)
  }

  // Timer tests, barriers reached and the end of the kernel.
  lemma {:induction false} ItemStops(p: S.Program, gr: S.Group, gm: map<int, int>, i: nat, v: int, timer: bool,
                                     o: O.Item)
    requires Shaped(p) && i < |gr.items| && gr.items[i].pc.Run? && S.CanAct(gr.items[i].pc)
    requires !Plain(gr.items[i].pc.s, gr.items[i].pc.k) && ItemRel(p, gr.items[i], o)
    ensures var (gr', gm') := S.ActRun(gr, gm, i, v, timer);
            gm' == gm && gr'.lm == gr.lm && |gr'.items| == |gr.items| && ItemRel(p, gr'.items[i], o)
  {
    var s, k := gr.items[i].pc.s, gr.items[i].pc.k;
    LabelHere(p, s, k);
    if s.Checkpoint? { SiteAt(p, s.n); }
  }

  lemma {:induction false} SimRun(p: S.Program, gr: S.Group, og: O.Group, gm: map<int, int>, i: nat, v: int,
                                  timer: bool)
    requires Shaped(p) && GroupRel(p, gr, og) && i < |gr.items| && gr.items[i].pc.Run? && S.CanAct(gr.items[i].pc)
    ensures var (gr', gm') := S.ActRun(gr, gm, i, v, timer);
            if Matched(gr, i) then
              Plain(og.items[i].s, og.items[i].k)
              && var (og', om') := O.StepGroup(og, gm, i, v); om' == gm' && GroupRel(p, gr', og')
            else gm' == gm && GroupRel(p, gr', og)
  {
    assert ItemRel(p, gr.items[i], og.items[i]);
    if Plain(gr.items[i].pc.s, gr.items[i].pc.k) {
      ItemStep(p, gr.items[i], og.items[i], gr.lm, gm, v);
    } else {
      ItemStops(p, gr, gm, i, v, timer, og.items[i]);
    }
    var (gr', gm') := S.ActRun(gr, gm, i, v, timer);
    assert forall j | 0 <= j < |gr.items| && j != i :: gr'.items[j] == gr.items[j];
  }

  lemma {:induction false} SimProtocol(p: S.Program, gr: S.Group, og: O.Group, i: nat)
    requires Shaped(p) && GroupRel(p, gr, og) && S.WellFormed(p, gr)
    requires i < |gr.items| && !gr.items[i].pc.Run? && S.CanAct(gr.items[i].pc)
    ensures GroupRel(p, S.ActProtocol(p, gr, i), og)
  {
    var gr' := S.ActProtocol(p, gr, i);
    var pc := gr.items[i].pc;
    assert ItemRel(p, gr.items[i], og.items[i]);
    if pc.Past2? { SiteAt(p, pc.gate.n); }
    assert forall j | 0 <= j < |gr.items| && j != i :: gr'.items[j] == gr.items[j];
  }

  lemma {:induction false} SimRelease(p: S.Program, gr: S.Group, og: O.Group, m: Protocol.Mode)
    requires Shaped(p) && GroupRel(p, gr, og) && Protocol.Inv(p, gr, m) && S.CanRelease(gr)
    ensures if m.Through? then O.CanRelease(og) && GroupRel(p, S.Pass(gr), O.Pass(og))
            else GroupRel(p, S.Pass(gr), og)
  {
    forall j | 0 <= j < |gr.items|
      ensures m.Through? ==> gr.items[j].pc.Pause? && gr.items[j].pc.gate == gr.items[0].pc.gate
      ensures m.Through? ==> og.items[j].s == og.items[0].s
      ensures ItemRel(p, S.Pass(gr).items[j], if m.Through? then O.Pass(og).items[j] else og.items[j])
    {
      SimPassItem(p, gr, og, m, j);
    }
  }

  lemma {:induction false} SimPassItem(p: S.Program, gr: S.Group, og: O.Group, m: Protocol.Mode, j: nat)
    requires Shaped(p) && GroupRel(p, gr, og) && Protocol.Inv(p, gr, m) && S.CanRelease(gr) && j < |gr.items|
    ensures m.Through? ==> gr.items[j].pc.Pause? && gr.items[0].pc.Pause? && gr.items[j].pc.gate == gr.items[0].pc.gate
                           && og.items[j].s.Barrier? && og.items[j].s == og.items[0].s
    ensures ItemRel(p, gr.items[j].(pc := S.Past(gr.items[j].pc)),
                    if m.Through? then og.items[j].(s := Skip) else og.items[j])
  {
    assert ItemRel(p, gr.items[j], og.items[j]) && ItemRel(p, gr.items[0], og.items[0]);
    assert Protocol.ItemOk(p, gr, m, gr.items[j].pc) && Protocol.ItemOk(p, gr, m, gr.items[0].pc);
    if m.Through? {
      SameGate(p, gr.items[j].pc.gate, gr.items[0].pc.gate);
      SiteAt(p, gr.items[j].pc.gate.n);
    }
  }

  // ----------------------------------------------------------- next slice

  // A group blocked by one barrier stands for source items that may all pass.
  lemma {:induction false} BlockedMayPass(p: S.Program, gr: S.Group, og: O.Group)
    requires Shaped(p) && GroupRel(p, gr, og) && S.AllGone(gr) && Blocked(S.HeadersOf(gr))
    ensures O.CanRelease(og)
  {
    var h := S.HeadersOf(gr);
    forall j | 0 <= j < |gr.items| ensures og.items[j].s.Barrier? && og.items[j].s == og.items[0].s {
      assert ItemRel(p, gr.items[j], og.items[j]) && ItemRel(p, gr.items[0], og.items[0]);
      assert h[j] == gr.items[j].hdr && h[0] == gr.items[0].hdr;
    }
  }

  // Every label that these headers resume saves what is live after it.
  ghost predicate Restores(p: S.Program, hdrs: seq<int>) {
    forall i | 0 <= i < |hdrs| && hdrs[i] > 1 && Find(hdrs[i], p.code, KStop).Some? ::
      Covers(Find(hdrs[i], p.code, KStop).value)
  }

  ghost predicate AllRestores(p: S.Program, st: S.Grid) {
    forall g | 0 <= g < |st.groups| :: Restores(p, Released(S.HeadersOf(st.groups[g])))
  }

  lemma SoundRestores(p: S.Program, st: S.Grid)
    requires Sound(p)
    ensures AllRestores(p, st)
  {
    forall n: nat | Find(n, p.code, KStop).Some? ensures Covers(Find(n, p.code, KStop).value) {
      FindHits(n, p.code, KStop);
    }
  }

  lemma {:induction false} EnterItem(p: S.Program, it: S.Item, o: O.Item, flipped: bool, junk: Env)
    requires Shaped(p) && it.pc.Gone? && ItemRel(p, it, o) && (flipped ==> it.hdr < 0)
    requires Restores(p, [if flipped then -it.hdr else it.hdr])
    ensures var hdr := if flipped then -it.hdr else it.hdr;
            hdr != 1 && ItemRel(p, S.Enter(p, it, hdr, junk), if flipped then o.(s := Skip) else o)
  {
    var hdr := if flipped then -it.hdr else it.hdr;
    assert [hdr][0] == hdr;
    if it.hdr != 0 { SiteAt(p, if it.hdr < 0 then -it.hdr else it.hdr); }
  }

  lemma {:induction false} EnterInv(p: S.Program, gr: S.Group, m: Protocol.Mode, hdrs: seq<int>, env: int -> Env,
                                    lm: seq<int>)
    requires Protocol.Inv(p, gr, m) && |hdrs| == |gr.items| && |lm| == p.words
    ensures Protocol.Inv(p, S.EnterGroup(p, gr, hdrs, env, lm), Protocol.Work)
  {
    var gr' := S.EnterGroup(p, gr, hdrs, env, lm);
    forall j | 0 <= j < |gr'.items| ensures gr'.items[j].pc.Run? || gr'.items[j].pc.Exit0? {
      assert gr'.items[j] == S.Enter(p, gr.items[j], hdrs[j], env(gr.items[j].id));
    }
    NobodyCounted(p, gr'.items);
    assert forall j | 0 <= j < |gr'.items| :: Protocol.ItemOk(p, gr', Protocol.Work, gr'.items[j].pc);
  }

  lemma NobodyCounted(p: S.Program, items: seq<S.Item>)
    requires forall j | 0 <= j < |items| :: items[j].pc.Run? || items[j].pc.Exit0?
    ensures Protocol.Count(Protocol.Leavers(items)) == 0
    ensures forall idx: nat :: Protocol.Count(Protocol.Holders(items, idx)) == 0
  {
    Protocol.CountAll(Protocol.Leavers(items));
    forall idx: nat ensures Protocol.Count(Protocol.Holders(items, idx)) == 0 {
      Protocol.CountAll(Protocol.Holders(items, idx));
    }
  }

  lemma {:induction false} SimEnter(p: S.Program, gr: S.Group, og: O.Group, m: Protocol.Mode, env: int -> Env,
                                    lm: seq<int>)
    requires Shaped(p) && GroupRel(p, gr, og) && Protocol.Inv(p, gr, m) && S.AllGone(gr)
    requires Restores(p, Released(S.HeadersOf(gr)))
    ensures var h := S.HeadersOf(gr);
            GroupRel(p, S.EnterGroup(p, gr, Released(h), env, lm), if Blocked(h) then O.Pass(og) else og)
  {
    var h := S.HeadersOf(gr);
    var gr' := S.EnterGroup(p, gr, Released(h), env, lm);
    var og' := if Blocked(h) then O.Pass(og) else og;
    Protocol.SavedAtEnd(p, gr, m);
    forall j | 0 <= j < |gr.items| ensures Released(h)[j] != 1 && ItemRel(p, gr'.items[j], og'.items[j]) {
      assert h[j] == gr.items[j].hdr && ItemRel(p, gr.items[j], og.items[j]);
      EnterItem(p, gr.items[j], og.items[j], Blocked(h), env(gr.items[j].id));
    }
    assert Released(h)[0] != 1;
  }

  // ------------------------------------------------------------ whole grids

  ghost predicate Rel(p: S.Program, st: S.Grid, ms: seq<Protocol.Mode>, ost: O.Grid) {
    && |ms| == |st.groups| == |ost.groups| && st.gm == ost.gm
    && forall g | 0 <= g < |st.groups| ::
         Protocol.Inv(p, st.groups[g], ms[g]) && GroupRel(p, st.groups[g], ost.groups[g])
  }

  // The groups below `n` that the host lets pass, and the source events this is.
  predicate Passes(st: S.Grid, g: nat) {
    g < |st.groups| && Blocked(S.HeadersOf(st.groups[g]))
  }

  function Passing(st: S.Grid, n: nat): (evs: seq<O.Event>)
    ensures n > 0 && Passes(st, n - 1) ==> |evs| > 0
  {
    if n == 0 then []
    else Passing(st, n - 1) + if Passes(st, n - 1) then [O.Release(n - 1)] else []
  }

  function Passed(st: S.Grid, ost: O.Grid, n: nat): O.Grid {
    ost.(groups := seq(|ost.groups|, g requires 0 <= g < |ost.groups| =>
      if g < n && Passes(st, g) then O.Pass(ost.groups[g]) else ost.groups[g]))
  }

  lemma PassOne(st: S.Grid, ost: O.Grid, n: nat)
    requires 0 < n <= |ost.groups| && (Passes(st, n - 1) ==> O.CanRelease(ost.groups[n - 1]))
    ensures O.ExecAll(Passed(st, ost, n - 1), if Passes(st, n - 1) then [O.Release(n - 1)] else [])
            == Some(Passed(st, ost, n))
  {
    var mid, end := Passed(st, ost, n - 1), Passed(st, ost, n);
    assert mid.groups[n - 1] == ost.groups[n - 1];
    if Passes(st, n - 1) {
      assert mid.groups[n - 1 := O.Pass(mid.groups[n - 1])] == end.groups;
      var ev := O.Release(n - 1);
      assert O.Exec(mid, ev) == Some(end);
      assert O.ExecAll(end, [ev][1..]) == Some(end);
    } else {
      assert mid.groups == end.groups;
    }
  }

  lemma {:induction false} PassingRuns(st: S.Grid, ost: O.Grid, n: nat)
    requires n <= |st.groups| == |ost.groups|
    requires forall g: nat | Passes(st, g) :: O.CanRelease(ost.groups[g])
    ensures O.ExecAll(ost, Passing(st, n)) == Some(Passed(st, ost, n))
  {
    if n == 0 {
      assert Passed(st, ost, 0).groups == ost.groups;
    } else {
      PassingRuns(st, ost, n - 1);
      assert Passes(st, n - 1) ==> O.CanRelease(ost.groups[n - 1]);
      PassOne(st, ost, n);
      var last := if Passes(st, n - 1) then [O.Release(n - 1)] else [];
      Chain(ost, Passing(st, n - 1), Passed(st, ost, n - 1), last, Passed(st, ost, n), Passing(st, n));
    }
  }

  lemma Chain(ost: O.Grid, a: seq<O.Event>, mid: O.Grid, b: seq<O.Event>, end: O.Grid, c: seq<O.Event>)
    requires O.ExecAll(ost, a) == Some(mid) && O.ExecAll(mid, b) == Some(end) && c == a + b
    ensures O.ExecAll(ost, c) == Some(end)
  {
    O.ExecConcat(ost, a, b);
  }

  lemma Append(ost: O.Grid, a: seq<O.Event>, mid: O.Grid, b: seq<O.Event>)
    requires O.ExecAll(ost, a) == Some(mid)
    ensures O.ExecAll(ost, a + b) == O.ExecAll(mid, b)
  {
    O.ExecConcat(ost, a, b);
  }

  // The source events that one event of the sliced run stands for.
  function Meaning(st: S.Grid, ms: seq<Protocol.Mode>, ev: S.Event): seq<O.Event> {
    match ev
    case Act(g, i, v, _) => if g < |st.groups| && Matched(st.groups[g], i) then [O.Step(g, i, v)] else []
    case Release(g) => if g < |ms| && ms[g].Through? then [O.Release(g)] else []
    case Relaunch(_, _) => Passing(st, |st.groups|)
  }

  function Modes(st: S.Grid, ms: seq<Protocol.Mode>, ev: S.Event): seq<Protocol.Mode>
    requires |ms| == |st.groups|
  {
    match ev
    case Act(_, _, _, _) => ms
    case Release(g) => if g < |ms| then ms[g := Protocol.NextMode(st.groups[g], ms[g])] else ms
    case Relaunch(_, _) => seq(|ms|, _ => Protocol.Work)
  }

  lemma {:induction false} SimAct(p: S.Program, st: S.Grid, ev: S.Event, ms: seq<Protocol.Mode>, ost: O.Grid)
    requires Shaped(p) && Rel(p, st, ms, ost) && S.Exec(p, st, ev).Some? && ev.Act?
    ensures var r := O.ExecAll(ost, Meaning(st, ms, ev));
            r.Some? && Rel(p, S.Exec(p, st, ev).value, Modes(st, ms, ev), r.value)
  {
    var gr, og, i := st.groups[ev.g], ost.groups[ev.g], ev.i;
    assert Protocol.Inv(p, gr, ms[ev.g]) && GroupRel(p, gr, og);
    if gr.items[i].pc.Run? {
      assert ItemRel(p, gr.items[i], og.items[i]);
      LabelHere(p, gr.items[i].pc.s, gr.items[i].pc.k);
      SimRun(p, gr, og, st.gm, i, ev.v, ev.timer);
      Protocol.RunHasEffect(gr, st.gm, i, ev.v, ev.timer);
      Protocol.RunKeeps(p, gr, S.ActRun(gr, st.gm, i, ev.v, ev.timer).0, i, ms[ev.g]);
      if Matched(gr, i) {
        var oev := O.Step(ev.g, i, ev.v);
        assert O.ExecAll(ost, [oev]) == O.Exec(ost, oev);
      }
    } else {
      SimProtocol(p, gr, og, i);
      Protocol.ProtocolKeeps(p, gr, i, ms[ev.g]);
    }
  }

  lemma {:induction false} SimBarrier(p: S.Program, st: S.Grid, ev: S.Event, ms: seq<Protocol.Mode>, ost: O.Grid)
    requires Shaped(p) && Rel(p, st, ms, ost) && S.Exec(p, st, ev).Some? && ev.Release?
    ensures var r := O.ExecAll(ost, Meaning(st, ms, ev));
            r.Some? && Rel(p, S.Exec(p, st, ev).value, Modes(st, ms, ev), r.value)
  {
    var gr, og, m := st.groups[ev.g], ost.groups[ev.g], ms[ev.g];
    SimRelease(p, gr, og, m);
    Protocol.ReleaseKeeps(p, gr, m);
    if m.Through? {
      var oev := O.Release(ev.g);
      assert O.ExecAll(ost, [oev]) == O.Exec(ost, oev);
    }
  }

  lemma {:induction false} SimRelaunch(p: S.Program, st: S.Grid, ev: S.Event, ms: seq<Protocol.Mode>, ost: O.Grid)
    requires Shaped(p) && Rel(p, st, ms, ost) && S.Exec(p, st, ev).Some? && ev.Relaunch?
    requires AllRestores(p, st)
    ensures var r := O.ExecAll(ost, Meaning(st, ms, ev));
            r.Some? && Rel(p, S.Exec(p, st, ev).value, Modes(st, ms, ev), r.value)
  {
    forall g: nat | Passes(st, g) ensures O.CanRelease(ost.groups[g]) {
      BlockedMayPass(p, st.groups[g], ost.groups[g]);
    }
    PassingRuns(st, ost, |st.groups|);
    var st', ost' := S.NextSlice(p, st, ev.env, ev.lm), Passed(st, ost, |st.groups|);
    forall g | 0 <= g < |st.groups|
      ensures Protocol.Inv(p, st'.groups[g], Protocol.Work) && GroupRel(p, st'.groups[g], ost'.groups[g])
    {
      SimEnter(p, st.groups[g], ost.groups[g], ms[g], ev.env, ev.lm(g));
      EnterInv(p, st.groups[g], ms[g], Released(S.HeadersOf(st.groups[g])), ev.env, ev.lm(g));
    }
  }
}
