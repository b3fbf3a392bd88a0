/** The barrier and exit protocols over whole executions: what holds in every
    state that a launched kernel reaches, whatever the timer says. */
module Rounds {
  import opened Wrappers
  import opened Kernel
  import opened Labels
  import opened Headers
  import opened Simulation
  import opened Preservation
  import O = Original
  import S = Sliced
  import P = Protocol

  ghost predicate Reached(src: Stmt, claim: nat -> set<Var>, params: set<Var>, words: nat, ost: O.Grid,
                          prv: Env, buf: nat -> seq<int>, evs: seq<S.Event>, st: S.Grid)
  {
    && Accepted(src, claim, params) && Initial(ost, src, words) && (forall g: nat :: |buf(g)| == words)
    && var p := Compile(src, claim, params, words);
       S.ExecAll(p, Launch(p, ost, prv, buf), evs) == Some(st)
  }

  // In every state reached each group is in some mode of the protocols, and
  // stands for a state of the source.
  lemma ReachedRel(src: Stmt, claim: nat -> set<Var>, params: set<Var>, words: nat, ost: O.Grid,
                   prv: Env, buf: nat -> seq<int>, evs: seq<S.Event>, st: S.Grid)
    returns (ms: seq<P.Mode>, end: O.Grid)
    requires Reached(src, claim, params, words, ost, prv, buf, evs, st)
    ensures Sound(Compile(src, claim, params, words)) && Rel(Compile(src, claim, params, words), st, ms, end)
  {
    var p := Compile(src, claim, params, words);
    var start := Launch(p, ost, prv, buf);
    CompileSound(src, claim, params, words);
    LaunchRel(p, ost, prv, buf);
    Simulates(p, start, evs, AllWork(|ost.groups|), ost);
    var (oevs, ms') := Trace(p, start, AllWork(|ost.groups|), evs);
    ms, end := ms', O.ExecAll(ost, oevs).value;
  }

  // No item passes a barrier of the source unless its whole group is there, at
  // the same barrier.
  lemma NobodyPassesAlone(src: Stmt, claim: nat -> set<Var>, params: set<Var>, words: nat, ost: O.Grid,
                          prv: Env, buf: nat -> seq<int>, evs: seq<S.Event>, st: S.Grid, g: nat, i: nat)
    requires Reached(src, claim, params, words, ost, prv, buf, evs, st)
    requires g < |st.groups| && i < |st.groups[g].items|
    requires S.CanRelease(st.groups[g]) && st.groups[g].items[i].pc.Pause?
    ensures forall j | 0 <= j < |st.groups[g].items| ::
              st.groups[g].items[j].pc.Pause? && st.groups[g].items[j].pc.gate == st.groups[g].items[i].pc.gate
  {
    var ms, end := ReachedRel(src, claim, params, words, ost, prv, buf, evs, st);
    var p, gr := Compile(src, claim, params, words), st.groups[g];
    assert P.Inv(p, gr, ms[g]) && GroupRel(p, gr, end.groups[g]);
    assert P.ItemOk(p, gr, ms[g], gr.items[i].pc);
    SimPassItem(p, gr, end.groups[g], ms[g], i);
    forall j | 0 <= j < |gr.items| ensures gr.items[j].pc.Pause? && gr.items[j].pc.gate == gr.items[i].pc.gate {
      SimPassItem(p, gr, end.groups[g], ms[g], j);
    }
  }

  // The local memory that a group leaves behind is the one that its next slice
  // starts from.
  lemma LocalMemorySurvives(src: Stmt, claim: nat -> set<Var>, params: set<Var>, words: nat, ost: O.Grid,
                            prv: Env, buf: nat -> seq<int>, evs: seq<S.Event>, st: S.Grid, g: nat,
                            env: int -> Env, junk: nat -> seq<int>)
    requires Reached(src, claim, params, words, ost, prv, buf, evs, st)
    requires g < |st.groups| && S.Exec(Compile(src, claim, params, words), st, S.Relaunch(env, junk)).Some?
    ensures var next := S.Exec(Compile(src, claim, params, words), st, S.Relaunch(env, junk)).value;
            g < |next.groups| && next.groups[g].lm == st.groups[g].lm
  {
    var ms, end := ReachedRel(src, claim, params, words, ost, prv, buf, evs, st);
    var p := Compile(src, claim, params, words);
    assert P.Inv(p, st.groups[g], ms[g]) && GroupRel(p, st.groups[g], end.groups[g]);
    SoundRestores(p, st);
    SimEnter(p, st.groups[g], end.groups[g], ms[g], env, junk(g));
  }

  // When the exit counter is zero everybody has left, and the items still at
  // the second barrier of the round hold the ids 0 .. batch-1, each just once.
  lemma LastBatch(src: Stmt, claim: nat -> set<Var>, params: set<Var>, words: nat, ost: O.Grid,
                  prv: Env, buf: nat -> seq<int>, evs: seq<S.Event>, st: S.Grid, g: nat, i: nat)
    requires Reached(src, claim, params, words, ost, prv, buf, evs, st) && words > 0
    requires g < |st.groups| && i < |st.groups[g].items|
    requires st.groups[g].final == 0 && st.groups[g].items[i].pc.Exit2?
    ensures var items, batch := st.groups[g].items, st.groups[g].items[i].pc.batch;
            && (forall j | 0 <= j < |items| :: P.HasLeft(items[j].pc))
            && (forall e | 0 <= e < batch :: P.Taken(st.groups[g], e))
            && (forall j, k | 0 <= j < |items| && 0 <= k < |items| && items[j].pc.Exit2? && items[k].pc.Exit2? ::
                  0 <= items[j].pc.eid < batch && (items[j].pc.eid == items[k].pc.eid ==> j == k))
  {
    var ms, end := ReachedRel(src, claim, params, words, ost, prv, buf, evs, st);
    var p, gr := Compile(src, claim, params, words), st.groups[g];
    assert P.Inv(p, gr, ms[g]) && P.ItemOk(p, gr, ms[g], gr.items[i].pc);
    P.LastRound(p, gr, ms[g]);
  }

  // The exit counter is zero in one round of a slice and no other: once it is,
  // nobody takes part in another round before the next launch, and a group that
  // is gone has had such a round.
  lemma OneLastRound(src: Stmt, claim: nat -> set<Var>, params: set<Var>, words: nat, ost: O.Grid,
                     prv: Env, buf: nat -> seq<int>, evs: seq<S.Event>, st: S.Grid, g: nat,
                     more: seq<S.Event>, st': S.Grid)
    requires Reached(src, claim, params, words, ost, prv, buf, evs, st) && words > 0
    requires g < |st.groups|
    requires forall e | 0 <= e < |more| :: !more[e].Relaunch?
    requires S.ExecAll(Compile(src, claim, params, words), st, more) == Some(st')
    ensures S.AllGone(st.groups[g]) ==> st.groups[g].final == 0
    ensures st.groups[g].final == 0 ==>
      g < |st'.groups| && forall i | 0 <= i < |st'.groups[g].items| :: P.HasLeft(st'.groups[g].items[i].pc)
  {
    var ms, end := ReachedRel(src, claim, params, words, ost, prv, buf, evs, st);
    var p := Compile(src, claim, params, words);
    assert P.Inv(p, st.groups[g], ms[g]);
    P.ZeroMeansLeft(p, st.groups[g], ms[g]);
    if st.groups[g].final == 0 {
      P.ZeroToTheEnd(p, st, more, g, ms[g]);
    }
  }

  // Local memory is copied out once in a slice: whatever changes the buffer
  // happens when the counter is zero and all have left the others behind.
  lemma OnlyLastBatchStores(src: Stmt, claim: nat -> set<Var>, params: set<Var>, words: nat, ost: O.Grid,
                            prv: Env, buf: nat -> seq<int>, evs: seq<S.Event>, st: S.Grid, g: nat,
                            ev: S.Event, st': S.Grid)
    requires Reached(src, claim, params, words, ost, prv, buf, evs, st) && words > 0
    requires g < |st.groups| && S.Exec(Compile(src, claim, params, words), st, ev) == Some(st')
    ensures g < |st'.groups|
    ensures st'.groups[g].buf != st.groups[g].buf ==>
              && ev.Act? && ev.g == g && st.groups[g].final == 0
              && forall i | 0 <= i < |st.groups[g].items| :: P.HasLeft(st.groups[g].items[i].pc)
  {
    var ms, end := ReachedRel(src, claim, params, words, ost, prv, buf, evs, st);
    var p := Compile(src, claim, params, words);
    assert P.Inv(p, st.groups[g], ms[g]);
    P.ZeroMeansLeft(p, st.groups[g], ms[g]);
    StoresAtZero(p, st, ev, g);
  }

  lemma StoresAtZero(p: S.Program, st: S.Grid, ev: S.Event, g: nat)
    requires S.Exec(p, st, ev).Some? && g < |st.groups|
    ensures var st' := S.Exec(p, st, ev).value;
            && g < |st'.groups|
            && (st'.groups[g].buf != st.groups[g].buf ==> ev.Act? && ev.g == g && st.groups[g].final == 0)
  {
  }

  // From the first exit round of a slice on nobody is in the source code, so
  // what the last batch saves is the local memory that the slice ends with.
  lemma FrozenWhileLeaving(src: Stmt, claim: nat -> set<Var>, params: set<Var>, words: nat, ost: O.Grid,
                           prv: Env, buf: nat -> seq<int>, evs: seq<S.Event>, st: S.Grid, g: nat,
                           more: seq<S.Event>, st': S.Grid)
    requires Reached(src, claim, params, words, ost, prv, buf, evs, st) && words > 0
    requires g < |st.groups| && P.Leaving(st.groups[g])
    requires (forall e | 0 <= e < |more| :: !more[e].Relaunch?)
    requires S.ExecAll(Compile(src, claim, params, words), st, more) == Some(st')
    ensures forall i | 0 <= i < |st.groups[g].items| :: !st.groups[g].items[i].pc.Run?
    ensures g < |st'.groups| && st'.groups[g].lm == st.groups[g].lm
    ensures S.AllGone(st'.groups[g]) ==> st'.groups[g].buf == st.groups[g].lm
  {
    var ms, end := ReachedRel(src, claim, params, words, ost, prv, buf, evs, st);
    var p := Compile(src, claim, params, words);
    assert P.Inv(p, st.groups[g], ms[g]);
    P.LeavingIsFinal(p, st.groups[g], ms[g]);
    P.FrozenOnceLeaving(p, st, more, g, ms[g]);
  }

  // ----------------------------------------------------- at a barrier of the source

  // The item is behind the barriers of the stop protocol, at this barrier of
  // the source.
  predicate BehindAt(pc: S.Pc, b: nat) {
    (pc.Past2? || pc.Pause?) && pc.gate.b == b
  }

  // If the whole group is there, nobody has seen anybody missing.
  predicate NobodyMissed(gr: S.Group) {
    forall i | 0 <= i < |gr.items| && gr.items[i].pc.Past2?
               && (forall j | 0 <= j < |gr.items| :: BehindAt(gr.items[j].pc, gr.items[i].pc.gate.b)) ::
      gr.items[i].pc.remain == 0
  }

  lemma ActMisses(p: S.Program, gr: S.Group, gr': S.Group, a: nat)
    requires a < |gr.items| == |gr'.items| && gr'.items == gr.items[a := gr'.items[a]]
    requires S.CanAct(gr.items[a].pc) && NobodyMissed(gr)
    requires if gr.items[a].pc.Run? then exists gm, v, timer :: gr' == S.ActRun(gr, gm, a, v, timer).0
             else S.WellFormed(p, gr) && gr' == S.ActProtocol(p, gr, a)
    ensures NobodyMissed(gr')
  {
    var pc, pc' := gr.items[a].pc, gr'.items[a].pc;
    assert !pc'.Past2? && (pc'.Pause? ==> pc.Past2? && pc.remain == 0 && pc'.gate == pc.gate);
    forall i | 0 <= i < |gr'.items| && gr'.items[i].pc.Past2?
               && (forall j | 0 <= j < |gr'.items| :: BehindAt(gr'.items[j].pc, gr'.items[i].pc.gate.b))
      ensures gr'.items[i].pc.remain == 0
    {
      assert BehindAt(pc', gr'.items[i].pc.gate.b) && i != a;
      forall j | 0 <= j < |gr.items| ensures BehindAt(gr.items[j].pc, gr.items[i].pc.gate.b) {
        assert BehindAt(gr'.items[j].pc, gr'.items[i].pc.gate.b);
      }
    }
  }

  lemma ReleaseMisses(p: S.Program, gr: S.Group, og: O.Group, m: P.Mode)
    requires Shaped(p) && P.Inv(p, gr, m) && GroupRel(p, gr, og) && S.CanRelease(gr)
    ensures NobodyMissed(S.Pass(gr))
  {
    var gr' := S.Pass(gr);
    forall i | 0 <= i < |gr'.items| && gr'.items[i].pc.Past2?
               && (forall j | 0 <= j < |gr'.items| :: BehindAt(gr'.items[j].pc, gr'.items[i].pc.gate.b))
      ensures gr'.items[i].pc.remain == 0
    {
      var gate := gr.items[i].pc.gate;
      forall j | 0 <= j < |gr.items| ensures P.Holders(gr.items, gate.idx)[j] {
        assert BehindAt(gr'.items[j].pc, gr'.items[i].pc.gate.b);
        assert ItemRel(p, gr.items[i], og.items[i]) && ItemRel(p, gr.items[j], og.items[j]);
        SameGate(p, gate, gr.items[j].pc.gate);
      }
      P.CountAll(P.Holders(gr.items, gate.idx));
      assert P.ItemOk(p, gr, m, gr.items[i].pc);
    }
  }

  ghost predicate NobodyMissedIn(st: S.Grid) {
    forall g | 0 <= g < |st.groups| :: NobodyMissed(st.groups[g])
  }

  lemma ActEventMisses(p: S.Program, st: S.Grid, ev: S.Event)
    requires S.Exec(p, st, ev).Some? && NobodyMissedIn(st) && ev.Act?
    ensures NobodyMissedIn(S.Exec(p, st, ev).value)
  {
    var gr, gr' := st.groups[ev.g], S.Exec(p, st, ev).value.groups[ev.g];
    if gr.items[ev.i].pc.Run? { assert gr' == S.ActRun(gr, st.gm, ev.i, ev.v, ev.timer).0; }
    ActMisses(p, gr, gr', ev.i);
  }

  lemma RelaunchMisses(p: S.Program, gr: S.Group, hdrs: seq<int>, env: int -> Env, lm: seq<int>)
    requires |hdrs| == |gr.items|
    ensures NobodyMissed(S.EnterGroup(p, gr, hdrs, env, lm))
  {
    var gr' := S.EnterGroup(p, gr, hdrs, env, lm);
    forall i | 0 <= i < |gr'.items| ensures !gr'.items[i].pc.Past2? {
      assert gr'.items[i] == S.Enter(p, gr.items[i], hdrs[i], env(gr.items[i].id));
    }
  }

  lemma EventMisses(p: S.Program, st: S.Grid, ev: S.Event, ms: seq<P.Mode>, ost: O.Grid)
    requires Sound(p) && Rel(p, st, ms, ost) && S.Exec(p, st, ev).Some? && NobodyMissedIn(st)
    ensures NobodyMissedIn(S.Exec(p, st, ev).value)
  {
    match ev
    case Act(_, _, _, _) => ActEventMisses(p, st, ev);
    case Release(g) =>
      assert P.Inv(p, st.groups[g], ms[g]) && GroupRel(p, st.groups[g], ost.groups[g]);
      ReleaseMisses(p, st.groups[g], ost.groups[g], ms[g]);
    case Relaunch(env, lm) =>
      forall g | 0 <= g < |st.groups| ensures NobodyMissed(S.NextSlice(p, st, env, lm).groups[g]) {
        RelaunchMisses(p, st.groups[g], Released(S.HeadersOf(st.groups[g])), env, lm(g));
      }
  }

  lemma {:induction false} RunMisses(p: S.Program, st: S.Grid, evs: seq<S.Event>, ms: seq<P.Mode>, ost: O.Grid)
    requires Sound(p) && Rel(p, st, ms, ost) && S.ExecAll(p, st, evs).Some? && NobodyMissedIn(st)
    ensures NobodyMissedIn(S.ExecAll(p, st, evs).value)
    decreases |evs|
  {
    if evs != [] {
      EventMisses(p, st, evs[0], ms, ost);
      SimStep(p, st, evs[0], ms, ost);
      RunMisses(p, S.Exec(p, st, evs[0]).value, evs[1..], Modes(st, ms, evs[0]),
                O.ExecAll(ost, Meaning(st, ms, evs[0])).value);
    }
  }

  /** At a barrier of the source an item goes on in this slice exactly if its
      whole group has come to this barrier; else it saves what the barrier's
      label says and leaves, blocked at that label.  In every state that is
      reached, and in whichever slice. */
  lemma BarrierDecides(src: Stmt, claim: nat -> set<Var>, params: set<Var>, words: nat, ost: O.Grid,
                       prv: Env, buf: nat -> seq<int>, evs: seq<S.Event>, st: S.Grid, g: nat, i: nat, v: int,
                       timer: bool)
    requires Reached(src, claim, params, words, ost, prv, buf, evs, st)
    requires g < |st.groups| && i < |st.groups[g].items| && st.groups[g].items[i].pc.Past2?
    ensures var p := Compile(src, claim, params, words);
            var r := S.Exec(p, st, S.Act(g, i, v, timer));
            && r.Some? && |r.value.groups| == |st.groups| && |r.value.groups[g].items| == |st.groups[g].items|
            && var items, it' := st.groups[g].items, r.value.groups[g].items[i];
               var gate := items[i].pc.gate;
               var site := Find(gate.n, p.code, KStop);
               && site.Some? && site.value.Wait? && site.value.b == gate.b && gate.n >= 2
               && if forall j | 0 <= j < |items| :: BehindAt(items[j].pc, gate.b) then
                    it' == items[i].(pc := S.Pause(gate)) && gate.k == site.value.k
                  else it'.pc == S.Exit0 && it'.hdr == -(gate.n as int) && it'.prv.Keys == site.value.save
                       && forall x | x in site.value.save :: it'.prv[x] == Get(items[i].env, x)
  {
    var p := Compile(src, claim, params, words);
    var ms, end := ReachedRel(src, claim, params, words, ost, prv, buf, evs, st);
    ReachedMisses(src, claim, params, words, ost, prv, buf, evs, st);
    assert P.Inv(p, st.groups[g], ms[g]) && GroupRel(p, st.groups[g], end.groups[g]);
    GateDecides(p, st.groups[g], end.groups[g], ms[g], i);
  }

  lemma ReachedMisses(src: Stmt, claim: nat -> set<Var>, params: set<Var>, words: nat, ost: O.Grid,
                      prv: Env, buf: nat -> seq<int>, evs: seq<S.Event>, st: S.Grid)
    requires Reached(src, claim, params, words, ost, prv, buf, evs, st)
    ensures NobodyMissedIn(st)
  {
    var p := Compile(src, claim, params, words);
    var start := Launch(p, ost, prv, buf);
    CompileSound(src, claim, params, words);
    LaunchRel(p, ost, prv, buf);
    forall g | 0 <= g < |start.groups| ensures NobodyMissed(start.groups[g]) {
      StartsFresh(p, ost.groups[g], prv, buf(g), _ => map[]);
    }
    RunMisses(p, start, evs, AllWork(|ost.groups|), ost);
  }

  lemma GateDecides(p: S.Program, gr: S.Group, og: O.Group, m: P.Mode, i: nat)
    requires Shaped(p) && P.Inv(p, gr, m) && GroupRel(p, gr, og) && NobodyMissed(gr)
    requires i < |gr.items| && gr.items[i].pc.Past2?
    ensures var pc := gr.items[i].pc;
            && Find(pc.gate.n, p.code, KStop) == Some(Wait(pc.gate.b, pc.gate.idx, pc.gate.save, pc.gate.k))
            && pc.gate.n >= 2
            && (pc.remain == 0 <==> forall j | 0 <= j < |gr.items| :: BehindAt(gr.items[j].pc, pc.gate.b))
  {
    var gate := gr.items[i].pc.gate;
    assert ItemRel(p, gr.items[i], og.items[i]) && P.ItemOk(p, gr, m, gr.items[i].pc);
    SiteAt(p, gate.n);
    if gr.items[i].pc.remain == 0 {
      forall j | 0 <= j < |gr.items| ensures BehindAt(gr.items[j].pc, gate.b) {
        assert ItemRel(p, gr.items[j], og.items[j]) && P.ItemOk(p, gr, m, gr.items[j].pc);
        SameGate(p, gate, gr.items[j].pc.gate);
      }
    }
  }
}
