/** The whole path from a source kernel to a finished sliced run, and what
    every such run means. */
module Preservation {
  import opened Wrappers
  import opened Kernel
  import opened Liveness
  import opened Labels
  import opened Headers
  import opened Instrument
  import opened Simulation
  import O = Original
  import S = Sliced
  import Protocol

  // ------------------------------------------------------------- compilation

  // Calls of `barrier` in the text.
  function BarrierCount(s: Stmt): nat {
    match s
    case Seq(s1, s2) => BarrierCount(s1) + BarrierCount(s2)
    case Block(body) => BarrierCount(body)
    case If(_, s1, s2) => BarrierCount(s1) + BarrierCount(s2)
    case Loop(_, _, _, body) => BarrierCount(body)
    case Barrier(_) => 1
    case _ => 0
  }

  // The visitor starts with the parameters tracked at scope 0, and with 1 as
  // the last used label.
  function Start(params: set<Var>): State {
    State(1, 0, map x | x in params :: 0, 0)
  }

  function Compile(src: Stmt, claim: nat -> set<Var>, params: set<Var>, words: nat): S.Program {
    S.Program(Instr(src, Start(params), claim).0, words, BarrierCount(src))
  }

  // A kernel the tools accept.
  predicate IsKernel(src: Stmt, params: set<Var>) {
    Source(src) && WellScoped(src, params) && DistinctBarriers(src)
  }

  // And compiler answers that cover what is live.
  ghost predicate Accepted(src: Stmt, claim: nat -> set<Var>, params: set<Var>) {
    IsKernel(src, params) && ClaimsLive(Instr(src, Start(params), claim).0, KStop, claim)
  }

  lemma {:induction false} InstrCounts(s: Stmt, st: State, claim: nat -> set<Var>)
    requires Source(s)
    ensures Instr(s, st, claim).1.bidx == st.bidx + BarrierCount(s)
  {
    match s
    case Seq(s1, s2) =>
      InstrCounts(s1, st, claim);
      InstrCounts(s2, Instr(s1, st, claim).1, claim);
    case Block(body) => InstrCounts(body, st.(scope := st.scope + 1), claim);
    case If(_, s1, s2) =>
      InstrCounts(s1, st, claim);
      InstrCounts(s2, Instr(s1, st, claim).1, claim);
    case Loop(_, _, _, body) => InstrCounts(body, st, claim);
    case _ =>
  }

  lemma {:induction false} CompileShaped(src: Stmt, claim: nat -> set<Var>, params: set<Var>, words: nat)
    requires Source(src) && DistinctBarriers(src)
    ensures Shaped(Compile(src, claim, params, words)) && Erase(Compile(src, claim, params, words).code) == src
  {
    var st := Start(params);
    InstrErases(src, st, claim);
    InstrLabels(src, st, claim);
    InstrMarks(src, st, claim);
    InstrCounts(src, st, claim);
  }

  lemma {:induction false} CompileSound(src: Stmt, claim: nat -> set<Var>, params: set<Var>, words: nat)
    requires Accepted(src, claim, params)
    ensures Sound(Compile(src, claim, params, words)) && Erase(Compile(src, claim, params, words).code) == src
  {
    CompileShaped(src, claim, params, words);
    ScopeGrows(src, params);
    InstrSaves(src, Start(params), claim, KStop, params);
  }

  // ------------------------------------------------------------------ launch

  // A grid about to execute `src`.
  ghost predicate Initial(st: O.Grid, src: Stmt, words: nat) {
    forall g | 0 <= g < |st.groups| ::
      && |st.groups[g].items| > 0 && |st.groups[g].lm| == words
      && forall i | 0 <= i < |st.groups[g].items| ::
           st.groups[g].items[i].s == src && st.groups[g].items[i].k == KStop
  }

  // A group that has not started yet: every header is 1, each item has its
  // arguments, and the buffers hold whatever was in them.
  function Unstarted(gr: O.Group, prv: Env, buf: seq<int>): S.Group {
    S.Group(seq(|gr.items|, i requires 0 <= i < |gr.items| =>
              S.Item(gr.items[i].id, S.Gone, gr.items[i].env, 1, prv)),
            gr.lm, buf, [], 0)
  }

  // The host launches the grid, and the items enter their first slice.
  function Launch(p: S.Program, st: O.Grid, prv: Env, buf: nat -> seq<int>): S.Grid {
    S.Grid(seq(|st.groups|, g requires 0 <= g < |st.groups| => LaunchGroup(p, st.groups[g], prv, buf(g))), st.gm)
  }

  function LaunchGroup(p: S.Program, gr: O.Group, prv: Env, buf: seq<int>): S.Group {
    S.EnterGroup(p, Unstarted(gr, prv, buf), S.HeadersOf(Unstarted(gr, prv, buf)), _ => map[], gr.lm)
  }

  function AllWork(n: nat): (ms: seq<Protocol.Mode>)
    ensures |ms| == n
  {
    seq(n, _ => Protocol.Work)
  }

  // Whatever is left over in private memory, the first slice starts at the
  // beginning of the kernel body, with the arguments and with full counters.
  lemma StartsFresh(p: S.Program, gr: O.Group, prv: Env, buf: seq<int>, env: int -> Env)
    ensures var hdrs := S.HeadersOf(Unstarted(gr, prv, buf));
            S.EnterGroup(p, Unstarted(gr, prv, buf), hdrs, env, gr.lm) == LaunchGroup(p, gr, prv, buf)
    ensures var gr' := LaunchGroup(p, gr, prv, buf);
            && |gr'.items| == |gr.items| && gr'.lm == gr.lm && gr'.buf == buf && gr'.final == |gr.items|
            && |gr'.stops| == p.stops && (forall idx | 0 <= idx < p.stops :: gr'.stops[idx] == |gr.items|)
            && forall i | 0 <= i < |gr.items| ::
                 gr'.items[i] == S.Item(gr.items[i].id, S.Run(p.code, KStop), gr.items[i].env, 1, prv)
  {
    var before := Unstarted(gr, prv, buf);
    var hdrs := S.HeadersOf(before);
    var none: int -> Env := _ => map[];
    forall i, junk: int -> Env | 0 <= i < |gr.items|
      ensures S.EnterGroup(p, before, hdrs, junk, gr.lm).items[i]
           == S.Item(gr.items[i].id, S.Run(p.code, KStop), gr.items[i].env, 1, prv)
    {
      assert hdrs[i] == 1;
      assert S.EnterGroup(p, before, hdrs, junk, gr.lm).items[i]
          == S.Enter(p, before.items[i], 1, junk(before.items[i].id));
    }
    assert LaunchGroup(p, gr, prv, buf) == S.EnterGroup(p, before, hdrs, none, gr.lm);
    assert S.EnterGroup(p, before, hdrs, env, gr.lm).items == LaunchGroup(p, gr, prv, buf).items;
  }

  lemma {:induction false} LaunchGroupRel(p: S.Program, gr: O.Group, prv: Env, buf: seq<int>)
    requires Shaped(p) && |gr.items| > 0 && |gr.lm| == |buf| == p.words
    requires forall i | 0 <= i < |gr.items| :: gr.items[i].s == Erase(p.code) && gr.items[i].k == KStop
    ensures Protocol.Inv(p, LaunchGroup(p, gr, prv, buf), Protocol.Work)
    ensures GroupRel(p, LaunchGroup(p, gr, prv, buf), gr)
  {
    var gr' := LaunchGroup(p, gr, prv, buf);
    StartsFresh(p, gr, prv, buf, _ => map[]);
    NobodyCounted(p, gr'.items);
    assert forall j | 0 <= j < |gr'.items| :: Protocol.ItemOk(p, gr', Protocol.Work, gr'.items[j].pc);
  }

  lemma {:induction false} LaunchRel(p: S.Program, st: O.Grid, prv: Env, buf: nat -> seq<int>)
    requires Shaped(p) && Initial(st, Erase(p.code), p.words) && forall g: nat :: |buf(g)| == p.words
    ensures Rel(p, Launch(p, st, prv, buf), AllWork(|st.groups|), st)
  {
    forall g | 0 <= g < |st.groups| ensures
      && Protocol.Inv(p, Launch(p, st, prv, buf).groups[g], Protocol.Work)
      && GroupRel(p, Launch(p, st, prv, buf).groups[g], st.groups[g])
    {
      LaunchGroupRel(p, st.groups[g], prv, buf(g));
    }
  }

  // ----------------------------------------------------------------- all runs

  // The source events that a sliced run stands for, and the modes it ends in.
  function Trace(p: S.Program, st: S.Grid, ms: seq<Protocol.Mode>, evs: seq<S.Event>): (seq<O.Event>,
                 seq<Protocol.Mode>)
    requires |ms| == |st.groups|
    decreases |evs|
  {
    if evs == [] || S.Exec(p, st, evs[0]).None? then ([], ms)
    else
      var ms1 := Modes(st, ms, evs[0]);
      var st1 := S.Exec(p, st, evs[0]).value;
      var (rest, ms') := Trace(p, st1, ms1, evs[1..]);
      (Meaning(st, ms, evs[0]) + rest, ms')
  }

  lemma {:induction false} SimEvent(p: S.Program, st: S.Grid, ev: S.Event, ms: seq<Protocol.Mode>, ost: O.Grid)
    requires Shaped(p) && Rel(p, st, ms, ost) && S.Exec(p, st, ev).Some? && (ev.Relaunch? ==> AllRestores(p, st))
    ensures var r := O.ExecAll(ost, Meaning(st, ms, ev));
            r.Some? && Rel(p, S.Exec(p, st, ev).value, Modes(st, ms, ev), r.value)
  {
    match ev
    case Act(_, _, _, _) => SimAct(p, st, ev, ms, ost);
    case Release(_) => SimBarrier(p, st, ev, ms, ost);
    case Relaunch(_, _) => SimRelaunch(p, st, ev, ms, ost);
  }

  lemma SimStep(p: S.Program, st: S.Grid, ev: S.Event, ms: seq<Protocol.Mode>, ost: O.Grid)
    requires Sound(p) && Rel(p, st, ms, ost) && S.Exec(p, st, ev).Some?
    ensures var r := O.ExecAll(ost, Meaning(st, ms, ev));
            r.Some? && Rel(p, S.Exec(p, st, ev).value, Modes(st, ms, ev), r.value)
  {
    SoundRestores(p, st);
    SimEvent(p, st, ev, ms, ost);
  }

  // Every label that is resumed in the run saves what is live after it.
  ghost predicate RestoringRun(p: S.Program, st: S.Grid, evs: seq<S.Event>)
    decreases |evs|
  {
    evs == [] || S.Exec(p, st, evs[0]).None? ||
    ((evs[0].Relaunch? ==> AllRestores(p, st)) && RestoringRun(p, S.Exec(p, st, evs[0]).value, evs[1..]))
  }

  lemma {:induction false} SoundRuns(p: S.Program, st: S.Grid, evs: seq<S.Event>)
    requires Sound(p)
    ensures RestoringRun(p, st, evs)
    decreases |evs|
  {
    if evs != [] && S.Exec(p, st, evs[0]).Some? {
      SoundRestores(p, st);
      SoundRuns(p, S.Exec(p, st, evs[0]).value, evs[1..]);
    }
  }

  // Forward simulation over whole runs.
  lemma {:induction false} SimulatesRestoring(p: S.Program, st: S.Grid, evs: seq<S.Event>, ms: seq<Protocol.Mode>,
                                              ost: O.Grid)
    requires Shaped(p) && Rel(p, st, ms, ost) && S.ExecAll(p, st, evs).Some? && RestoringRun(p, st, evs)
    ensures var (oevs, ms') := Trace(p, st, ms, evs);
            var r := O.ExecAll(ost, oevs);
            r.Some? && Rel(p, S.ExecAll(p, st, evs).value, ms', r.value)
    decreases |evs|
  {
    if evs != [] {
      SimEvent(p, st, evs[0], ms, ost);
      var ost1 := O.ExecAll(ost, Meaning(st, ms, evs[0])).value;
      var st1, ms1 := S.Exec(p, st, evs[0]).value, Modes(st, ms, evs[0]);
      SimulatesRestoring(p, st1, evs[1..], ms1, ost1);
      Append(ost, Meaning(st, ms, evs[0]), ost1, Trace(p, st1, ms1, evs[1..]).0);
    }
  }

  lemma Simulates(p: S.Program, st: S.Grid, evs: seq<S.Event>, ms: seq<Protocol.Mode>, ost: O.Grid)
    requires Sound(p) && Rel(p, st, ms, ost) && S.ExecAll(p, st, evs).Some?
    ensures var (oevs, ms') := Trace(p, st, ms, evs);
            var r := O.ExecAll(ost, oevs);
            r.Some? && Rel(p, S.ExecAll(p, st, evs).value, ms', r.value)
  {
    SoundRuns(p, st, evs);
    SimulatesRestoring(p, st, evs, ms, ost);
  }

  // A finished grid stands for a source grid whose items are all done.
  lemma {:induction false} FinishedMeansDone(p: S.Program, st: S.Grid, ms: seq<Protocol.Mode>, ost: O.Grid)
    requires Rel(p, st, ms, ost) && S.Finished(st)
    ensures O.AllDone(ost) && ost.gm == st.gm
  {
    forall g, i | 0 <= g < |ost.groups| && 0 <= i < |ost.groups[g].items| ensures O.Done(ost.groups[g].items[i]) {
      assert ItemRel(p, st.groups[g].items[i], ost.groups[g].items[i]);
      assert S.HeadersOf(st.groups[g])[i] == st.groups[g].items[i].hdr;
    }
  }

  /** Meaning preservation.  For every kernel, every liveness answer, every
      sequence of timer verdicts, schedules and leftovers in memory: a finished
      sliced run leaves the global memory that some interleaving of the source
      kernel leaves, if every label that it resumed saves what is live there. */
  lemma {:induction false} PreservedIfRestoring(src: Stmt, claim: nat -> set<Var>, params: set<Var>, words: nat,
                                                ost: O.Grid, prv: Env, buf: nat -> seq<int>, evs: seq<S.Event>)
    requires Source(src) && DistinctBarriers(src) && Initial(ost, src, words) && forall g: nat :: |buf(g)| == words
    requires var p := Compile(src, claim, params, words);
             var r := S.ExecAll(p, Launch(p, ost, prv, buf), evs);
             r.Some? && S.Finished(r.value) && RestoringRun(p, Launch(p, ost, prv, buf), evs)
    ensures var p := Compile(src, claim, params, words);
            exists oevs :: O.ExecAll(ost, oevs).Some? && O.AllDone(O.ExecAll(ost, oevs).value)
              && O.ExecAll(ost, oevs).value.gm == S.ExecAll(p, Launch(p, ost, prv, buf), evs).value.gm
  {
    var p := Compile(src, claim, params, words);
    var st := Launch(p, ost, prv, buf);
    CompileShaped(src, claim, params, words);
    LaunchRel(p, ost, prv, buf);
    SimulatesRestoring(p, st, evs, AllWork(|ost.groups|), ost);
    var (oevs, ms') := Trace(p, st, AllWork(|ost.groups|), evs);
    FinishedMeansDone(p, S.ExecAll(p, st, evs).value, ms', O.ExecAll(ost, oevs).value);
  }

  // The same for kernels whose labels all save what is live after them.
  lemma {:induction false} MeaningPreserved(src: Stmt, claim: nat -> set<Var>, params: set<Var>, words: nat,
                                            ost: O.Grid, prv: Env, buf: nat -> seq<int>, evs: seq<S.Event>)
    requires Accepted(src, claim, params) && Initial(ost, src, words) && forall g: nat :: |buf(g)| == words
    requires var p := Compile(src, claim, params, words);
             var r := S.ExecAll(p, Launch(p, ost, prv, buf), evs);
             r.Some? && S.Finished(r.value)
    ensures var p := Compile(src, claim, params, words);
            exists oevs :: O.ExecAll(ost, oevs).Some? && O.AllDone(O.ExecAll(ost, oevs).value)
              && O.ExecAll(ost, oevs).value.gm == S.ExecAll(p, Launch(p, ost, prv, buf), evs).value.gm
  {
    var p := Compile(src, claim, params, words);
    CompileSound(src, claim, params, words);
    SoundRuns(p, Launch(p, ost, prv, buf), evs);
    PreservedIfRestoring(src, claim, params, words, ost, prv, buf, evs);
  }

  // ------------------------------------------------ what must be restored

  // A label that is resumed without some live variable: with leftovers that
  // differ from its value the item does not stand for the source item.
  lemma UnrestoredItem(p: S.Program, it: S.Item, h: int, o: O.Item) returns (env: Env)
    requires h > 1 && Find(h, p.code, KStop).Some? && !Covers(Find(h, p.code, KStop).value)
    ensures !ItemRel(p, S.Enter(p, it, h, env), o)
  {
    var site := Find(h, p.code, KStop).value;
    var x :| x in LiveK(site.k) && x !in site.save;
    env := map[x := Get(o.env, x) + 1];
    var it' := S.Enter(p, it, h, env);
    assert Get(it'.env, x) != Get(o.env, x) && LiveAt(Skip, site.k) == LiveK(site.k);
  }

  lemma NotRestored(p: S.Program, st: S.Grid, ms: seq<Protocol.Mode>, ost: O.Grid, g: nat, i: nat)
    returns (env: int -> Env, lm: nat -> seq<int>)
    requires Rel(p, st, ms, ost) && g < |st.groups| && i < |st.groups[g].items|
    requires var h := Released(S.HeadersOf(st.groups[g]))[i];
             h > 1 && Find(h, p.code, KStop).Some? && !Covers(Find(h, p.code, KStop).value)
    ensures forall g: nat :: |lm(g)| == p.words
    ensures !Rel(p, S.NextSlice(p, st, env, lm), AllWork(|ms|), Passed(st, ost, |st.groups|))
  {
    var gr, hs := st.groups[g], Released(S.HeadersOf(st.groups[g]));
    assert GroupRel(p, gr, ost.groups[g]);
    var end := Passed(st, ost, |st.groups|).groups[g];
    var junk := UnrestoredItem(p, gr.items[i], hs[i], end.items[i]);
    env, lm := _ => junk, (g: nat) => seq(p.words, _ => 0);
    assert !GroupRel(p, S.EnterGroup(p, gr, hs, env, lm(g)), end) by {
      assert S.EnterGroup(p, gr, hs, env, lm(g)).items[i] == S.Enter(p, gr.items[i], hs[i], junk);
    }
    assert S.NextSlice(p, st, env, lm).groups[g] == S.EnterGroup(p, gr, hs, env, lm(g));
  }

  // At every relaunch the next slice stands for the source, whatever the
  // leftovers in memory, if and only if all labels that are resumed save what is
  // live after them.
  lemma {:induction false} RelaunchExact(p: S.Program, st: S.Grid, ms: seq<Protocol.Mode>, ost: O.Grid)
    requires Shaped(p) && Rel(p, st, ms, ost) && S.CanRelaunch(st)
    ensures AllRestores(p, st) <==>
            forall env: int -> Env, lm: nat -> seq<int> | (forall g: nat :: |lm(g)| == p.words) ::
              Rel(p, S.NextSlice(p, st, env, lm), AllWork(|ms|), Passed(st, ost, |st.groups|))
  {
    if AllRestores(p, st) {
      forall env: int -> Env, lm: nat -> seq<int> | (forall g: nat :: |lm(g)| == p.words)
        ensures Rel(p, S.NextSlice(p, st, env, lm), AllWork(|ms|), Passed(st, ost, |st.groups|))
      {
        RestoredRelaunch(p, st, ms, ost, env, lm);
      }
    } else {
      var env, lm := UnrestoredRelaunch(p, st, ms, ost);
    }
  }

  lemma RestoredRelaunch(p: S.Program, st: S.Grid, ms: seq<Protocol.Mode>, ost: O.Grid,
                         env: int -> Env, lm: nat -> seq<int>)
    requires Shaped(p) && Rel(p, st, ms, ost) && S.CanRelaunch(st) && AllRestores(p, st)
    requires forall g: nat :: |lm(g)| == p.words
    ensures Rel(p, S.NextSlice(p, st, env, lm), AllWork(|ms|), Passed(st, ost, |st.groups|))
  {
    SimRelaunch(p, st, S.Relaunch(env, lm), ms, ost);
    assert Modes(st, ms, S.Relaunch(env, lm)) == AllWork(|ms|);
    PassingIs(p, st, ms, ost);
  }

  lemma UnrestoredRelaunch(p: S.Program, st: S.Grid, ms: seq<Protocol.Mode>, ost: O.Grid)
    returns (env: int -> Env, lm: nat -> seq<int>)
    requires Shaped(p) && Rel(p, st, ms, ost) && S.CanRelaunch(st) && !AllRestores(p, st)
    ensures forall g: nat :: |lm(g)| == p.words
    ensures !Rel(p, S.NextSlice(p, st, env, lm), AllWork(|ms|), Passed(st, ost, |st.groups|))
  {
    var g :| 0 <= g < |st.groups| && !Restores(p, Released(S.HeadersOf(st.groups[g])));
    var h := Released(S.HeadersOf(st.groups[g]));
    var i :| 0 <= i < |h| && h[i] > 1 && Find(h[i], p.code, KStop).Some?
             && !Covers(Find(h[i], p.code, KStop).value);
    env, lm := NotRestored(p, st, ms, ost, g, i);
  }

  lemma PassingIs(p: S.Program, st: S.Grid, ms: seq<Protocol.Mode>, ost: O.Grid)
    requires Shaped(p) && Rel(p, st, ms, ost) && S.CanRelaunch(st)
    ensures O.ExecAll(ost, Passing(st, |st.groups|)) == Some(Passed(st, ost, |st.groups|))
  {
    forall g: nat | Passes(st, g) ensures O.CanRelease(ost.groups[g]) {
      BlockedMayPass(p, st.groups[g], ost.groups[g]);
    }
    PassingRuns(st, ost, |st.groups|);
  }
}
