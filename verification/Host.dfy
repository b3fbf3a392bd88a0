/** The host's view of a slice: one flat header table for the whole grid. */
module Host {
  import opened Kernel
  import opened Headers
  import opened Simulation
  import opened Preservation
  import O = Original
  import S = Sliced
  import Protocol
  import Termination

  function Tables(st: S.Grid): (hs: seq<seq<int>>)
    ensures |hs| == |st.groups|
  {
    seq(|st.groups|, g requires 0 <= g < |st.groups| => S.HeadersOf(st.groups[g]))
  }

  lemma EnterHeaders(p: S.Program, gr: S.Group, hdrs: seq<int>, env: int -> Env, lm: seq<int>)
    requires |hdrs| == |gr.items|
    ensures S.HeadersOf(S.EnterGroup(p, gr, hdrs, env, lm)) == hdrs
  {
    var gr' := S.EnterGroup(p, gr, hdrs, env, lm);
    forall i | 0 <= i < |hdrs| ensures S.HeadersOf(gr')[i] == hdrs[i] {
      assert gr'.items[i] == S.Enter(p, gr.items[i], hdrs[i], env(gr.items[i].id));
    }
  }

  lemma {:induction false} NextTables(p: S.Program, st: S.Grid, env: int -> Env, lm: nat -> seq<int>)
    ensures Tables(S.NextSlice(p, st, env, lm)) == ReleasedEach(Tables(st))
  {
    var st' := S.NextSlice(p, st, env, lm);
    forall g | 0 <= g < |st.groups| ensures Tables(st')[g] == ReleasedEach(Tables(st))[g] {
      EnterHeaders(p, st.groups[g], Released(S.HeadersOf(st.groups[g])), env, lm(g));
    }
  }

  // What the summary of a table says about its groups.
  lemma {:induction false} ProgressOf(hs: seq<seq<int>>, w: nat)
    requires w > 0 && forall g | 0 <= g < |hs| :: |hs[g]| == w
    ensures Progress(Flat(hs), w) == 0 <==> forall g | 0 <= g < |hs| :: !Unfinished(hs[g])
    ensures AnyClash(Flat(hs), w) <==> exists g :: 0 <= g < |hs| && Clash(hs[g])
  {
    FlatSummary(hs, w);
    forall g | 0 <= g < |hs| && Blocked(hs[g]) ensures Unfinished(hs[g]) { assert hs[g][0] != 0; }
  }

  // The pass over the table decides whether the next slice starts: a group-wise
  // account of it is the one that the slice loop uses.
  lemma {:induction false} HostDecides(st: S.Grid, w: nat)
    requires w > 0 && forall g | 0 <= g < |st.groups| :: |st.groups[g].items| == w
    requires forall g | 0 <= g < |st.groups| :: S.AllGone(st.groups[g])
    ensures S.CanRelaunch(st) <==> !AnyClash(Flat(Tables(st)), w) && Progress(Flat(Tables(st)), w) != 0
    ensures S.Finished(st) <==> Progress(Flat(Tables(st)), w) == 0
  {
    var hs := Tables(st);
    assert forall g | 0 <= g < |hs| :: hs[g] == S.HeadersOf(st.groups[g]) && |hs[g]| == w;
    ProgressOf(hs, w);
  }

  // ... and the rewritten table is what the next slice starts from.
  lemma {:induction false} HostRewrites(p: S.Program, st: S.Grid, w: nat, env: int -> Env, lm: nat -> seq<int>)
    requires w > 0 && forall g | 0 <= g < |st.groups| :: |st.groups[g].items| == w
    ensures Flat(Tables(S.NextSlice(p, st, env, lm))) == ReleaseAll(Flat(Tables(st)), w)
  {
    NextTables(p, st, env, lm);
    FlatSummary(Tables(st), w);
  }

  /** Whatever the timer says, with uniform barriers the host's sanity check
      holds at the end of every slice, and no item looks as if it had not
      started. */
  lemma {:induction false} SanityCheckHolds(src: Stmt, claim: nat -> set<Var>, params: set<Var>, words: nat,
                                            ost: O.Grid, prv: Env, buf: nat -> seq<int>, evs: seq<S.Event>, w: nat)
    requires Accepted(src, claim, params) && Initial(ost, src, words) && forall g: nat :: |buf(g)| == words
    requires O.Uniform(ost) && w > 0 && forall g | 0 <= g < |ost.groups| :: |ost.groups[g].items| == w
    requires var p := Compile(src, claim, params, words);
             var r := S.ExecAll(p, Launch(p, ost, prv, buf), evs);
             r.Some? && forall g | 0 <= g < |r.value.groups| :: S.AllGone(r.value.groups[g])
    ensures var p := Compile(src, claim, params, words);
            var table := Flat(Tables(S.ExecAll(p, Launch(p, ost, prv, buf), evs).value));
            !AnyClash(table, w) && 1 !in table
  {
    var p := Compile(src, claim, params, words);
    var st, ms := Launch(p, ost, prv, buf), AllWork(|ost.groups|);
    CompileSound(src, claim, params, words);
    LaunchRel(p, ost, prv, buf);
    var (oevs, ms') := Trace(p, st, ms, evs);
    Simulates(p, st, evs, ms, ost);
    var end, oend := S.ExecAll(p, st, evs).value, O.ExecAll(ost, oevs).value;
    assert O.Aligned(oend);
    SizesStay(ost, oevs);
    TableIsSane(p, end, ms', oend, w);
  }

  lemma {:induction false} SizesStay(ost: O.Grid, oevs: seq<O.Event>)
    requires O.ExecAll(ost, oevs).Some?
    ensures var end := O.ExecAll(ost, oevs).value;
            && |end.groups| == |ost.groups|
            && forall g | 0 <= g < |ost.groups| :: |end.groups[g].items| == |ost.groups[g].items|
    decreases |oevs|
  {
    if oevs != [] { SizesStay(O.Exec(ost, oevs[0]).value, oevs[1..]); }
  }

  lemma {:induction false} TableIsSane(p: S.Program, st: S.Grid, ms: seq<Protocol.Mode>, ost: O.Grid, w: nat)
    requires Sound(p) && Rel(p, st, ms, ost) && O.Aligned(ost)
    requires w > 0 && forall g | 0 <= g < |ost.groups| :: |ost.groups[g].items| == w
    requires forall g | 0 <= g < |st.groups| :: S.AllGone(st.groups[g])
    ensures !AnyClash(Flat(Tables(st)), w) && 1 !in Flat(Tables(st))
  {
    var hs := Tables(st);
    forall g | 0 <= g < |st.groups| ensures !Clash(hs[g]) && |hs[g]| == w && 1 !in hs[g] {
      Termination.NoClash(p, st.groups[g], ost.groups[g]);
      forall i | 0 <= i < w ensures hs[g][i] != 1 {
        assert ItemRel(p, st.groups[g].items[i], ost.groups[g].items[i]);
        if hs[g][i] > 0 { SiteAt(p, hs[g][i]); }
      }
    }
    FlatSummary(hs, w);
    FlatMembers(hs, 1);
  }

  lemma {:induction false} FlatMembers(hs: seq<seq<int>>, x: int)
    requires forall g | 0 <= g < |hs| :: x !in hs[g]
    ensures x !in Flat(hs)
  {
    if hs != [] { FlatMembers(hs[1..], x); }
  }
}
