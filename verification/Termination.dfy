/** Slices make progress.  Every event of a sliced run either is an event of
    the source kernel or brings the slice closer to its end, and no group can
    be launched twice without a source event in between.  So a kernel that
    terminates also terminates when it is sliced, whatever the timer says. */
module Termination {
  import opened Wrappers
  import opened Kernel
  import opened Labels
  import opened Headers
  import opened Simulation
  import opened Preservation
  import opened Sums
  import O = Original
  import S = Sliced
  import Protocol

  // ------------------------------------------------- rank: work within a slice

  // Events an item can still take before its next source step or its exit.
  function Rank(pc: S.Pc): nat {
    match pc
    case Run(s, k) =>
      if s.Seq? && s.s2.Checkpoint? then 13
      else if s.Skip? && k.KSeq? && k.s.Checkpoint? then 12
      else if s.Checkpoint? then 11
      else if s.Skip? && k.KStop? then 6
      else 10
    case Stop1(_) => 9
    case Past1(_) => 8
    case Stop2(_, _) => 7
    case Past2(_, _) => 6
    case Pause(_) => 5
    case Exit0 => 5
    case Exit1(_) => 4
    case Left1(_) => 3
    case Exit2(_, _) => 2
    case Left2(_, _) => 1
    case Gone => 0
  }

  const MAX_RANK: nat := 13

  function Ranks(gr: S.Group): (rs: seq<nat>)
    ensures |rs| == |gr.items| && forall i | 0 <= i < |rs| :: rs[i] <= MAX_RANK
  {
    seq(|gr.items|, i requires 0 <= i < |gr.items| => Rank(gr.items[i].pc))
  }

  function GridRanks(st: S.Grid): (rs: seq<nat>)
    ensures |rs| == |st.groups|
  {
    seq(|st.groups|, g requires 0 <= g < |st.groups| => Sum(Ranks(st.groups[g])))
  }

  function GridRank(st: S.Grid): nat {
    Sum(GridRanks(st))
  }

  function Size(st: S.Grid): nat {
    Sum(seq(|st.groups|, g requires 0 <= g < |st.groups| => |st.groups[g].items|))
  }

  // An act that is no source step lowers the item's rank.
  lemma {:induction false} ActLowers(p: S.Program, gr: S.Group, og: O.Group, gm: map<int, int>, i: nat, v: int,
                                     timer: bool)
    requires Sound(p) && GroupRel(p, gr, og) && S.WellFormed(p, gr)
    requires i < |gr.items| && S.CanAct(gr.items[i].pc) && !Matched(gr, i)
    ensures gr.items[i].pc.Run? ==>
              var gr' := S.ActRun(gr, gm, i, v, timer).0;
              gr'.items == gr.items[i := gr'.items[i]] && Rank(gr'.items[i].pc) < Rank(gr.items[i].pc)
    ensures !gr.items[i].pc.Run? ==>
              var gr' := S.ActProtocol(p, gr, i);
              gr'.items == gr.items[i := gr'.items[i]] && Rank(gr'.items[i].pc) < Rank(gr.items[i].pc)
  {
    assert ItemRel(p, gr.items[i], og.items[i]);
    if gr.items[i].pc.Run? {
      var s, k := gr.items[i].pc.s, gr.items[i].pc.k;
      if s.Seq? && s.s2.Checkpoint? { NoTestInside(s.s1); }
    }
  }

  lemma NoTestInside(s: Stmt)
    requires Emitted(s, false)
    ensures !s.Checkpoint? && !(s.Seq? && s.s2.Checkpoint?)
  {
  }

  // So does, for every waiting item, a barrier release that is no source event.
  lemma {:induction false} PassLowers(p: S.Program, gr: S.Group, m: Protocol.Mode)
    requires Protocol.Inv(p, gr, m) && S.CanRelease(gr) && !m.Through?
    ensures Sum(Ranks(S.Pass(gr))) < Sum(Ranks(gr))
  {
    var w :| 0 <= w < |gr.items| && S.Waiting(gr.items[w].pc);
    forall j | 0 <= j < |gr.items|
      ensures Rank(S.Past(gr.items[j].pc)) <= Rank(gr.items[j].pc)
      ensures S.Waiting(gr.items[j].pc) ==> Rank(S.Past(gr.items[j].pc)) < Rank(gr.items[j].pc)
    {
      assert Protocol.ItemOk(p, gr, m, gr.items[j].pc);
    }
    var xs, ys := Ranks(S.Pass(gr)), Ranks(gr);
    assert xs[w] < ys[w];
    SumLess(xs, ys);
  }

  // --------------------------------------------------- events of a whole run

  function ItemCounts(st: S.Grid): (ns: seq<nat>)
    ensures |ns| == |st.groups|
  {
    seq(|st.groups|, g requires 0 <= g < |st.groups| => |st.groups[g].items|)
  }

  lemma {:induction false} RankAtMost(st: S.Grid)
    ensures GridRank(st) <= MAX_RANK * Size(st)
  {
    forall g | 0 <= g < |st.groups| ensures GridRanks(st)[g] <= MAX_RANK * ItemCounts(st)[g] {
      SumBound(Ranks(st.groups[g]), MAX_RANK);
    }
    SumScaled(GridRanks(st), ItemCounts(st), MAX_RANK);
  }

  lemma {:induction false} SizeStays(p: S.Program, st: S.Grid, ev: S.Event)
    requires S.Exec(p, st, ev).Some?
    ensures ItemCounts(S.Exec(p, st, ev).value) == ItemCounts(st)
  {
    var st' := S.Exec(p, st, ev).value;
    forall g | 0 <= g < |st.groups| ensures |st'.groups[g].items| == |st.groups[g].items| {}
  }

  // One group changed: the sum over the grid changes with it.
  lemma GroupLowers(st: S.Grid, g: nat, gr: S.Group, gm: map<int, int>)
    requires g < |st.groups| && Sum(Ranks(gr)) < Sum(Ranks(st.groups[g]))
    ensures GridRank(S.Grid(st.groups[g := gr], gm)) < GridRank(st)
  {
    assert GridRanks(S.Grid(st.groups[g := gr], gm)) == GridRanks(st)[g := Sum(Ranks(gr))];
    SumUpdate(GridRanks(st), g, Sum(Ranks(gr)));
  }

  lemma ItemLowers(gr: S.Group, gr': S.Group, i: nat)
    requires i < |gr.items| == |gr'.items| && gr'.items == gr.items[i := gr'.items[i]]
    requires Rank(gr'.items[i].pc) < Rank(gr.items[i].pc)
    ensures Sum(Ranks(gr')) < Sum(Ranks(gr))
  {
    assert Ranks(gr') == Ranks(gr)[i := Rank(gr'.items[i].pc)];
    SumUpdate(Ranks(gr), i, Rank(gr'.items[i].pc));
  }

  // Every event is a launch, a source event, or lowers the rank of the grid.
  lemma {:induction false} EventLowers(p: S.Program, st: S.Grid, ev: S.Event, ms: seq<Protocol.Mode>, ost: O.Grid)
    requires Sound(p) && Rel(p, st, ms, ost) && S.Exec(p, st, ev).Some?
    requires !ev.Relaunch? && Meaning(st, ms, ev) == []
    ensures GridRank(S.Exec(p, st, ev).value) < GridRank(st)
  {
    var gr, og := st.groups[ev.g], ost.groups[ev.g];
    if ev.Act? {
      ActLowers(p, gr, og, st.gm, ev.i, ev.v, ev.timer);
      if gr.items[ev.i].pc.Run? {
        var (gr', gm') := S.ActRun(gr, st.gm, ev.i, ev.v, ev.timer);
        ItemLowers(gr, gr', ev.i);
        GroupLowers(st, ev.g, gr', gm');
      } else {
        ItemLowers(gr, S.ActProtocol(p, gr, ev.i), ev.i);
        GroupLowers(st, ev.g, S.ActProtocol(p, gr, ev.i), st.gm);
      }
    } else {
      PassLowers(p, gr, ms[ev.g]);
      GroupLowers(st, ev.g, S.Pass(gr), st.gm);
    }
  }

  function Launches(evs: seq<S.Event>): nat {
    if evs == [] then 0 else (if evs[0].Relaunch? then 1 else 0) + Launches(evs[1..])
  }

  function Weight(st: S.Grid, ms: seq<Protocol.Mode>, ev: S.Event): nat {
    |Meaning(st, ms, ev)| + if ev.Relaunch? then 1 else 0
  }

  lemma {:induction false} EventWeighs(p: S.Program, st: S.Grid, ev: S.Event, ms: seq<Protocol.Mode>, ost: O.Grid)
    requires Sound(p) && Rel(p, st, ms, ost) && S.Exec(p, st, ev).Some?
    ensures var st' := S.Exec(p, st, ev).value;
            && Size(st') == Size(st)
            && if Weight(st, ms, ev) == 0 then GridRank(st') < GridRank(st)
               else GridRank(st') <= MAX_RANK * Size(st)
  {
    var st' := S.Exec(p, st, ev).value;
    assert Size(st') == Size(st) by { SizeStays(p, st, ev); assert Size(st') == Sum(ItemCounts(st')); }
    if Weight(st, ms, ev) == 0 { EventLowers(p, st, ev, ms, ost); } else { RankAtMost(st'); }
  }

  lemma TraceStep(p: S.Program, st: S.Grid, evs: seq<S.Event>, ms: seq<Protocol.Mode>)
    requires |ms| == |st.groups| && evs != [] && S.Exec(p, st, evs[0]).Some?
    ensures var st1, ms1 := S.Exec(p, st, evs[0]).value, Modes(st, ms, evs[0]);
            && |ms1| == |st1.groups|
            && Trace(p, st, ms, evs).0 == Meaning(st, ms, evs[0]) + Trace(p, st1, ms1, evs[1..]).0
            && Cost(p, st, ms, evs) == Weight(st, ms, evs[0]) + Cost(p, st1, ms1, evs[1..])
  {
  }

  // Events paid for by a rank and by `n` events that restore up to `most` of it.
  function Budget(rank: nat, most: nat, n: nat): nat {
    if n == 0 then rank else most + 1 + Budget(rank, most, n - 1)
  }

  lemma {:induction false} BudgetIs(rank: nat, most: nat, n: nat)
    ensures Budget(rank, most, n) == rank + n * (most + 1)
  {
    if n > 0 { BudgetIs(rank, most, n - 1); }
  }

  lemma {:induction false} BudgetAdds(rank: nat, rank': nat, most: nat, n: nat)
    requires rank <= rank'
    ensures Budget(rank, most, n) + (rank' - rank) == Budget(rank', most, n)
  {
    if n > 0 { BudgetAdds(rank, rank', most, n - 1); }
  }

  lemma {:induction false} BudgetGrows(rank: nat, most: nat, n: nat, n': nat)
    requires n <= n'
    ensures Budget(rank, most, n) <= Budget(rank, most, n')
  {
    if n < n' { BudgetGrows(rank, most, n, n' - 1); }
  }

  lemma Weigh(len: nat, rank: nat, rank1: nat, most: nat, more: nat, rest: nat, n: nat)
    requires len <= Budget(rank1, most, rest) && n == more + rest
    requires if more == 0 then rank1 < rank else rank1 <= most
    ensures len + 1 <= Budget(rank, most, n)
  {
    if more == 0 {
      BudgetAdds(rank1, rank, most, rest);
    } else {
      BudgetAdds(0, rank1, most, rest);
      BudgetAdds(0, rank, most, n);
      BudgetGrows(0, most, rest + 1, n);
    }
  }

  // Source events and launches of a run.
  function Cost(p: S.Program, st: S.Grid, ms: seq<Protocol.Mode>, evs: seq<S.Event>): nat
    requires |ms| == |st.groups|
  {
    |Trace(p, st, ms, evs).0| + Launches(evs)
  }

  // Events of a sliced execution of `size` items, for `bound` source events.
  function MaxLength(bound: nat, size: nat): nat {
    (2 * bound + 2) * (MAX_RANK * size + 1)
  }

  lemma BudgetAtMost(len: nat, rank: nat, most: nat, cost: nat, bound: nat, size: nat)
    requires len <= Budget(rank, most, cost) && rank <= most == MAX_RANK * size && cost <= 2 * bound + 1
    ensures len <= MaxLength(bound, size)
  {
    var n := 2 * bound + 1;
    BudgetAdds(0, rank, most, cost);
    BudgetGrows(0, most, cost, n);
    BudgetIs(0, most, n);
    assert (n + 1) * (most + 1) == n * (most + 1) + most + 1;
  }

  // The length of a run, by its source events and its launches.
  lemma {:induction false} LengthBound(p: S.Program, st: S.Grid, evs: seq<S.Event>, ms: seq<Protocol.Mode>,
                                       ost: O.Grid, most: nat)
    requires Sound(p) && Rel(p, st, ms, ost) && S.ExecAll(p, st, evs).Some? && most == MAX_RANK * Size(st)
    ensures |evs| <= Budget(GridRank(st), most, Cost(p, st, ms, evs))
    decreases |evs|
  {
    if evs != [] {
      var ev := evs[0];
      var st1, ms1 := S.Exec(p, st, ev).value, Modes(st, ms, ev);
      EventWeighs(p, st, ev, ms, ost);
      TraceStep(p, st, evs, ms);
      SimStep(p, st, ev, ms, ost);
      LengthBound(p, st1, evs[1..], ms1, O.ExecAll(ost, Meaning(st, ms, ev)).value, most);
      Weigh(|evs[1..]|, GridRank(st), GridRank(st1), most, Weight(st, ms, ev),
            Cost(p, st1, ms1, evs[1..]), Cost(p, st, ms, evs));
    }
  }

  // ------------------------------------------------------ launches of a group

  // Some item has just resumed at the end of a loop body and not moved yet.
  predicate Fresh(gr: S.Group) {
    exists i :: 0 <= i < |gr.items| && gr.items[i].pc.Run? && gr.items[i].pc.s.Skip? && gr.items[i].pc.k.KBody?
  }

  function EventsIn(g: nat, oevs: seq<O.Event>): nat {
    if oevs == [] then 0 else (if oevs[0].g == g then 1 else 0) + EventsIn(g, oevs[1..])
  }

  lemma {:induction false} EventsInConcat(g: nat, a: seq<O.Event>, b: seq<O.Event>)
    ensures EventsIn(g, a + b) == EventsIn(g, a) + EventsIn(g, b)
  {
    if a == [] {
      assert a + b == b;
    } else {
      assert (a + b)[0] == a[0] && (a + b)[1..] == a[1..] + b;
      EventsInConcat(g, a[1..], b);
    }
  }

  lemma {:induction false} PassingHits(st: S.Grid, n: nat, g: nat)
    requires g < n && Passes(st, g)
    ensures EventsIn(g, Passing(st, n)) > 0
  {
    EventsInConcat(g, Passing(st, n - 1), if Passes(st, n - 1) then [O.Release(n - 1)] else []);
    if g < n - 1 { PassingHits(st, n - 1, g); }
  }

  // A fresh item must take a source step before its slice can end.
  lemma {:induction false} FreshStays(p: S.Program, st: S.Grid, ev: S.Event, ms: seq<Protocol.Mode>, g: nat)
    requires S.Exec(p, st, ev).Some? && g < |st.groups| && Fresh(st.groups[g])
    requires EventsIn(g, Meaning(st, ms, ev)) == 0
    ensures !ev.Relaunch? && |S.Exec(p, st, ev).value.groups| == |st.groups| && Fresh(S.Exec(p, st, ev).value.groups[g])
  {
    var gr := st.groups[g];
    var l :| 0 <= l < |gr.items| && gr.items[l].pc.Run? && gr.items[l].pc.s.Skip? && gr.items[l].pc.k.KBody?;
    assert !S.Waiting(gr.items[l].pc) && !gr.items[l].pc.Gone?;
    if ev.Act? && ev.g == g {
      assert Matched(gr, l);
      assert ev.i != l;
      assert S.Exec(p, st, ev).value.groups[g].items[l] == gr.items[l];
    }
  }

  // At the end of a slice, an unfinished group with uniform barriers is blocked
  // by one barrier, or one of its items stopped at a timer test.
  lemma {:induction false} UnfinishedGroup(p: S.Program, gr: S.Group, og: O.Group, i: nat)
    requires Sound(p) && GroupRel(p, gr, og) && S.AllGone(gr) && i < |gr.items| && gr.items[i].hdr < 0
    requires forall j | 0 <= j < |og.items| ::
      !O.Done(og.items[j]) && (og.items[j].s.Barrier? ==> og.items[j].s == og.items[i].s)
    ensures Blocked(S.HeadersOf(gr)) || exists j :: 0 <= j < |gr.items| && gr.items[j].hdr > 0
  {
    var h := S.HeadersOf(gr);
    if forall j | 0 <= j < |gr.items| :: gr.items[j].hdr <= 0 {
      forall j | 0 <= j < |gr.items| ensures h[j] < 0 && h[j] == gr.items[i].hdr {
        assert ItemRel(p, gr.items[j], og.items[j]) && ItemRel(p, gr.items[i], og.items[i]);
        SameTag(p, gr.items[j], gr.items[i]);
      }
    }
  }

  // Barriers and labels determine one another.
  lemma SameTag(p: S.Program, x: S.Item, y: S.Item)
    requires Shaped(p) && x.hdr < 0 && y.hdr < 0
    requires Find(-x.hdr, p.code, KStop).Some? && Find(-y.hdr, p.code, KStop).Some?
    requires var s, t := Find(-x.hdr, p.code, KStop).value, Find(-y.hdr, p.code, KStop).value;
             s.Wait? && t.Wait? && s.b == t.b
    ensures x.hdr == y.hdr
  {
    SiteAt(p, -x.hdr);
    SiteAt(p, -y.hdr);
  }

  // An item that stopped at a timer test resumes at the end of a loop body.
  lemma {:induction false} TimerResumes(p: S.Program, it: S.Item, o: O.Item, junk: Env)
    requires Sound(p) && it.pc.Gone? && ItemRel(p, it, o) && it.hdr > 0
    ensures var pc := S.Enter(p, it, it.hdr, junk).pc; pc.Run? && pc.s.Skip? && pc.k.KBody?
  {
    SiteAt(p, it.hdr);
  }

  lemma {:induction false} GroupFreshens(p: S.Program, gr: S.Group, og: O.Group, env: int -> Env, lm: seq<int>)
    requires Sound(p) && GroupRel(p, gr, og) && S.AllGone(gr) && Unfinished(S.HeadersOf(gr))
        && !Blocked(S.HeadersOf(gr))
    requires forall i, j | 0 <= i < |og.items| && 0 <= j < |og.items| && og.items[i].s.Barrier? ::
      !O.Done(og.items[j]) && (og.items[j].s.Barrier? ==> og.items[j].s == og.items[i].s)
    ensures Fresh(S.EnterGroup(p, gr, Released(S.HeadersOf(gr)), env, lm))
  {
    var h := S.HeadersOf(gr);
    var u :| 0 <= u < |h| && h[u] != 0;
    assert ItemRel(p, gr.items[u], og.items[u]);
    if gr.items[u].hdr < 0 { UnfinishedGroup(p, gr, og, u); }
    var j :| 0 <= j < |gr.items| && gr.items[j].hdr > 0;
    assert ItemRel(p, gr.items[j], og.items[j]);
    TimerResumes(p, gr.items[j], og.items[j], env(gr.items[j].id));
    var gr' := S.EnterGroup(p, gr, Released(h), env, lm);
    assert gr'.items[j] == S.Enter(p, gr.items[j], gr.items[j].hdr, env(gr.items[j].id));
  }

  lemma {:induction false} LaunchFreshens(p: S.Program, st: S.Grid, ev: S.Event, ms: seq<Protocol.Mode>, ost: O.Grid,
                                          g: nat)
    requires Sound(p) && Rel(p, st, ms, ost) && S.Exec(p, st, ev).Some? && ev.Relaunch?
    requires O.Aligned(ost) && g < |st.groups| && Unfinished(S.HeadersOf(st.groups[g]))
    ensures EventsIn(g, Meaning(st, ms, ev)) > 0 || Fresh(S.Exec(p, st, ev).value.groups[g])
  {
    if Passes(st, g) {
      PassingHits(st, |st.groups|, g);
    } else {
      GroupFreshens(p, st.groups[g], ost.groups[g], ev.env, ev.lm(g));
    }
  }

  lemma {:induction false} UniformStays(ost: O.Grid, oevs: seq<O.Event>)
    requires O.Uniform(ost) && O.ExecAll(ost, oevs).Some?
    ensures O.Uniform(O.ExecAll(ost, oevs).value) && O.Aligned(ost)
  {
    var ost1 := O.ExecAll(ost, oevs).value;
    forall more: seq<O.Event> | O.ExecAll(ost1, more).Some? ensures O.Aligned(O.ExecAll(ost1, more).value) {
      O.ExecConcat(ost, oevs, more);
      assert O.ExecAll(ost, oevs + more) == O.ExecAll(ost1, more);
    }
    assert O.ExecAll(ost, []) == Some(ost);
  }

  // Launches of a grid whose group `g` still has work.
  function LaunchesOf(p: S.Program, st: S.Grid, evs: seq<S.Event>, g: nat): nat
    decreases |evs|
  {
    if evs == [] || S.Exec(p, st, evs[0]).None? then 0
    else
      (if evs[0].Relaunch? && g < |st.groups| && Unfinished(S.HeadersOf(st.groups[g])) then 1 else 0)
      + LaunchesOf(p, S.Exec(p, st, evs[0]).value, evs[1..], g)
  }

  // One event of a run, seen from group `g`: after a launch of an unfinished
  // group that brings no source event, and as long as none follows, the group
  // has a fresh item.
  lemma {:induction false} FreshStep(p: S.Program, st: S.Grid, ev: S.Event, ms: seq<Protocol.Mode>, ost: O.Grid, g: nat)
    requires Sound(p) && Rel(p, st, ms, ost) && S.Exec(p, st, ev).Some? && O.Aligned(ost) && g < |st.groups|
    ensures |S.Exec(p, st, ev).value.groups| == |st.groups|
    ensures var launched := ev.Relaunch? && Unfinished(S.HeadersOf(st.groups[g]));
            var fresh' := Fresh(S.Exec(p, st, ev).value.groups[g]);
            (if launched then 1 else 0) + (if fresh' then 0 else 1)
            <= EventsIn(g, Meaning(st, ms, ev)) + (if Fresh(st.groups[g]) then 0 else 1)
  {
    if Fresh(st.groups[g]) && EventsIn(g, Meaning(st, ms, ev)) == 0 { FreshStays(p, st, ev, ms, g); }
    if ev.Relaunch? && !Fresh(st.groups[g]) && Unfinished(S.HeadersOf(st.groups[g])) {
      LaunchFreshens(p, st, ev, ms, ost, g);
    }
  }

  /** Progress, group by group.  Whatever the timer says, a group is launched
      with work left at most once more than it has source events: each slice
      strictly shortens the remaining work of every unfinished group. */
  lemma {:induction false} GroupProgress(p: S.Program, st: S.Grid, evs: seq<S.Event>, ms: seq<Protocol.Mode>,
                                         ost: O.Grid, g: nat)
    requires Sound(p) && Rel(p, st, ms, ost) && S.ExecAll(p, st, evs).Some? && O.Uniform(ost) && g < |st.groups|
    ensures LaunchesOf(p, st, evs, g)
            <= EventsIn(g, Trace(p, st, ms, evs).0) + (if Fresh(st.groups[g]) then 0 else 1)
    decreases |evs|
  {
    if evs != [] {
      var ev := evs[0];
      var st1, ms1, mean := S.Exec(p, st, ev).value, Modes(st, ms, ev), Meaning(st, ms, ev);
      SimStep(p, st, ev, ms, ost);
      UniformStays(ost, mean);
      FreshStep(p, st, ev, ms, ost, g);
      TraceStep(p, st, evs, ms);
      GroupProgress(p, st1, evs[1..], ms1, O.ExecAll(ost, mean).value, g);
      EventsInConcat(g, mean, Trace(p, st1, ms1, evs[1..]).0);
    }
  }

  // ------------------------------------------------------- the whole execution

  predicate AnyFresh(st: S.Grid) {
    exists g :: 0 <= g < |st.groups| && Fresh(st.groups[g])
  }

  lemma {:induction false} EventsInSome(g: nat, oevs: seq<O.Event>)
    ensures EventsIn(g, oevs) <= |oevs|
  {
    if oevs != [] { EventsInSome(g, oevs[1..]); }
  }

  // A launch with no source event of its own leaves a fresh item somewhere.
  lemma {:induction false} AnyFreshStep(p: S.Program, st: S.Grid, ev: S.Event, ms: seq<Protocol.Mode>, ost: O.Grid)
    requires Sound(p) && Rel(p, st, ms, ost) && S.Exec(p, st, ev).Some? && O.Aligned(ost)
    ensures (if ev.Relaunch? then 1 else 0) + (if AnyFresh(S.Exec(p, st, ev).value) then 0 else 1)
            <= |Meaning(st, ms, ev)| + (if AnyFresh(st) then 0 else 1)
  {
    if AnyFresh(st) {
      var g :| 0 <= g < |st.groups| && Fresh(st.groups[g]);
      FreshStep(p, st, ev, ms, ost, g);
      EventsInSome(g, Meaning(st, ms, ev));
      if |Meaning(st, ms, ev)| == 0 { FreshStays(p, st, ev, ms, g); }
    } else if ev.Relaunch? {
      var g :| 0 <= g < |st.groups| && Unfinished(S.HeadersOf(st.groups[g]));
      LaunchFreshens(p, st, ev, ms, ost, g);
      EventsInSome(g, Meaning(st, ms, ev));
    }
  }

  lemma {:induction false} LaunchBound(p: S.Program, st: S.Grid, evs: seq<S.Event>, ms: seq<Protocol.Mode>, ost: O.Grid)
    requires Sound(p) && Rel(p, st, ms, ost) && S.ExecAll(p, st, evs).Some? && O.Uniform(ost)
    ensures Launches(evs) <= |Trace(p, st, ms, evs).0| + (if AnyFresh(st) then 0 else 1)
    decreases |evs|
  {
    if evs != [] {
      var ev := evs[0];
      var st1, ms1, mean := S.Exec(p, st, ev).value, Modes(st, ms, ev), Meaning(st, ms, ev);
      SimStep(p, st, ev, ms, ost);
      UniformStays(ost, mean);
      AnyFreshStep(p, st, ev, ms, ost);
      TraceStep(p, st, evs, ms);
      LaunchBound(p, st1, evs[1..], ms1, O.ExecAll(ost, mean).value);
    }
  }

  // With uniform barriers the host's sanity check never fails.
  lemma {:induction false} NoClash(p: S.Program, gr: S.Group, og: O.Group)
    requires Sound(p) && GroupRel(p, gr, og) && S.AllGone(gr)
    requires forall i, j | 0 <= i < |og.items| && 0 <= j < |og.items| && og.items[i].s.Barrier?
        && og.items[j].s.Barrier? ::
      og.items[i].s == og.items[j].s
    ensures !Clash(S.HeadersOf(gr))
  {
    var h := S.HeadersOf(gr);
    forall i, j | 0 <= i < |h| && 0 <= j < |h| && h[i] < 0 && h[j] < 0 ensures h[i] == h[j] {
      assert ItemRel(p, gr.items[i], og.items[i]) && ItemRel(p, gr.items[j], og.items[j]);
      SameTag(p, gr.items[i], gr.items[j]);
    }
  }

  lemma {:induction false} MayLaunch(p: S.Program, st: S.Grid, ms: seq<Protocol.Mode>, ost: O.Grid)
    requires Sound(p) && Rel(p, st, ms, ost) && O.Aligned(ost) && !S.Finished(st)
    requires forall g | 0 <= g < |st.groups| :: S.AllGone(st.groups[g])
    ensures exists ev :: S.Exec(p, st, ev).Some?
  {
    forall g | 0 <= g < |st.groups| ensures !Clash(S.HeadersOf(st.groups[g])) && |st.groups[g].lm| == p.words {
      NoClash(p, st.groups[g], ost.groups[g]);
    }
    var ev := S.Relaunch(_ => map[], (g: nat) => seq(p.words, _ => 0));
    assert S.Exec(p, st, ev).Some?;
  }

  // An execution that is not finished can go on.
  lemma {:induction false} NeverStuck(p: S.Program, st: S.Grid, ms: seq<Protocol.Mode>, ost: O.Grid)
    requires Sound(p) && Rel(p, st, ms, ost) && O.Aligned(ost) && !S.Finished(st)
    ensures exists ev :: S.Exec(p, st, ev).Some?
  {
    if g :| 0 <= g < |st.groups| && !S.AllGone(st.groups[g]) {
      assert GroupRel(p, st.groups[g], ost.groups[g]) && S.WellFormed(p, st.groups[g]);
      UnfinishedGoesOn(p, st, g, ost.groups[g]);
    } else {
      MayLaunch(p, st, ms, ost);
    }
  }

  lemma UnfinishedGoesOn(p: S.Program, st: S.Grid, g: nat, og: O.Group)
    requires g < |st.groups| && !S.AllGone(st.groups[g])
    requires GroupRel(p, st.groups[g], og) && S.WellFormed(p, st.groups[g])
    ensures exists ev :: S.Exec(p, st, ev).Some?
  {
    GroupGoesOn(p, st.groups[g], og);
    if S.CanRelease(st.groups[g]) {
      assert S.Exec(p, st, S.Release(g)).Some?;
    } else {
      var i :| 0 <= i < |st.groups[g].items| && S.CanAct(st.groups[g].items[i].pc);
      CanGoOn(p, st, g, i);
    }
  }

  lemma CanGoOn(p: S.Program, st: S.Grid, g: nat, i: nat)
    requires g < |st.groups| && S.WellFormed(p, st.groups[g])
    requires i < |st.groups[g].items| && S.CanAct(st.groups[g].items[i].pc)
    ensures S.Exec(p, st, S.Act(g, i, 0, false)).Some?
  {
  }

  lemma {:induction false} GroupGoesOn(p: S.Program, gr: S.Group, og: O.Group)
    requires GroupRel(p, gr, og) && !S.AllGone(gr)
    ensures S.CanRelease(gr) || exists i :: 0 <= i < |gr.items| && S.CanAct(gr.items[i].pc)
  {
    if forall i | 0 <= i < |gr.items| :: !S.CanAct(gr.items[i].pc) {
      forall i | 0 <= i < |gr.items| ensures S.Waiting(gr.items[i].pc) || gr.items[i].pc.Gone? {
        assert ItemRel(p, gr.items[i], og.items[i]);
      }
      var w :| 0 <= w < |gr.items| && !gr.items[w].pc.Gone?;
      assert S.Waiting(gr.items[w].pc);
    }
  }

  lemma {:induction false} RunBound(p: S.Program, st: S.Grid, evs: seq<S.Event>, ms: seq<Protocol.Mode>, ost: O.Grid,
                                    bound: nat)
    requires Sound(p) && Rel(p, st, ms, ost) && S.ExecAll(p, st, evs).Some?
    requires O.Terminates(ost, bound) && O.Uniform(ost)
    ensures Launches(evs) <= bound + 1 && |evs| <= MaxLength(bound, Size(st))
  {
    var most, rank, cost := MAX_RANK * Size(st), GridRank(st), Cost(p, st, ms, evs);
    assert |Trace(p, st, ms, evs).0| <= bound by { Simulates(p, st, evs, ms, ost); }
    LaunchBound(p, st, evs, ms, ost);
    LengthBound(p, st, evs, ms, ost, most);
    RankAtMost(st);
    BudgetAtMost(|evs|, rank, most, cost, bound, Size(st));
  }

  /** Termination.  If the source kernel always ends, within `bound` events, and
      its barriers are uniform, then so does every sliced execution, whatever
      the timer and the schedule; it never gets stuck before it is finished. */
  lemma {:induction false} SlicedTerminates(src: Stmt, claim: nat -> set<Var>, params: set<Var>, words: nat,
                                            ost: O.Grid, prv: Env, buf: nat -> seq<int>, evs: seq<S.Event>, bound: nat)
    requires Accepted(src, claim, params) && Initial(ost, src, words) && forall g: nat :: |buf(g)| == words
    requires O.Terminates(ost, bound) && O.Uniform(ost)
    requires var p := Compile(src, claim, params, words); S.ExecAll(p, Launch(p, ost, prv, buf), evs).Some?
    ensures var p := Compile(src, claim, params, words);
            var st := Launch(p, ost, prv, buf);
            && Launches(evs) <= bound + 1
            && |evs| <= MaxLength(bound, Size(st))
            && (S.Finished(S.ExecAll(p, st, evs).value)
                || exists ev :: S.Exec(p, S.ExecAll(p, st, evs).value, ev).Some?)
  {
    var p := Compile(src, claim, params, words);
    var st, ms := Launch(p, ost, prv, buf), AllWork(|ost.groups|);
    CompileSound(src, claim, params, words);
    LaunchRel(p, ost, prv, buf);
    RunBound(p, st, evs, ms, ost, bound);
    GoesOn(p, st, evs, ms, ost);
  }

  lemma {:induction false} GoesOn(p: S.Program, st: S.Grid, evs: seq<S.Event>, ms: seq<Protocol.Mode>, ost: O.Grid)
    requires Sound(p) && Rel(p, st, ms, ost) && S.ExecAll(p, st, evs).Some? && O.Uniform(ost)
    ensures var end := S.ExecAll(p, st, evs).value; S.Finished(end) || exists ev :: S.Exec(p, end, ev).Some?
  {
    var (oevs, ms') := Trace(p, st, ms, evs);
    Simulates(p, st, evs, ms, ost);
    var end, oend := S.ExecAll(p, st, evs).value, O.ExecAll(ost, oevs).value;
    assert O.Aligned(oend);
    if !S.Finished(end) { NeverStuck(p, end, ms', oend); }
  }

  // ------------------------------------------------------ a kernel to think of

  // Two items that meet at a barrier: all that the results on termination ask
  // of a kernel holds of this one.
  function TwoAt(s: Stmt): O.Grid {
    O.Grid([O.Group([O.Item(0, s, KStop, map[]), O.Item(1, s, KStop, map[])], [0])], map[])
  }

  lemma OneRelease(ev: O.Event)
    ensures O.Exec(TwoAt(Barrier(0)), ev).Some? ==> O.Exec(TwoAt(Barrier(0)), ev).value == TwoAt(Skip)
    ensures O.Exec(TwoAt(Skip), ev).None?
  {
    var st := TwoAt(Barrier(0));
    if ev.Release? && ev.g == 0 {
      assert O.Pass(st.groups[0]).items == TwoAt(Skip).groups[0].items;
    }
  }

  lemma NothingMore(evs: seq<O.Event>)
    requires evs != []
    ensures O.ExecAll(TwoAt(Skip), evs).None?
  {
    OneRelease(evs[0]);
  }

  lemma BothAligned()
    ensures O.Aligned(TwoAt(Barrier(0))) && O.Aligned(TwoAt(Skip))
  {
  }

  lemma MeetingRuns(evs: seq<O.Event>)
    ensures var r := O.ExecAll(TwoAt(Barrier(0)), evs); r.Some? ==> |evs| <= 1 && O.Aligned(r.value)
  {
    BothAligned();
    if evs != [] {
      OneRelease(evs[0]);
      if evs[1..] != [] { NothingMore(evs[1..]); }
    }
  }

  lemma MeetingIsAKernel() returns (claim: nat -> set<Var>, buf: nat -> seq<int>)
    ensures Accepted(Barrier(0), claim, {}) && Initial(TwoAt(Barrier(0)), Barrier(0), 1)
    ensures forall g: nat :: |buf(g)| == 1
    ensures O.Terminates(TwoAt(Barrier(0)), 1) && O.Uniform(TwoAt(Barrier(0)))
  {
    claim, buf := _ => {}, _ => [0];
    forall evs: seq<O.Event>
      ensures var r := O.ExecAll(TwoAt(Barrier(0)), evs); r.Some? ==> |evs| <= 1 && O.Aligned(r.value)
    {
      MeetingRuns(evs);
    }
  }
}
