/** What the source kernel means: any interleaving of the work-items of a grid,
    where a barrier lets the items of a group pass only once all of them have
    reached it (section 6.12.8 of OpenCL 1.2). */
module Original {
  import opened Wrappers
  import opened Kernel

  datatype Item = Item(id: int, s: Stmt, k: Cont, env: Env)

  datatype Group = Group(items: seq<Item>, lm: seq<int>)

  datatype Grid = Grid(groups: seq<Group>, gm: map<int, int>)

  // Item `i` of group `g` takes a step, or group `g` passes a barrier.
  datatype Event = Step(g: nat, i: nat, v: int) | Release(g: nat)

  predicate Done(it: Item) {
    it.s.Skip? && it.k.KStop?
  }

  predicate CanRelease(gr: Group) {
    && |gr.items| > 0
    && gr.items[0].s.Barrier?
    && forall i | 0 <= i < |gr.items| :: gr.items[i].s.Barrier? && gr.items[i].s.b == gr.items[0].s.b
  }

  function StepGroup(gr: Group, gm: map<int, int>, i: nat, v: int): (Group, map<int, int>)
    requires i < |gr.items| && Plain(gr.items[i].s, gr.items[i].k)
  {
    var it := gr.items[i];
    var p := PlainStep(it.s, it.k, it.id, Data(it.env, gr.lm, gm), v);
    (Group(gr.items[i := Item(it.id, p.s, p.k, p.d.env)], p.d.lm), p.d.gm)
  }

  function Pass(gr: Group): Group {
    gr.(items := seq(|gr.items|, i requires 0 <= i < |gr.items| => gr.items[i].(s := Skip)))
  }

  function Exec(st: Grid, ev: Event): Option<Grid> {
    if ev.g >= |st.groups| then None
    else
      var gr := st.groups[ev.g];
      match ev
      case Step(g, i, v) =>
        if i < |gr.items| && Plain(gr.items[i].s, gr.items[i].k) then
          var (gr', gm') := StepGroup(gr, st.gm, i, v);
          Some(Grid(st.groups[g := gr'], gm'))
        else None
      case Release(g) =>
        if CanRelease(gr) then Some(st.(groups := st.groups[g := Pass(gr)])) else None
  }

  function ExecAll(st: Grid, evs: seq<Event>): Option<Grid>
    decreases |evs|
  {
    if evs == [] then Some(st)
    else
      var r := Exec(st, evs[0]);
      if r.Some? then ExecAll(r.value, evs[1..]) else None
  }

  lemma {:induction false} ExecConcat(st: Grid, a: seq<Event>, b: seq<Event>)
    ensures ExecAll(st, a + b) == (var r := ExecAll(st, a); if r.Some? then ExecAll(r.value, b) else None)
    decreases |a|
  {
    if a == [] {
      assert a + b == b;
    } else {
      assert (a + b)[0] == a[0] && (a + b)[1..] == a[1..] + b;
      var r := Exec(st, a[0]);
      if r.Some? { ExecConcat(r.value, a[1..], b); }
    }
  }

  // The barriers that item `i` of group `g` has passed in a run.
  ghost function Passed(st: Grid, evs: seq<Event>, g: nat, i: nat): seq<nat>
    requires g < |st.groups| && i < |st.groups[g].items|
    decreases |evs|
  {
    if evs == [] || Exec(st, evs[0]).None? then []
    else
      var st' := Exec(st, evs[0]).value;
      var s, s' := st.groups[g].items[i].s, st'.groups[g].items[i].s;
      (if s.Barrier? && s' != s then [s.b] else []) + Passed(st', evs[1..], g, i)
  }

  /** Whatever the interleaving, the items of a group pass the same barriers in
      the same order, and none is ever a barrier ahead of another. */
  lemma {:induction false} SameBarriers(st: Grid, evs: seq<Event>, g: nat, i: nat, j: nat)
    requires g < |st.groups| && i < |st.groups[g].items| && j < |st.groups[g].items|
    ensures Passed(st, evs, g, i) == Passed(st, evs, g, j)
    decreases |evs|
  {
    if evs != [] && Exec(st, evs[0]).Some? {
      SameBarriers(Exec(st, evs[0]).value, evs[1..], g, i, j);
    }
  }

  // A step of one item concerns no other item, and no local memory but that of
  // its group; an item leaves a barrier exactly when its group is there.
  lemma EventIsLocal(st: Grid, ev: Event, g: nat, i: nat)
    requires Exec(st, ev).Some? && g < |st.groups| && i < |st.groups[g].items|
    ensures var st' := Exec(st, ev).value;
            && |st'.groups| == |st.groups| && |st'.groups[g].items| == |st.groups[g].items|
            && var it, it' := st.groups[g].items[i], st'.groups[g].items[i];
               && (it' != it ==> ev.g == g && (ev.Step? ==> ev.i == i) && it'.id == it.id)
               && (ev.g != g ==> st'.groups[g] == st.groups[g])
               && (ev.Release? ==> st'.gm == st.gm && st'.groups[g].lm == st.groups[g].lm)
               && (it.s.Barrier? && it' != it ==>
                     && it' == it.(s := Skip)
                     && forall j | 0 <= j < |st.groups[g].items| :: st.groups[g].items[j].s == it.s)
  {
  }

  lemma MayPassTogether(st: Grid, g: nat, b: nat)
    requires g < |st.groups| && st.groups[g].items != []
    requires forall i | 0 <= i < |st.groups[g].items| :: st.groups[g].items[i].s == Barrier(b)
    ensures Exec(st, Release(g)).Some?
    ensures forall i | 0 <= i < |st.groups[g].items| ::
              Exec(st, Release(g)).value.groups[g].items[i] == st.groups[g].items[i].(s := Skip)
  {
  }

  // No two items of a group ever wait at different barriers, and none waits
  // while another has finished: the barriers of the kernel are uniform.
  ghost predicate Uniform(st: Grid) {
    forall evs: seq<Event> | ExecAll(st, evs).Some? :: Aligned(ExecAll(st, evs).value)
  }

  ghost predicate Aligned(st: Grid) {
    forall g, i, j | 0 <= g < |st.groups| && 0 <= i < |st.groups[g].items| && 0 <= j < |st.groups[g].items| ::
      st.groups[g].items[i].s.Barrier? ==>
        && !Done(st.groups[g].items[j])
        && (st.groups[g].items[j].s.Barrier? ==> st.groups[g].items[j].s == st.groups[g].items[i].s)
  }

  // Every run of the kernel ends within `bound` events.
  ghost predicate Terminates(st: Grid, bound: nat) {
    forall evs: seq<Event> | ExecAll(st, evs).Some? :: |evs| <= bound
  }

  ghost predicate AllDone(st: Grid) {
    forall g, i | 0 <= g < |st.groups| && 0 <= i < |st.groups[g].items| :: Done(st.groups[g].items[i])
  }
}
