/** The instrumented kernel and the host's slice loop, one atomic action at a
    time.  A hardware barrier releases when every item of the group that has
    not left the kernel is waiting at some barrier, whichever one that is. */
module Sliced {
  import opened Wrappers
  import opened Kernel
  import opened Labels
  import opened Headers

  // Emitted kernel body, number of words of local data, number of barriers.
  datatype Program = Program(code: Stmt, words: nat, stops: nat)

  // A barrier being executed: source barrier, stop counter, resume label,
  // variables to save, and what follows.
  datatype Gate = Gate(b: nat, idx: nat, n: nat, save: set<Var>, k: Cont)

  datatype Pc =
    | Run(s: Stmt, k: Cont)
      // The stop protocol: at its first barrier, past it, at the second with
      // the remaining count, past it, at the barrier of the source
    | Stop1(gate: Gate)
    | Past1(gate: Gate)
    | Stop2(gate: Gate, remain: int)
    | Past2(gate: Gate, remain: int)
    | Pause(gate: Gate)
      // The exit protocol: at the save label, at its first barrier with the
      // batch size, past it, at the second with the exit id, past it, left
    | Exit0
    | Exit1(batch: int)
    | Left1(batch: int)
    | Exit2(batch: int, eid: int)
    | Left2(batch: int, eid: int)
    | Gone

  // `prv` is the item's slice of the live-value buffer.
  datatype Item = Item(id: int, pc: Pc, env: Env, hdr: int, prv: Env)

  // Local memory, its buffer, the stop counters and the exit counter.
  datatype Group = Group(items: seq<Item>, lm: seq<int>, buf: seq<int>, stops: seq<int>, final: int)

  datatype Grid = Grid(groups: seq<Group>, gm: map<int, int>)

  // An item acts (with an indeterminate value and the timer's verdict), a
  // hardware barrier releases, or the host starts the next slice.  Private and
  // local memory then hold arbitrary leftovers.
  datatype Event =
    | Act(g: nat, i: nat, v: int, timer: bool)
    | Release(g: nat)
    | Relaunch(env: int -> Env, lm: nat -> seq<int>)

  predicate Waiting(pc: Pc) {
    pc.Stop1? || pc.Stop2? || pc.Pause? || pc.Exit1? || pc.Exit2?
  }

  predicate CanAct(pc: Pc) {
    !Waiting(pc) && !pc.Gone? && (pc.Run? ==> !pc.s.Barrier?)
  }

  // ---------------------------------------------------------- item actions

  function Save(env: Env, save: set<Var>): Env {
    map x | x in save :: Get(env, x)
  }

  // Each item of the last batch copies every `batch`-th word.
  function CopyShare(buf: seq<int>, lm: seq<int>, eid: int, batch: int): (r: seq<int>)
    requires |buf| == |lm|
    ensures |r| == |lm|
  {
    seq(|lm|, w requires 0 <= w < |lm| => if batch > 0 && w % batch == eid then lm[w] else buf[w])
  }

  predicate WellFormed(p: Program, gr: Group) {
    |gr.lm| == |gr.buf| == p.words && |gr.stops| == p.stops
  }

  // Saving at a timer test or a closed barrier, then on to the save label.
  function Park(it: Item, hdr: int, save: set<Var>): Item {
    it.(pc := Exit0, hdr := hdr, prv := Save(it.env, save))
  }

  // What an item does when control is in the kernel body.
  function ActRun(gr: Group, gm: map<int, int>, i: nat, v: int, timer: bool): (Group, map<int, int>)
    requires i < |gr.items| && gr.items[i].pc.Run? && CanAct(gr.items[i].pc)
  {
    var it := gr.items[i];
    var s, k := it.pc.s, it.pc.k;
    match s
    case Checkpoint(n, save) =>
      (gr.(items := gr.items[i := if timer then Park(it, n, save) else it.(pc := Run(Skip, k))]), gm)
    case Stop(b, idx, n, save) =>
      (gr.(items := gr.items[i := it.(pc := Stop1(Gate(b, idx, n, save, k)))],
           stops := if idx < |gr.stops| then gr.stops[idx := gr.stops[idx] - 1] else gr.stops), gm)
    case _ =>
      if !Plain(s, k) then (gr.(items := gr.items[i := it.(pc := Exit0, hdr := 0)]), gm)
      else
        var p := PlainStep(s, k, it.id, Data(it.env, gr.lm, gm), v);
        (gr.(items := gr.items[i := it.(pc := Run(p.s, p.k), env := p.d.env)], lm := p.d.lm), p.d.gm)
  }

  // What it does inside the stop and exit protocols.
  function ActProtocol(p: Program, gr: Group, i: nat): Group
    requires i < |gr.items| && CanAct(gr.items[i].pc) && !gr.items[i].pc.Run? && WellFormed(p, gr)
  {
    var it := gr.items[i];
    match it.pc
    case Past1(gate) =>
      gr.(items := gr.items[i := it.(pc := Stop2(gate, if gate.idx < |gr.stops| then gr.stops[gate.idx] else 0))])
    case Past2(gate, remain) =>
      gr.(items := gr.items[i := if remain != 0 then Park(it, -(gate.n as int), gate.save) else it.(pc := Pause(gate))],
          stops := if gate.idx < |gr.stops| then gr.stops[gate.idx := gr.stops[gate.idx] + 1] else gr.stops)
    case Exit0 =>
      gr.(items := gr.items[i := it.(pc := if p.words == 0 then Gone else Exit1(gr.final))])
    case Left1(batch) =>
      gr.(items := gr.items[i := it.(pc := Exit2(batch, gr.final - 1))], final := gr.final - 1)
    case Left2(batch, eid) =>
      gr.(items := gr.items[i := it.(pc := Gone)],
          buf := if gr.final != 0 then gr.buf else CopyShare(gr.buf, gr.lm, eid, batch))
    case _ => gr
  }

  // -------------------------------------------------------------- barriers

  function Past(pc: Pc): Pc {
    match pc
    case Stop1(gate) => Past1(gate)
    case Stop2(gate, remain) => Past2(gate, remain)
    case Pause(gate) => Run(Skip, gate.k)
    case Exit1(batch) => Left1(batch)
    case Exit2(batch, eid) => Left2(batch, eid)
    case _ => pc
  }

  predicate CanRelease(gr: Group) {
    && (forall i | 0 <= i < |gr.items| :: Waiting(gr.items[i].pc) || gr.items[i].pc.Gone?)
    && exists i :: 0 <= i < |gr.items| && Waiting(gr.items[i].pc)
  }

  function Pass(gr: Group): Group {
    gr.(items := seq(|gr.items|, i requires 0 <= i < |gr.items| => gr.items[i].(pc := Past(gr.items[i].pc))))
  }

  // ------------------------------------------------------------- host loop

  function HeadersOf(gr: Group): seq<int> {
    seq(|gr.items|, i requires 0 <= i < |gr.items| => gr.items[i].hdr)
  }

  predicate AllGone(gr: Group) {
    forall i | 0 <= i < |gr.items| :: gr.items[i].pc.Gone?
  }

  // The slice is over, the host's sanity check passes and some item is
  // unfinished.
  predicate CanRelaunch(st: Grid) {
    && (forall g | 0 <= g < |st.groups| :: AllGone(st.groups[g]) && !Clash(HeadersOf(st.groups[g])))
    && (exists g :: 0 <= g < |st.groups| && Unfinished(HeadersOf(st.groups[g])))
  }

  // The switch at the head of the kernel.
  function Enter(p: Program, it: Item, hdr: int, junk: Env): Item {
    if hdr == 1 then it.(pc := Run(p.code, KStop), hdr := hdr)
    else
      var site := if hdr > 1 then Find(hdr, p.code, KStop) else None;
      if site.Some? then
        it.(pc := Run(Skip, site.value.k), hdr := hdr,
            env := junk + map x | x in site.value.save :: Get(it.prv, x))
      else it.(pc := Exit0, hdr := hdr, env := junk)
  }

  // One group at the start of a slice: counters are reset, and local memory is
  // reloaded unless the kernel is just starting.
  function EnterGroup(p: Program, gr: Group, hdrs: seq<int>, env: int -> Env, lm: seq<int>): Group
    requires |hdrs| == |gr.items|
  {
    Group(seq(|gr.items|, i requires 0 <= i < |gr.items| =>
            Enter(p, gr.items[i], hdrs[i], env(gr.items[i].id))),
          if exists i :: 0 <= i < |hdrs| && hdrs[i] != 1 then gr.buf else lm,
          gr.buf,
          seq(p.stops, _ => |gr.items|),
          |gr.items|)
  }

  function NextSlice(p: Program, st: Grid, env: int -> Env, lm: nat -> seq<int>): Grid {
    st.(groups := seq(|st.groups|, g requires 0 <= g < |st.groups| =>
          EnterGroup(p, st.groups[g], Released(HeadersOf(st.groups[g])), env, lm(g))))
  }

  // ------------------------------------------------------------------ runs

  function Exec(p: Program, st: Grid, ev: Event): Option<Grid> {
    match ev
    case Act(g, i, v, timer) =>
      if g < |st.groups| && i < |st.groups[g].items| && CanAct(st.groups[g].items[i].pc)
         && WellFormed(p, st.groups[g]) then
        var gr := st.groups[g];
        if gr.items[i].pc.Run? then
          var (gr', gm') := ActRun(gr, st.gm, i, v, timer);
          Some(Grid(st.groups[g := gr'], gm'))
        else Some(st.(groups := st.groups[g := ActProtocol(p, gr, i)]))
      else None
    case Release(g) =>
      if g < |st.groups| && CanRelease(st.groups[g]) then
        Some(st.(groups := st.groups[g := Pass(st.groups[g])]))
      else None
    case Relaunch(env, lm) =>
      if CanRelaunch(st) && forall g | 0 <= g < |st.groups| :: |lm(g)| == p.words
      then Some(NextSlice(p, st, env, lm))
      else None
  }

  function ExecAll(p: Program, st: Grid, evs: seq<Event>): Option<Grid>
    decreases |evs|
  {
    if evs == [] then Some(st)
    else
      var r := Exec(p, st, evs[0]);
      if r.Some? then ExecAll(p, r.value, evs[1..]) else None
  }

  // The host sees every header 0.
  predicate Finished(st: Grid) {
    forall g | 0 <= g < |st.groups| :: AllGone(st.groups[g]) && !Unfinished(HeadersOf(st.groups[g]))
  }
}
