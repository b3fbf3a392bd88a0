/** The buffer for private variables, byte by byte.  Along every run it holds,
    where the layout puts them, the values that `Sliced` keeps in `prv`: what the
    emitted loads read is what a resumed item gets. */
module PrivateBuffer {
  import opened Wrappers
  import opened Kernel
  import opened Labels
  import opened Headers
  import opened Layout
  import opened Simulation
  import opened Preservation
  import opened Rounds
  import O = Original
  import P = Protocol
  import S = Sliced
  import Tracker
  import Visitor

  // The variables saved at each label in the order of the layout, the bytes of
  // values, and the request for each item.
  datatype Place = Place(live: nat -> seq<Var>, enc: (Var, int) -> seq<bv8>, req: nat)

  ghost predicate LaidOut(p: S.Program, b: Place) {
    && b.req >= Visitor.Request(p.code)
    && (forall x: Var, v: int :: |b.enc(x, v)| == x.size)
    && forall n: nat | Find(n, p.code, KStop).Some? ::
         Tracker.Ordered(b.live(n)) && (set x | x in b.live(n)) == Find(n, p.code, KStop).value.save
  }

  lemma InsideRequest(p: S.Program, b: Place, n: nat)
    requires LaidOut(p, b) && Find(n, p.code, KStop).Some?
    ensures Offset(b.live(n), |b.live(n)|) <= b.req
  {
    Visitor.RequestCovers(p.code, KStop, n);
    Visitor.LayoutTotal(b.live(n));
  }

  // Items are told apart by their ids, which are below `count`.
  ghost predicate Numbered(st: S.Grid, count: nat) {
    && (forall g, i | 0 <= g < |st.groups| && 0 <= i < |st.groups[g].items| :: 0 <= st.groups[g].items[i].id < count)
    && (forall g, i, h, j | 0 <= g < |st.groups| && 0 <= i < |st.groups[g].items| && 0 <= h < |st.groups|
                            && 0 <= j < |st.groups[h].items| && st.groups[g].items[i].id == st.groups[h].items[j].id ::
          g == h && i == j)
  }

  function Label(hdr: int): nat { if hdr < 0 then -hdr else hdr }

  // The label at which an event parks an item, if it does.
  function Parks(st: S.Grid, ev: S.Event): Option<nat> {
    if ev.Act? && ev.g < |st.groups| && ev.i < |st.groups[ev.g].items| then
      match st.groups[ev.g].items[ev.i].pc
      case Run(Checkpoint(n, _), _) => if ev.timer then Some(n) else None
      case Past2(gate, remain) => if remain != 0 then Some(gate.n) else None
      case _ => None
    else None
  }

  // Parking stores the item's variables into its part of the buffer.
  function StoreParked(b: Place, base: nat, env: Env, n: nat, bytes: seq<bv8>): (r: seq<bv8>)
    requires base + Offset(b.live(n), |b.live(n)|) <= |bytes|
    requires forall x: Var, v: int :: |b.enc(x, v)| == x.size
    ensures |r| == |bytes|
  {
    SaveAll(bytes, base, b.live(n), x => b.enc(x, Get(env, x)))
  }

  // The item's part of the buffer holds the variables saved at its label.
  ghost predicate Holds(p: S.Program, b: Place, bytes: seq<bv8>, it: S.Item) {
    var n := Label(it.hdr);
    it.hdr != 0 && it.hdr != 1 ==>
      && Find(n, p.code, KStop).Some? && it.id >= 0
      && forall j | 0 <= j < |b.live(n)| :: HoldsAt(b, bytes, it.id * b.req, it.prv, n, j)
  }

  // Variable `j` of a label is found where the load looks for it.
  ghost predicate HoldsAt(b: Place, bytes: seq<bv8>, base: nat, prv: Env, n: nat, j: nat)
    requires j < |b.live(n)|
  {
    var x := b.live(n)[j];
    var lo := base + Offset(b.live(n), j);
    lo + x.size <= |bytes| && bytes[lo..lo + x.size] == b.enc(x, Get(prv, x))
  }

  ghost predicate AllHold(p: S.Program, b: Place, bytes: seq<bv8>, st: S.Grid) {
    forall g, i | 0 <= g < |st.groups| && 0 <= i < |st.groups[g].items| :: Holds(p, b, bytes, st.groups[g].items[i])
  }

  lemma PartIn(b: Place, id: nat, count: nat, off: nat, size: nat)
    requires id < count && off + size <= b.req
    ensures id * b.req + off + size <= count * b.req
  {
    SlicesApart(b.req, count, id, id, off, size);
  }

  // Storing one item's variables leaves the parts of the others alone.
  lemma PartUntouched(bytes: seq<bv8>, base: nat, live: seq<Var>, val: Var -> seq<bv8>, lo: nat, hi: nat)
    requires (forall x | x in live :: |val(x)| == x.size) && base + Offset(live, |live|) <= |bytes|
    requires lo <= hi <= |bytes| && (hi <= base || base + Offset(live, |live|) <= lo)
    ensures SaveAll(bytes, base, live, val)[lo..hi] == bytes[lo..hi]
  {
    forall a | lo <= a < hi ensures SaveAll(bytes, base, live, val)[a] == bytes[a] {
      SaveStaysInside(bytes, base, live, val, a);
    }
  }

  lemma PartFits(p: S.Program, b: Place, n: nat, j: nat)
    requires LaidOut(p, b) && Find(n, p.code, KStop).Some? && j < |b.live(n)|
    ensures Offset(b.live(n), j) + b.live(n)[j].size <= b.req
  {
    InsideRequest(p, b, n);
    var live := b.live(n);
    if j + 1 < |live| {
      OffsetsApart(live, j, |live| - 1);
    }
    OffsetOfHead(live);
  }

  // Parts of different items do not meet.
  lemma PartsApart(req: nat, count: nat, a: nat, c: nat, off: nat, size: nat, total: nat)
    requires a < count && c < count && a != c && off + size <= req && total <= req
    ensures c * req + off + size <= count * req
    ensures c * req + off + size <= a * req || a * req + total <= c * req + off
  {
    SlicesApart(req, count, c, a, off, size);
    SlicesApart(req, count, a, c, 0, total);
  }

  lemma PartsDisjoint(req: nat, a: nat, c: nat, total: nat)
    requires a != c && total <= req
    ensures c * req + req <= a * req || a * req + total <= c * req
  {
    PartsApart(req, a + c + 1, a, c, 0, req, total);
  }

  lemma OthersKept(p: S.Program, b: Place, bytes: seq<bv8>, it: S.Item, n: nat, other: S.Item)
    requires LaidOut(p, b) && Offset(b.live(n), |b.live(n)|) <= b.req
    requires 0 <= it.id && 0 <= other.id && it.id != other.id && Holds(p, b, bytes, other)
    requires it.id * b.req + Offset(b.live(n), |b.live(n)|) <= |bytes|
    ensures Holds(p, b, StoreParked(b, it.id * b.req, it.env, n, bytes), other)
  {
    if other.hdr != 0 && other.hdr != 1 {
      PartsDisjoint(b.req, it.id, other.id, Offset(b.live(n), |b.live(n)|));
      AllKept(p, b, bytes, it.id * b.req, it.env, n, other.id * b.req, other.prv, Label(other.hdr));
    }
  }

  lemma AllKept(p: S.Program, b: Place, bytes: seq<bv8>, base: nat, env: Env, n: nat, at: nat, prv: Env, m: nat)
    requires LaidOut(p, b) && base + Offset(b.live(n), |b.live(n)|) <= |bytes|
    requires Find(m, p.code, KStop).Some? && forall j | 0 <= j < |b.live(m)| :: HoldsAt(b, bytes, at, prv, m, j)
    requires at + b.req <= base || base + Offset(b.live(n), |b.live(n)|) <= at
    ensures forall j | 0 <= j < |b.live(m)| :: HoldsAt(b, StoreParked(b, base, env, n, bytes), at, prv, m, j)
  {
    forall j | 0 <= j < |b.live(m)| ensures HoldsAt(b, StoreParked(b, base, env, n, bytes), at, prv, m, j) {
      PartFits(p, b, m, j);
      OtherKept(b, bytes, base, env, n, at, prv, m, j);
    }
  }

  lemma OtherKept(b: Place, bytes: seq<bv8>, base: nat, env: Env, n: nat, at: nat, prv: Env, m: nat, j: nat)
    requires forall x: Var, v: int :: |b.enc(x, v)| == x.size
    requires base + Offset(b.live(n), |b.live(n)|) <= |bytes|
    requires j < |b.live(m)| && HoldsAt(b, bytes, at, prv, m, j)
    requires Offset(b.live(m), j) + b.live(m)[j].size <= b.req
    requires at + b.req <= base || base + Offset(b.live(n), |b.live(n)|) <= at
    ensures HoldsAt(b, StoreParked(b, base, env, n, bytes), at, prv, m, j)
  {
    var lo := at + Offset(b.live(m), j);
    PartUntouched(bytes, base, b.live(n), x => b.enc(x, Get(env, x)), lo, lo + b.live(m)[j].size);
  }

  lemma OwnStored(p: S.Program, b: Place, bytes: seq<bv8>, it: S.Item, n: nat, it': S.Item)
    requires LaidOut(p, b) && Find(n, p.code, KStop).Some? && 0 <= it.id == it'.id && Label(it'.hdr) == n
    requires it'.prv == S.Save(it.env, Find(n, p.code, KStop).value.save)
    requires it.id * b.req + Offset(b.live(n), |b.live(n)|) <= |bytes|
    ensures Holds(p, b, StoreParked(b, it.id * b.req, it.env, n, bytes), it')
  {
    var base := it.id * b.req;
    forall j | 0 <= j < |b.live(n)| ensures HoldsAt(b, StoreParked(b, base, it.env, n, bytes), base, it'.prv, n, j) {
      OneStored(b, bytes, base, it.env, n, j);
    }
  }

  lemma OneStored(b: Place, bytes: seq<bv8>, base: nat, env: Env, n: nat, j: nat)
    requires forall x: Var, v: int :: |b.enc(x, v)| == x.size
    requires j < |b.live(n)| && base + Offset(b.live(n), |b.live(n)|) <= |bytes|
    ensures HoldsAt(b, StoreParked(b, base, env, n, bytes), base, S.Save(env, set x | x in b.live(n)), n, j)
  {
    var live := b.live(n);
    SaveThenLoad(bytes, base, live, x => b.enc(x, Get(env, x)), j);
    assert live[j] in (set x | x in live);
  }

  ghost predicate InRange(b: Place, it: S.Item, n: nat, bytes: seq<bv8>) {
    && 0 <= it.id && it.id * b.req + Offset(b.live(n), |b.live(n)|) <= |bytes|
    && forall x: Var, v: int :: |b.enc(x, v)| == x.size
  }

  // The buffer after an event.
  ghost function After(b: Place, st: S.Grid, ev: S.Event, bytes: seq<bv8>): (r: seq<bv8>)
    ensures |r| == |bytes|
  {
    var n := Parks(st, ev);
    if n.Some? && InRange(b, st.groups[ev.g].items[ev.i], n.value, bytes) then
      var it := st.groups[ev.g].items[ev.i];
      StoreParked(b, it.id * b.req, it.env, n.value, bytes)
    else bytes
  }

  ghost function AfterAll(p: S.Program, b: Place, st: S.Grid, evs: seq<S.Event>, bytes: seq<bv8>): (r: seq<bv8>)
    ensures |r| == |bytes|
    decreases |evs|
  {
    if evs == [] || S.Exec(p, st, evs[0]).None? then bytes
    else AfterAll(p, b, S.Exec(p, st, evs[0]).value, evs[1..], After(b, st, evs[0], bytes))
  }

  // An event parks at most one item, at a label of the program.
  lemma ParksHere(p: S.Program, st: S.Grid, ev: S.Event, ms: seq<P.Mode>, ost: O.Grid)
    requires Shaped(p) && Rel(p, st, ms, ost) && S.Exec(p, st, ev).Some? && Parks(st, ev).Some?
    ensures var it, it' := st.groups[ev.g].items[ev.i], S.Exec(p, st, ev).value.groups[ev.g].items[ev.i];
            var n := Parks(st, ev).value;
            && Find(n, p.code, KStop).Some? && it'.id == it.id && Label(it'.hdr) == n
            && it'.prv == S.Save(it.env, Find(n, p.code, KStop).value.save)
  {
    var gr := st.groups[ev.g];
    assert GroupRel(p, gr, ost.groups[ev.g]) && ItemRel(p, gr.items[ev.i], ost.groups[ev.g].items[ev.i]);
    if gr.items[ev.i].pc.Run? { LabelHere(p, gr.items[ev.i].pc.s, gr.items[ev.i].pc.k); }
  }

  // The same label, or none any more.
  predicate Stays(it: S.Item, it': S.Item) {
    && it'.id == it.id && it'.prv == it.prv
    && (it'.hdr == 0 || Label(it'.hdr) == Label(it.hdr)) && (it.hdr == 1 ==> it'.hdr == 1 || it'.hdr == 0)
  }

  lemma EnterStays(p: S.Program, st: S.Grid, ev: S.Event, g: nat, i: nat)
    requires S.Exec(p, st, ev).Some? && ev.Relaunch? && g < |st.groups| && i < |st.groups[g].items|
    ensures var st' := S.Exec(p, st, ev).value;
            && |st'.groups| == |st.groups| && |st'.groups[g].items| == |st.groups[g].items|
            && Stays(st.groups[g].items[i], st'.groups[g].items[i])
  {
    var gr := st.groups[g];
    var hs := S.HeadersOf(gr);
    assert hs[i] == gr.items[i].hdr && (Released(hs)[i] == hs[i] || (hs[i] < 0 && Released(hs)[i] == -hs[i]));
    assert S.EnterGroup(p, gr, Released(hs), ev.env, ev.lm(g)).items[i]
        == S.Enter(p, gr.items[i], Released(hs)[i], ev.env(gr.items[i].id));
  }

  lemma ActStays(p: S.Program, st: S.Grid, ev: S.Event, i: nat)
    requires S.Exec(p, st, ev).Some? && ev.Act? && i < |st.groups[ev.g].items|
    requires Parks(st, ev).None? || i != ev.i
    ensures var gr' := S.Exec(p, st, ev).value.groups[ev.g];
            |gr'.items| == |st.groups[ev.g].items| && Stays(st.groups[ev.g].items[i], gr'.items[i])
  {
  }

  // All other items keep their headers, up to the sign, and what they saved.
  lemma OthersStay(p: S.Program, st: S.Grid, ev: S.Event, g: nat, i: nat)
    requires S.Exec(p, st, ev).Some? && g < |st.groups| && i < |st.groups[g].items|
    requires Parks(st, ev).None? || g != ev.g || i != ev.i
    ensures var st' := S.Exec(p, st, ev).value;
            && |st'.groups| == |st.groups| && |st'.groups[g].items| == |st.groups[g].items|
            && Stays(st.groups[g].items[i], st'.groups[g].items[i])
  {
    match ev
    case Relaunch(_, _) => EnterStays(p, st, ev, g, i);
    case Act(h, _, _, _) => if h == g { ActStays(p, st, ev, i); }
    case Release(_) =>
  }

  lemma SameHolds(p: S.Program, b: Place, bytes: seq<bv8>, it: S.Item, it': S.Item)
    requires Holds(p, b, bytes, it) && Stays(it, it')
    ensures Holds(p, b, bytes, it')
  {
    if it'.hdr != 0 && it'.hdr != 1 {
      forall j | 0 <= j < |b.live(Label(it.hdr))|
        ensures HoldsAt(b, bytes, it'.id * b.req, it'.prv, Label(it.hdr), j)
      {
        assert HoldsAt(b, bytes, it.id * b.req, it.prv, Label(it.hdr), j);
      }
    }
  }

  lemma EventHolds(p: S.Program, b: Place, st: S.Grid, ev: S.Event, ms: seq<P.Mode>, ost: O.Grid, bytes: seq<bv8>,
                   count: nat)
    requires Shaped(p) && Rel(p, st, ms, ost) && S.Exec(p, st, ev).Some? && LaidOut(p, b)
    requires Numbered(st, count) && |bytes| == count * b.req && AllHold(p, b, bytes, st)
    ensures Numbered(S.Exec(p, st, ev).value, count)
    ensures AllHold(p, b, After(b, st, ev, bytes), S.Exec(p, st, ev).value)
  {
    var st' := S.Exec(p, st, ev).value;
    forall g, i | 0 <= g < |st.groups| && 0 <= i < |st.groups[g].items|
      ensures |st'.groups| == |st.groups| && |st'.groups[g].items| == |st.groups[g].items|
      ensures st'.groups[g].items[i].id == st.groups[g].items[i].id
      ensures Holds(p, b, After(b, st, ev, bytes), st'.groups[g].items[i])
    {
      ItemHolds(p, b, st, ev, ms, ost, bytes, count, g, i);
    }
    SameNumbers(p, st, ev, count);
  }

  lemma SameNumbers(p: S.Program, st: S.Grid, ev: S.Event, count: nat)
    requires S.Exec(p, st, ev).Some? && Numbered(st, count)
    requires var st' := S.Exec(p, st, ev).value;
             |st'.groups| == |st.groups| && forall g | 0 <= g < |st.groups| ::
               |st'.groups[g].items| == |st.groups[g].items| &&
               forall i | 0 <= i < |st.groups[g].items| :: st'.groups[g].items[i].id == st.groups[g].items[i].id
    ensures Numbered(S.Exec(p, st, ev).value, count)
  {
  }

  lemma ItemHolds(p: S.Program, b: Place, st: S.Grid, ev: S.Event, ms: seq<P.Mode>, ost: O.Grid, bytes: seq<bv8>,
                  count: nat, g: nat, i: nat)
    requires Shaped(p) && Rel(p, st, ms, ost) && S.Exec(p, st, ev).Some? && LaidOut(p, b)
    requires Numbered(st, count) && |bytes| == count * b.req && AllHold(p, b, bytes, st)
    requires g < |st.groups| && i < |st.groups[g].items|
    ensures var st' := S.Exec(p, st, ev).value;
            && |st'.groups| == |st.groups| && |st'.groups[g].items| == |st.groups[g].items|
            && st'.groups[g].items[i].id == st.groups[g].items[i].id
            && Holds(p, b, After(b, st, ev, bytes), st'.groups[g].items[i])
  {
    var it := st.groups[g].items[i];
    assert Holds(p, b, bytes, it);
    var n := Parks(st, ev);
    if n.None? {
      OthersStay(p, st, ev, g, i);
      SameHolds(p, b, bytes, it, S.Exec(p, st, ev).value.groups[g].items[i]);
    } else {
      var me := st.groups[ev.g].items[ev.i];
      ParksHere(p, st, ev, ms, ost);
      InsideRequest(p, b, n.value);
      PartIn(b, me.id, count, 0, Offset(b.live(n.value), |b.live(n.value)|));
      if g == ev.g && i == ev.i {
        OwnStored(p, b, bytes, me, n.value, S.Exec(p, st, ev).value.groups[g].items[i]);
      } else {
        OthersStay(p, st, ev, g, i);
        OthersKept(p, b, bytes, me, n.value, it);
        SameHolds(p, b, After(b, st, ev, bytes), it, S.Exec(p, st, ev).value.groups[g].items[i]);
      }
    }
  }

  lemma {:induction false} RunHolds(p: S.Program, b: Place, st: S.Grid, evs: seq<S.Event>, ms: seq<P.Mode>,
                                    ost: O.Grid, bytes: seq<bv8>, count: nat)
    requires Sound(p) && Rel(p, st, ms, ost) && S.ExecAll(p, st, evs).Some? && LaidOut(p, b)
    requires Numbered(st, count) && |bytes| == count * b.req && AllHold(p, b, bytes, st)
    ensures AllHold(p, b, AfterAll(p, b, st, evs, bytes), S.ExecAll(p, st, evs).value)
    decreases |evs|
  {
    if evs != [] {
      EventHolds(p, b, st, evs[0], ms, ost, bytes, count);
      SimStep(p, st, evs[0], ms, ost);
      RunHolds(p, b, S.Exec(p, st, evs[0]).value, evs[1..], Modes(st, ms, evs[0]),
               O.ExecAll(ost, Meaning(st, ms, evs[0])).value, After(b, st, evs[0], bytes), count);
    }
  }

  // At the launch nobody has saved anything.
  lemma LaunchHolds(p: S.Program, b: Place, ost: O.Grid, prv: Env, buf: nat -> seq<int>, bytes: seq<bv8>)
    ensures AllHold(p, b, bytes, Launch(p, ost, prv, buf))
  {
    var st := Launch(p, ost, prv, buf);
    forall g, i | 0 <= g < |st.groups| && 0 <= i < |st.groups[g].items|
      ensures Holds(p, b, bytes, st.groups[g].items[i])
    {
      StartsFresh(p, ost.groups[g], prv, buf(g), _ => map[]);
    }
  }

  // In every state of every run the buffer holds what each item saved.
  lemma HeldInEveryRun(src: Stmt, claim: nat -> set<Var>, params: set<Var>, words: nat, ost: O.Grid,
                       prv: Env, buf: nat -> seq<int>, evs: seq<S.Event>, st: S.Grid,
                       b: Place, bytes: seq<bv8>, count: nat)
    requires Reached(src, claim, params, words, ost, prv, buf, evs, st)
    requires LaidOut(Compile(src, claim, params, words), b) && |bytes| == count * b.req
    requires Numbered(Launch(Compile(src, claim, params, words), ost, prv, buf), count)
    ensures var p := Compile(src, claim, params, words);
            AllHold(p, b, AfterAll(p, b, Launch(p, ost, prv, buf), evs, bytes), st)
  {
    var p := Compile(src, claim, params, words);
    CompileSound(src, claim, params, words);
    LaunchRel(p, ost, prv, buf);
    LaunchHolds(p, b, ost, prv, buf, bytes);
    RunHolds(p, b, Launch(p, ost, prv, buf), evs, AllWork(|ost.groups|), ost, bytes, count);
  }

  // And when an item is resumed, the loads at its label find the bytes of exactly
  // the values that `Sliced` gives it.
  lemma LoadsWhatEnters(p: S.Program, b: Place, bytes: seq<bv8>, it: S.Item, h: nat, junk: Env, j: nat)
    requires LaidOut(p, b) && Holds(p, b, bytes, it) && h > 1 && h == Label(it.hdr)
    requires S.Enter(p, it, h, junk).pc.Run? && j < |b.live(h)|
    ensures it.id >= 0 && HoldsAt(b, bytes, it.id * b.req, S.Enter(p, it, h, junk).env, h, j)
  {
    assert HoldsAt(b, bytes, it.id * b.req, it.prv, h, j);
    assert b.live(h)[j] in (set x | x in b.live(h));
  }
}
