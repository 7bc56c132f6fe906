/** The invariant of staged stripe merging, on values.

`View` is the list of cluster contents. Every cluster plays a fixed role:
a source cluster (a tail with local parities, or an aggregated data cluster),
the cluster of global parities, or a free data cluster that holds blocks of a
single stripe and group. A stage merges every `xi` stripes into one; `Phase`
says how far the current stage has got. */
module MergeState {
  import opened Blocks
  import opened Clusters

  type View = seq<ClusterVal>

  /** l groups of b data blocks, g global parities, x original stripes. */
  datatype Params = Params(l: nat, g: nat, b: nat, x: nat) {
    function K(): nat { l * b }
    ghost predicate Ok() { l >= 1 && b >= 1 && x >= 1 }
  }

  datatype Role = Src(group: nat, parity: bool) | Glob | Free

  /** `tail[i]` is the tail cluster of group i; `tail` is empty when there are none
      and the local parities live with the global ones in `gid`. */
  datatype Layout = Layout(roles: seq<Role>, tail: seq<nat>, gid: nat)

  ghost predicate LayoutOk(par: Params, lay: Layout) {
    && lay.gid < |lay.roles|
    && (forall c :: 0 <= c < |lay.roles| ==> (lay.roles[c] == Glob <==> c == lay.gid))
    && (lay.tail != [] ==> |lay.tail| == par.l)
    && (forall i :: 0 <= i < |lay.tail| ==> lay.tail[i] < |lay.roles| && lay.roles[lay.tail[i]] == Src(i, true))
    && (forall c :: 0 <= c < |lay.roles| && lay.roles[c].Src? ==> SrcRoleOk(par, lay, c, lay.roles[c]))
  }

  ghost predicate SrcRoleOk(par: Params, lay: Layout, c: nat, role: Role)
    requires role.Src?
  {
    role.group < par.l && (role.parity ==> role.group < |lay.tail| && lay.tail[role.group] == c)
  }

  /** Stage state: before the stage there were x stripes of p original stripes
      each; batches 0..t-1 of xi stripes are merged; tau data blocks per stripe
      sat in each tail before the stage. */
  datatype Phase = Phase(p: nat, x: nat, xi: nat, t: nat, tau: nat)

  ghost predicate PhaseOk(par: Params, ph: Phase) {
    && ph.p >= 1 && ph.xi >= 1
    && ph.x * ph.p == par.x
    && ph.t * ph.xi <= ph.x
  }

  /** Stripe ids in use: the merged ones, and the ones still to merge. */
  predicate Live(ph: Phase, s: int) {
    0 <= s < ph.t || ph.t * ph.xi <= s < ph.x
  }

  function SizeOf(par: Params, ph: Phase, s: int): nat {
    if s < ph.t then par.b * ph.p * ph.xi else par.b * ph.p
  }

  /** The stripe that original stripe o has become part of. */
  function TagOf(ph: Phase, o: int): int
    requires ph.p >= 1 && ph.xi >= 1
  {
    var c := o / ph.p;
    if c < ph.t * ph.xi then c / ph.xi else c
  }

  function OldQuota(par: Params, ph: Phase, parity: bool): nat {
    if parity then ph.tau else par.g + 1
  }

  function NewQuota(par: Params, parity: bool): nat {
    if parity then par.g else par.g + 1
  }

  /** Data blocks of stripe s a source cluster holds when `extra` blocks of the
      newest merged stripe are still to be relocated. */
  function Need(par: Params, ph: Phase, parity: bool, s: int, extra: nat): nat {
    if s < ph.t then NewQuota(par, parity) + (if s == ph.t - 1 then extra else 0)
    else OldQuota(par, ph, parity)
  }

  function TotalNeed(par: Params, ph: Phase, parity: bool, extra: nat): int {
    ph.t * NewQuota(par, parity) + (ph.x - ph.t * ph.xi) * OldQuota(par, ph, parity) + extra
  }

  /** What is still outstanding for the newest merged stripe in one cluster:
      stale local parities, stale global parities, data blocks to relocate. */
  datatype Todo = Todo(locals: bool, globals: bool, extra: nat)

  const Clean: Todo := Todo(false, false, 0)

  ghost predicate DataOk(par: Params, ph: Phase, b: Block)
    requires ph.p >= 1 && ph.xi >= 1 && par.b >= 1 && par.l >= 1
  {
    && 0 <= b.num < par.x * par.K()
    && b.group == b.num % par.K() / par.b
    && b.stripe == TagOf(ph, b.num / par.K())
  }

  ghost predicate BlockOk(par: Params, ph: Phase, c: int, b: Block)
    requires ph.p >= 1 && ph.xi >= 1 && par.b >= 1 && par.l >= 1
  {
    && b.cluster == c
    && Live(ph, b.stripe)
    && match b.kind
       case D => DataOk(par, ph, b)
       case L => 0 <= b.group < par.l
       case G => b.group == par.l
  }

  ghost predicate ShapeOk(par: Params, tails: bool, role: Role, v: ClusterVal) {
    match role
    case Src(i, parity) =>
      && v.kind == (if parity then L else D)
      && forall b :: b in v.blocks ==> b.group == i && (b.kind == D || (parity && b.kind == L))
    case Glob =>
      && v.kind == (if tails then G else L)
      && forall b :: b in v.blocks ==> b.kind == G || (b.kind == L && !tails)
    case Free =>
      && v.kind == D
      && 1 <= |v.blocks| <= par.g + 1
      && forall b :: b in v.blocks ==> b.kind == D && b.stripe == v.blocks[0].stripe && b.group == v.blocks[0].group
  }

  ghost predicate SrcOk(par: Params, ph: Phase, role: Role, v: ClusterVal, extra: nat)
    requires role.Src?
  {
    && (forall s :: Live(ph, s) ==>
          |Sel(v.blocks, DataAt(s, role.group))| == Need(par, ph, role.parity, s, extra))
    && |Sel(v.blocks, AnyData)| == TotalNeed(par, ph, role.parity, extra)
  }

  function LocalParity(par: Params, c: int, s: int, i: int): Block { Block(L, i + s * par.l, i, s, c) }

  function GlobalParities(par: Params, c: int, s: int): seq<Block> {
    seq(par.g, e => Block(G, e + s * par.g, par.l, s, c))
  }

  ghost predicate LocalOk(par: Params, ph: Phase, c: int, v: ClusterVal, i: int, stale: bool) {
    forall s :: Live(ph, s) ==>
      var found := Sel(v.blocks, ParityAt(L, s, i));
      if stale && s == ph.t - 1 then found != [] else found == [LocalParity(par, c, s, i)]
  }

  ghost predicate GlobalOk(par: Params, ph: Phase, c: int, v: ClusterVal, stale: bool) {
    forall s :: Live(ph, s) && !(stale && s == ph.t - 1) ==>
      Sel(v.blocks, ParityAt(G, s, par.l)) == GlobalParities(par, c, s)
  }

  ghost predicate ClusterOk(par: Params, ph: Phase, tails: bool, c: int, role: Role, v: ClusterVal, todo: Todo) {
    && par.Ok() && PhaseOk(par, ph)
    && (forall b :: b in v.blocks ==> BlockOk(par, ph, c, b))
    && ShapeOk(par, tails, role, v)
    && match role
       case Src(i, parity) => SrcOk(par, ph, role, v, todo.extra) && (parity ==> LocalOk(par, ph, c, v, i, todo.locals))
       case Glob =>
         && GlobalOk(par, ph, c, v, todo.globals)
         && (!tails ==> forall i :: 0 <= i < par.l ==> LocalOk(par, ph, c, v, i, todo.locals))
       case Free => true
  }

  // ------------------------------------------------------------------
  // Totals over all clusters.

  function Tot(view: View, q: Query): nat {
    if view == [] then 0 else Tot(view[..|view| - 1], q) + |Sel(view[|view| - 1].blocks, q)|
  }

  /** Nothing lost, nothing duplicated. */
  ghost predicate TotOk(par: Params, ph: Phase, view: View) {
    && (forall s, i :: Live(ph, s) && 0 <= i < par.l ==> Tot(view, DataAt(s, i)) == SizeOf(par, ph, s))
    && (forall n :: 0 <= n < par.x * par.K() ==> Tot(view, DataNum(n)) == 1)
  }

  lemma {:induction false} TotUpdate(view: View, c: nat, v: ClusterVal, q: Query)
    requires c < |view|
    ensures Tot(view[c := v], q) == Tot(view, q) - |Sel(view[c].blocks, q)| + |Sel(v.blocks, q)|
  {
    var n := |view| - 1;
    if c == n {
      assert view[c := v][..n] == view[..n];
    } else {
      assert view[c := v][..n] == view[..n][c := v];
      TotUpdate(view[..n], c, v, q);
    }
  }

  lemma {:induction false} TotAppend(view: View, v: ClusterVal, q: Query)
    ensures Tot(view + [v], q) == Tot(view, q) + |Sel(v.blocks, q)|
  {
    assert (view + [v])[..|view|] == view;
  }
}
