/** The merge invariant over all clusters, and what it implies about the free
data clusters of one stripe and group. */
module MergeView {
  import opened Blocks
  import opened Clusters
  import opened MergeState
  import opened Arith

  ghost predicate Tails(lay: Layout) { lay.tail != [] }

  ghost predicate ViewOk(par: Params, ph: Phase, lay: Layout, view: View, todos: seq<Todo>) {
    && par.Ok() && PhaseOk(par, ph) && LayoutOk(par, lay)
    && |lay.roles| == |view| == |todos|
    && (forall c :: 0 <= c < |view| ==> ClusterOk(par, ph, Tails(lay), c, lay.roles[c], view[c], todos[c]))
    && TotOk(par, ph, view)
  }

  function AllClean(n: nat): (r: seq<Todo>)
    ensures |r| == n && forall c :: 0 <= c < n ==> r[c] == Clean
  {
    seq(n, _ => Clean)
  }

  /** The stripe is recorded as spanning the shared clusters and its own free ones. */
  ghost predicate PlaceOk(roles: seq<Role>, view: View, s: int, place: set<nat>)
    requires |roles| == |view|
  {
    forall c :: c in place <==>
      0 <= c < |view| && (roles[c] == Free ==> view[c].blocks != [] && view[c].blocks[0].stripe == s)
  }

  /** A free cluster of stripe s and group i. */
  predicate Owns(role: Role, v: ClusterVal, s: int, i: int) {
    role == Free && v.blocks != [] && v.blocks[0].stripe == s && v.blocks[0].group == i
  }

  /** A free cluster of stripe s and group i that has room. */
  predicate Roomy(par: Params, roles: seq<Role>, view: View, c: int, s: int, i: int)
    requires |roles| == |view|
  {
    0 <= c < |view| && Owns(roles[c], view[c], s, i) && |view[c].blocks| <= par.g
  }

  /** At most one free cluster of each stripe and group has room. */
  ghost predicate OnePartial(par: Params, roles: seq<Role>, view: View, s: int, i: int)
    requires |roles| == |view|
  {
    forall c, d :: Roomy(par, roles, view, c, s, i) && Roomy(par, roles, view, d, s, i) ==> c == d
  }

  // ------------------------------------------------------------------
  // How the data blocks of one stripe and group are spread over the clusters.

  /** A cluster seen from one stripe and group: nothing of it, a full free
      cluster, a free cluster with room, an aggregated cluster, the tail. */
  datatype Piece = Hollow | Whole | Room(n: nat) | Pinned | Tail(n: nat)

  function PieceOf(par: Params, role: Role, v: ClusterVal, s: int, i: int): Piece {
    match role
    case Src(i', parity) =>
      if i' != i then Hollow else if parity then Tail(|Sel(v.blocks, DataAt(s, i))|) else Pinned
    case Glob => Hollow
    case Free =>
      if !Owns(role, v, s, i) then Hollow
      else if |v.blocks| <= par.g then Room(|v.blocks|) else Whole
  }

  function Pieces(par: Params, roles: seq<Role>, view: View, s: int, i: int): (r: seq<Piece>)
    requires |roles| == |view|
    ensures |r| == |view| && forall c :: 0 <= c < |r| ==> r[c] == PieceOf(par, roles[c], view[c], s, i)
  {
    seq(|view|, c requires 0 <= c < |view| => PieceOf(par, roles[c], view[c], s, i))
  }

  function Weight(g: nat, p: Piece): nat {
    match p
    case Hollow => 0
    case Whole => g + 1
    case Room(n) => n
    case Pinned => g + 1
    case Tail(n) => n
  }

  /** Blocks a global-parity recalculation fetches from a free cluster. */
  function Fetch(g: nat, p: Piece): nat {
    match p
    case Whole => g
    case Room(n) => n
    case _ => 0
  }

  function Wholes(ps: seq<Piece>): nat {
    if ps == [] then 0 else Wholes(ps[..|ps| - 1]) + (if ps[|ps| - 1].Whole? then 1 else 0)
  }

  function Pins(ps: seq<Piece>): nat {
    if ps == [] then 0 else Pins(ps[..|ps| - 1]) + (if ps[|ps| - 1].Pinned? then 1 else 0)
  }

  function RoomSum(ps: seq<Piece>): nat {
    if ps == [] then 0
    else RoomSum(ps[..|ps| - 1]) + (match ps[|ps| - 1] case Room(n) => n case _ => 0)
  }

  function TailSum(ps: seq<Piece>): nat {
    if ps == [] then 0
    else TailSum(ps[..|ps| - 1]) + (match ps[|ps| - 1] case Tail(n) => n case _ => 0)
  }

  function FetchSum(g: nat, ps: seq<Piece>): nat {
    if ps == [] then 0 else FetchSum(g, ps[..|ps| - 1]) + Fetch(g, ps[|ps| - 1])
  }

  lemma {:induction false} FetchSumIs(g: nat, ps: seq<Piece>)
    ensures FetchSum(g, ps) == Wholes(ps) * g + RoomSum(ps)
  {
    if ps != [] {
      FetchSumIs(g, ps[..|ps| - 1]);
      assert (Wholes(ps[..|ps| - 1]) + 1) * g == Wholes(ps[..|ps| - 1]) * g + g;
    }
  }

  lemma {:induction false} TotPieces(par: Params, roles: seq<Role>, view: View, s: int, i: int)
    requires |roles| == |view|
    requires forall c :: 0 <= c < |view| ==>
      |Sel(view[c].blocks, DataAt(s, i))| == Weight(par.g, PieceOf(par, roles[c], view[c], s, i))
    ensures var ps := Pieces(par, roles, view, s, i);
      Tot(view, DataAt(s, i)) == (Wholes(ps) + Pins(ps)) * (par.g + 1) + RoomSum(ps) + TailSum(ps)
  {
    hide PieceOf; hide Sel;
    if view != [] {
      var n := |view| - 1;
      TotPieces(par, roles[..n], view[..n], s, i);
      var ps := Pieces(par, roles, view, s, i);
      assert ps[..n] == Pieces(par, roles[..n], view[..n], s, i);
      assert ps[n] == PieceOf(par, roles[n], view[n], s, i);
      var w := Wholes(ps[..n]) + Pins(ps[..n]);
      assert (w + 1) * (par.g + 1) == w * (par.g + 1) + (par.g + 1);
    }
  }

  lemma {:induction false} RoomSumOne(ps: seq<Piece>, c: int)
    requires forall d :: 0 <= d < |ps| && ps[d].Room? ==> d == c
    ensures RoomSum(ps) == if 0 <= c < |ps| && ps[c].Room? then ps[c].n else 0
  {
    if ps != [] { RoomSumOne(ps[..|ps| - 1], c); }
  }

  lemma {:induction false} TailSumOne(ps: seq<Piece>, c: int)
    requires forall d :: 0 <= d < |ps| && ps[d].Tail? ==> d == c
    ensures TailSum(ps) == if 0 <= c < |ps| && ps[c].Tail? then ps[c].n else 0
  {
    if ps != [] { TailSumOne(ps[..|ps| - 1], c); }
  }

  lemma {:induction false} PinsNone(ps: seq<Piece>)
    requires forall c :: 0 <= c < |ps| ==> !ps[c].Pinned?
    ensures Pins(ps) == 0
  {
    if ps != [] { PinsNone(ps[..|ps| - 1]); }
  }

  /** What one cluster contributes to the data blocks of stripe s, group i. */
  lemma {:induction false} Contribution(par: Params, ph: Phase, tails: bool, c: int, role: Role, v: ClusterVal, s: int,
          i: nat)
    requires ClusterOk(par, ph, tails, c, role, v, Clean) && Live(ph, s)
    ensures |Sel(v.blocks, DataAt(s, i))| == Weight(par.g, PieceOf(par, role, v, s, i))
    ensures role == Src(i, true) ==> |Sel(v.blocks, DataAt(s, i))| == Need(par, ph, true, s, 0)
  {
    hide BlockOk; hide LocalOk; hide GlobalOk; hide PhaseOk; hide Sel; hide Live;
    assert forall j :: 0 <= j < |v.blocks| ==> v.blocks[j] in v.blocks;
    if role.Free? && Owns(role, v, s, i) {
      SelAll(v.blocks, DataAt(s, i));
    } else if !role.Src? || role.group != i {
      SelNone(v.blocks, DataAt(s, i));
    }
  }

  /** Every cluster contributes what its piece says. */
  ghost predicate Contributed(par: Params, ph: Phase, roles: seq<Role>, view: View, s: int, i: nat)
    requires |roles| == |view|
  {
    && (forall c :: 0 <= c < |view| ==>
          |Sel(view[c].blocks, DataAt(s, i))| == Weight(par.g, PieceOf(par, roles[c], view[c], s, i)))
    && (forall c :: 0 <= c < |view| && roles[c] == Src(i, true) ==>
          |Sel(view[c].blocks, DataAt(s, i))| == Need(par, ph, true, s, 0))
  }

  lemma {:induction false} Contributions(par: Params, ph: Phase, lay: Layout, view: View, s: int, i: nat)
    requires ViewOk(par, ph, lay, view, AllClean(|view|)) && Live(ph, s) && i < par.l
    ensures Contributed(par, ph, lay.roles, view, s, i)
  {
    forall c | 0 <= c < |view|
      ensures |Sel(view[c].blocks, DataAt(s, i))| == Weight(par.g, PieceOf(par, lay.roles[c], view[c], s, i))
      ensures lay.roles[c] == Src(i, true) ==> |Sel(view[c].blocks, DataAt(s, i))| == Need(par, ph, true, s, 0)
    {
      Contribution(par, ph, Tails(lay), c, lay.roles[c], view[c], s, i);
    }
  }

  lemma {:induction false} TailPart(par: Params, ph: Phase, lay: Layout, view: View, s: int, i: nat)
    requires LayoutOk(par, lay) && |lay.roles| == |view| && i < par.l
    requires Contributed(par, ph, lay.roles, view, s, i)
    ensures TailSum(Pieces(par, lay.roles, view, s, i)) == if Tails(lay) then Need(par, ph, true, s, 0) else 0
  {
    var ps := Pieces(par, lay.roles, view, s, i);
    forall c | 0 <= c < |ps| && ps[c].Tail? ensures Tails(lay) && c == lay.tail[i] {
      assert SrcRoleOk(par, lay, c, lay.roles[c]);
    }
    TailSumOne(ps, if Tails(lay) then lay.tail[i] else -1);
  }

  /** Data blocks of a stripe's group that sit outside its tail. */
  function Outside(par: Params, ph: Phase, lay: Layout, s: int): int {
    SizeOf(par, ph, s) - (if lay.tail != [] then Need(par, ph, true, s, 0) else 0)
  }

  /** The blocks outside the tail fill whole clusters, apart from one remainder. */
  lemma {:induction false} OutsideIs(par: Params, ph: Phase, lay: Layout, view: View, s: int, i: nat)
    requires LayoutOk(par, lay) && |lay.roles| == |view| && i < par.l
    requires Contributed(par, ph, lay.roles, view, s, i)
    requires Tot(view, DataAt(s, i)) == SizeOf(par, ph, s)
    ensures var ps := Pieces(par, lay.roles, view, s, i);
      Outside(par, ph, lay, s) == (Wholes(ps) + Pins(ps)) * (par.g + 1) + RoomSum(ps)
  {
    TotPieces(par, lay.roles, view, s, i);
    TailPart(par, ph, lay, view, s, i);
  }

  lemma {:induction false} OneRoom(par: Params, roles: seq<Role>, view: View, s: int, i: nat)
    requires |roles| == |view| && OnePartial(par, roles, view, s, i)
    ensures var ps := Pieces(par, roles, view, s, i);
      && RoomSum(ps) <= par.g
      && forall c :: Roomy(par, roles, view, c, s, i) ==> |view[c].blocks| == RoomSum(ps)
  {
    var ps := Pieces(par, roles, view, s, i);
    assert forall c :: 0 <= c < |view| ==> (Roomy(par, roles, view, c, s, i) <==> ps[c].Room?);
    var at := if exists c :: Roomy(par, roles, view, c, s, i) then
                var c :| Roomy(par, roles, view, c, s, i); c else -1;
    RoomSumOne(ps, at);
  }

  /** The room left is decided by the sizes alone, and so is what a
      recalculation has to fetch: g from each full cluster, all of the partial one. */
  lemma {:induction false} SpreadIs(par: Params, ph: Phase, lay: Layout, view: View, s: int, i: nat)
    requires LayoutOk(par, lay) && |lay.roles| == |view| && i < par.l
    requires Contributed(par, ph, lay.roles, view, s, i)
    requires Tot(view, DataAt(s, i)) == SizeOf(par, ph, s)
    requires OnePartial(par, lay.roles, view, s, i)
    ensures var out, ps := Outside(par, ph, lay, s), Pieces(par, lay.roles, view, s, i);
      && (forall c :: Roomy(par, lay.roles, view, c, s, i) ==> |view[c].blocks| == out % (par.g + 1))
      && FetchSum(par.g, ps) == (out / (par.g + 1) - Pins(ps)) * par.g + out % (par.g + 1)
  {
    hide Contributed; hide LayoutOk; hide OnePartial; hide Tot; hide Outside; hide Roomy; hide FetchSum; hide Wholes;
    hide Pins; hide RoomSum; hide Pieces;
    OutsideIs(par, ph, lay, view, s, i);
    OneRoom(par, lay.roles, view, s, i);
    var ps := Pieces(par, lay.roles, view, s, i);
    DivIs(Outside(par, ph, lay, s), Wholes(ps) + Pins(ps), par.g + 1);
    FetchSumIs(par.g, ps);
  }
}
