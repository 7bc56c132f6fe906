/** The first-fit discipline: blocks go to the first listed cluster with room,
then to a cluster opened for this merge, then to a new one. Filling one cluster
at a time leaves at most one with room, provided enough blocks are moved. */
module FirstFit {
  import opened MergeState
  import opened MergeView
  import opened MergeFit
  import opened Sums

  /** Free places in cluster c for stripe s, group i. */
  function Gap(par: Params, roles: seq<Role>, view: View, c: int, s: int, i: int): nat
    requires |roles| == |view|
  {
    if Roomy(par, roles, view, c, s, i) then par.g + 1 - |view[c].blocks| else 0
  }

  function Gaps(par: Params, roles: seq<Role>, view: View, s: int, i: int): (r: seq<int>)
    requires |roles| == |view|
    ensures |r| == |view| && forall c :: 0 <= c < |r| ==> r[c] == Gap(par, roles, view, c, s, i)
  {
    seq(|view|, c => Gap(par, roles, view, c, s, i))
  }

  predicate Opened(roles: seq<Role>, view: View, c: nat, s: int) {
    c < |view| && c < |roles| && roles[c] == Free && view[c].blocks != [] && view[c].blocks[0].stripe == s
  }

  /** Bookkeeping of one merge: `order` lists the clusters the merged stripe
      spanned, `added` the ones opened since. */
  ghost predicate Listed(roles: seq<Role>, view: View, order: seq<nat>, added: seq<nat>, s: int) {
    && |roles| == |view| && Within(order, |view|) && Within(added, |view|) && Distinct(order) && Distinct(added)
    && (forall c :: 0 <= c < |view| && Opened(roles, view, c, s) ==> c in order || c in added)
    && (forall f :: 0 <= f < |added| ==> added[f] !in order)
    && (forall f :: 0 <= f < |added| ==> Opened(roles, view, added[f], s))
  }

  /** The list covers the shared clusters, and otherwise only clusters of s. */
  ghost predicate Spans(roles: seq<Role>, view: View, order: seq<nat>, s: int) {
    && |roles| == |view| && Within(order, |view|)
    && (forall c :: 0 <= c < |view| && roles[c] != Free ==> c in order)
    && (forall p :: 0 <= p < |order| ==> roles[order[p]] != Free || Opened(roles, view, order[p], s))
  }

  /** A cluster with room behind another one with room still has its r0 blocks;
      at most `cap` places are free; a added cluster means no listed one has room. */
  ghost predicate FitOk(par: Params, roles: seq<Role>, view: View, order: seq<nat>, added: seq<nat>, s: int, i: int,
          r0: nat, cap: nat)
    requires Listed(roles, view, order, added, s)
  {
    && (forall j, j' ::
          0 <= j < j' < |order| && Roomy(par, roles, view, order[j], s, i)
          && Roomy(par, roles, view, order[j'], s, i) ==>
            |view[order[j']].blocks| == r0)
    && SumAt(order, Gaps(par, roles, view, s, i)) <= cap
    && (forall f, f' :: 0 <= f < f' < |added| && Roomy(par, roles, view, added[f], s, i) ==>
      !Roomy(par, roles, view, added[f'], s, i))
    && ((exists f :: 0 <= f < |added| && view[added[f]].blocks[0].group == i) ==>
      SumAt(order, Gaps(par, roles, view, s, i)) == 0)
  }

  lemma {:induction false} SumAtLeast(order: seq<nat>, w: seq<int>, j: nat)
    requires Within(order, |w|) && j < |order| && forall c :: 0 <= c < |w| ==> w[c] >= 0
    ensures SumAt(order, w) >= w[order[j]]
    ensures SumAt(order, w) >= 0
  {
    var n := |order| - 1;
    if j < n {
      SumAtLeast(order[..n], w, j);
    } else if n > 0 {
      SumAtLeast(order[..n], w, 0);
    }
  }

  lemma {:induction false} SumAtLeastTwo(order: seq<nat>, w: seq<int>, j: nat, j': nat)
    requires Within(order, |w|) && j < j' < |order| && forall c :: 0 <= c < |w| ==> w[c] >= 0
    ensures SumAt(order, w) >= w[order[j]] + w[order[j']]
  {
    var n := |order| - 1;
    if j' < n {
      SumAtLeastTwo(order[..n], w, j, j');
    } else {
      SumAtLeast(order[..n], w, j);
    }
  }

  /** Once few enough places are free, only one cluster can have room. */
  lemma {:induction false} FitDone(par: Params, roles: seq<Role>, view: View, order: seq<nat>, added: seq<nat>, s: int,
          i: int, r0: nat, cap: nat)
    requires Listed(roles, view, order, added, s) && FitOk(par, roles, view, order, added, s, i, r0, cap)
    requires r0 == 0 || cap + r0 <= par.g + 1
    ensures OnePartial(par, roles, view, s, i)
  {
    var w := Gaps(par, roles, view, s, i);
    forall c, d | Roomy(par, roles, view, c, s, i) && Roomy(par, roles, view, d, s, i) && c < d ensures false {
      if c in order && d in order {
        var j :| 0 <= j < |order| && order[j] == c;
        var j' :| 0 <= j' < |order| && order[j'] == d;
        if j < j' { SumAtLeastTwo(order, w, j, j'); } else { SumAtLeastTwo(order, w, j', j); }
      } else if c in order || d in order {
        var e, e' := if c in order then c else d, if c in order then d else c;
        var j :| 0 <= j < |order| && order[j] == e;
        var f :| 0 <= f < |added| && added[f] == e';
        SumAtLeast(order, w, j);
      }
    }
  }

  // ------------------------------------------------------------------
  // One move.

  /** Where first fit puts a block of stripe s and group i. */
  ghost predicate Chosen(par: Params, roles: seq<Role>, view: View, order: seq<nat>, added: seq<nat>, s: int, i: int,
          d: nat)
    requires Listed(roles, view, order, added, s)
  {
    if exists j :: 0 <= j < |order| && Roomy(par, roles, view, order[j], s, i) then
      exists j :: 0 <= j < |order| && d == order[j] && Roomy(par, roles, view, order[j], s, i)
        && forall j' :: 0 <= j' < j ==> !Roomy(par, roles, view, order[j'], s, i)
    else if exists f :: 0 <= f < |added| && Roomy(par, roles, view, added[f], s, i) then
      d in added && Roomy(par, roles, view, d, s, i)
    else d == |view|
  }

  function AddedAfter(view: View, added: seq<nat>, d: nat): seq<nat> {
    if d < |view| then added else added + [d]
  }

  /** What a move changes for a cluster e, seen from (s, i'). */
  lemma {:induction false} RoomyAfter(par: Params, roles: seq<Role>, view: View, c: nat, j: nat, d: nat, s: int,
          i': int, e: int)
    requires |roles| == |view| && c < |view| && roles[c].Src? && j < |view[c].blocks| && d <= |view| && d != c
    requires view[c].blocks[j].stripe == s
    requires d < |view| ==> Roomy(par, roles, view, d, s, view[c].blocks[j].group)
    ensures var r := MoveView(view, c, j, d);
      var roles' := RolesAfter(roles, |r|);
      && |roles'| == |r|
      && (e != d ==> Gap(par, roles', r, e, s, i') == Gap(par, roles, view, e, s, i'))
      && (e != d ==> (Roomy(par, roles', r, e, s, i') <==> Roomy(par, roles, view, e, s, i')))
      && (0 <= e < |view| && e != c ==>
            && |r[e].blocks| == |view[e].blocks| + (if e == d then 1 else 0)
            && (view[e].blocks != [] ==> r[e].blocks[0] == view[e].blocks[0]))
      && r[d].blocks != [] && r[d].blocks[0].stripe == s && r[d].blocks[0].group == view[c].blocks[j].group
      && roles'[d] == Free
  {}

  /** A block of stripe s leaves source c for a cluster with room, or a new one. */
  ghost predicate Moving(par: Params, roles: seq<Role>, view: View, order: seq<nat>, added: seq<nat>, s: int, c: nat,
          j: nat, d: nat)
  {
    && Listed(roles, view, order, added, s)
    && c < |view| && roles[c].Src? && j < |view[c].blocks| && d <= |view| && d != c
    && view[c].blocks[j].stripe == s
    && (d < |view| ==> Roomy(par, roles, view, d, s, view[c].blocks[j].group))
  }

  /** The listing after a move. */
  lemma {:induction false} ListedAfter(par: Params, roles: seq<Role>, view: View, order: seq<nat>, added: seq<nat>,
          s: int, c: nat, j: nat, d: nat)
    requires Moving(par, roles, view, order, added, s, c, j, d)
    ensures var r := MoveView(view, c, j, d);
      Listed(RolesAfter(roles, |r|), r, order, AddedAfter(view, added, d), s)
  {
    var r := MoveView(view, c, j, d);
    var roles', added' := RolesAfter(roles, |r|), AddedAfter(view, added, d);
    forall e | 0 <= e < |r| && Opened(roles', r, e, s) ensures e in order || e in added' {
      RoomyAfter(par, roles, view, c, j, d, s, 0, e);
      if e == |view| { assert added'[|added|] == e; } else { assert Opened(roles, view, e, s); }
      assert forall x :: x in added ==> x in added';
    }
    forall f | 0 <= f < |added'| ensures Opened(roles', r, added'[f], s) {
      RoomyAfter(par, roles, view, c, j, d, s, 0, added'[f]);
    }
  }

  lemma {:induction false} SpansAfter(par: Params, roles: seq<Role>, view: View, order: seq<nat>, added: seq<nat>,
          s: int, c: nat, j: nat, d: nat)
    requires Moving(par, roles, view, order, added, s, c, j, d) && Spans(roles, view, order, s)
    ensures var r := MoveView(view, c, j, d);
      Spans(RolesAfter(roles, |r|), r, order, s)
  {
    var r := MoveView(view, c, j, d);
    var roles' := RolesAfter(roles, |r|);
    forall p | 0 <= p < |order| ensures roles'[order[p]] != Free || Opened(roles', r, order[p], s) {
      RoomyAfter(par, roles, view, c, j, d, s, 0, order[p]);
    }
  }

  lemma {:induction false} SumAfter(par: Params, roles: seq<Role>, view: View, order: seq<nat>, added: seq<nat>, s: int,
          i': int, c: nat, j: nat, d: nat)
    requires Moving(par, roles, view, order, added, s, c, j, d)
    ensures var r := MoveView(view, c, j, d);
      SumAt(order, Gaps(par, RolesAfter(roles, |r|), r, s, i'))
      == SumAt(order, Gaps(par, roles, view, s, i')) - (if d in order && i' == view[c].blocks[j].group then 1 else 0)
  {
    var r := MoveView(view, c, j, d);
    var roles' := RolesAfter(roles, |r|);
    var w, w' := Gaps(par, roles, view, s, i'), Gaps(par, roles', r, s, i');
    var hit := if i' == view[c].blocks[j].group then 1 else 0;
    if d < |view| {
      RoomyAfter(par, roles, view, c, j, d, s, i', d);
      SumAtUpdate(order, w, d, w[d] - hit);
      forall p | 0 <= p < |order| ensures w[d := w[d] - hit][order[p]] == w'[order[p]] {
        RoomyAfter(par, roles, view, c, j, d, s, i', order[p]);
      }
      SumAtSame(order, w[d := w[d] - hit], w');
    } else {
      forall p | 0 <= p < |order| ensures w[order[p]] == w'[order[p]] {
        RoomyAfter(par, roles, view, c, j, d, s, i', order[p]);
      }
      SumAtSame(order, w, w');
    }
  }

  /** Clusters with room behind others keep their r0 blocks: first fit touches
      only the foremost one. */
  lemma {:induction false} OrderAfter(par: Params, roles: seq<Role>, view: View, order: seq<nat>, added: seq<nat>,
          s: int, i': int, r0: nat, cap: nat, c: nat, j: nat, d: nat, p: nat, p': nat)
    requires Moving(par, roles, view, order, added, s, c, j, d)
    requires FitOk(par, roles, view, order, added, s, i', r0, cap)
    requires Chosen(par, roles, view, order, added, s, view[c].blocks[j].group, d)
    requires p < p' < |order|
    requires var r := MoveView(view, c, j, d);
      var roles' := RolesAfter(roles, |r|);
      Roomy(par, roles', r, order[p], s, i') && Roomy(par, roles', r, order[p'], s, i')
    ensures |MoveView(view, c, j, d)[order[p']].blocks| == r0
  {
    RoomyAfter(par, roles, view, c, j, d, s, i', order[p]);
    RoomyAfter(par, roles, view, c, j, d, s, i', order[p']);
  }

  lemma {:induction false} NoneInOrder(par: Params, roles: seq<Role>, view: View, order: seq<nat>, s: int, i: int,
          p: nat)
    requires |roles| == |view| && Within(order, |view|) && p < |order|
    requires SumAt(order, Gaps(par, roles, view, s, i)) == 0
    ensures !Roomy(par, roles, view, order[p], s, i)
  {
    SumAtLeast(order, Gaps(par, roles, view, s, i), p);
  }

  /** If no listed cluster has room, the free places in the list sum to zero. */
  lemma {:induction false} NoRoomNoGap(par: Params, roles: seq<Role>, view: View, order: seq<nat>, s: int, i: int)
    requires |roles| == |view| && Within(order, |view|)
    requires forall p :: 0 <= p < |order| ==> !Roomy(par, roles, view, order[p], s, i)
    ensures SumAt(order, Gaps(par, roles, view, s, i)) == 0
  {
    if order != [] { NoRoomNoGap(par, roles, view, order[..|order| - 1], s, i); }
  }

  /** The added clusters after a move: still at most one with room per group. */
  lemma {:induction false} AddedOk(par: Params, roles: seq<Role>, view: View, order: seq<nat>, added: seq<nat>, s: int,
          i': int, r0: nat, cap: nat, c: nat, j: nat, d: nat, f: nat, f': nat)
    requires Moving(par, roles, view, order, added, s, c, j, d)
    requires FitOk(par, roles, view, order, added, s, i', r0, cap)
    requires Chosen(par, roles, view, order, added, s, view[c].blocks[j].group, d)
    requires f < f' < |AddedAfter(view, added, d)|
    requires var r := MoveView(view, c, j, d);
      Roomy(par, RolesAfter(roles, |r|), r, AddedAfter(view, added, d)[f], s, i')
    ensures var r := MoveView(view, c, j, d);
      !Roomy(par, RolesAfter(roles, |r|), r, AddedAfter(view, added, d)[f'], s, i')
  {
    var added' := AddedAfter(view, added, d);
    RoomyAfter(par, roles, view, c, j, d, s, i', added'[f]);
    RoomyAfter(par, roles, view, c, j, d, s, i', added'[f']);
    RoomyAfter(par, roles, view, c, j, d, s, i', d);
    if d < |view| {
      assert added'[f] == added[f] && added'[f'] == added[f'];
    } else {
      assert added'[f] == added[f];
    }
  }

  lemma {:induction false} OrderAfterAll(par: Params, roles: seq<Role>, view: View, order: seq<nat>, added: seq<nat>,
          s: int, i': int, r0: nat, cap: nat, c: nat, j: nat, d: nat)
    requires Moving(par, roles, view, order, added, s, c, j, d)
    requires FitOk(par, roles, view, order, added, s, i', r0, cap)
    requires Chosen(par, roles, view, order, added, s, view[c].blocks[j].group, d)
    ensures var r := MoveView(view, c, j, d);
      var roles' := RolesAfter(roles, |r|);
      && |roles'| == |r| && Within(order, |r|)
      && forall p, p' ::
        0 <= p < p' < |order| && Roomy(par, roles', r, order[p], s, i') && Roomy(par, roles', r, order[p'], s, i') ==>
          |r[order[p']].blocks| == r0
  {
    var r := MoveView(view, c, j, d);
    var roles' := RolesAfter(roles, |r|);
    forall p, p' | 0 <= p < p' < |order| && Roomy(par, roles', r, order[p], s, i') &&
      Roomy(par, roles', r, order[p'], s, i')
      ensures |r[order[p']].blocks| == r0
    {
      OrderAfter(par, roles, view, order, added, s, i', r0, cap, c, j, d, p, p');
    }
  }

  lemma {:induction false} AddedAfterAll(par: Params, roles: seq<Role>, view: View, order: seq<nat>, added: seq<nat>,
          s: int, i': int, r0: nat, cap: nat, c: nat, j: nat, d: nat)
    requires Moving(par, roles, view, order, added, s, c, j, d)
    requires FitOk(par, roles, view, order, added, s, i', r0, cap)
    requires Chosen(par, roles, view, order, added, s, view[c].blocks[j].group, d)
    ensures var r := MoveView(view, c, j, d);
      var roles', added' := RolesAfter(roles, |r|), AddedAfter(view, added, d);
      && |roles'| == |r|
      && forall f, f' :: 0 <= f < f' < |added'| && Roomy(par, roles', r, added'[f], s, i') ==>
        !Roomy(par, roles', r, added'[f'], s, i')
  {
    var r := MoveView(view, c, j, d);
    var roles', added' := RolesAfter(roles, |r|), AddedAfter(view, added, d);
    forall f, f' | 0 <= f < f' < |added'| && Roomy(par, roles', r, added'[f], s, i')
      ensures !Roomy(par, roles', r, added'[f'], s, i')
    {
      AddedOk(par, roles, view, order, added, s, i', r0, cap, c, j, d, f, f');
    }
  }

  /** Free places in the list: one fewer in the block's group, if there were any. */
  lemma {:induction false} CapAfter(par: Params, roles: seq<Role>, view: View, order: seq<nat>, added: seq<nat>, s: int,
          i': int, r0: nat, cap: nat, c: nat, j: nat, d: nat)
    requires Moving(par, roles, view, order, added, s, c, j, d)
    requires FitOk(par, roles, view, order, added, s, i', r0, cap)
    requires Chosen(par, roles, view, order, added, s, view[c].blocks[j].group, d)
    ensures var r := MoveView(view, c, j, d);
      var roles', added' := RolesAfter(roles, |r|), AddedAfter(view, added, d);
      && |roles'| == |r| && Within(order, |r|) && Within(added', |r|)
      && SumAt(order, Gaps(par, roles', r, s, i')) <=
        (if i' == view[c].blocks[j].group && cap > 0 then cap - 1 else cap)
      && ((exists f :: 0 <= f < |added'| && r[added'[f]].blocks != [] && r[added'[f]].blocks[0].group == i')
            ==> SumAt(order, Gaps(par, roles', r, s, i')) == 0)
  {
    var r := MoveView(view, c, j, d);
    var added' := AddedAfter(view, added, d);
    var gi := view[c].blocks[j].group;
    SumAfter(par, roles, view, order, added, s, i', c, j, d);
    if !(exists p :: 0 <= p < |order| && Roomy(par, roles, view, order[p], s, gi)) {
      NoRoomNoGap(par, roles, view, order, s, gi);
      assert d !in order;
    } else {
      assert d in order;
      forall p | 0 <= p < |order| && SumAt(order, Gaps(par, roles, view, s, gi)) == 0
        ensures !Roomy(par, roles, view, order[p], s, gi)
      {
        NoneInOrder(par, roles, view, order, s, gi, p);
      }
    }
    forall f | 0 <= f < |added'| && r[added'[f]].blocks != [] && r[added'[f]].blocks[0].group == i'
      ensures SumAt(order, Gaps(par, RolesAfter(roles, |r|), r, s, i')) == 0
    {
      RoomyAfter(par, roles, view, c, j, d, s, i', added'[f]);
      if f < |added| {
        assert Opened(roles, view, added[f], s) && view[added[f]].blocks[0].group == i';
      }
    }
  }

  /** A first-fit move keeps the discipline for every group. */
  lemma {:induction false} FitAfter(par: Params, roles: seq<Role>, view: View, order: seq<nat>, added: seq<nat>, s: int,
          i': int, r0: nat, cap: nat, c: nat, j: nat, d: nat)
    requires Moving(par, roles, view, order, added, s, c, j, d)
    requires FitOk(par, roles, view, order, added, s, i', r0, cap)
    requires Chosen(par, roles, view, order, added, s, view[c].blocks[j].group, d)
    ensures var r := MoveView(view, c, j, d);
      var roles', added' := RolesAfter(roles, |r|), AddedAfter(view, added, d);
      && Listed(roles', r, order, added', s)
      && FitOk(par, roles', r, order, added', s, i', r0,
        if i' == view[c].blocks[j].group && cap > 0 then cap - 1 else cap)
  {
    ListedAfter(par, roles, view, order, added, s, c, j, d);
    OrderAfterAll(par, roles, view, order, added, s, i', r0, cap, c, j, d);
    AddedAfterAll(par, roles, view, order, added, s, i', r0, cap, c, j, d);
    CapAfter(par, roles, view, order, added, s, i', r0, cap, c, j, d);
  }

  /** Other stripes do not notice the move. */
  lemma {:induction false} OthersAfter(par: Params, roles: seq<Role>, view: View, order: seq<nat>, added: seq<nat>,
          s: int, c: nat, j: nat, d: nat, s': int)
    requires Moving(par, roles, view, order, added, s, c, j, d) && s' != s
    ensures var r := MoveView(view, c, j, d);
      var roles' := RolesAfter(roles, |r|);
      && |roles'| == |r|
      && (forall e, i :: Roomy(par, roles', r, e, s', i) <==> Roomy(par, roles, view, e, s', i))
      && (forall e :: 0 <= e < |r| ==> (Opened(roles', r, e, s') <==> e < |view| && Opened(roles, view, e, s')))
  {
    var r := MoveView(view, c, j, d);
    var roles' := RolesAfter(roles, |r|);
    forall e, i ensures Roomy(par, roles', r, e, s', i) <==> Roomy(par, roles, view, e, s', i) {
      RoomyAfter(par, roles, view, c, j, d, s, i, e);
      RoomyAfter(par, roles, view, c, j, d, s, i, d);
    }
    forall e | 0 <= e < |r| ensures Opened(roles', r, e, s') <==> e < |view| && Opened(roles, view, e, s') {
      RoomyAfter(par, roles, view, c, j, d, s, 0, e);
      RoomyAfter(par, roles, view, c, j, d, s, 0, d);
    }
  }
}
