/** The relocation loop of one source cluster, as a state predicate and its steps. */
module MergeMove {
  import opened Blocks
  import opened Clusters
  import opened MergeState
  import opened MergeView
  import opened MergeFit
  import opened FirstFit
  import opened MergeMid

  /** Proof-only companions of the state inside a batch. */
  datatype Aux = Aux(lay: Layout, todos: seq<Todo>, caps: seq<nat>)

  ghost predicate MidA(fr: Frame, aux: Aux, view: View, added: seq<nat>) {
    Mid(fr, aux.lay, view, aux.todos, added, aux.caps)
  }

  /** Only work on cluster c and new free clusters separate aux from aux0. */
  ghost predicate Since(aux0: Aux, aux: Aux, c: nat) {
    && |aux0.todos| == |aux0.lay.roles| <= |aux.lay.roles| == |aux.todos| && c < |aux0.todos|
    && aux.lay.tail == aux0.lay.tail && aux.lay.gid == aux0.lay.gid
    && (forall e :: 0 <= e < |aux0.lay.roles| ==> aux.lay.roles[e] == aux0.lay.roles[e])
    && (forall e :: |aux0.lay.roles| <= e < |aux.lay.roles| ==> aux.lay.roles[e] == Free)
    && (forall e :: 0 <= e < |aux0.todos| && e != c ==> aux.todos[e] == aux0.todos[e])
  }

  /** `n` blocks of group i were moved: that many free places were used up. */
  ghost predicate CapsSince(caps0: seq<nat>, caps: seq<nat>, i: nat, n: nat) {
    && |caps| == |caps0| && i < |caps|
    && caps[i] == (if caps0[i] > n then caps0[i] - n else 0)
    && (forall i' :: 0 <= i' < |caps| && i' != i ==> caps[i'] == caps0[i'])
  }

  predicate Movable(b: Block, s: int) { b.kind == D && b.stripe == s }

  /** After `moved` of `total` blocks; everything before `index` stays. */
  ghost predicate Reloc(fr: Frame, aux0: Aux, aux: Aux, view: View, added: seq<nat>, c: nat, index: nat, moved: nat,
          total: nat)
  {
    && MidA(fr, aux, view, added) && Since(aux0, aux, c)
    && c < |view| && aux.lay.roles[c].Src?
    && moved <= total && aux.todos[c] == aux0.todos[c].(extra := total - moved)
    && CapsSince(aux0.caps, aux.caps, aux.lay.roles[c].group, moved)
    && index <= |view[c].blocks|
    && (forall p :: 0 <= p < index ==> !Movable(view[c].blocks[p], fr.S()))
  }

  /** Where the block at `index` goes, and what that does to the companions. */
  function AuxAfter(aux: Aux, view: View, c: nat, index: nat, d: nat): Aux
    requires c < |view| && index < |view[c].blocks| && d <= |view| && d != c
    requires c < |aux.todos| && aux.todos[c].extra >= 1
    requires 0 <= view[c].blocks[index].group < |aux.caps|
  {
    var n := |MoveView(view, c, index, d)|;
    Aux(Grown(aux.lay, n), TodosAfter(aux.todos, c, n), CapsAfter(aux.caps, view[c].blocks[index].group))
  }

  lemma {:induction false} RelocFacts(fr: Frame, aux0: Aux, aux: Aux, view: View, added: seq<nat>, c: nat, index: nat,
          moved: nat, total: nat)
    requires Reloc(fr, aux0, aux, view, added, c, index, moved, total)
    ensures c < |view| == |aux.lay.roles| == |aux.todos| && aux.lay.roles[c].Src? && index <= |view[c].blocks|
    ensures Mid(fr, aux.lay, view, aux.todos, added, aux.caps)
    ensures Listed(aux.lay.roles, view, fr.order, added, fr.S())
    ensures aux.todos[c].extra == total - moved
  {}

  lemma {:induction false} RelocMoving(fr: Frame, aux0: Aux, aux: Aux, view: View, added: seq<nat>, c: nat, index: nat,
          moved: nat, total: nat, d: nat)
    requires Reloc(fr, aux0, aux, view, added, c, index, moved, total) && moved < total
    requires index < |view[c].blocks| && Movable(view[c].blocks[index], fr.S())
    requires d <= |view| && d != c
    requires d < |view| ==> Roomy(fr.par, aux.lay.roles, view, d, fr.S(), view[c].blocks[index].group)
    ensures view[c].blocks[index].group == aux.lay.roles[c].group < fr.par.l
    ensures |aux.caps| == fr.par.l && c < |aux.lay.roles| == |view| == |aux.todos| && aux.todos[c].extra >= 1
    ensures MoveOk(fr.par, fr.ph, aux.lay, view, aux.todos, c, index, d)
    ensures Moving(fr.par, aux.lay.roles, view, fr.order, added, fr.S(), c, index, d)
  {
    assert At(fr.par, fr.ph, aux.lay, view, aux.todos, c);
    assert view[c].blocks[index] in view[c].blocks;
    assert SrcRoleOk(fr.par, aux.lay, c, aux.lay.roles[c]);
  }

  lemma {:induction false} SinceAfter(aux0: Aux, aux: Aux, view: View, c: nat, index: nat, d: nat)
    requires Since(aux0, aux, c) && |aux.lay.roles| == |view|
    requires c < |view| && index < |view[c].blocks| && d <= |view| && d != c
    requires aux.todos[c].extra >= 1 && 0 <= view[c].blocks[index].group < |aux.caps|
    ensures Since(aux0, AuxAfter(aux, view, c, index, d), c)
    ensures AuxAfter(aux, view, c, index, d).todos[c] == aux.todos[c].(extra := aux.todos[c].extra - 1)
  {}

  /** One pass through the loop that moves a block. */
  lemma {:induction false} RelocMove(fr: Frame, aux0: Aux, aux: Aux, view: View, added: seq<nat>, c: nat, index: nat,
          moved: nat, total: nat, d: nat)
    requires Reloc(fr, aux0, aux, view, added, c, index, moved, total) && moved < total
    requires index < |view[c].blocks| && Movable(view[c].blocks[index], fr.S())
    requires d <= |view| && d != c
    requires d < |view| ==> Roomy(fr.par, aux.lay.roles, view, d, fr.S(), view[c].blocks[index].group)
    requires Chosen(fr.par, aux.lay.roles, view, fr.order, added, fr.S(), view[c].blocks[index].group, d)
    ensures 0 <= view[c].blocks[index].group < |aux.caps|
    ensures Reloc(fr, aux0, AuxAfter(aux, view, c, index, d), MoveView(view, c, index, d), AddedAfter(view, added, d),
      c, index, moved + 1, total)
  {
    hide Mid; hide Since; hide CapsSince; hide Chosen; hide Roomy; hide Moving; hide MoveOk; hide MoveView;
    hide AddedAfter; hide Grown; hide TodosAfter; hide CapsAfter;
    RelocMoving(fr, aux0, aux, view, added, c, index, moved, total, d);
    MidMove(fr, aux.lay, view, aux.todos, added, aux.caps, c, index, d);
    SinceAfter(aux0, aux, view, c, index, d);
    CapsStep(aux0.caps, aux.caps, view[c].blocks[index].group, moved);
    MovedOut(view, c, index, d);
    GrownRole(aux.lay, |MoveView(view, c, index, d)|, c);
  }

  lemma {:induction false} CapsStep(caps0: seq<nat>, caps: seq<nat>, i: nat, n: nat)
    requires CapsSince(caps0, caps, i, n)
    ensures CapsSince(caps0, CapsAfter(caps, i), i, n + 1)
  {}

  lemma {:induction false} MovedOut(view: View, c: nat, index: nat, d: nat)
    requires c < |view| && index < |view[c].blocks| && d <= |view| && d != c
    ensures |MoveView(view, c, index, d)| >= |view| && MoveView(view, c, index, d)[c] == PopVal(view[c], index)
  {}

  lemma {:induction false} GrownRole(lay: Layout, n: nat, c: nat)
    requires c < |lay.roles|
    ensures c < |Grown(lay, n).roles| && Grown(lay, n).roles[c] == lay.roles[c]
  {}

  lemma {:induction false} RelocSkip(fr: Frame, aux0: Aux, aux: Aux, view: View, added: seq<nat>, c: nat, index: nat,
          moved: nat, total: nat)
    requires Reloc(fr, aux0, aux, view, added, c, index, moved, total)
    requires index < |view[c].blocks| && !Movable(view[c].blocks[index], fr.S())
    ensures Reloc(fr, aux0, aux, view, added, c, index + 1, moved, total)
  {}

  /** The list cannot run out before all blocks due have been moved. */
  lemma {:induction false} RelocAll(fr: Frame, aux0: Aux, aux: Aux, view: View, added: seq<nat>, c: nat, index: nat,
          moved: nat, total: nat)
    requires Reloc(fr, aux0, aux, view, added, c, index, moved, total) && (moved == total || index == |view[c].blocks|)
    ensures moved == total && c < |view| == |aux.lay.roles| == |aux.todos|
    ensures MidA(fr, aux, view, added) && Since(aux0, aux, c) && aux.todos[c] == aux0.todos[c].(extra := 0)
    ensures aux.lay.roles[c].Src? && CapsSince(aux0.caps, aux.caps, aux.lay.roles[c].group, total)
  {
    if moved != total {
      assert At(fr.par, fr.ph, aux.lay, view, aux.todos, c);
      SelNone(view[c].blocks, DataAt(fr.S(), aux.lay.roles[c].group));
      assert Live(fr.ph, fr.S());
    }
  }
}
