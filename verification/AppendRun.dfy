/** Runs of appends: the coordinator's offset table (project/src/coordinator.cpp) and
what a run of successful appends leaves in every block. */
module AppendRun {
  import opened AppendStriping
  import opened AppendPlan
  import opened AppendClusters
  import opened Arith

  datatype StripeOffset = StripeOffset(stripe: nat, offset: nat)

  /** One successful append: n bytes at a logical offset of a stripe. */
  datatype Append = Append(client: string, stripe: nat, offset: nat, size: nat)

  /** Bytes appended to stripe s. */
  function Total(log: seq<Append>, s: nat): nat {
    if log == [] then 0
    else Total(log[..|log| - 1], s) + if log[|log| - 1].stripe == s then log[|log| - 1].size else 0
  }

  /** Each append starts where the earlier appends to its stripe ended. */
  ghost predicate LogOk(log: seq<Append>) {
    forall t :: 0 <= t < |log| ==> log[t].offset == Total(log[..t], log[t].stripe)
  }

  lemma {:induction false} TotalStep(log: seq<Append>, e: Append, s: nat)
    ensures Total(log + [e], s) == Total(log, s) + if e.stripe == s then e.size else 0
  {
    assert (log + [e])[..|log|] == log;
  }

  lemma {:induction false} LogStep(log: seq<Append>, e: Append)
    requires LogOk(log) && e.offset == Total(log, e.stripe)
    ensures LogOk(log + [e])
  {
    forall t | 0 <= t < |log + [e]| ensures (log + [e])[t].offset == Total((log + [e])[..t], (log + [e])[t].stripe) {
      assert (log + [e])[..t] == log[..t];
      assert log[..|log|] == log;
    }
  }

  /** Append t wrote offset y of block j of stripe s. */
  ghost predicate Wrote(ge: Geometry, log: seq<Append>, s: nat, j: nat, t: int, y: nat)
    requires ge.Ok()
  {
    0 <= t < |log| && log[t].stripe == s && Fill(ge, log[t].offset, j) <= y < Fill(ge, log[t].offset + log[t].size, j)
  }

  lemma {:induction false} TotalMono(log: seq<Append>, s: nat, t: nat)
    requires t <= |log|
    ensures Total(log[..t], s) <= Total(log, s)
  {
    if t == |log| {
      assert log[..t] == log;
    } else {
      TotalMono(log[..|log| - 1], s, t);
      assert log[..|log| - 1][..t] == log[..t];
    }
  }

  lemma {:induction false} EndOf(log: seq<Append>, t: nat)
    requires LogOk(log) && t < |log|
    ensures log[t].offset + log[t].size == Total(log[..t + 1], log[t].stripe)
  {
    assert log[..t + 1][..t] == log[..t];
  }

  /** Two appends never write the same byte. */
  lemma {:induction false} WroteOnce(ge: Geometry, log: seq<Append>, s: nat, j: nat, t: nat, t': nat, y: nat)
    requires ge.Ok() && j < ge.k && LogOk(log) && t < t' && Wrote(ge, log, s, j, t, y)
    ensures !Wrote(ge, log, s, j, t', y)
  {
    hide Fill; hide Total;
    if t' < |log| && log[t'].stripe == s {
      EndOf(log, t);
      assert log[..t'][..t + 1] == log[..t + 1];
      TotalMono(log[..t'], s, t + 1);
      FillMono(ge, log[t].offset + log[t].size, log[t'].offset, j);
    }
  }

  /** Every byte filled so far was written by some append. */
  lemma {:induction false} WroteSome(ge: Geometry, log: seq<Append>, s: nat, j: nat, y: nat) returns (t: nat)
    requires ge.Ok() && j < ge.k && LogOk(log) && y < Fill(ge, Total(log, s), j)
    ensures Wrote(ge, log, s, j, t, y)
  {
    hide Fill;
    FillZero(ge, j);
    var n := |log| - 1;
    var rest := log[..n];
    if y < Fill(ge, Total(rest, s), j) {
      hide Total;
      LogPrefix(log, n);
      t := WroteSome(ge, rest, s, j, y);
    } else {
      t := n;
    }
  }

  lemma {:induction false} LogPrefix(log: seq<Append>, n: nat)
    requires LogOk(log) && n <= |log|
    ensures LogOk(log[..n])
  {
    forall e | 0 <= e < n ensures log[..n][e].offset == Total(log[..n][..e], log[..n][e].stripe) {
      assert log[..n][..e] == log[..e];
    }
  }

  /** The slices of block j planned over a run are consecutive, do not overlap, and
      cover exactly what is filled. */
  lemma {:induction false} SlicesTile(ge: Geometry, log: seq<Append>, s: nat, j: nat, y: nat)
    requires ge.Ok() && j < ge.k && LogOk(log)
    ensures y < Fill(ge, Total(log, s), j) <==> exists t :: Wrote(ge, log, s, j, t, y)
    ensures forall t, t' :: Wrote(ge, log, s, j, t, y) && Wrote(ge, log, s, j, t', y) ==> t == t'
  {
    hide Fill; hide Total;
    if y < Fill(ge, Total(log, s), j) {
      var t := WroteSome(ge, log, s, j, y);
    }
    forall t | Wrote(ge, log, s, j, t, y) ensures y < Fill(ge, Total(log, s), j) {
      EndOf(log, t);
      TotalMono(log, s, t + 1);
      FillMono(ge, log[t].offset + log[t].size, Total(log, s), j);
    }
    forall t, t' | Wrote(ge, log, s, j, t, y) && Wrote(ge, log, s, j, t', y) ensures t == t' {
      if t < t' { WroteOnce(ge, log, s, j, t, t', y); }
      if t' < t { WroteOnce(ge, log, s, j, t', t, y); }
    }
  }

  // ------------------------------------------------------------------
  // The offset table.

  type Offsets = map<string, StripeOffset>

  predicate Writes(current: Offsets, c: string, s: nat) { c in current && current[c].stripe == s }

  /** Every stripe handed out is some client's current one, or full. */
  ghost predicate Settled(cap: nat, current: Offsets, log: seq<Append>, s: nat) {
    (exists c :: Writes(current, c, s)) || Total(log, s) == cap
  }

  ghost predicate TableOk(cap: nat, current: Offsets, next: nat, log: seq<Append>) {
    && cap >= 1 && LogOk(log)
    && (forall t :: 0 <= t < |log| ==> log[t].stripe < next)
    && (forall c, s: nat :: Writes(current, c, s) ==> s < next && current[c].offset == Total(log, s) < cap)
    && (forall c, d, s: nat :: Writes(current, c, s) && Writes(current, d, s) ==> c == d)
    && (forall s :: 0 <= s < next ==> Settled(cap, current, log, s))
  }

  lemma {:induction false} LookupOk(cap: nat, current: Offsets, next: nat, log: seq<Append>, client: string)
    requires TableOk(cap, current, next, log) && client !in current
    ensures TableOk(cap, current[client := StripeOffset(next, 0)], next + 1, log)
  {
    NoneYet(log, next);
    hide Total; hide LogOk;
    var after := current[client := StripeOffset(next, 0)];
    forall c, s: nat ensures Writes(after, c, s) <==> Writes(current, c, s) || (c == client && s == next) {}
    forall s | 0 <= s < next + 1 ensures Settled(cap, after, log, s) {
      if s == next {
        assert Writes(after, client, s);
      } else {
        assert Settled(cap, current, log, s);
      }
    }
  }

  /** The table after n more bytes for a client; a full stripe leaves it. */
  function Advanced(cap: nat, current: Offsets, client: string, n: nat): Offsets
    requires client in current
  {
    var at := current[client];
    if at.offset + n == cap then current - {client} else current[client := StripeOffset(at.stripe, at.offset + n)]
  }

  lemma {:induction false} AdvancedWrites(cap: nat, current: Offsets, client: string, n: nat, c: string, s: nat)
    requires client in current && current[client].offset + n <= cap
    ensures var after, at := Advanced(cap, current, client, n), current[client];
      && (Writes(after, c, s) <==> Writes(current, c, s) && (at.offset + n < cap || c != client))
      && (Writes(after, c, s) ==> after[c].offset == current[c].offset + if c == client then n else 0)
  {}

  lemma {:induction false} AdvanceSettled(cap: nat, current: Offsets, log: seq<Append>, log': seq<Append>,
          client: string, n: nat, s: nat)
    requires client in current && current[client].offset + n <= cap && Settled(cap, current, log, s)
    requires Total(log', s) == Total(log, s) + if s == current[client].stripe then n else 0
    requires s == current[client].stripe ==> Total(log, s) == current[client].offset
    ensures Settled(cap, Advanced(cap, current, client, n), log', s)
  {
    hide Total; hide Advanced;
    if s == current[client].stripe {
      AdvancedWrites(cap, current, client, n, client, s);
    } else if c :| Writes(current, c, s) {
      AdvancedWrites(cap, current, client, n, c, s);
    }
  }

  lemma {:induction false} AdvanceOk(cap: nat, current: Offsets, next: nat, log: seq<Append>, client: string, n: nat)
    requires TableOk(cap, current, next, log) && client in current && current[client].offset + n <= cap
    ensures TableOk(cap, Advanced(cap, current, client, n), next,
      log + [Append(client, current[client].stripe, current[client].offset, n)])
  {
    hide Settled; hide Advanced; hide Total;
    var at := current[client];
    assert Writes(current, client, at.stripe);
    var e := Append(client, at.stripe, at.offset, n);
    var after, log' := Advanced(cap, current, client, n), log + [e];
    LogStep(log, e);
    hide LogOk;
    forall s: nat ensures Total(log', s) == Total(log, s) + if s == at.stripe then n else 0 { TotalStep(log, e, s); }
    forall c, s: nat
      ensures Writes(after, c, s) <==> Writes(current, c, s) && (at.offset + n < cap || c != client)
      ensures Writes(after, c, s) ==> after[c].offset == current[c].offset + if c == client then n else 0
    {
      AdvancedWrites(cap, current, client, n, c, s);
    }
    forall s | 0 <= s < next ensures Settled(cap, after, log', s) {
      AdvanceSettled(cap, current, log, log', client, n, s);
    }
  }

  datatype Reply = Planned(stripe: nat, offset: nat, plans: seq<Plan>) | TooLarge | Unavailable

  class Appender {
    const ge: Geometry
    const code: Code
    const units: nat
    const mode: Mode
    var current: Offsets
    var nextStripe: nat
    ghost var log: seq<Append>

    /** Blocks of a whole number of units. */
    function BlockSize(): nat { units * ge.unit }

    function Capacity(): nat { BlockSize() * code.k }

    ghost predicate Valid()
      reads this
    {
      && ge.Ok() && code.z >= 1 && code.k == ge.k && units >= 1
      && TableOk(Capacity(), current, nextStripe, log)
    }

    constructor (ge: Geometry, code: Code, units: nat, mode: Mode)
      requires ge.Ok() && code.z >= 1 && code.k == ge.k && units >= 1
      ensures Valid() && log == [] && current == map[]
    {
      this.ge, this.code, this.units, this.mode := ge, code, units, mode;
      current, nextStripe, log := map[], 0, [];
      new;
      MulGe(units, ge.unit);
      MulGe(BlockSize(), code.k);
    }

    /** The client's current stripe and offset, a fresh stripe on its first append. */
    method Lookup(client: string) returns (at: StripeOffset)
      requires Valid()
      modifies this`current, this`nextStripe
      ensures Valid() && client in current && at == current[client]
      ensures at == if client in old(current) then old(current)[client] else StripeOffset(old(nextStripe), 0)
      ensures current == old(current)[client := at]
    {
      hide TableOk;
      if client !in current {
        LookupOk(Capacity(), current, nextStripe, log, client);
        current := current[client := StripeOffset(nextStripe, 0)];
        nextStripe := nextStripe + 1;
      }
      at := current[client];
    }

    /** uploadAppendValue. `scheduled` says whether every proxy could be told. */
    method UploadAppend(client: string, n: nat, scheduled: bool) returns (reply: Reply)
      requires Valid()
      modifies this
      ensures Valid()
      ensures reply.Planned? ==> log == old(log) + [Append(client, reply.stripe, reply.offset, n)] && scheduled
      ensures !reply.Planned? ==> log == old(log)
      ensures reply.Planned? ==> |reply.plans| == code.z && reply.offset + n <= Capacity()
      ensures reply.Planned? ==> forall i :: 0 <= i < code.z ==>
        PlanOk(code, SliceMap(ge, reply.offset, reply.offset + n), ParityWindow(ge, mode, reply.offset, n), i,
          reply.plans[i])
      ensures reply.Planned? ==>
        PlansWrite(ge, code, reply.offset, n, ParityWindow(ge, mode, reply.offset, n), reply.plans)
      ensures var at := if client in old(current) then old(current)[client] else StripeOffset(old(nextStripe), 0);
        && (reply == TooLarge <==> at.offset + n > Capacity())
        && (reply == Unavailable <==> at.offset + n <= Capacity() && !scheduled)
        && (reply.Planned? ==> reply.stripe == at.stripe && reply.offset == at.offset)
        && current == if reply.Planned? then Advanced(Capacity(), old(current)[client := at], client, n)
                      else old(current)[client := at]
    {
      hide PlanOk; hide SliceMap; hide ParityWindow; hide TableOk; hide PlansWrite; hide Advanced;
      var at := Lookup(client);
      if at.offset + n > Capacity() { return TooLarge; }
      Commute(BlockSize(), code.k);
      var plans := GenerateAppendPlan(ge, code, BlockSize(), mode, at.offset, n);
      if !scheduled { return Unavailable; }
      Advance(client, n);
      reply := Planned(at.stripe, at.offset, plans);
    }

    /** Records a successful append; a full stripe leaves the table. */
    method Advance(client: string, n: nat)
      requires Valid() && client in current && current[client].offset + n <= Capacity()
      modifies this`current, this`log
      ensures Valid() && current == Advanced(Capacity(), old(current), client, n)
      ensures log == old(log) + [Append(client, old(current)[client].stripe, old(current)[client].offset, n)]
    {
      hide TableOk;
      var at := current[client];
      AdvanceOk(Capacity(), current, nextStripe, log, client, n);
      ghost var table := current;
      log := log + [Append(client, at.stripe, at.offset, n)];
      current := current[client := StripeOffset(at.stripe, at.offset + n)];
      if current[client].offset == Capacity() { current := current - {client}; }
      assert current == Advanced(Capacity(), table, client, n);
    }
  }

  lemma {:induction false} Commute(a: int, b: int)
    ensures a * b == b * a
  {}

  /** A stripe id not handed out yet has no bytes. */
  lemma {:induction false} NoneYet(log: seq<Append>, s: nat)
    requires forall t :: 0 <= t < |log| ==> log[t].stripe < s
    ensures Total(log, s) == 0
  {
    if log != [] { NoneYet(log[..|log| - 1], s); }
  }

  /** Once a stripe is full, its appends tile every block exactly. */
  lemma {:induction false} FullStripeTiles(ge: Geometry, units: nat, log: seq<Append>, s: nat, j: nat, y: nat)
    requires ge.Ok() && j < ge.k && LogOk(log) && Total(log, s) == units * ge.unit * ge.k
    ensures y < units * ge.unit <==> exists t :: Wrote(ge, log, s, j, t, y)
    ensures forall t, t' :: Wrote(ge, log, s, j, t, y) && Wrote(ge, log, s, j, t', y) ==> t == t'
  {
    hide Fill; hide Wrote;
    FillFull(ge, units, j);
    SlicesTile(ge, log, s, j, y);
  }
}
