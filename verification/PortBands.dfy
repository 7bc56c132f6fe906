/** The port ranges of the pipeline listen-port allocator
(project/src/coordinator.cpp, project/include/config.h). */
module PortBands {
  import opened Arith

  const EXCHANGE_BASE: int := 20000
  const PROXY_BAND: nat := 150
  const DEDICATED_BAND: nat := 10000
  const GRPC_BASE: int := 50405
  const GRPC_STRIDE: int := 2
  const GRPC_MAX_INDEX: int := 79

  datatype Proxy = Proxy(ip: string, port: int)

  function Band(dedicated: bool): nat { if dedicated then DEDICATED_BAND else PROXY_BAND }
  function Half(dedicated: bool): nat { Band(dedicated) / 2 }

  /** Integer division by two, toward zero. */
  function HalfToZero(n: int): int { if n >= 0 then n / 2 else -(-n / 2) }

  /** The index of a proxy by its port, or -1. */
  function ProxyIndex(dedicated: bool, grpcPort: int): int {
    if dedicated then 0
    else
      var idx := HalfToZero(grpcPort - GRPC_BASE);
      if idx < 0 || idx > GRPC_MAX_INDEX then -1 else idx
  }

  /** Slot k of the hop half or the hub half of a proxy's band. */
  function SlotPort(dedicated: bool, index: int, hub: bool, k: int): int {
    EXCHANGE_BASE + index * Band(dedicated) + (if hub then Half(dedicated) + k else k)
  }

  predicate IndexOk(dedicated: bool, index: int) {
    if dedicated then index == 0 else 0 <= index <= GRPC_MAX_INDEX
  }

  /** A port that some slot of that half can take. */
  predicate InHalf(dedicated: bool, index: int, hub: bool, port: int) {
    exists k :: 0 <= k < Half(dedicated) && port == SlotPort(dedicated, index, hub, k)
  }

  /** The halves in numbers: hops below hubs. */
  lemma {:induction false} HalfIs(dedicated: bool, index: int, hub: bool, port: int)
    requires IndexOk(dedicated, index)
    ensures InHalf(dedicated, index, hub, port) <==>
      if dedicated then (if hub then 25000 <= port < 30000 else 20000 <= port < 25000)
      else var base := 20000 + 150 * index; if hub then base + 75 <= port < base + 150 else base <= port < base + 75
  {
    var k := port - SlotPort(dedicated, index, hub, 0);
    assert port == SlotPort(dedicated, index, hub, k);
  }

  /** Every slot is a real port below the ephemeral range; the guards of the
      allocation loop never fire. */
  lemma {:induction false} SlotRange(dedicated: bool, index: int, hub: bool, k: int)
    requires IndexOk(dedicated, index) && 0 <= k < Half(dedicated)
    ensures var port := SlotPort(dedicated, index, hub, k);
      && 20000 <= port <= 31999 && port != 55555 && port <= EXCHANGE_BASE + (index + 1) * Band(dedicated) - 1
  {}

  /** The hop and hub halves and the bands of different indices are disjoint, and
      within a half the slot is determined by the port. */
  lemma {:induction false} SlotsDisjoint(dedicated: bool, index: int, hub: bool, k: int, index': int, hub': bool,
          k': int)
    requires IndexOk(dedicated, index) && 0 <= k < Half(dedicated) && IndexOk(dedicated, index')
    requires 0 <= k' < Half(dedicated)
    requires SlotPort(dedicated, index, hub, k) == SlotPort(dedicated, index', hub', k')
    ensures index == index' && hub == hub' && k == k'
  {
    if index < index' { MulMono(index + 1, index', Band(dedicated)); }
    if index' < index { MulMono(index' + 1, index, Band(dedicated)); }
  }

  /** Ports on the grid get one index each; a port just below the first gets the first
      one's, because the division rounds toward zero. */
  lemma {:induction false} AlignedIndex(i: int)
    requires 0 <= i <= GRPC_MAX_INDEX
    ensures ProxyIndex(false, GRPC_BASE + GRPC_STRIDE * i) == i
    ensures ProxyIndex(false, GRPC_BASE + GRPC_STRIDE * i + 1) == i
    ensures ProxyIndex(false, GRPC_BASE - 1) == 0 && ProxyIndex(false, GRPC_BASE - 2) == -1
  {}

  /** Some port could be given to both proxies. */
  ghost predicate Overlap(p: int, q: int, hub: bool) {
    exists port :: InHalf(false, ProxyIndex(false, p), hub, port) && InHalf(false, ProxyIndex(false, q), hub, port)
  }

  /** Two proxies of one host can be given the same port exactly if their own ports share a
      cell of the grid, or the lower one lies just below the grid and the other in its
      first cell. */
  lemma {:induction false} BandsOverlap(p: int, q: int, hub: bool)
    requires p < q && ProxyIndex(false, p) >= 0 && ProxyIndex(false, q) >= 0
    ensures Overlap(p, q, hub) <==>
      (p >= GRPC_BASE && (p - GRPC_BASE) % GRPC_STRIDE == 0 && q == p + 1) || (p == GRPC_BASE - 1 && q <= GRPC_BASE + 1)
  {
    var i, j := ProxyIndex(false, p), ProxyIndex(false, q);
    if i == j {
      var port := SlotPort(false, i, hub, 0);
      assert InHalf(false, i, hub, port) && InHalf(false, j, hub, port);
    }
    forall port | InHalf(false, i, hub, port) && InHalf(false, j, hub, port) ensures i == j {
      BandOf(i, hub, port);
      BandOf(j, hub, port);
    }
  }

  /** A port tells the index it belongs to. */
  lemma {:induction false} BandOf(i: int, hub: bool, port: int)
    requires InHalf(false, i, hub, port)
    ensures (port - EXCHANGE_BASE) / PROXY_BAND == i
  {
    var k :| 0 <= k < Half(false) && port == SlotPort(false, i, hub, k);
    DivIs(port - EXCHANGE_BASE, i, PROXY_BAND);
  }

  /** The slots probed from any start cover the whole half. */
  lemma {:induction false} ProbeCovers(start: nat, half: nat, k: nat) returns (attempt: nat)
    requires half >= 1 && k < half
    ensures attempt < half && (start + attempt) % half == k
  {
    var q, r := start / half, start % half;
    assert start == q * half + r;
    if r <= k {
      attempt := k - r;
      DivIs(start + attempt, q, half);
    } else {
      attempt := k + half - r;
      assert (q + 1) * half == q * half + half;
      DivIs(start + attempt, q + 1, half);
    }
  }
}
