/** One recovery's use of the port allocator (project/src/coordinator.cpp): ports for
every chain, the check for duplicates, and the release, with other recoveries
allocating and releasing in between. */
module PortSession {
  import opened Wrappers
  import opened PortBands
  import opened PortTrace
  import opened PortAllocator

  /** A chain of hops that ends in a sink (the hub, or a local sink). */
  datatype Chain = Chain(id: nat, hops: seq<Proxy>, sink: Proxy)

  datatype ChainPorts = ChainPorts(hops: seq<int>, hub: int)

  type PortMap = map<nat, ChainPorts>

  /** The first n hop listeners of a chain. */
  function HopListeners(hops: seq<Proxy>, ports: seq<int>, n: nat): (r: seq<Listener>)
    requires n <= |hops| && n <= |ports|
    ensures |r| == n && forall i :: 0 <= i < n ==> r[i] == (hops[i], ports[i])
  {
    seq(n, i requires 0 <= i < n => (hops[i], ports[i]))
  }

  function Shorter(a: nat, b: nat): nat { if a < b then a else b }

  function Listeners(chain: Chain, cp: ChainPorts): seq<Listener> {
    HopListeners(chain.hops, cp.hops, Shorter(|chain.hops|, |cp.hops|)) + [(chain.sink, cp.hub)]
  }

  /** The listeners of all chains that have ports, in order. */
  function Assigned(chains: seq<Chain>, ports: PortMap): seq<Listener> {
    if chains == [] then []
    else
      var chain := chains[|chains| - 1];
      Assigned(chains[..|chains| - 1], ports) + if chain.id in ports then Listeners(chain, ports[chain.id]) else []
  }

  ghost predicate NoTwice(xs: seq<Listener>) { forall i, j :: 0 <= i < j < |xs| ==> xs[i] != xs[j] }

  ghost predicate DistinctIds(chains: seq<Chain>) {
    forall i, j :: 0 <= i < j < |chains| ==> chains[i].id != chains[j].id
  }

  /** Ports recorded for later chains do not change what earlier ones got. */
  lemma {:induction false} AssignedLater(chains: seq<Chain>, ports: PortMap, id: nat, cp: ChainPorts)
    requires forall i :: 0 <= i < |chains| ==> chains[i].id != id
    ensures Assigned(chains, ports[id := cp]) == Assigned(chains, ports)
  {
    if chains != [] { AssignedLater(chains[..|chains| - 1], ports, id, cp); }
  }

  lemma {:induction false} AssignedStep(chains: seq<Chain>, n: nat, ports: PortMap, cp: ChainPorts)
    requires n < |chains| && DistinctIds(chains)
    ensures Assigned(chains[..n + 1], ports[chains[n].id := cp]) ==
      Assigned(chains[..n], ports) + Listeners(chains[n], cp)
  {
    assert chains[..n + 1][..n] == chains[..n];
    AssignedLater(chains[..n], ports, chains[n].id, cp);
  }

  // ------------------------------------------------------------------
  // Other recoveries.

  /** The history grew by events of other sessions only. */
  ghost predicate OthersActed(before: seq<Event>, after: seq<Event>, sid: nat) {
    && |before| <= |after| && after[..|before|] == before
    && forall i :: |before| <= i < |after| ==> after[i].sid != sid
  }

  /** All these ports are held by sid. */
  ghost predicate HoldsAll(trace: seq<Event>, sid: nat, xs: seq<Listener>) {
    forall i :: 0 <= i < |xs| ==> Owner(trace, xs[i]) == Some(sid)
  }

  lemma {:induction false} StillHeld(dedicated: bool, before: seq<Event>, after: seq<Event>, sid: nat,
          xs: seq<Listener>)
    requires Legal(dedicated, after) && OthersActed(before, after, sid) && HoldsAll(before, sid, xs)
    ensures HoldsAll(after, sid, xs)
  {
    hide Owner; hide Legal;
    forall i | 0 <= i < |xs| ensures Owner(after, xs[i]) == Some(sid) {
      HeldUntilFreed(dedicated, after, |before|, xs[i], sid);
    }
  }

  lemma {:induction false} IssuedTo(trace: seq<Event>, sid: nat, p: Listener, now: int)
    ensures Owner(trace + [Issue(sid, p, now)], p) == Some(sid)
  {
    OwnerStep(trace, Issue(sid, p, now), p);
  }

  /** Another recovery asks for a port and perhaps releases it again. */
  datatype Move = Move(proxy: Proxy, hub: bool, chain: nat, hop: nat, now: int, bindable: set<int>, release: bool)

  /** One call of the recovery: what others do before it, the clock it reads and the ports
      it could bind. */
  datatype Call = Call(moves: seq<Move>, now: int, bindable: set<int>)

  /** The clock does not go back. */
  ghost predicate MovesOk(clock: int, moves: seq<Move>, now: int) {
    && clock <= now && (forall i :: 0 <= i < |moves| ==> clock <= moves[i].now <= now)
    && forall i, j :: 0 <= i < j < |moves| ==> moves[i].now <= moves[j].now
  }

  /** The clock before call i. */
  function Reading(clock: int, calls: seq<Call>, i: nat): int
    requires i <= |calls|
  {
    if i == 0 then clock else calls[i - 1].now
  }

  ghost predicate CallsOk(clock: int, calls: seq<Call>) {
    forall i :: 0 <= i < |calls| ==> MovesOk(Reading(clock, calls, i), calls[i].moves, calls[i].now)
  }

  lemma {:induction false} CallAt(clock: int, calls: seq<Call>, i: nat)
    requires CallsOk(clock, calls) && i < |calls|
    ensures MovesOk(Reading(clock, calls, i), calls[i].moves, calls[i].now)
    ensures Reading(clock, calls, i) <= Reading(clock, calls, i + 1) == calls[i].now
  {}

  lemma {:induction false} ReadingsGrow(clock: int, calls: seq<Call>, i: nat, j: nat)
    requires CallsOk(clock, calls) && i <= j <= |calls|
    ensures Reading(clock, calls, i) <= Reading(clock, calls, j)
  {
    hide CallsOk; hide MovesOk;
    if i < j {
      ReadingsGrow(clock, calls, i, j - 1);
      CallAt(clock, calls, j - 1);
    }
  }

  lemma {:induction false} CallsPart(clock: int, calls: seq<Call>, i: nat, j: nat)
    requires CallsOk(clock, calls) && i <= j <= |calls|
    ensures CallsOk(Reading(clock, calls, i), calls[i..j])
    ensures Reading(Reading(clock, calls, i), calls[i..j], j - i) == Reading(clock, calls, j)
  {
    hide MovesOk;
    forall e | 0 <= e < j - i
      ensures MovesOk(Reading(Reading(clock, calls, i), calls[i..j], e), calls[i..j][e].moves, calls[i..j][e].now)
    {
      assert MovesOk(Reading(clock, calls, i + e), calls[i + e].moves, calls[i + e].now);
    }
  }

  /** The history grew only by events at or after `time`. */
  ghost predicate LaterOnly(before: seq<Event>, after: seq<Event>, time: int) {
    |before| <= |after| && after[..|before|] == before && forall i :: |before| <= i < |after| ==> after[i].time >= time
  }

  /** Whatever other recoveries do before a call of sid. */
  method Interfere(table: PortTable, sid: nat, moves: seq<Move>, now: int)
    requires table.Valid() && MovesOk(table.clock, moves, now)
    modifies table
    ensures table.Valid() && old(table.clock) <= table.clock <= now
    ensures OthersActed(old(table.trace), table.trace, sid)
    ensures LaterOnly(old(table.trace), table.trace, old(table.clock))
  {
    hide TableOk; hide Owner; hide Blocked; hide InHalf; hide AllBlocked;
    var other := new Allocator(sid + 1, 0);
    for i := 0 to |moves|
      invariant table.Valid() && old(table.clock) <= table.clock <= now
      invariant forall j :: i <= j < |moves| ==> table.clock <= moves[j].now
      invariant OthersActed(old(table.trace), table.trace, sid)
      invariant LaterOnly(old(table.trace), table.trace, old(table.clock))
      invariant fresh(other) && other.sid != sid
    {
      var m := moves[i];
      var port, tries := other.Allocate(table, m.proxy, m.hub, m.chain, m.hop, m.now, m.bindable);
      if port != -1 && m.release {
        IssuedTo(table.trace[..|table.trace| - 1], other.sid, (m.proxy, port), m.now);
        table.FreeOne(other.sid, (m.proxy, port), m.now);
      }
    }
  }

  // ------------------------------------------------------------------
  // One recovery.

  /** What the recovery has taken, in order: no port twice, all still held. */
  ghost predicate Session(trace: seq<Event>, sid: nat, used: set<Listener>, taken: seq<Listener>) {
    && NoTwice(taken) && HoldsAll(trace, sid, taken) && (forall p :: p in used <==> p in taken)
    && forall i :: 0 <= i < |taken| ==> taken[i].1 > 0
  }

  lemma {:induction false} SessionStep(trace: seq<Event>, sid: nat, used: set<Listener>, taken: seq<Listener>,
          p: Listener, now: int)
    requires Session(trace, sid, used, taken) && p !in used && p.1 > 0
    ensures Session(trace + [Issue(sid, p, now)], sid, used + {p}, taken + [p])
  {
    hide Owner;
    var e := Issue(sid, p, now);
    forall i | 0 <= i < |taken| + 1 ensures Owner(trace + [e], (taken + [p])[i]) == Some(sid) {
      OwnerStep(trace, e, (taken + [p])[i]);
    }
  }

  lemma {:induction false} SessionKept(dedicated: bool, before: seq<Event>, after: seq<Event>, sid: nat,
          used: set<Listener>, taken: seq<Listener>)
    requires Legal(dedicated, after) && OthersActed(before, after, sid) && Session(before, sid, used, taken)
    ensures Session(after, sid, used, taken)
  {
    hide Legal; hide OthersActed; hide HoldsAll; hide NoTwice;
    StillHeld(dedicated, before, after, sid, taken);
  }

  lemma {:induction false} TableLegal(table: PortTable)
    requires table.Valid()
    ensures Legal(table.dedicated, table.trace)
  {}

  lemma {:induction false} PortPositive(dedicated: bool, index: int, hub: bool, port: int)
    requires IndexOk(dedicated, index) && InHalf(dedicated, index, hub, port)
    ensures 20000 <= port <= 31999
  {
    var k :| 0 <= k < Half(dedicated) && port == SlotPort(dedicated, index, hub, k);
    SlotRange(dedicated, index, hub, k);
  }

  lemma {:induction false} SessionUsed(trace: seq<Event>, sid: nat, used: set<Listener>, taken: seq<Listener>)
    requires Session(trace, sid, used, taken)
    ensures forall p :: p in used ==> Owner(trace, p).Some?
  {
    hide Owner;
  }

  /** A port of the hop or the hub half of its proxy's band. */
  ghost predicate InBand(dedicated: bool, proxy: Proxy, hub: bool, port: int) {
    ProxyIndex(dedicated, proxy.port) >= 0 && InHalf(dedicated, ProxyIndex(dedicated, proxy.port), hub, port)
  }

  /** One allocation, after the interference before it. It fails exactly if nothing in the
      half asked for can be handed out. */
  method AllocatePort(table: PortTable, alloc: Allocator, proxy: Proxy, hub: bool, chain: nat, hop: nat, call: Call,
          ghost taken: seq<Listener>)
    returns (port: int)
    requires table.Valid() && Session(table.trace, alloc.sid, alloc.used, taken)
    requires MovesOk(table.clock, call.moves, call.now)
    modifies table, alloc`used
    ensures table.Valid() && table.clock == call.now && LaterOnly(old(table.trace), table.trace, old(table.clock))
    ensures port <= 0 ==> Session(table.trace, alloc.sid, alloc.used, taken)
    ensures port <= 0 ==> Starved(table.dedicated, table.trace, call.bindable, call.now, proxy, hub)
    ensures port > 0 ==> Session(table.trace, alloc.sid, alloc.used, taken + [(proxy, port)])
    ensures port > 0 ==> InBand(table.dedicated, proxy, hub, port)
  {
    hide TableOk; hide Session; hide OthersActed; hide Blocked; hide InHalf; hide AllBlocked; hide ProxyIndex;
    hide IndexOk; hide Starved; hide MovesOk; hide Found;
    Interfere(table, alloc.sid, call.moves, call.now);
    TableLegal(table);
    SessionKept(table.dedicated, old(table.trace), table.trace, alloc.sid, alloc.used, taken);
    SessionUsed(table.trace, alloc.sid, alloc.used, taken);
    StarvedIff(table.dedicated, table.inflight, table.cooldown, table.clock, table.trace, alloc.used, call.bindable,
      call.now, proxy, hub);
    ghost var trace, used := table.trace, alloc.used;
    ghost var tries;
    port, tries := alloc.Allocate(table, proxy, hub, chain, hop, call.now, call.bindable);
    if port != -1 {
      IndexFacts(table.dedicated, proxy.port);
      PortPositive(table.dedicated, ProxyIndex(table.dedicated, proxy.port), hub, port);
      SessionStep(trace, alloc.sid, used, taken, (proxy, port), call.now);
    }
  }

  /** Listeners of a chain's first hops. */
  ghost predicate OfHops(chain: Chain, got: seq<Listener>) {
    |got| <= |chain.hops| && forall i :: 0 <= i < |got| ==> got[i].0 == chain.hops[i]
  }

  /** The proxy asked by call i of a chain: its hops in order, then its sink. */
  function Asked(chain: Chain, i: nat): Proxy { if i < |chain.hops| then chain.hops[i] else chain.sink }

  /** The chain got ports for its first hops, and the next call found nothing. */
  ghost predicate Stuck(dedicated: bool, trace: seq<Event>, chain: Chain, calls: seq<Call>, got: seq<Listener>) {
    && |calls| == |chain.hops| + 1 && OfHops(chain, got)
    && var i := |got|;
       Starved(dedicated, trace, calls[i].bindable, calls[i].now, Asked(chain, i), i == |chain.hops|)
  }

  /** Hop ports in the hop halves, the sink's in the hub half. */
  ghost predicate BandsOk(dedicated: bool, chain: Chain, cp: ChainPorts) {
    && |cp.hops| == |chain.hops| && InBand(dedicated, chain.sink, true, cp.hub)
    && forall i :: 0 <= i < |cp.hops| ==> InBand(dedicated, chain.hops[i], false, cp.hops[i])
  }

  lemma {:induction false} LaterMore(a: seq<Event>, b: seq<Event>, c: seq<Event>, s: int, t: int)
    requires LaterOnly(a, b, s) && LaterOnly(b, c, t) && s <= t
    ensures LaterOnly(a, c, s)
  {
    forall i | |a| <= i < |c| ensures c[i].time >= s { if i < |b| { assert c[i] == c[..|b|][i]; } }
    assert c[..|a|] == c[..|b|][..|a|];
  }

  /** Ports for every hop of a chain and for its sink; `got` lists those taken, also when
      the chain fails midway. */
  method AllocateChain(table: PortTable, alloc: Allocator, chain: Chain, calls: seq<Call>, ghost taken: seq<Listener>)
    returns (ok: bool, cp: ChainPorts, ghost got: seq<Listener>)
    requires table.Valid() && Session(table.trace, alloc.sid, alloc.used, taken)
    requires |calls| == |chain.hops| + 1 && CallsOk(table.clock, calls)
    modifies table, alloc`used
    ensures table.Valid() && Session(table.trace, alloc.sid, alloc.used, taken + got)
    ensures LaterOnly(old(table.trace), table.trace, old(table.clock))
    ensures ok ==> table.clock == Reading(old(table.clock), calls, |calls|)
    ensures ok ==> BandsOk(table.dedicated, chain, cp) && got == Listeners(chain, cp)
    ensures !ok ==> Stuck(table.dedicated, table.trace, chain, calls, got) && table.clock == calls[|got|].now
  {
    hide TableOk; hide Session; hide Starved; hide InBand; hide MovesOk; hide CallsOk; hide LaterOnly;
    var ports: seq<int> := [];
    cp, got := ChainPorts([], 0), [];
    assert taken + got == taken;
    LaterNone(table.trace, table.clock);
    for hi := 0 to |chain.hops|
      invariant table.Valid() && |ports| == hi && got == HopListeners(chain.hops, ports, hi)
      invariant table.clock == Reading(old(table.clock), calls, hi)
      invariant LaterOnly(old(table.trace), table.trace, old(table.clock))
      invariant Session(table.trace, alloc.sid, alloc.used, taken + got)
      invariant forall i :: 0 <= i < hi ==> InBand(table.dedicated, chain.hops[i], false, ports[i])
    {
      ChainCall(old(table.clock), calls, hi);
      ghost var before, clock := table.trace, table.clock;
      var port := AllocatePort(table, alloc, chain.hops[hi], false, chain.id, hi, calls[hi], taken + got);
      LaterMore(old(table.trace), before, table.trace, old(table.clock), clock);
      if port <= 0 { return false, cp, got; }
      assert taken + got + [(chain.hops[hi], port)] == taken + (got + [(chain.hops[hi], port)]);
      got, ports := got + [(chain.hops[hi], port)], ports + [port];
    }
    ChainCall(old(table.clock), calls, |chain.hops|);
    ghost var before, clock := table.trace, table.clock;
    var hub := AllocatePort(table, alloc, chain.sink, true, 0, 0, calls[|chain.hops|], taken + got);
    LaterMore(old(table.trace), before, table.trace, old(table.clock), clock);
    if hub <= 0 { return false, cp, got; }
    assert taken + got + [(chain.sink, hub)] == taken + (got + [(chain.sink, hub)]);
    ok, cp, got := true, ChainPorts(ports, hub), got + [(chain.sink, hub)];
  }

  lemma {:induction false} LaterNone(trace: seq<Event>, time: int)
    ensures LaterOnly(trace, trace, time)
  {}

  lemma {:induction false} ChainCall(clock: int, calls: seq<Call>, i: nat)
    requires CallsOk(clock, calls) && i < |calls|
    ensures MovesOk(Reading(clock, calls, i), calls[i].moves, calls[i].now) && clock <= Reading(clock, calls, i)
    ensures Reading(clock, calls, i + 1) == calls[i].now
  {
    CallAt(clock, calls, i);
    ReadingsGrow(clock, calls, 0, i);
  }

  /** Chains without ports have no listeners. */
  lemma {:induction false} AssignedOnly(chains: seq<Chain>, ports: PortMap, n: nat)
    requires n <= |chains| && forall i :: n <= i < |chains| ==> chains[i].id !in ports
    ensures Assigned(chains, ports) == Assigned(chains[..n], ports)
  {
    if n == |chains| {
      assert chains[..n] == chains;
    } else {
      var rest := chains[..|chains| - 1];
      AssignedOnly(rest, ports, n);
      assert rest[..n] == chains[..n];
    }
  }

  /** Calls made for the first n chains: one per hop and one for the sink. */
  function CallsBefore(chains: seq<Chain>, n: nat): nat
    requires n <= |chains|
  {
    if n == 0 then 0 else CallsBefore(chains, n - 1) + |chains[n - 1].hops| + 1
  }

  lemma {:induction false} CallsGrow(chains: seq<Chain>, n: nat, m: nat)
    requires n <= m <= |chains|
    ensures CallsBefore(chains, n) <= CallsBefore(chains, m)
  {
    if n < m { CallsGrow(chains, n, m - 1); }
  }

  /** The calls of chain n. */
  function CallsOf(chains: seq<Chain>, calls: seq<Call>, n: nat): seq<Call>
    requires n < |chains| && CallsBefore(chains, |chains|) <= |calls|
  {
    CallsGrow(chains, n + 1, |chains|);
    calls[CallsBefore(chains, n)..CallsBefore(chains, n + 1)]
  }

  /** After the first `at` events sid takes no port, and time has moved on to t. */
  ghost predicate TakesNoMore(trace: seq<Event>, at: nat, sid: nat, t: int) {
    forall i :: at <= i < |trace| ==> trace[i].time >= t && (trace[i].sid == sid ==> trace[i].Free?)
  }

  /** Chain n took `left` and got stuck after the first `at` events, when nothing in the half
      it asked for was to be had. */
  ghost predicate StuckAt(dedicated: bool, trace: seq<Event>, at: nat, sid: nat, chains: seq<Chain>, calls: seq<Call>,
          left: seq<Listener>, n: nat)
    requires CallsBefore(chains, |chains|) <= |calls|
  {
    && n < |chains| && at <= |trace|
    && Stuck(dedicated, trace[..at], chains[n], CallsOf(chains, calls, n), left)
    && TakesNoMore(trace, at, sid, CallsOf(chains, calls, n)[|left|].now)
  }

  /** The first n chains have the ports they need, and only they have any. */
  ghost predicate Served(dedicated: bool, chains: seq<Chain>, ports: PortMap, n: nat) {
    && n <= |chains| && (forall i :: 0 <= i < |chains| ==> (chains[i].id in ports <==> i < n))
    && forall i :: 0 <= i < n ==> chains[i].id in ports && BandsOk(dedicated, chains[i], ports[chains[i].id])
  }

  lemma {:induction false} ServedStep(dedicated: bool, chains: seq<Chain>, ports: PortMap, n: nat, cp: ChainPorts)
    requires Served(dedicated, chains, ports, n) && n < |chains| && DistinctIds(chains)
    requires BandsOk(dedicated, chains[n], cp)
    ensures Served(dedicated, chains, ports[chains[n].id := cp], n + 1)
  {
    hide BandsOk;
  }

  lemma {:induction false} ChainCalls(clock: int, chains: seq<Chain>, calls: seq<Call>, n: nat)
    requires n < |chains| && |calls| == CallsBefore(chains, |chains|) && CallsOk(clock, calls)
    ensures CallsBefore(chains, n) <= CallsBefore(chains, n + 1) <= |calls|
    ensures |CallsOf(chains, calls, n)| == |chains[n].hops| + 1
    ensures CallsOk(Reading(clock, calls, CallsBefore(chains, n)), CallsOf(chains, calls, n))
    ensures clock <= Reading(clock, calls, CallsBefore(chains, n))
    ensures Reading(Reading(clock, calls, CallsBefore(chains, n)), CallsOf(chains, calls, n), |chains[n].hops| + 1)
      == Reading(clock, calls, CallsBefore(chains, n + 1))
  {
    hide CallsOk;
    CallsGrow(chains, n, n + 1);
    CallsGrow(chains, n + 1, |chains|);
    CallsPart(clock, calls, CallsBefore(chains, n), CallsBefore(chains, n + 1));
    ReadingsGrow(clock, calls, 0, CallsBefore(chains, n));
  }

  /** The clock when the chain got stuck is not past the last call. */
  lemma {:induction false} StuckReading(clock: int, chains: seq<Chain>, calls: seq<Call>, n: nat, i: nat)
    requires n < |chains| && |calls| == CallsBefore(chains, |chains|) && CallsOk(clock, calls) && i <= |chains[n].hops|
    ensures i < |CallsOf(chains, calls, n)|
    ensures CallsOf(chains, calls, n)[i].now <= Reading(clock, calls, |calls|)
  {
    hide CallsOk;
    CallsGrow(chains, n, n + 1);
    CallsGrow(chains, n + 1, |chains|);
    ReadingsGrow(clock, calls, CallsBefore(chains, n) + i + 1, |calls|);
  }

  lemma {:induction false} StuckNow(dedicated: bool, trace: seq<Event>, sid: nat, chains: seq<Chain>,
          calls: seq<Call>, left: seq<Listener>, n: nat)
    requires CallsBefore(chains, |chains|) <= |calls| && n < |chains|
    requires Stuck(dedicated, trace, chains[n], CallsOf(chains, calls, n), left)
    ensures StuckAt(dedicated, trace, |trace|, sid, chains, calls, left, n)
  {
    hide Starved;
    assert trace[..|trace|] == trace;
  }

  /** It stays stuck there, whatever happens later. */
  lemma {:induction false} StuckStays(dedicated: bool, before: seq<Event>, after: seq<Event>, sid: nat,
          chains: seq<Chain>, calls: seq<Call>, left: seq<Listener>, n: nat)
    requires CallsBefore(chains, |chains|) <= |calls|
    requires StuckAt(dedicated, before, |before|, sid, chains, calls, left, n)
    requires |left| < |CallsOf(chains, calls, n)| && |before| <= |after| && after[..|before|] == before
    requires TakesNoMore(after, |before|, sid, CallsOf(chains, calls, n)[|left|].now)
    ensures StuckAt(dedicated, after, |before|, sid, chains, calls, left, n)
  {
    hide Starved;
    assert before[..|before|] == before;
  }

  lemma {:induction false} StuckBounds(dedicated: bool, trace: seq<Event>, chain: Chain, calls: seq<Call>,
          got: seq<Listener>)
    requires Stuck(dedicated, trace, chain, calls, got)
    ensures |got| < |calls| == |chain.hops| + 1 && OfHops(chain, got)
  {}

  /** Ports for all chains; the first failure ends the recovery, and then the ports `left`
      of the failing chain are taken but not recorded. */
  method AllocateChains(table: PortTable, alloc: Allocator, chains: seq<Chain>, calls: seq<Call>)
    returns (ok: bool, ports: PortMap, ghost served: nat, ghost left: seq<Listener>)
    requires table.Valid() && alloc.used == {} && DistinctIds(chains)
    requires |calls| == CallsBefore(chains, |chains|) && CallsOk(table.clock, calls)
    modifies table, alloc`used
    ensures table.Valid() && Session(table.trace, alloc.sid, alloc.used, Assigned(chains, ports) + left)
    ensures LaterOnly(old(table.trace), table.trace, old(table.clock))
    ensures table.clock <= Reading(old(table.clock), calls, |calls|)
    ensures Served(table.dedicated, chains, ports, served) && (ok <==> served == |chains|) && (ok ==> left == [])
    ensures !ok ==> StuckAt(table.dedicated, table.trace, |table.trace|, alloc.sid, chains, calls, left, served)
    ensures !ok ==> |left| < |CallsOf(chains, calls, served)|
    ensures !ok ==> table.clock == CallsOf(chains, calls, served)[|left|].now
  {
    hide TableOk; hide Session; hide Listeners; hide CallsOk; hide LaterOnly; hide BandsOk; hide Stuck; hide Served;
    hide CallsOf; hide StuckAt;
    ports, served, left := map[], 0, [];
    SessionEmpty(table.trace, alloc.sid);
    LaterNone(table.trace, table.clock);
    ServedNone(table.dedicated, chains);
    for n := 0 to |chains|
      invariant table.Valid() && Session(table.trace, alloc.sid, alloc.used, Assigned(chains[..n], ports))
      invariant LaterOnly(old(table.trace), table.trace, old(table.clock))
      invariant CallsBefore(chains, n) <= |calls|
      invariant table.clock == Reading(old(table.clock), calls, CallsBefore(chains, n))
      invariant served == n && Served(table.dedicated, chains, ports, n)
    {
      ChainCalls(old(table.clock), chains, calls, n);
      var fine, cp;
      ghost var got, before, clock := [], table.trace, table.clock;
      fine, cp, got := AllocateChain(table, alloc, chains[n], CallsOf(chains, calls, n), Assigned(chains[..n], ports));
      LaterMore(old(table.trace), before, table.trace, old(table.clock), clock);
      if !fine {
        ServedOnly(table.dedicated, chains, ports, n);
        StuckNow(table.dedicated, table.trace, alloc.sid, chains, calls, got, n);
        StuckBounds(table.dedicated, table.trace, chains[n], CallsOf(chains, calls, n), got);
        StuckReading(old(table.clock), chains, calls, n, |got|);
        return false, ports, n, got;
      }
      AssignedStep(chains, n, ports, cp);
      ServedStep(table.dedicated, chains, ports, n, cp);
      ports, served := ports[chains[n].id := cp], n + 1;
    }
    assert chains[..|chains|] == chains && Assigned(chains, ports) + [] == Assigned(chains, ports);
    ok := true;
  }

  lemma {:induction false} ServedOnly(dedicated: bool, chains: seq<Chain>, ports: PortMap, n: nat)
    requires Served(dedicated, chains, ports, n)
    ensures Assigned(chains, ports) == Assigned(chains[..n], ports)
  {
    hide BandsOk; hide Listeners;
    AssignedOnly(chains, ports, n);
  }

  lemma {:induction false} ServedNone(dedicated: bool, chains: seq<Chain>)
    ensures Served(dedicated, chains, map[], 0)
  {}

  lemma {:induction false} SessionEmpty(trace: seq<Event>, sid: nat)
    ensures Session(trace, sid, {}, [])
  {}

  // ------------------------------------------------------------------
  // The duplicate check.

  ghost predicate Clean(xs: seq<Listener>) { NoTwice(xs) && forall i :: 0 <= i < |xs| ==> xs[i].1 > 0 }

  /** Clean so far, and `seen` is what was seen. */
  ghost predicate CleanSo(xs: seq<Listener>, seen: set<Listener>) { Clean(xs) && forall p :: p in seen <==> p in xs }

  lemma {:induction false} CleanStep(xs: seq<Listener>, seen: set<Listener>, p: Listener)
    requires CleanSo(xs, seen)
    ensures p.1 > 0 && p !in seen ==> CleanSo(xs + [p], seen + {p})
    ensures !(p.1 > 0 && p !in seen) ==> !Clean(xs + [p])
  {
    if p.1 > 0 && p in seen {
      var i :| 0 <= i < |xs| && xs[i] == p;
      assert (xs + [p])[i] == (xs + [p])[|xs|];
    } else if p.1 <= 0 {
      assert (xs + [p])[|xs|].1 <= 0;
    }
  }

  lemma {:induction false} CleanPrefix(xs: seq<Listener>, more: seq<Listener>)
    requires Clean(xs + more)
    ensures Clean(xs)
  {
    forall i | 0 <= i < |xs| ensures xs[i].1 > 0 { assert (xs + more)[i] == xs[i]; }
    forall i, j | 0 <= i < j < |xs| ensures xs[i] != xs[j] { assert (xs + more)[i] != (xs + more)[j]; }
  }

  /** check_port: false for a port that is not one or was seen before. */
  method CheckPort(seen: set<Listener>, p: Listener, ghost xs: seq<Listener>) returns (ok: bool, after: set<Listener>)
    requires CleanSo(xs, seen)
    ensures ok <==> Clean(xs + [p])
    ensures ok ==> CleanSo(xs + [p], after)
  {
    hide CleanSo;
    CleanStep(xs, seen, p);
    after := seen;
    if p.1 <= 0 { return false, after; }
    ok := p !in seen;
    after := seen + {p};
    if ok { CleanOf(xs + [p], after); }
  }

  lemma {:induction false} CleanOf(xs: seq<Listener>, seen: set<Listener>)
    requires CleanSo(xs, seen)
    ensures Clean(xs)
  {}

  method CheckChain(seen: set<Listener>, chain: Chain, cp: ChainPorts, ghost xs: seq<Listener>)
    returns (ok: bool, after: set<Listener>)
    requires CleanSo(xs, seen)
    ensures ok <==> Clean(xs + Listeners(chain, cp))
    ensures ok ==> CleanSo(xs + Listeners(chain, cp), after)
  {
    hide CleanSo; hide Clean;
    after := seen;
    ghost var sofar := xs;
    var n := Shorter(|chain.hops|, |cp.hops|);
    assert xs + HopListeners(chain.hops, cp.hops, 0) == xs;
    for hi := 0 to n
      invariant CleanSo(sofar, after) && sofar == xs + HopListeners(chain.hops, cp.hops, hi)
    {
      ghost var next := sofar + [(chain.hops[hi], cp.hops[hi])];
      assert next == xs + HopListeners(chain.hops, cp.hops, hi + 1);
      var fine;
      fine, after := CheckPort(after, (chain.hops[hi], cp.hops[hi]), sofar);
      if !fine {
        ghost var rest := Listeners(chain, cp)[hi + 1..];
        assert xs + Listeners(chain, cp) == next + rest;
        if Clean(next + rest) { CleanPrefix(next, rest); }
        return false, after;
      }
      sofar := next;
    }
    assert sofar + [(chain.sink, cp.hub)] == xs + Listeners(chain, cp);
    ok, after := CheckPort(after, (chain.sink, cp.hub), sofar);
  }

  lemma {:induction false} AssignedPrefix(chains: seq<Chain>, ports: PortMap, n: nat) returns (rest: seq<Listener>)
    requires n <= |chains|
    ensures Assigned(chains, ports) == Assigned(chains[..n], ports) + rest
  {
    hide Listeners;
    if n == |chains| {
      assert chains[..n] == chains;
      rest := [];
    } else {
      var m := |chains| - 1;
      rest := AssignedPrefix(chains[..m], ports, n);
      assert chains[..m][..n] == chains[..n];
      rest := rest + if chains[m].id in ports then Listeners(chains[m], ports[chains[m].id]) else [];
    }
  }

  /** The check before the listeners are started. */
  method CheckDuplicates(chains: seq<Chain>, ports: PortMap) returns (ok: bool)
    ensures ok <==> Clean(Assigned(chains, ports))
  {
    hide CleanSo; hide Clean; hide Listeners;
    var seen: set<Listener> := {};
    NothingSeen();
    for n := 0 to |chains|
      invariant CleanSo(Assigned(chains[..n], ports), seen)
    {
      assert chains[..n + 1][..n] == chains[..n];
      if chains[n].id in ports {
        var fine;
        fine, seen := CheckChain(seen, chains[n], ports[chains[n].id], Assigned(chains[..n], ports));
        if !fine {
          ghost var rest := AssignedPrefix(chains, ports, n + 1);
          if Clean(Assigned(chains, ports)) { CleanPrefix(Assigned(chains[..n + 1], ports), rest); }
          return false;
        }
      } else {
        assert Assigned(chains[..n], ports) + [] == Assigned(chains[..n], ports);
      }
    }
    assert chains[..|chains|] == chains;
    CleanOf(Assigned(chains, ports), seen);
    ok := true;
  }

  lemma {:induction false} NothingSeen()
    ensures CleanSo([], {})
  {}

  /** For a recovery whose allocation finished, the check cannot fail. */
  lemma {:induction false} SessionClean(trace: seq<Event>, sid: nat, used: set<Listener>, taken: seq<Listener>)
    requires Session(trace, sid, used, taken)
    ensures Clean(taken)
  {}

  // ------------------------------------------------------------------
  // The release.

  /** Exactly the ports xs went from reserved to cooling. */
  ghost predicate Released(dedicated: bool, inflight0: set<Listener>, cooldown0: Cooling, inflight: set<Listener>,
          cooldown: Cooling, xs: seq<Listener>, now: int)
  {
    if dedicated then inflight == inflight0 && cooldown == cooldown0
    else
      && (forall p :: p in inflight <==> p in inflight0 && p !in xs)
      && (forall p :: p in cooldown <==> p in cooldown0 || p in xs)
      && (forall p :: p in cooldown ==> cooldown[p] == if p in xs then now + COOLDOWN else cooldown0[p])
  }

  lemma {:induction false} ReleasedStep(dedicated: bool, inflight0: set<Listener>, cooldown0: Cooling,
          inflight: set<Listener>, cooldown: Cooling, xs: seq<Listener>, now: int, p: Listener)
    requires Released(dedicated, inflight0, cooldown0, inflight, cooldown, xs, now)
    ensures dedicated ==> Released(dedicated, inflight0, cooldown0, inflight, cooldown, xs + [p], now)
    ensures !dedicated ==>
      Released(dedicated, inflight0, cooldown0, inflight - {p}, cooldown[p := now + COOLDOWN], xs + [p], now)
  {}

  lemma {:induction false} ReleasedNone(dedicated: bool, inflight: set<Listener>, cooldown: Cooling, now: int)
    ensures Released(dedicated, inflight, cooldown, inflight, cooldown, [], now)
  {}

  /** Of xs, the first n are free again and the others still held. */
  ghost predicate Freeing(trace: seq<Event>, sid: nat, xs: seq<Listener>, n: nat) {
    n <= |xs| && forall i :: 0 <= i < |xs| ==> Owner(trace, xs[i]) == if i < n then None else Some(sid)
  }

  lemma {:induction false} FreeingStep(trace: seq<Event>, sid: nat, xs: seq<Listener>, n: nat, now: int)
    requires Freeing(trace, sid, xs, n) && n < |xs| && NoTwice(xs)
    ensures Owner(trace, xs[n]) == Some(sid) && Freeing(trace + [Free(sid, xs[n], now)], sid, xs, n + 1)
  {
    hide Owner;
    var e := Free(sid, xs[n], now);
    forall i | 0 <= i < |xs| ensures Owner(trace + [e], xs[i]) == if i < n + 1 then None else Some(sid) {
      OwnerStep(trace, e, xs[i]);
      if n < i { assert xs[n] != xs[i]; } else if i < n { assert xs[i] != xs[n]; }
    }
  }

  /** Ports outside xs have the owners they had. */
  ghost predicate OthersKept(before: seq<Event>, after: seq<Event>, xs: seq<Listener>) {
    forall q: Listener :: q !in xs ==> Owner(after, q) == Owner(before, q)
  }

  lemma {:induction false} KeptStep(before: seq<Event>, after: seq<Event>, xs: seq<Listener>, n: nat, sid: nat,
          now: int)
    requires OthersKept(before, after, xs) && n < |xs|
    ensures OthersKept(before, after + [Free(sid, xs[n], now)], xs)
  {
    hide Owner;
    var e := Free(sid, xs[n], now);
    forall q: Listener | q !in xs ensures Owner(after + [e], q) == Owner(before, q) {
      OwnerStep(after, e, q);
    }
  }

  /** The history grew by releases of sid at `now`. */
  ghost predicate FreesOnly(before: seq<Event>, after: seq<Event>, sid: nat, now: int) {
    && |before| <= |after| && after[..|before|] == before
    && forall i :: |before| <= i < |after| ==> after[i].Free? && after[i].sid == sid && after[i].time == now
  }

  /** Releases the listeners of one chain, the ones after the first n of xs. */
  method ReleaseChain(table: PortTable, chain: Chain, cp: ChainPorts, now: int, ghost sid: nat, ghost xs: seq<Listener>,
          ghost n: nat, ghost trace0: seq<Event>, ghost inflight0: set<Listener>, ghost cooldown0: Cooling)
    requires table.Valid() && table.clock <= now && NoTwice(xs) && Freeing(table.trace, sid, xs, n)
    requires OthersKept(trace0, table.trace, xs) && FreesOnly(trace0, table.trace, sid, now)
    requires n + |Listeners(chain, cp)| <= |xs| && xs[n..n + |Listeners(chain, cp)|] == Listeners(chain, cp)
    requires Released(table.dedicated, inflight0, cooldown0, table.inflight, table.cooldown, xs[..n], now)
    modifies table
    ensures table.Valid() && table.clock <= now && Freeing(table.trace, sid, xs, n + |Listeners(chain, cp)|)
    ensures OthersKept(trace0, table.trace, xs) && FreesOnly(trace0, table.trace, sid, now)
    ensures Released(table.dedicated, inflight0, cooldown0, table.inflight, table.cooldown,
      xs[..n + |Listeners(chain, cp)|], now)
  {
    hide TableOk; hide Freeing; hide Released; hide NoTwice; hide OthersKept;
    var count := Shorter(|chain.hops|, |cp.hops|);
    for hi := 0 to count
      invariant table.Valid() && table.clock <= now && Freeing(table.trace, sid, xs, n + hi)
      invariant OthersKept(trace0, table.trace, xs) && FreesOnly(trace0, table.trace, sid, now)
      invariant Released(table.dedicated, inflight0, cooldown0, table.inflight, table.cooldown, xs[..n + hi], now)
    {
      assert xs[n + hi] == Listeners(chain, cp)[hi] == (chain.hops[hi], cp.hops[hi]);
      ReleaseOne(table, (chain.hops[hi], cp.hops[hi]), now, sid, xs, n + hi, trace0, inflight0, cooldown0);
    }
    assert xs[n + count] == Listeners(chain, cp)[count] == (chain.sink, cp.hub);
    ReleaseOne(table, (chain.sink, cp.hub), now, sid, xs, n + count, trace0, inflight0, cooldown0);
  }

  method ReleaseOne(table: PortTable, p: Listener, now: int, ghost sid: nat, ghost xs: seq<Listener>, ghost n: nat,
                    ghost trace0: seq<Event>, ghost inflight0: set<Listener>, ghost cooldown0: Cooling)
    requires table.Valid() && table.clock <= now && NoTwice(xs) && Freeing(table.trace, sid, xs, n) && n < |xs|
    requires xs[n] == p
    requires OthersKept(trace0, table.trace, xs) && FreesOnly(trace0, table.trace, sid, now)
    requires Released(table.dedicated, inflight0, cooldown0, table.inflight, table.cooldown, xs[..n], now)
    modifies table
    ensures table.Valid() && table.clock <= now && Freeing(table.trace, sid, xs, n + 1)
    ensures OthersKept(trace0, table.trace, xs) && FreesOnly(trace0, table.trace, sid, now)
    ensures Released(table.dedicated, inflight0, cooldown0, table.inflight, table.cooldown, xs[..n + 1], now)
  {
    hide TableOk; hide Freeing; hide Released; hide NoTwice; hide OthersKept;
    FreeingStep(table.trace, sid, xs, n, now);
    KeptStep(trace0, table.trace, xs, n, sid, now);
    ReleasedStep(table.dedicated, inflight0, cooldown0, table.inflight, table.cooldown, xs[..n], now, p);
    assert xs[..n] + [p] == xs[..n + 1];
    table.FreeOne(sid, p, now);
  }

  lemma {:induction false} AssignedPart(chains: seq<Chain>, ports: PortMap, n: nat)
    requires n < |chains| && chains[n].id in ports
    ensures var a, b, all :=
      Assigned(chains[..n], ports), Listeners(chains[n], ports[chains[n].id]), Assigned(chains, ports);
      |a| + |b| <= |all| && all[|a|..|a| + |b|] == b && |Assigned(chains[..n + 1], ports)| == |a| + |b|
  {
    hide Listeners;
    assert chains[..n + 1][..n] == chains[..n];
    var rest := AssignedPrefix(chains, ports, n + 1);
  }

  /** release_inflight_ports: frees exactly this recovery's recorded reservations. */
  method ReleasePorts(table: PortTable, chains: seq<Chain>, ports: PortMap, now: int, ghost sid: nat)
    requires table.Valid() && table.clock <= now && NoTwice(Assigned(chains, ports))
    requires HoldsAll(table.trace, sid, Assigned(chains, ports))
    modifies table
    ensures table.Valid() && Freeing(table.trace, sid, Assigned(chains, ports), |Assigned(chains, ports)|)
    ensures OthersKept(old(table.trace), table.trace, Assigned(chains, ports))
    ensures FreesOnly(old(table.trace), table.trace, sid, now)
    ensures Released(table.dedicated, old(table.inflight), old(table.cooldown), table.inflight, table.cooldown,
      Assigned(chains, ports), now)
  {
    hide TableOk; hide Freeing; hide Released; hide NoTwice; hide Listeners; hide HoldsAll; hide OthersKept;
    ghost var xs, trace0, inflight0, cooldown0 := Assigned(chains, ports), table.trace, table.inflight, table.cooldown;
    FreeingStart(table.trace, sid, xs);
    ReleasedNone(table.dedicated, table.inflight, table.cooldown, now);
    for n := 0 to |chains|
      invariant table.Valid() && table.clock <= now && OthersKept(trace0, table.trace, xs)
      invariant FreesOnly(trace0, table.trace, sid, now)
      invariant |Assigned(chains[..n], ports)| <= |xs| && Freeing(table.trace, sid, xs, |Assigned(chains[..n], ports)|)
      invariant Released(table.dedicated, inflight0, cooldown0, table.inflight, table.cooldown,
        xs[..|Assigned(chains[..n], ports)|], now)
    {
      assert chains[..n + 1][..n] == chains[..n];
      if chains[n].id in ports {
        AssignedPart(chains, ports, n);
        ReleaseChain(table, chains[n], ports[chains[n].id], now, sid, xs, |Assigned(chains[..n], ports)|, trace0,
          inflight0, cooldown0);
      }
    }
    assert chains[..|chains|] == chains && xs[..|xs|] == xs;
  }

  lemma {:induction false} FreeingStart(trace: seq<Event>, sid: nat, xs: seq<Listener>)
    requires HoldsAll(trace, sid, xs)
    ensures Freeing(trace, sid, xs, 0) && OthersKept(trace, trace, xs)
  {}

  lemma {:induction false} NoMore(a: seq<Event>, b: seq<Event>, c: seq<Event>, sid: nat, t: int, now: int)
    requires OthersActed(a, b, sid) && LaterOnly(a, b, t) && FreesOnly(b, c, sid, now) && t <= now
    ensures TakesNoMore(c, |a|, sid, t) && |a| <= |c| && c[..|a|] == a
  {
    assert c[..|a|] == c[..|b|][..|a|];
    forall i | |a| <= i < |c| ensures c[i].time >= t && (c[i].sid == sid ==> c[i].Free?) {
      if i < |b| { assert c[i] == c[..|b|][i]; }
    }
  }

  lemma {:induction false} MovesEarlier(clock: int, clock': int, moves: seq<Move>, now: int)
    requires MovesOk(clock, moves, now) && clock' <= clock
    ensures MovesOk(clock', moves, now)
  {}

  /** A whole recovery: allocate, check, run, release; the last call is the release. A
      completed allocation passes the check and leaves no reservation behind. A failed one
      got stuck after the first `at` events; its completed chains are released all the same,
      but the ports `left` of the failing chain stay reserved. */
  method Recover(table: PortTable, sid: nat, epoch: nat, chains: seq<Chain>, calls: seq<Call>)
    returns (ok: bool, ports: PortMap, ghost served: nat, ghost left: seq<Listener>, ghost at: nat)
    requires table.Valid() && DistinctIds(chains)
    requires |calls| == CallsBefore(chains, |chains|) + 1 && CallsOk(table.clock, calls)
    modifies table
    ensures table.Valid() && Clean(Assigned(chains, ports) + left)
    ensures Freeing(table.trace, sid, Assigned(chains, ports), |Assigned(chains, ports)|)
    ensures HoldsAll(table.trace, sid, left)
    ensures Served(table.dedicated, chains, ports, served) && (ok <==> served == |chains|) && (ok ==> left == [])
    ensures !ok ==> |old(table.trace)| <= at <= |table.trace| && table.trace[..|old(table.trace)|] == old(table.trace)
    ensures !ok ==> StuckAt(table.dedicated, table.trace, at, sid, chains, calls, left, served)
  {
    hide TableOk; hide Freeing; hide Released; hide Session; hide Assigned; hide Clean; hide OthersActed;
    hide OthersKept; hide HoldsAll; hide NoTwice; hide Served; hide StuckAt; hide MovesOk; hide CallsOk; hide LaterOnly;
    hide FreesOnly; hide TakesNoMore; hide CallsOf;
    var alloc := new Allocator(sid, epoch);
    var m, last := |calls| - 1, calls[|calls| - 1];
    CallsPart(table.clock, calls, 0, m);
    CallAt(table.clock, calls, m);
    ghost var start := table.clock;
    ok, ports, served, left := AllocateChains(table, alloc, chains, calls[..m]);
    at := |table.trace|;
    ghost var xs, before, stuck := Assigned(chains, ports), table.trace, table.clock;
    SessionClean(table.trace, sid, alloc.used, xs + left);
    if ok {
      assert xs + left == xs;
      var clean := CheckDuplicates(chains, ports);
      assert clean;
    }
    MovesEarlier(Reading(start, calls, m), table.clock, last.moves, last.now);
    Interfere(table, sid, last.moves, last.now);
    TableLegal(table);
    SessionKept(table.dedicated, before, table.trace, sid, alloc.used, xs + left);
    SessionHolds(table.trace, sid, alloc.used, xs, left);
    ghost var trace := table.trace;
    ReleasePorts(table, chains, ports, last.now, sid);
    LeftHeld(trace, table.trace, sid, xs, left);
    NoMore(before, trace, table.trace, sid, stuck, last.now);
    if !ok {
      StuckThere(table.dedicated, before, sid, chains, calls, m, left, served);
      StuckStays(table.dedicated, before, table.trace, sid, chains, calls, left, served);
      LaterPrefix(old(table.trace), before, table.trace, start);
    }
  }

  lemma {:induction false} LaterPrefix(a: seq<Event>, b: seq<Event>, c: seq<Event>, t: int)
    requires LaterOnly(a, b, t) && |b| <= |c| && c[..|b|] == b
    ensures |a| <= |b| && c[..|a|] == a
  {
    assert c[..|a|] == c[..|b|][..|a|];
  }

  /** The release is not one of the chains' calls. */
  lemma {:induction false} StuckThere(dedicated: bool, trace: seq<Event>, sid: nat, chains: seq<Chain>,
          calls: seq<Call>, m: nat, left: seq<Listener>, n: nat)
    requires CallsBefore(chains, |chains|) == m <= |calls|
    requires StuckAt(dedicated, trace, |trace|, sid, chains, calls[..m], left, n)
    ensures n < |chains| && CallsOf(chains, calls, n) == CallsOf(chains, calls[..m], n)
    ensures StuckAt(dedicated, trace, |trace|, sid, chains, calls, left, n)
  {
    hide Stuck; hide TakesNoMore;
    CallsGrow(chains, n + 1, |chains|);
    assert CallsOf(chains, calls, n) == CallsOf(chains, calls[..m], n);
  }

  lemma {:induction false} SessionHolds(trace: seq<Event>, sid: nat, used: set<Listener>, xs: seq<Listener>,
          left: seq<Listener>)
    requires Session(trace, sid, used, xs + left)
    ensures NoTwice(xs + left) && NoTwice(xs) && HoldsAll(trace, sid, xs) && HoldsAll(trace, sid, left)
  {
    hide Owner;
    forall i | 0 <= i < |xs| ensures Owner(trace, xs[i]) == Some(sid) {
      assert (xs + left)[i] == xs[i];
    }
    forall i | 0 <= i < |left| ensures Owner(trace, left[i]) == Some(sid) {
      assert (xs + left)[|xs| + i] == left[i];
    }
    forall i, j | 0 <= i < j < |xs| ensures xs[i] != xs[j] {
      assert (xs + left)[i] != (xs + left)[j];
    }
  }

  lemma {:induction false} LeftHeld(before: seq<Event>, after: seq<Event>, sid: nat, xs: seq<Listener>,
          left: seq<Listener>)
    requires NoTwice(xs + left) && HoldsAll(before, sid, left) && OthersKept(before, after, xs)
    ensures HoldsAll(after, sid, left)
  {
    hide Owner;
    forall i | 0 <= i < |left| ensures Owner(after, left[i]) == Some(sid) {
      forall j | 0 <= j < |xs| ensures xs[j] != left[i] {
        assert (xs + left)[j] != (xs + left)[|xs| + i];
      }
    }
  }
}
