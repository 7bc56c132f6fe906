/** The pipeline listen-port allocator (project/src/coordinator.cpp): reservations
shared by all recoveries, and the ports one recovery has taken. */
module PortAllocator {
  import opened Wrappers
  import opened PortBands
  import opened PortTrace

  type Cooling = map<Listener, int>

  /** The shared reservations match the history. Cooldowns may be forgotten once over. */
  ghost predicate TableOk(dedicated: bool, inflight: set<Listener>, cooldown: Cooling, clock: int, trace: seq<Event>) {
    && Legal(dedicated, trace) && (trace != [] ==> Clock(trace) <= clock)
    && (forall p :: p in inflight <==> if dedicated then EverIssued(trace, p) else Owner(trace, p).Some?)
    && (forall p :: LastFree(trace, p).Some? && !dedicated ==>
      Cools(cooldown, clock, p, LastFree(trace, p).value + COOLDOWN))
    && forall p :: p in cooldown ==>
      !dedicated && LastFree(trace, p).Some? && cooldown[p] == LastFree(trace, p).value + COOLDOWN
  }

  /** The port is known to cool until then, or that time has passed. */
  ghost predicate Cools(cooldown: Cooling, clock: int, p: Listener, until: int) {
    (p in cooldown && cooldown[p] == until) || until <= clock
  }

  /** Only cooldowns that are over by `now` are gone. */
  ghost predicate Forgot(cooldown: Cooling, cooldown': Cooling, now: int) {
    forall p :: (p in cooldown' ==> p in cooldown && cooldown'[p] == cooldown[p]) &&
      (p in cooldown && p !in cooldown' ==> cooldown[p] <= now)
  }

  predicate Blocked(inflight: set<Listener>, cooldown: Cooling, used: set<Listener>, bindable: set<int>, now: int,
          p: Listener)
  {
    p in inflight || (p in cooldown && cooldown[p] > now) || p.1 !in bindable || p in used
  }

  /** By its history p cannot be handed out at `now`: it is held, was issued on a dedicated
      host, was released less than a cooldown ago, or cannot be bound. */
  ghost predicate Unavailable(dedicated: bool, trace: seq<Event>, bindable: set<int>, now: int, p: Listener) {
    || Owner(trace, p).Some? || (dedicated && EverIssued(trace, p))
    || (LastFree(trace, p).Some? && LastFree(trace, p).value + 30 > now) || p.1 !in bindable
  }

  /** No slot of the half asked for can be handed out, or the proxy has no band. */
  ghost predicate Starved(dedicated: bool, trace: seq<Event>, bindable: set<int>, now: int, proxy: Proxy, hub: bool) {
    var index := ProxyIndex(dedicated, proxy.port);
    index == -1 || forall k :: 0 <= k < Half(dedicated) ==>
      Unavailable(dedicated, trace, bindable, now, (proxy, SlotPort(dedicated, index, hub, k)))
  }

  /** The table blocks exactly what the history rules out. */
  lemma {:induction false} BlockedIff(dedicated: bool, inflight: set<Listener>, cooldown: Cooling, clock: int,
          trace: seq<Event>, used: set<Listener>, bindable: set<int>, now: int, p: Listener)
    requires TableOk(dedicated, inflight, cooldown, clock, trace) && clock <= now
    requires p in used ==> Owner(trace, p).Some?
    ensures Blocked(inflight, cooldown, used, bindable, now, p) <==> Unavailable(dedicated, trace, bindable, now, p)
  {
    hide Legal; hide EverIssued;
    if dedicated && (Owner(trace, p).Some? || LastFree(trace, p).Some?) { IssuedOnce(dedicated, trace, p); }
    hide Owner; hide LastFree;
  }

  lemma {:induction false} StarvedIff(dedicated: bool, inflight: set<Listener>, cooldown: Cooling, clock: int,
          trace: seq<Event>, used: set<Listener>, bindable: set<int>, now: int, proxy: Proxy, hub: bool)
    requires TableOk(dedicated, inflight, cooldown, clock, trace) && clock <= now
    requires forall p :: p in used ==> Owner(trace, p).Some?
    ensures AllBlocked(dedicated, inflight, cooldown, used, bindable, now, proxy, hub) <==>
      Starved(dedicated, trace, bindable, now, proxy, hub)
  {
    hide TableOk; hide Blocked; hide Unavailable; hide SlotPort; hide Owner;
    var index := ProxyIndex(dedicated, proxy.port);
    forall k | 0 <= k < Half(dedicated)
      ensures var p := (proxy, SlotPort(dedicated, index, hub, k));
        Blocked(inflight, cooldown, used, bindable, now, p) <==> Unavailable(dedicated, trace, bindable, now, p)
    {
      BlockedIff(dedicated, inflight, cooldown, clock, trace, used, bindable, now,
        (proxy, SlotPort(dedicated, index, hub, k)));
    }
  }

  /** Before anything was issued only proxies off the grid and unbindable halves starve. */
  lemma {:induction false} FreshServes(dedicated: bool, bindable: set<int>, now: int, proxy: Proxy, hub: bool)
    ensures Starved(dedicated, [], bindable, now, proxy, hub) <==>
      var index := ProxyIndex(dedicated, proxy.port);
      index == -1 || forall k :: 0 <= k < Half(dedicated) ==> SlotPort(dedicated, index, hub, k) !in bindable
  {
    hide SlotPort; hide ProxyIndex;
    var index := ProxyIndex(dedicated, proxy.port);
    forall k | 0 <= k < Half(dedicated)
      ensures Unavailable(dedicated, [], bindable, now, (proxy, SlotPort(dedicated, index, hub, k))) <==>
        SlotPort(dedicated, index, hub, k) !in bindable
    {}
  }

  /** Handing out a port that is neither reserved nor cooling is legal. */
  lemma {:induction false} IssueLegal(dedicated: bool, inflight: set<Listener>, cooldown: Cooling, clock: int,
          trace: seq<Event>, sid: nat, p: Listener, now: int)
    requires TableOk(dedicated, inflight, cooldown, clock, trace) && clock <= now
    requires p !in inflight && (p in cooldown ==> cooldown[p] <= now) && 20000 <= p.1 <= 31999
    ensures LegalEvent(dedicated, trace, Issue(sid, p, now))
  {
    hide Legal; hide EverIssued;
    if dedicated && (Owner(trace, p).Some? || LastFree(trace, p).Some?) { IssuedOnce(dedicated, trace, p); }
  }

  lemma {:induction false} IssueOk(dedicated: bool, inflight: set<Listener>, cooldown: Cooling, trace: seq<Event>,
          sid: nat, p: Listener, now: int)
    requires TableOk(dedicated, inflight, cooldown, now, trace)
    requires p !in inflight && (p in cooldown ==> cooldown[p] <= now) && 20000 <= p.1 <= 31999
    ensures TableOk(dedicated, inflight + {p}, cooldown, now, trace + [Issue(sid, p, now)])
  {
    hide Legal; hide Owner; hide LastFree; hide EverIssued; hide LegalEvent;
    var e := Issue(sid, p, now);
    IssueLegal(dedicated, inflight, cooldown, now, trace, sid, p, now);
    LegalStep(dedicated, trace, e);
    var after := trace + [e];
    assert Clock(after) == now;
    forall q ensures Owner(after, q) == (if q == p then Some(sid) else Owner(trace, q)) { OwnerStep(trace, e, q); }
    forall q ensures LastFree(after, q) == LastFree(trace, q) { OwnerStep(trace, e, q); }
    forall q ensures EverIssued(after, q) <==> EverIssued(trace, q) || q == p { OwnerStep(trace, e, q); }
  }

  /** Probing alone forgets only cooldowns that are over. */
  lemma {:induction false} ForgotOk(dedicated: bool, inflight: set<Listener>, cooldown: Cooling, cooldown': Cooling,
          clock: int, trace: seq<Event>, now: int)
    requires TableOk(dedicated, inflight, cooldown, clock, trace) && clock <= now && Forgot(cooldown, cooldown', now)
    ensures TableOk(dedicated, inflight, cooldown', now, trace)
  {
    hide Legal; hide Owner; hide LastFree; hide EverIssued;
  }

  lemma {:induction false} FreeOk(dedicated: bool, inflight: set<Listener>, cooldown: Cooling, clock: int,
          trace: seq<Event>, sid: nat, p: Listener, now: int)
    requires TableOk(dedicated, inflight, cooldown, clock, trace) && clock <= now && Owner(trace, p) == Some(sid)
    ensures dedicated ==> TableOk(dedicated, inflight, cooldown, now, trace + [Free(sid, p, now)])
    ensures !dedicated ==>
      TableOk(dedicated, inflight - {p}, cooldown[p := now + COOLDOWN], now, trace + [Free(sid, p, now)])
  {
    var e := Free(sid, p, now);
    LegalStep(dedicated, trace, e);
    hide Legal; hide Owner; hide LastFree; hide EverIssued; hide LegalEvent;
    var after := trace + [e];
    assert Clock(after) == now;
    forall q ensures Owner(after, q) == (if q == p then None else Owner(trace, q)) { OwnerStep(trace, e, q); }
    forall q
      ensures LastFree(after, q) == (if q == p then Some(now) else LastFree(trace, q)) { OwnerStep(trace, e, q); }
    forall q ensures EverIssued(after, q) <==> EverIssued(trace, q) { OwnerStep(trace, e, q); }
    hide Clock;
  }

  lemma {:induction false} ForgotNothing(cooldown: Cooling, now: int)
    ensures Forgot(cooldown, cooldown, now)
  {}

  lemma {:induction false} ForgotOne(cooldown: Cooling, now: int, p: Listener)
    requires p in cooldown && cooldown[p] <= now
    ensures Forgot(cooldown, cooldown - {p}, now)
  {}

  lemma {:induction false} ForgotMore(a: Cooling, b: Cooling, c: Cooling, now: int)
    requires Forgot(a, b, now) && Forgot(b, c, now)
    ensures Forgot(a, c, now)
  {}

  /** Forgetting does not change what is blocked. */
  lemma {:induction false} ForgotBlocked(inflight: set<Listener>, a: Cooling, b: Cooling, used: set<Listener>,
          bindable: set<int>, now: int, p: Listener)
    requires Forgot(a, b, now)
    ensures Blocked(inflight, a, used, bindable, now, p) <==> Blocked(inflight, b, used, bindable, now, p)
  {}

  // ------------------------------------------------------------------
  // The allocator.

  /** Reservations and cursors, shared by all recoveries under one lock. */
  class PortTable {
    const dedicated: bool
    var inflight: set<Listener>
    var cooldown: Cooling
    var hopCursor: map<Proxy, nat>
    var hubCursor: map<Proxy, nat>
    var clock: int
    ghost var trace: seq<Event>

    ghost predicate Valid()
      reads this
    {
      TableOk(dedicated, inflight, cooldown, clock, trace)
    }

    constructor (dedicated: bool)
      ensures Valid() && this.dedicated == dedicated && inflight == {} && trace == []
    {
      this.dedicated := dedicated;
      inflight, cooldown, hopCursor, hubCursor, clock, trace := {}, map[], map[], map[], 0, [];
    }

    function Cursor(proxy: Proxy, hub: bool): nat
      reads this
    {
      var cursors := if hub then hubCursor else hopCursor;
      if proxy in cursors then cursors[proxy] else 0
    }

    /** Can p be handed out now? Drops its cooldown if that is over. */
    method Available(p: Listener, now: int, bindable: set<int>, used: set<Listener>) returns (ok: bool)
      requires Valid() && clock == now
      modifies this`cooldown
      ensures Valid() && Forgot(old(cooldown), cooldown, now)
      ensures ok <==> !Blocked(inflight, old(cooldown), used, bindable, now, p)
    {
      hide TableOk;
      ForgotNothing(cooldown, now);
      if p in inflight { return false; }
      if p in cooldown {
        if cooldown[p] > now { return false; }
        ForgotOne(cooldown, now, p);
        ForgotOk(dedicated, inflight, cooldown, cooldown - {p}, clock, trace, now);
        cooldown := cooldown - {p};
      }
      if p.1 !in bindable { return false; }
      ok := p !in used;
    }

    /** Releases one port: it cools down, unless the host is dedicated, where it stays
        reserved. */
    method FreeOne(ghost sid: nat, p: Listener, now: int)
      requires Valid() && clock <= now && Owner(trace, p) == Some(sid)
      modifies this`inflight, this`cooldown, this`clock, this`trace
      ensures Valid() && clock == now && trace == old(trace) + [Free(sid, p, now)]
      ensures inflight == if dedicated then old(inflight) else old(inflight) - {p}
      ensures cooldown == if dedicated then old(cooldown) else old(cooldown)[p := now + 30]
    {
      hide TableOk; hide Owner;
      FreeOk(dedicated, inflight, cooldown, clock, trace, sid, p, now);
      clock, trace := now, trace + [Free(sid, p, now)];
      if !dedicated {
        inflight := inflight - {p};
        cooldown := cooldown[p := now + COOLDOWN];
      }
    }

    method SetCursor(proxy: Proxy, hub: bool, n: nat)
      modifies this`hopCursor, this`hubCursor
      ensures Cursor(proxy, hub) == n
      ensures forall q, h :: (q, h) != (proxy, hub) ==> Cursor(q, h) == old(Cursor(q, h))
    {
      if hub { hubCursor := hubCursor[proxy := n]; } else { hopCursor := hopCursor[proxy := n]; }
    }
  }

  /** The slot probed at an attempt. */
  function Probe(start: nat, attempt: nat, half: nat): nat
    requires half >= 1
  {
    (start + attempt) % half
  }

  /** The port is the first free one from slot `start` on, found at this attempt. */
  ghost predicate Found(dedicated: bool, inflight: set<Listener>, cooldown: Cooling, used: set<Listener>,
          bindable: set<int>, now: int, proxy: Proxy, hub: bool, start: nat, attempt: nat, port: int)
  {
    var index, half := ProxyIndex(dedicated, proxy.port), Half(dedicated);
    && attempt < half && port == SlotPort(dedicated, index, hub, (start + attempt) % half)
    && Tried(dedicated, inflight, cooldown, used, bindable, now, proxy, hub, start, attempt)
  }

  lemma {:induction false} FoundNow(dedicated: bool, inflight: set<Listener>, cooldown: Cooling, used: set<Listener>,
          bindable: set<int>, now: int, proxy: Proxy, hub: bool, start: nat, attempt: nat)
    requires Tried(dedicated, inflight, cooldown, used, bindable, now, proxy, hub, start, attempt)
    requires attempt < Half(dedicated)
    ensures Found(dedicated, inflight, cooldown, used, bindable, now, proxy, hub, start, attempt,
      ProbePort(dedicated, proxy, hub, start, attempt))
  {
    hide Blocked; hide SlotPort; hide ProxyIndex; hide Tried;
  }

  /** The ports one recovery has taken. */
  class Allocator {
    const sid: nat
    const epoch: nat
    var used: set<Listener>

    constructor (sid: nat, epoch: nat)
      ensures this.sid == sid && this.epoch == epoch && used == {}
    {
      this.sid, this.epoch, used := sid, epoch, {};
    }

    /** Reserves a free port for this recovery and moves the cursor past it. */
    method Take(table: PortTable, proxy: Proxy, hub: bool, port: int, now: int, attempt: nat)
      requires table.Valid() && table.clock == now && 20000 <= port <= 31999
      requires (proxy, port) !in table.inflight
      requires (proxy, port) in table.cooldown ==> table.cooldown[(proxy, port)] <= now
      modifies this`used, table
      ensures table.Valid() && table.clock == now && table.inflight == old(table.inflight) + {(proxy, port)}
      ensures used == old(used) + {(proxy, port)} && table.trace == old(table.trace) + [Issue(sid, (proxy, port), now)]
      ensures table.Cursor(proxy, hub) == (old(table.Cursor(proxy, hub)) + attempt + 1) % Half(table.dedicated)
    {
      hide TableOk;
      IssueOk(table.dedicated, table.inflight, table.cooldown, table.trace, sid, (proxy, port), now);
      used := used + {(proxy, port)};
      table.inflight := table.inflight + {(proxy, port)};
      table.trace := table.trace + [Issue(sid, (proxy, port), now)];
      table.SetCursor(proxy, hub, (table.Cursor(proxy, hub) + attempt + 1) % Half(table.dedicated));
    }

    /** Reserves a port of one half of the proxy's band, or returns -1 when every
        slot is reserved, cooling, not bindable or already taken by this recovery. */
    method Allocate(table: PortTable, proxy: Proxy, hub: bool, chain: nat, hop: nat, now: int, bindable: set<int>)
      returns (port: int, ghost tries: nat)
      requires table.Valid() && table.clock <= now
      modifies this`used, table
      ensures table.Valid() && table.clock == now
      ensures port == -1 ==>
        used == old(used) && table.inflight == old(table.inflight) && table.trace == old(table.trace)
      ensures port != -1 ==> var p := (proxy, port);
        && !Blocked(old(table.inflight), old(table.cooldown), old(used), bindable, now, p)
        && p !in old(used) && used == old(used) + {p} && p !in old(table.inflight) &&
          table.inflight == old(table.inflight) + {p}
        && table.trace == old(table.trace) + [Issue(sid, p, now)]
      ensures port != -1 ==>
        ProxyIndex(table.dedicated, proxy.port) >= 0 &&
        InHalf(table.dedicated, ProxyIndex(table.dedicated, proxy.port), hub, port)
      ensures port != -1 ==>
        && Found(table.dedicated, old(table.inflight), old(table.cooldown), old(used), bindable, now, proxy, hub,
          epoch * 31 + chain * 17 + hop * 11 + old(table.Cursor(proxy, hub)), tries, port)
        && table.Cursor(proxy, hub) == (old(table.Cursor(proxy, hub)) + tries + 1) % Half(table.dedicated)
      ensures port == -1 <==>
        AllBlocked(table.dedicated, old(table.inflight), old(table.cooldown), old(used), bindable, now, proxy, hub)
    {
      hide TableOk; hide Blocked; hide Forgot; hide InHalf; hide SlotPort; hide Probe; hide Half; hide ProxyIndex;
      hide AllBlocked; hide Found;
      tries := 0;
      IndexFacts(table.dedicated, proxy.port);
      var index, half := ProxyIndex(table.dedicated, proxy.port), Half(table.dedicated);
      ForgotNothing(table.cooldown, now);
      ForgotOk(table.dedicated, table.inflight, table.cooldown, table.cooldown, table.clock, table.trace, now);
      table.clock := now;
      if index < 0 {
        NoIndex(table.dedicated, table.inflight, table.cooldown, used, bindable, now, proxy, hub);
        return -1, 0;
      }
      var start := epoch * 31 + chain * 17 + hop * 11 + table.Cursor(proxy, hub);
      for attempt := 0 to half
        invariant used == old(used) && table.inflight == old(table.inflight) && table.trace == old(table.trace)
        invariant table.clock == now && table.Cursor(proxy, hub) == old(table.Cursor(proxy, hub))
        invariant table.Valid() && Forgot(old(table.cooldown), table.cooldown, now)
        invariant Tried(table.dedicated, table.inflight, old(table.cooldown), used, bindable, now, proxy, hub, start,
          attempt)
      {
        var inRange;
        port, inRange := Candidate(table.dedicated, proxy, index, hub, start, attempt);
        ghost var before := table.cooldown;
        ForgotBlocked(table.inflight, old(table.cooldown), before, used, bindable, now, (proxy, port));
        TriedStep(table.dedicated, table.inflight, old(table.cooldown), used, bindable, now, proxy, hub, start,
          attempt);
        if inRange {
          var ok := table.Available((proxy, port), now, bindable, used);
          ForgotMore(old(table.cooldown), before, table.cooldown, now);
          if ok {
            FoundNow(table.dedicated, table.inflight, old(table.cooldown), used, bindable, now, proxy, hub, start,
              attempt);
            FreeBlock(table.inflight, before, table.cooldown, used, bindable, now, (proxy, port));
            Take(table, proxy, hub, port, now, attempt);
            return port, attempt;
          }
        }
      }
      TriedAll(table.dedicated, table.inflight, old(table.cooldown), used, bindable, now, proxy, hub, start);
      port := -1;
    }
  }

  lemma {:induction false} IndexFacts(dedicated: bool, grpcPort: int)
    ensures Half(dedicated) >= 1
    ensures ProxyIndex(dedicated, grpcPort) >= 0 ==> IndexOk(dedicated, ProxyIndex(dedicated, grpcPort))
    ensures ProxyIndex(dedicated, grpcPort) < 0 ==> ProxyIndex(dedicated, grpcPort) == -1
  {}

  /** The port probed at an attempt. */
  function ProbePort(dedicated: bool, proxy: Proxy, hub: bool, start: nat, attempt: nat): int {
    SlotPort(dedicated, ProxyIndex(dedicated, proxy.port), hub, Probe(start, attempt, Half(dedicated)))
  }

  /** The candidate of an attempt, and whether it is a port of the band at all. */
  method Candidate(dedicated: bool, proxy: Proxy, index: int, hub: bool, start: nat, attempt: nat)
    returns (port: int, inRange: bool)
    requires index == ProxyIndex(dedicated, proxy.port) >= 0
    ensures inRange && port == ProbePort(dedicated, proxy, hub, start, attempt) && 20000 <= port <= 31999
  {
    hide Probe;
    IndexFacts(dedicated, proxy.port);
    ProbeInHalf(start, attempt, Half(dedicated));
    SlotRange(dedicated, index, hub, Probe(start, attempt, Half(dedicated)));
    var maxPort := EXCHANGE_BASE + (index + 1) * Band(dedicated) - 1;
    port := SlotPort(dedicated, index, hub, Probe(start, attempt, Half(dedicated)));
    if port == 55555 { port := port + 1; }
    inRange := !(port <= 0 || port > 65535 || port > maxPort);
  }

  lemma {:induction false} ProbeInHalf(start: nat, attempt: nat, half: nat)
    requires half >= 1
    ensures Probe(start, attempt, half) < half
  {}

  /** The first n attempts found nothing. */
  ghost predicate Tried(dedicated: bool, inflight: set<Listener>, cooldown: Cooling, used: set<Listener>,
          bindable: set<int>, now: int, proxy: Proxy, hub: bool, start: nat, n: nat)
  {
    forall a :: 0 <= a < n ==>
      Blocked(inflight, cooldown, used, bindable, now, (proxy, ProbePort(dedicated, proxy, hub, start, a)))
  }

  lemma {:induction false} TriedStep(dedicated: bool, inflight: set<Listener>, cooldown: Cooling, used: set<Listener>,
          bindable: set<int>, now: int, proxy: Proxy, hub: bool, start: nat, n: nat)
    requires Tried(dedicated, inflight, cooldown, used, bindable, now, proxy, hub, start, n)
    requires ProxyIndex(dedicated, proxy.port) >= 0
    ensures var port := ProbePort(dedicated, proxy, hub, start, n);
      && InHalf(dedicated, ProxyIndex(dedicated, proxy.port), hub, port)
      && if Blocked(inflight, cooldown, used, bindable, now, (proxy, port))
         then Tried(dedicated, inflight, cooldown, used, bindable, now, proxy, hub, start, n + 1)
         else !AllBlocked(dedicated, inflight, cooldown, used, bindable, now, proxy, hub)
  {
    hide Blocked; hide SlotPort; hide Probe;
    IndexFacts(dedicated, proxy.port);
    ProbeInHalf(start, n, Half(dedicated));
  }

  lemma {:induction false} TriedAll(dedicated: bool, inflight: set<Listener>, cooldown: Cooling, used: set<Listener>,
          bindable: set<int>, now: int, proxy: Proxy, hub: bool, start: nat)
    requires Tried(dedicated, inflight, cooldown, used, bindable, now, proxy, hub, start, Half(dedicated))
    ensures AllBlocked(dedicated, inflight, cooldown, used, bindable, now, proxy, hub)
  {
    hide Blocked; hide SlotPort;
    forall k | 0 <= k < Half(dedicated)
      ensures Blocked(inflight, cooldown, used, bindable, now,
        (proxy, SlotPort(dedicated, ProxyIndex(dedicated, proxy.port), hub, k)))
    {
      var a := ProbeCovers(start, Half(dedicated), k);
      assert Blocked(inflight, cooldown, used, bindable, now, (proxy, ProbePort(dedicated, proxy, hub, start, a)));
    }
  }

  lemma {:induction false} NoIndex(dedicated: bool, inflight: set<Listener>, cooldown: Cooling, used: set<Listener>,
          bindable: set<int>, now: int, proxy: Proxy, hub: bool)
    requires ProxyIndex(dedicated, proxy.port) == -1
    ensures AllBlocked(dedicated, inflight, cooldown, used, bindable, now, proxy, hub)
  {}

  lemma {:induction false} FreeBlock(inflight: set<Listener>, cooldown: Cooling, cooldown': Cooling,
          used: set<Listener>, bindable: set<int>, now: int, p: Listener)
    requires Forgot(cooldown, cooldown', now) && !Blocked(inflight, cooldown, used, bindable, now, p)
    ensures p !in inflight && p !in used && (p in cooldown' ==> cooldown'[p] <= now)
  {}

  /** No slot of the half can be handed out. */
  ghost predicate AllBlocked(dedicated: bool, inflight: set<Listener>, cooldown: Cooling, used: set<Listener>,
          bindable: set<int>, now: int, proxy: Proxy, hub: bool)
  {
    var index := ProxyIndex(dedicated, proxy.port);
    index == -1 || forall k :: 0 <= k < Half(dedicated) ==>
      Blocked(inflight, cooldown, used, bindable, now, (proxy, SlotPort(dedicated, index, hub, k)))
  }
}
