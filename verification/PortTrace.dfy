/** Legal histories of listen-port reservations, independent of how ports are found. */
module PortTrace {
  import opened Wrappers
  import opened PortBands

  const COOLDOWN: int := 30

  /** A listen port on a proxy. */
  type Listener = (Proxy, int)

  datatype Event =
    | Issue(sid: nat, at: Listener, time: int)
    | Free(sid: nat, at: Listener, time: int)

  /** The session that holds a port. */
  function Owner(trace: seq<Event>, p: Listener): Option<nat> {
    if trace == [] then None
    else
      var e := trace[|trace| - 1];
      if e.at != p then Owner(trace[..|trace| - 1], p) else if e.Issue? then Some(e.sid) else None
  }

  /** When a port was last released. */
  function LastFree(trace: seq<Event>, p: Listener): Option<int> {
    if trace == [] then None
    else
      var e := trace[|trace| - 1];
      if e.at == p && e.Free? then Some(e.time) else LastFree(trace[..|trace| - 1], p)
  }

  predicate EverIssued(trace: seq<Event>, p: Listener) {
    exists i :: 0 <= i < |trace| && trace[i].Issue? && trace[i].at == p
  }

  function Clock(trace: seq<Event>): int {
    if trace == [] then 0 else trace[|trace| - 1].time
  }

  /** A port goes out only while nobody holds it, after its cooldown, and on a
      dedicated host only once; it comes back only from the session that holds it. */
  ghost predicate LegalEvent(dedicated: bool, before: seq<Event>, e: Event) {
    && (before != [] ==> Clock(before) <= e.time)
    && match e
       case Issue(sid, p, time) =>
         && Owner(before, p) == None
         && (LastFree(before, p).Some? ==> LastFree(before, p).value + COOLDOWN <= time)
         && (dedicated ==> !EverIssued(before, p))
         && 20000 <= p.1 <= 31999
       case Free(sid, p, time) => Owner(before, p) == Some(sid)
  }

  ghost predicate Legal(dedicated: bool, trace: seq<Event>) {
    forall i :: 0 <= i < |trace| ==> LegalEvent(dedicated, trace[..i], trace[i])
  }

  lemma {:induction false} LegalStep(dedicated: bool, trace: seq<Event>, e: Event)
    requires Legal(dedicated, trace) && LegalEvent(dedicated, trace, e)
    ensures Legal(dedicated, trace + [e])
  {
    hide LegalEvent;
    forall i | 0 <= i < |trace| + 1 ensures LegalEvent(dedicated, (trace + [e])[..i], (trace + [e])[i]) {
      assert (trace + [e])[..i] == trace[..i];
      assert trace[..|trace|] == trace;
    }
  }

  lemma {:induction false} OwnerStep(trace: seq<Event>, e: Event, p: Listener)
    ensures Owner(trace + [e], p) == if e.at != p then Owner(trace, p) else if e.Issue? then Some(e.sid) else None
    ensures LastFree(trace + [e], p) == if e.at == p && e.Free? then Some(e.time) else LastFree(trace, p)
    ensures EverIssued(trace + [e], p) <==> EverIssued(trace, p) || (e.Issue? && e.at == p)
  {
    assert (trace + [e])[..|trace|] == trace;
    if EverIssued(trace, p) {
      var i :| 0 <= i < |trace| && trace[i].Issue? && trace[i].at == p;
      assert (trace + [e])[i].Issue? && (trace + [e])[i].at == p;
    }
    if e.Issue? && e.at == p { assert (trace + [e])[|trace|].Issue? && (trace + [e])[|trace|].at == p; }
  }

  // ------------------------------------------------------------------
  // What legality means over a whole history.

  lemma {:induction false} LegalPrefix(dedicated: bool, trace: seq<Event>, n: nat)
    requires Legal(dedicated, trace) && n <= |trace|
    ensures Legal(dedicated, trace[..n])
  {
    hide LegalEvent;
    forall i | 0 <= i < n ensures LegalEvent(dedicated, trace[..n][..i], trace[..n][i]) {
      assert trace[..n][..i] == trace[..i];
    }
  }

  /** A port that is held or was released was issued. */
  lemma {:induction false} IssuedOnce(dedicated: bool, trace: seq<Event>, p: Listener)
    requires Legal(dedicated, trace) && (Owner(trace, p).Some? || LastFree(trace, p).Some?)
    ensures EverIssued(trace, p)
  {
    hide EverIssued;
    var n := |trace| - 1;
    var e, rest := trace[n], trace[..n];
    assert trace == rest + [e];
    OwnerStep(rest, e, p);
    assert LegalEvent(dedicated, rest, e);
    if !(e.Issue? && e.at == p) {
      LegalPrefix(dedicated, trace, n);
      IssuedOnce(dedicated, rest, p);
    }
  }

  lemma {:induction false} TimesGrow(dedicated: bool, trace: seq<Event>, i: nat, j: nat)
    requires Legal(dedicated, trace) && i <= j < |trace|
    ensures trace[i].time <= trace[j].time
  {
    if i < j {
      TimesGrow(dedicated, trace, i, j - 1);
      assert LegalEvent(dedicated, trace[..j], trace[j]);
    }
  }

  lemma {:induction false} LastFreeBound(dedicated: bool, trace: seq<Event>, f: nat)
    requires Legal(dedicated, trace) && f < |trace| && trace[f].Free?
    ensures LastFree(trace, trace[f].at).Some? && LastFree(trace, trace[f].at).value >= trace[f].time
  {
    hide Legal;
    var n := |trace| - 1;
    if trace[n].at == trace[f].at && trace[n].Free? {
      TimesGrow(dedicated, trace, f, n);
    } else {
      LegalPrefix(dedicated, trace, n);
      LastFreeBound(dedicated, trace[..n], f);
    }
  }

  /** From m on, the first event on a held port is its release by the holder. */
  lemma {:induction false} LegalAt(dedicated: bool, trace: seq<Event>, m: nat)
    requires Legal(dedicated, trace) && m < |trace|
    ensures LegalEvent(dedicated, trace[..m], trace[m])
  {}

  /** The only event on a held port is its owner's release. */
  lemma {:induction false} OwnerFrees(dedicated: bool, before: seq<Event>, e: Event, sid: nat)
    requires LegalEvent(dedicated, before, e) && Owner(before, e.at) == Some(sid)
    ensures e.Free? && e.sid == sid
  {}

  lemma {:induction false} FreedAfter(dedicated: bool, trace: seq<Event>, m: nat, j: nat, p: Listener, sid: nat)
    returns (f: nat)
    requires Legal(dedicated, trace) && m <= j <= |trace| && Owner(trace[..m], p) == Some(sid)
    requires Owner(trace[..j], p) != Some(sid)
    ensures m <= f < j && trace[f].Free? && trace[f].at == p && trace[f].sid == sid
    decreases j - m
  {
    hide Legal; hide Owner;
    LegalAt(dedicated, trace, m);
    if trace[m].at == p {
      OwnerFrees(dedicated, trace[..m], trace[m], sid);
      f := m;
    } else {
      assert trace[..m + 1] == trace[..m] + [trace[m]];
      OwnerStep(trace[..m], trace[m], p);
      f := FreedAfter(dedicated, trace, m + 1, j, p, sid);
    }
  }

  /** Between two issues of the same port its holder released it, a cooldown before
      the second; on a dedicated host there is no second. */
  lemma {:induction false} ReleasedBetween(dedicated: bool, trace: seq<Event>, i: nat, j: nat) returns (f: nat)
    requires Legal(dedicated, trace) && i < j < |trace|
    requires trace[i].Issue? && trace[j].Issue? && trace[i].at == trace[j].at
    ensures i < f < j && trace[f].Free? && trace[f].at == trace[j].at && trace[f].sid == trace[i].sid && !dedicated
    ensures trace[f].time + 30 <= trace[j].time
  {
    var p := trace[j].at;
    assert LegalEvent(dedicated, trace[..j], trace[j]);
    assert trace[..i + 1] == trace[..i] + [trace[i]];
    OwnerStep(trace[..i], trace[i], p);
    f := FreedAfter(dedicated, trace, i + 1, j, p, trace[i].sid);
    LegalPrefix(dedicated, trace, j);
    LastFreeBound(dedicated, trace[..j], f);
    assert trace[..j][i].Issue? && trace[..j][i].at == p;
  }

  /** Other sessions cannot take a port away: it stays with its holder until the
      holder releases it. */
  lemma {:induction false} HeldUntilFreed(dedicated: bool, trace: seq<Event>, m: nat, p: Listener, sid: nat)
    requires Legal(dedicated, trace) && m <= |trace| && Owner(trace[..m], p) == Some(sid)
    requires forall f :: m <= f < |trace| && trace[f].Free? && trace[f].sid == sid ==> trace[f].at != p
    ensures Owner(trace, p) == Some(sid)
  {
    assert trace[..|trace|] == trace;
    if Owner(trace, p) != Some(sid) {
      var f := FreedAfter(dedicated, trace, m, |trace|, p, sid);
    }
  }
}
