/** The shared timeline that paces transfers of one node
(project/include/link_bandwidth.h). Times are in seconds. */
module BandwidthLimiter {

  /** Bytes per second. */
  function Rate(mbps: real): real { mbps * 1024.0 * 1024.0 }

  /** node_block_transfer_seconds. */
  function TransferSeconds(n: nat, mbps: real): (r: real)
    ensures mbps > 0.0 ==> r >= 0.0 && r * Rate(mbps) == n as real
    ensures mbps <= 0.0 || n == 0 ==> r == 0.0
  {
    if mbps <= 0.0 || n == 0 then 0.0
    else
      DivTimes(n as real, Rate(mbps));
      n as real / Rate(mbps)
  }

  lemma {:induction false} DivTimes(a: real, b: real)
    requires b > 0.0 && a >= 0.0
    ensures a / b >= 0.0 && a / b * b == a
  {}

  /** A megabyte is 1048576 bytes. */
  lemma {:induction false} TransferIs(n: nat, mbps: real)
    requires mbps > 0.0
    ensures TransferSeconds(n, mbps) * (mbps * 1048576.0) == n as real
  {
    assert Rate(mbps) == mbps * 1048576.0;
  }

  /** A reserved piece of the timeline. */
  datatype Slot = Slot(start: real, end: real, bytes: nat, asked: real)

  /** Slots follow one another, none starts before it was asked for, and each lasts as
      long as its bytes take. */
  ghost predicate Paced(mbps: real, slots: seq<Slot>) {
    && (forall i :: 0 <= i < |slots| ==> slots[i].asked <= slots[i].start <= slots[i].end)
    && (forall i :: 0 <= i < |slots| ==> slots[i].end - slots[i].start == TransferSeconds(slots[i].bytes, mbps))
    && (forall i, j :: 0 <= i < j < |slots| ==> slots[i].end <= slots[j].start)
  }

  function Bytes(slots: seq<Slot>, i: nat, j: nat): nat
    requires i <= j <= |slots|
  {
    if i == j then 0 else Bytes(slots, i, j - 1) + slots[j - 1].bytes
  }

  lemma {:induction false} Scaled(a: real, b: real, c: real)
    requires a <= b && c >= 0.0
    ensures a * c <= b * c
  {}

  /** Bytes that fit between two moments. */
  function Room(mbps: real, from: real, to: real): real { (to - from) * Rate(mbps) }

  lemma {:induction false} RoomAdds(mbps: real, a: real, b: real, c: real)
    ensures Room(mbps, a, c) == Room(mbps, a, b) + Room(mbps, b, c) && Room(mbps, a, a) == 0.0
  {}

  lemma {:induction false} RoomGrows(mbps: real, a: real, b: real, a': real, b': real)
    requires mbps > 0.0 && a' <= a && b <= b'
    ensures Room(mbps, a, b) <= Room(mbps, a', b')
  {
    Scaled(b - a, b' - a', Rate(mbps));
  }

  lemma {:induction false} SlotRoom(mbps: real, slots: seq<Slot>, j: nat)
    requires mbps > 0.0 && Paced(mbps, slots) && 0 < j < |slots|
    ensures slots[j - 1].bytes as real <= Room(mbps, slots[j - 1].start, slots[j].start)
  {
    hide Rate; hide TransferSeconds;
    var a := slots[j - 1];
    assert TransferSeconds(a.bytes, mbps) * Rate(mbps) == a.bytes as real;
    assert Room(mbps, a.start, a.end) == (a.end - a.start) * Rate(mbps);
    RoomGrows(mbps, a.start, a.end, a.start, slots[j].start);
  }

  /** The slots from i up to j fit between their starts at the given rate. */
  lemma {:induction false} BytesBetween(mbps: real, slots: seq<Slot>, i: nat, j: nat)
    requires mbps > 0.0 && Paced(mbps, slots) && i <= j < |slots|
    ensures Bytes(slots, i, j) as real <= Room(mbps, slots[i].start, slots[j].start)
  {
    hide Room; hide Paced;
    if i == j {
      RoomAdds(mbps, slots[i].start, slots[i].start, slots[i].start);
    } else {
      BytesBetween(mbps, slots, i, j - 1);
      SlotRoom(mbps, slots, j);
      RoomAdds(mbps, slots[i].start, slots[j - 1].start, slots[j].start);
    }
  }

  lemma {:induction false} WindowRoom(mbps: real, slots: seq<Slot>, i: nat, j: nat, from: real, to: real)
    requires mbps > 0.0 && Paced(mbps, slots) && i <= j < |slots| && from <= slots[i].start && slots[j].start <= to
    ensures Bytes(slots, i, j + 1) as real <= Room(mbps, from, to) + slots[j].bytes as real
  {
    hide Room; hide Paced;
    BytesBetween(mbps, slots, i, j);
    RoomGrows(mbps, slots[i].start, slots[j].start, from, to);
    assert Bytes(slots, i, j + 1) == Bytes(slots, i, j) + slots[j].bytes;
  }

  lemma {:induction false} RoomIs(mbps: real, from: real, to: real)
    ensures Room(mbps, from, to) == (to - from) * (mbps * 1048576.0)
  {
    assert Rate(mbps) == mbps * 1048576.0;
  }

  /** Bytes admitted in any window are at most bandwidth times window, plus one transfer. */
  lemma {:induction false} WindowBound(mbps: real, slots: seq<Slot>, i: nat, j: nat, from: real, to: real)
    requires mbps > 0.0 && Paced(mbps, slots) && i <= j < |slots| && from <= slots[i].start && slots[j].start <= to
    ensures Bytes(slots, i, j + 1) as real <= (to - from) * (mbps * 1048576.0) + slots[j].bytes as real
  {
    hide Room; hide Paced; hide Bytes;
    WindowRoom(mbps, slots, i, j, from, to);
    RoomIs(mbps, from, to);
  }

  function Later(a: real, b: real): real { if a < b then b else a }

  const SNAP: real := 30.0

  class SharedLimiter {
    const mbps: real
    var nextSlot: real
    /** Reservations since the timeline was last set back to the present. */
    ghost var slots: seq<Slot>

    ghost predicate Valid()
      reads this
    {
      Paced(mbps, slots) && (slots != [] ==> slots[|slots| - 1].end == nextSlot)
    }

    constructor (mbps: real, now: real)
      ensures Valid() && this.mbps == mbps && slots == []
    {
      this.mbps, nextSlot, slots := mbps, now, [];
    }

    method Reset(now: real)
      modifies this
      ensures Valid() && slots == [] && nextSlot == now
    {
      nextSlot, slots := now, [];
    }

    /** Reserves the next slot for n bytes. Only a timeline more than 30 s ahead is
        set back, and then earlier reservations are forgotten. */
    method Reserve(n: nat, now: real) returns (start: real)
      requires Valid() && mbps > 0.0
      modifies this
      ensures Valid() && start >= now && nextSlot == start + TransferSeconds(n, mbps)
      ensures old(nextSlot) <= now + 30.0 ==> slots == old(slots) + [Slot(start, nextSlot, n, now)]
      ensures old(nextSlot) > now + 30.0 ==> slots == [Slot(start, nextSlot, n, now)]
      ensures start == if now < old(nextSlot) <= now + 30.0 then old(nextSlot) else now
    {
      if nextSlot > now + SNAP {
        nextSlot, slots := now, [];
      }
      start := if nextSlot > now then nextSlot else now;
      nextSlot := start + TransferSeconds(n, mbps);
      slots := slots + [Slot(start, nextSlot, n, now)];
    }

    /** wait_for_transfer: returns when the transfer may start. `later` is the second
        reading of the clock. */
    method WaitForTransfer(n: nat, now: real, later: real) returns (go: real)
      requires Valid() && now <= later
      modifies this
      ensures Valid() && go >= later
      ensures mbps <= 0.0 || n == 0 ==> go == later && slots == old(slots) && nextSlot == old(nextSlot)
      ensures mbps > 0.0 && n > 0 ==> |slots| >= 1 && slots[|slots| - 1].bytes == n && slots[|slots| - 1].asked == now
      ensures mbps > 0.0 && n > 0 ==> go == Later(later, slots[|slots| - 1].start)
      ensures mbps > 0.0 && n > 0 && old(nextSlot) <= now + 30.0 ==>
        |slots| == |old(slots)| + 1 && slots[..|old(slots)|] == old(slots)
    {
      go := later;
      if mbps <= 0.0 || n == 0 { return; }
      var start := Reserve(n, now);
      if start > later { go := start; }
    }

    /** account_after_io: a read that took `io` seconds and ended now joins the
        timeline; returns when the reader may go on. */
    method AccountAfterIo(n: nat, io: real, now: real) returns (go: real)
      requires Valid()
      modifies this
      ensures Valid() && go >= now
      ensures mbps <= 0.0 || n == 0 ==> go == now && slots == old(slots) && nextSlot == old(nextSlot)
      ensures mbps > 0.0 && n > 0 ==> |slots| >= 1 && slots[|slots| - 1].bytes == n && slots[|slots| - 1].asked == now
      ensures mbps > 0.0 && n > 0 ==> go == Later(now, slots[|slots| - 1].end - Credit(n, io, mbps))
      ensures mbps > 0.0 && n > 0 && old(nextSlot) <= now + 30.0 ==>
        |slots| == |old(slots)| + 1 && slots[..|old(slots)|] == old(slots)
      ensures mbps > 0.0 && n > 0 && old(nextSlot) <= now && io >= 0.0 ==>
        go - (now - io) == if io < TransferSeconds(n, mbps) then TransferSeconds(n, mbps) else io
    {
      hide TransferSeconds; hide Rate; hide Paced;
      go := now;
      if mbps <= 0.0 || n == 0 { return; }
      var start := Reserve(n, now);
      var sleep := nextSlot - now - Credit(n, io, mbps);
      if sleep > 0.0 { go := now + sleep; }
    }
  }

  /** Time already spent reading, at most what the bytes take. */
  function Credit(n: nat, io: real, mbps: real): (r: real)
    ensures r == TransferSeconds(n, mbps) || r == Later(0.0, io)
    ensures r <= TransferSeconds(n, mbps) && r <= Later(0.0, io)
  {
    var ideal := TransferSeconds(n, mbps);
    var spent := if io < 0.0 then 0.0 else io;
    if spent < ideal then spent else ideal
  }
}
