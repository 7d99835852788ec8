/**
 * Version 1 UUIDs, as sections 4.1.4, 4.1.5 and 4.2.1 of RFC 4122 lay them
 * out: a clock that may stand still or go back, a sequence number that is
 * stepped when it does, and the packing of both into sixteen bytes.
 *
 * Times are in units of 100 nanoseconds since 15 October 1582. The time of
 * each call and the random bits of the first sequence number are arguments.
 */
module Uuid {
  import opened Wrappers

  const SEQUENCES: nat := 0x4000
  const VARIANT: nat := 0x8000
  const TIME_LIMIT: nat := 0x1000_0000_0000_0000

  /** The last time given out and the current sequence number; zero until one is chosen. */
  datatype State = State(last: nat, clock: nat)

  datatype Stamp = Stamp(time: nat, clock: nat)

  /** The low fourteen bits under the variant mark. */
  function Marked(n: nat): (clock: nat)
    ensures VARIANT <= clock < VARIANT + SEQUENCES
  {
    n % SEQUENCES + VARIANT
  }

  ghost predicate Chosen(s: State) {
    VARIANT <= s.clock < VARIANT + SEQUENCES
  }

  /** A sequence number is chosen at random when there is none; that forgets the last time. */
  function Ensured(s: State, random: nat): State {
    if s.clock == 0 then State(0, Marked(random)) else s
  }

  predicate Bumps(s: State, now: nat) {
    now <= s.last
  }

  /** The state after a time is given out; the stamp is the same pair. */
  function Step(s: State, now: nat): State {
    State(now, if Bumps(s, now) then Marked(s.clock + 1) else s.clock)
  }

  // ---------------------------------------------------------------- runs

  function Stamps(s: State, times: seq<nat>): (r: seq<Stamp>)
    ensures |r| == |times|
    decreases |times|
  {
    if times == [] then []
    else
      var next := Step(s, times[0]);
      [Stamp(next.last, next.clock)] + Stamps(next, times[1..])
  }

  function CountBumps(s: State, times: seq<nat>): nat
    decreases |times|
  {
    if times == [] then 0
    else (if Bumps(s, times[0]) then 1 else 0) + CountBumps(Step(s, times[0]), times[1..])
  }

  /** A sequence number stepped so many times. */
  function Advanced(clock: nat, steps: nat): nat
    requires clock >= VARIANT
  {
    Marked(clock - VARIANT + steps)
  }

  lemma AdvanceMoves(clock: nat, steps: nat)
    requires VARIANT <= clock < VARIANT + SEQUENCES && steps < SEQUENCES
    ensures Advanced(clock, steps) == clock <==> steps == 0
  {
  }

  lemma AdvanceStep(clock: nat, steps: nat)
    requires VARIANT <= clock < VARIANT + SEQUENCES
    ensures Advanced(Marked(clock + 1), steps) == Advanced(clock, steps + 1)
  {
    var a := clock - VARIANT;
    assert Marked(clock + 1) == Marked(a + 1);
    assert (((a + 1) % SEQUENCES) + steps) % SEQUENCES == (a + 1 + steps) % SEQUENCES;
  }

  /** A stamp later in the run has a stepped sequence number or a larger time. */
  lemma {:induction false} LaterStamp(s: State, times: seq<nat>, k: nat) returns (steps: nat)
    requires Chosen(s) && k < |times|
    ensures steps <= CountBumps(s, times)
    ensures Stamps(s, times)[k].clock == Advanced(s.clock, steps)
    ensures steps == 0 ==> Stamps(s, times)[k].time > s.last
    decreases k
  {
    var next := Step(s, times[0]);
    var bump := if Bumps(s, times[0]) then 1 else 0;
    assert Stamps(s, times)[0] == Stamp(next.last, next.clock);
    if k == 0 {
      steps := bump;
    } else {
      var more := LaterStamp(next, times[1..], k - 1);
      assert Stamps(s, times)[k] == Stamps(next, times[1..])[k - 1];
      steps := more + bump;
      if bump == 1 {
        AdvanceStep(s.clock, more);
      }
    }
  }

  /** Up to fewer than 16384 bumps, however the clock moves, no stamp is given out twice. */
  lemma {:induction false} StampsDistinct(s: State, times: seq<nat>, i: nat, j: nat)
    requires Chosen(s) && i < j < |times| && CountBumps(s, times) < SEQUENCES
    ensures Stamps(s, times)[i] != Stamps(s, times)[j]
    decreases i
  {
    var next := Step(s, times[0]);
    if i == 0 {
      var steps := LaterStamp(next, times[1..], j - 1);
      AdvanceMoves(next.clock, steps);
    } else {
      StampsDistinct(next, times[1..], i - 1, j - 1);
    }
  }

  /** The bound is sharp: a clock that stands still repeats its first stamp at the 16384th bump. */
  lemma {:induction false} StandingClock(s: State, now: nat, n: nat, k: nat)
    requires Chosen(s) && s.last == now && k < n
    ensures Stamps(s, seq(n, _ => now))[k] == Stamp(now, Advanced(s.clock, k + 1))
    decreases k
  {
    var times := seq(n, _ => now);
    var next := Step(s, now);
    assert times[1..] == seq(n - 1, _ => now);
    if k > 0 {
      StandingClock(next, now, n - 1, k - 1);
      AdvanceStep(s.clock, k);
    }
  }

  lemma BoundIsSharp(s: State, now: nat)
    requires Chosen(s) && s.last < now
    ensures var times := seq(SEQUENCES + 1, _ => now);
      Stamps(s, times)[0] == Stamps(s, times)[SEQUENCES]
  {
    var times := seq(SEQUENCES + 1, _ => now);
    var next := Step(s, now);
    assert times[1..] == seq(SEQUENCES, _ => now);
    StandingClock(next, now, SEQUENCES, SEQUENCES - 1);
    assert Advanced(next.clock, SEQUENCES) == next.clock;
  }

  // ---------------------------------------------------------------- bytes

  function Big16(x: nat): (b: Bytes)
    requires x < 0x1_0000
    ensures |b| == 2
  {
    [x / 0x100, x % 0x100]
  }

  function Big32(x: nat): (b: Bytes)
    requires x < 0x1_0000_0000
    ensures |b| == 4
  {
    Big16(x / 0x1_0000) + Big16(x % 0x1_0000)
  }

  function FromBig16(b: Bytes): nat
    requires |b| == 2
  {
    b[0] as int * 0x100 + b[1]
  }

  function FromBig32(b: Bytes): nat
    requires |b| == 4
  {
    FromBig16(b[..2]) * 0x1_0000 + FromBig16(b[2..])
  }

  /** The node padded with zeros or cut to its six bytes. */
  function NodeBytes(node: Bytes): (b: Bytes)
    ensures |b| == 6
  {
    if |node| >= 6 then node[..6] else node + seq(6 - |node|, _ => 0)
  }

  function Pack(stamp: Stamp, node: Bytes): (b: Bytes)
    requires stamp.clock < 0x1_0000
    ensures |b| == 16
  {
    Big32(stamp.time % 0x1_0000_0000)
    + Big16(stamp.time / 0x1_0000_0000 % 0x1_0000)
    + Big16(stamp.time / 0x1_0000_0000_0000 % 0x1000 + 0x1000)
    + Big16(stamp.clock)
    + NodeBytes(node)
  }

  /** The time in a UUID; none when it does not have sixteen bytes. */
  function TimeOf(uuid: Bytes): Option<nat> {
    if |uuid| != 16 then None
    else Some(FromBig32(uuid[..4])
              + FromBig16(uuid[4..6]) * 0x1_0000_0000
              + FromBig16(uuid[6..8]) % 0x1000 * 0x1_0000_0000_0000)
  }

  function ClockSequenceOf(uuid: Bytes): Option<nat> {
    if |uuid| != 16 then None else Some(FromBig16(uuid[8..10]) % SEQUENCES)
  }

  lemma BigRoundTrip(x: nat, y: nat)
    requires x < 0x1_0000 && y < 0x1_0000_0000
    ensures FromBig16(Big16(x)) == x && FromBig32(Big32(y)) == y
  {
    var b := Big32(y);
    assert b[..2] == Big16(y / 0x1_0000) && b[2..] == Big16(y % 0x1_0000);
  }

  /** The time, the sequence number, the version and the variant can all be read back from the bytes. */
  lemma PackReadsBack(stamp: Stamp, node: Bytes)
    requires stamp.time < TIME_LIMIT && VARIANT <= stamp.clock < VARIANT + SEQUENCES
    ensures TimeOf(Pack(stamp, node)) == Some(stamp.time)
    ensures ClockSequenceOf(Pack(stamp, node)) == Some(stamp.clock - VARIANT)
    ensures Pack(stamp, node)[6] as int / 16 == 1
    ensures Pack(stamp, node)[8] as int / 64 == 2
  {
    hide Big16, Big32, FromBig16, FromBig32;
    var u := Pack(stamp, node);
    var low, mid := stamp.time % 0x1_0000_0000, stamp.time / 0x1_0000_0000 % 0x1_0000;
    var high := stamp.time / 0x1_0000_0000_0000 % 0x1000 + 0x1000;
    assert u[..4] == Big32(low);
    assert u[4..6] == Big16(mid) && u[6..8] == Big16(high) && u[8..10] == Big16(stamp.clock);
    BigRoundTrip(mid, low);
    BigRoundTrip(high, low);
    BigRoundTrip(stamp.clock, low);
    TimeParts(stamp.time);
    Top(high);
    Top(stamp.clock);
    assert u[6] == u[6..8][0] && u[8] == u[8..10][0];
  }

  /** Byte by byte: low, middle and high part of the time, the sequence and the node, each with its high byte first. */
  lemma PackBytes(stamp: Stamp, node: Bytes, i: nat)
    requires stamp.clock < 0x1_0000
    ensures var u, t := Pack(stamp, node), stamp.time;
      && u[..4] == [t / 0x100_0000 % 0x100, t / 0x1_0000 % 0x100, t / 0x100 % 0x100, t % 0x100]
      && u[4..6] == [t / 0x100_0000_0000 % 0x100, t / 0x1_0000_0000 % 0x100]
      && u[6..8] == [t / 0x100_0000_0000_0000 % 0x10 + 0x10, t / 0x1_0000_0000_0000 % 0x100]
      && u[8..10] == [stamp.clock / 0x100, stamp.clock % 0x100]
      && (i < 6 ==> u[10 + i] == if i < |node| then node[i] else 0)
  {
    hide Big32, NodeBytes;
    var u, t := Pack(stamp, node), stamp.time;
    var low, high := t % 0x1_0000_0000, t / 0x1_0000_0000_0000 % 0x1000 + 0x1000;
    assert u[..4] == Big32(low);
    LowBytes(t);
    MiddleBytes(t);
    HighBytes(t);
    assert u[4..6] == Big16(t / 0x1_0000_0000 % 0x1_0000) && u[6..8] == Big16(high) && u[8..10] == Big16(stamp.clock);
    NodeAt(node, i);
  }

  lemma LowBytes(t: nat)
    ensures Big32(t % 0x1_0000_0000) == [t / 0x100_0000 % 0x100, t / 0x1_0000 % 0x100, t / 0x100 % 0x100, t % 0x100]
  {
    var h, l := t / 0x1_0000, t % 0x1_0000;
    Halves(t);
    Bytes16(h);
    Bytes16(t);
    assert h / 0x100 == t / 0x100_0000;
  }

  lemma Halves(t: nat)
    ensures t % 0x1_0000_0000 / 0x1_0000 == t / 0x1_0000 % 0x1_0000
    ensures t % 0x1_0000_0000 % 0x1_0000 == t % 0x1_0000
  {
    var q := t / 0x1_0000_0000;
    assert t == q * 0x1_0000_0000 + t % 0x1_0000_0000;
  }

  lemma Bytes16(h: nat)
    ensures Big16(h % 0x1_0000) == [h / 0x100 % 0x100, h % 0x100]
  {
    var q, r := h / 0x1_0000, h % 0x1_0000;
    assert h / 0x100 == q * 0x100 + r / 0x100;
    assert (q * 0x100 + r / 0x100) % 0x100 == r / 0x100;
  }

  lemma MiddleBytes(t: nat)
    ensures Big16(t / 0x1_0000_0000 % 0x1_0000) == [t / 0x100_0000_0000 % 0x100, t / 0x1_0000_0000 % 0x100]
  {
    assert t / 0x1_0000_0000 / 0x100 == t / 0x100_0000_0000;
  }

  lemma HighBytes(t: nat)
    ensures Big16(t / 0x1_0000_0000_0000 % 0x1000 + 0x1000)
      == [t / 0x100_0000_0000_0000 % 0x10 + 0x10, t / 0x1_0000_0000_0000 % 0x100]
  {
    var h := t / 0x1_0000_0000_0000;
    assert h / 0x100 == t / 0x100_0000_0000_0000;
    var q, r := h / 0x1000, h % 0x1000;
    assert h / 0x100 == q * 0x10 + r / 0x100;
    assert (q * 0x10 + r / 0x100) % 0x10 == r / 0x100;
    assert h % 0x100 == r % 0x100;
  }

  /** The first six bytes of the node, and zeros where it has fewer. */
  lemma NodeAt(node: Bytes, i: nat)
    ensures i < 6 ==> NodeBytes(node)[i] == if i < |node| then node[i] else 0
  {
  }

  lemma Top(x: nat)
    requires x < 0x1_0000
    ensures Big16(x)[0] == x / 0x100
  {
  }

  lemma TimeParts(t: nat)
    requires t < TIME_LIMIT
    ensures t == t % 0x1_0000_0000 + t / 0x1_0000_0000 % 0x1_0000 * 0x1_0000_0000
      + t / 0x1_0000_0000_0000 % 0x1000 * 0x1_0000_0000_0000
  {
    assert t / 0x1_0000_0000_0000 < 0x1000;
    assert t / 0x1_0000_0000 / 0x1_0000 == t / 0x1_0000_0000_0000;
  }

  /** All UUIDs of a run on one node are different. */
  lemma UuidsDistinct(s: State, times: seq<nat>, node: Bytes, i: nat, j: nat)
    requires Chosen(s) && i < j < |times| && CountBumps(s, times) < SEQUENCES
    requires forall k :: 0 <= k < |times| ==> times[k] < TIME_LIMIT
    ensures StampFits(Stamps(s, times)[i]) && StampFits(Stamps(s, times)[j])
    ensures Pack(Stamps(s, times)[i], node) != Pack(Stamps(s, times)[j], node)
  {
    hide Pack, TimeOf, ClockSequenceOf, Stamps, CountBumps;
    StampsDistinct(s, times, i, j);
    StampIs(s, times, i);
    StampIs(s, times, j);
    PackReadsBack(Stamps(s, times)[i], node);
    PackReadsBack(Stamps(s, times)[j], node);
  }

  ghost predicate StampFits(st: Stamp) {
    st.time < TIME_LIMIT && VARIANT <= st.clock < VARIANT + SEQUENCES
  }

  lemma {:induction false} StampIs(s: State, times: seq<nat>, k: nat)
    requires Chosen(s) && k < |times|
    ensures Stamps(s, times)[k].time == times[k]
    ensures VARIANT <= Stamps(s, times)[k].clock < VARIANT + SEQUENCES
    decreases k
  {
    if k > 0 {
      StampIs(Step(s, times[0]), times[1..], k - 1);
    }
  }

  // ---------------------------------------------------------------- the generator

  class Generator {
    const node: Bytes
    var lasttime: nat
    var clockSeq: nat

    ghost predicate Valid()
      reads this
    {
      clockSeq == 0 || VARIANT <= clockSeq < VARIANT + SEQUENCES
    }

    ghost function View(): State
      reads this
    {
      State(lasttime, clockSeq)
    }

    constructor (n: Bytes)
      ensures Valid() && node == n && View() == State(0, 0)
    {
      node := n;
      lasttime := 0;
      clockSeq := 0;
    }

    method SetClockSequence(n: nat)
      requires Valid()
      modifies this
      ensures Valid() && clockSeq == Marked(n)
      ensures lasttime == if old(clockSeq) == clockSeq then old(lasttime) else 0
    {
      var oldSeq := clockSeq;
      clockSeq := n % SEQUENCES + VARIANT;
      if oldSeq != clockSeq {
        lasttime := 0;
      }
    }

    method GetTime(now: nat, random: nat) returns (time: nat, sequence: nat)
      requires Valid()
      modifies this
      ensures Valid() && Chosen(View())
      ensures View() == Step(Ensured(old(View()), random), now)
      ensures time == lasttime && sequence == clockSeq
    {
      if clockSeq == 0 {
        SetClockSequence(random);
      }
      if now <= lasttime {
        clockSeq := (clockSeq + 1) % SEQUENCES + VARIANT;
      }
      lasttime := now;
      return now, clockSeq;
    }

    /** The stamp of the moment in sixteen bytes, filled in field by field. */
    method NewUuid(now: nat, random: nat) returns (uuid: Bytes)
      requires Valid()
      modifies this
      ensures Valid() && Chosen(View())
      ensures View() == Step(Ensured(old(View()), random), now)
      ensures uuid == Pack(Stamp(lasttime, clockSeq), node)
    {
      hide Pack, Big32, Big16;
      var time, sequence := GetTime(now, random);
      var b := new Byte[16];
      PutAll(b, 0, Big32(time % 0x1_0000_0000));
      PutAll(b, 4, Big16(time / 0x1_0000_0000 % 0x1_0000));
      PutAll(b, 6, Big16(time / 0x1_0000_0000_0000 % 0x1000 + 0x1000));
      PutAll(b, 8, Big16(sequence));
      PutAll(b, 10, NodeBytes(node));
      uuid := b[..];
      Joined(uuid, Stamp(time, sequence), node);
    }
  }

  lemma Joined(u: Bytes, stamp: Stamp, node: Bytes)
    requires stamp.clock < 0x1_0000 && |u| == 16
    requires u[..4] == Big32(stamp.time % 0x1_0000_0000)
    requires u[4..6] == Big16(stamp.time / 0x1_0000_0000 % 0x1_0000)
    requires u[6..8] == Big16(stamp.time / 0x1_0000_0000_0000 % 0x1000 + 0x1000)
    requires u[8..10] == Big16(stamp.clock) && u[10..] == NodeBytes(node)
    ensures u == Pack(stamp, node)
  {
    hide Big32, Big16, NodeBytes;
    assert u == u[..4] + u[4..6] + u[6..8] + u[8..10] + u[10..];
  }

  /** Copies bytes into the array at an offset and leaves the others alone. */
  method PutAll(b: array<Byte>, at: nat, bytes: Bytes)
    requires at + |bytes| <= b.Length
    modifies b
    ensures b[at..at + |bytes|] == bytes
    ensures forall k :: 0 <= k < b.Length && !(at <= k < at + |bytes|) ==> b[k] == old(b[k])
  {
    for i := 0 to |bytes|
      invariant b[at..at + i] == bytes[..i]
      invariant forall k :: 0 <= k < b.Length && !(at <= k < at + |bytes|) ==> b[k] == old(b[k])
    {
      b[at + i] := bytes[i];
      assert b[at..at + i + 1] == bytes[..i] + [bytes[i]];
    }
  }
}
