/**
 UTF-16 input as the reader decodes it: the loop over the raw buffer, what it makes of either byte order, and
 where it puts the characters.

 Both byte orders are read low byte first, and a character is written in UTF-8 but takes as much of the
 buffer as it had raw bytes.  The exact conditions under which the text still comes out right are proved.
 */
module YamlUtf16 {
  import opened Wrappers
  import opened Utf8
  import opened YamlReader

  //
  // The encoding of section 2 of RFC 2781.
  //

  function UnitBytes(u: nat, big: bool): Bytes
    requires u < 0x10000
  {
    if big then [u / 256, u % 256] else [u % 256, u / 256]
  }

  /** The code units of a character: one, or a surrogate pair. */
  function Units(v: CodePoint): (us: seq<nat>)
    ensures 1 <= |us| <= 2 && forall i :: 0 <= i < |us| ==> us[i] < 0x10000
  {
    assert IsScalarValue(v);
    if v <= 0xFFFF then [v] else [0xD800 + (v - 0x10000) / 1024, 0xDC00 + (v - 0x10000) % 1024]
  }

  function Encode16(v: CodePoint, big: bool): (bs: Bytes)
    ensures |bs| == 2 * |Units(v)|
  {
    var us := Units(v);
    if |us| == 1 then UnitBytes(us[0], big) else UnitBytes(us[0], big) + UnitBytes(us[1], big)
  }

  function EncodeAll16(vs: seq<CodePoint>, big: bool): Bytes {
    if vs == [] then [] else Encode16(vs[0], big) + EncodeAll16(vs[1..], big)
  }

  /** The example of section 5 of RFC 2781, and its bytes in either order. */
  lemma PairExample()
    ensures Units(0x12345) == [0xD808, 0xDF45]
    ensures Encode16(0x12345, true) == [0xD8, 0x08, 0xDF, 0x45] && Encode16(0x12345, false) == [0x08, 0xD8, 0x45, 0xDF]
  {
  }

  //
  // Decoding.
  //

  predicate IsHigh(u: nat) { 0xD800 <= u < 0xDC00 }

  predicate IsLow(u: nat) { 0xDC00 <= u < 0xE000 }

  datatype Step = OneChar(v: CodePoint, width: nat) | Incomplete | Refused

  /** The value of two bytes, whichever the byte order. */
  function UnitAt(raw: Bytes, i: nat): (u: nat)
    requires i + 1 < |raw|
    ensures u < 0x10000
  {
    var low: nat, high: nat := raw[i], raw[i + 1];
    low + 256 * high
  }

  function Take(v: int, width: nat): Step {
    if Allowed(v) then OneChar(v, width) else Refused
  }

  function DecodeOne(raw: Bytes): (s: Step)
    ensures s.OneChar? ==> 2 <= s.width <= |raw| && Allowed(s.v)
  {
    if |raw| < 2 then Incomplete
    else
      var u := UnitAt(raw, 0);
      if IsLow(u) then Refused
      else if !IsHigh(u) then Take(u, 2)
      else if |raw| < 4 then Incomplete
      else if !IsLow(UnitAt(raw, 2)) then Refused
      else Take(0x10000 + u % 1024 * 1024 + UnitAt(raw, 2) % 1024, 4)
  }

  /** The characters up to the first that is incomplete or refused, and what is left. */
  function DecodeAll(raw: Bytes): (r: (seq<CodePoint>, Bytes))
    ensures |r.1| <= |raw| && AllAllowed(r.0)
    decreases |raw|
  {
    match DecodeOne(raw)
    case OneChar(v, width) =>
      var r := DecodeAll(raw[width..]);
      ([v] + r.0, r.1)
    case _ => ([], raw)
  }

  lemma DecodeEncoded(v: CodePoint, rest: Bytes)
    requires Allowed(v)
    ensures DecodeOne(Encode16(v, false) + rest) == OneChar(v, |Encode16(v, false)|)
  {
    var raw := Encode16(v, false) + rest;
    if v <= 0xFFFF {
      assert UnitAt(raw, 0) == v;
    } else {
      var a, b := (v - 0x10000) / 1024, (v - 0x10000) % 1024;
      assert UnitAt(raw, 0) == 0xD800 + a && UnitAt(raw, 2) == 0xDC00 + b;
    }
  }

  lemma EncodeDecoded(raw: Bytes)
    requires DecodeOne(raw).OneChar?
    ensures var s := DecodeOne(raw); Encode16(s.v, false) == raw[..s.width]
  {
    var u := UnitAt(raw, 0);
    HalvesOf(raw, 0);
    if IsHigh(u) {
      var w := UnitAt(raw, 2);
      HalvesOf(raw, 2);
      var a, b := u - 0xD800, w - 0xDC00;
      assert u % 1024 == a && w % 1024 == b;
      assert (a * 1024 + b) / 1024 == a && (a * 1024 + b) % 1024 == b;
    }
  }

  lemma HalvesOf(raw: Bytes, i: nat)
    requires i + 1 < |raw|
    ensures UnitAt(raw, i) % 256 == raw[i] && UnitAt(raw, i) / 256 == raw[i + 1]
  {
  }

  /** Low byte first, the characters of the input are exactly those it encodes. */
  lemma {:induction false} LittleEndianIff(raw: Bytes, vs: seq<CodePoint>)
    ensures DecodeAll(raw) == (vs, []) <==> AllAllowed(vs) && raw == EncodeAll16(vs, false)
    decreases |raw| + |vs|
  {
    hide Encode16, DecodeOne, Allowed;
    if AllAllowed(vs) && raw == EncodeAll16(vs, false) {
      if vs == [] {
        NoneLeft();
      } else {
        DecodeEncoded(vs[0], EncodeAll16(vs[1..], false));
        var w := |Encode16(vs[0], false)|;
        assert raw[w..] == EncodeAll16(vs[1..], false);
        LittleEndianIff(raw[w..], vs[1..]);
        assert [vs[0]] + vs[1..] == vs;
      }
    }
    if DecodeAll(raw) == (vs, []) && DecodeOne(raw).OneChar? {
      var w := DecodeOne(raw).width;
      EncodeDecoded(raw);
      assert vs[0] == DecodeOne(raw).v && vs[1..] == DecodeAll(raw[w..]).0;
      assert DecodeAll(raw[w..]) == (vs[1..], []);
      LittleEndianIff(raw[w..], vs[1..]);
      assert raw == raw[..w] + raw[w..];
    }
  }

  lemma NoneLeft()
    ensures DecodeAll([]) == ([], [])
  {
  }

  /** The code units of the character have two equal bytes. */
  predicate Mirrored(v: CodePoint) {
    forall i :: 0 <= i < |Units(v)| ==> Units(v)[i] / 256 == Units(v)[i] % 256
  }

  lemma MirroredIff(v: CodePoint)
    ensures Encode16(v, true) == Encode16(v, false) <==> Mirrored(v)
  {
    var us, b, l := Units(v), Encode16(v, true), Encode16(v, false);
    assert b[0] == us[0] / 256 && l[0] == us[0] % 256 && b[1] == us[0] % 256 && l[1] == us[0] / 256;
    if |us| == 2 {
      assert b[2] == us[1] / 256 && l[2] == us[1] % 256 && b[3] == us[1] % 256 && l[3] == us[1] / 256;
    }
    if Mirrored(v) { assert b == l; }
  }

  lemma {:induction false} AllMirroredIff(vs: seq<CodePoint>)
    ensures EncodeAll16(vs, true) == EncodeAll16(vs, false) <==> forall i :: 0 <= i < |vs| ==> Mirrored(vs[i])
  {
    hide Encode16, Mirrored;
    if vs != [] {
      var a, b, n := EncodeAll16(vs, true), EncodeAll16(vs, false), 2 * |Units(vs[0])|;
      assert a[..n] == Encode16(vs[0], true) && b[..n] == Encode16(vs[0], false);
      assert a[n..] == EncodeAll16(vs[1..], true) && b[n..] == EncodeAll16(vs[1..], false);
      MirroredIff(vs[0]);
      AllMirroredIff(vs[1..]);
      assert a == a[..n] + a[n..] && b == b[..n] + b[n..];
      assert (forall i :: 0 <= i < |vs| ==> Mirrored(vs[i]))
        <==> Mirrored(vs[0]) && forall i :: 0 <= i < |vs[1..]| ==> Mirrored(vs[1..][i]);
    }
  }

  /** High byte first, allowed characters come out right exactly when each of their units has two equal bytes. */
  lemma BigEndianIff(vs: seq<CodePoint>)
    requires AllAllowed(vs)
    ensures DecodeAll(EncodeAll16(vs, true)) == (vs, []) <==> forall i :: 0 <= i < |vs| ==> Mirrored(vs[i])
  {
    hide DecodeAll, EncodeAll16, Mirrored;
    LittleEndianIff(EncodeAll16(vs, true), vs);
    AllMirroredIff(vs);
  }

  /** The letter "a" with its high byte first is read as another character. */
  lemma BigEndianMisread()
    ensures Allowed(0x61) && EncodeAll16([0x61], true) == [0x00, 0x61]
    ensures DecodeAll([0x00, 0x61]) == ([0x6100], [])
  {
    assert [0x61][1..] == [];
    var raw: Bytes := [0x00, 0x61];
    assert raw[2..] == [] && UnitAt(raw, 0) == 0x6100;
    assert DecodeOne(raw) == OneChar(0x6100, 2);
    NoneLeft();
    assert [0x6100] + [] == [0x6100];
  }

  //
  // Into the buffer.
  //

  /** The buffer with these bytes put at `n`. */
  function Put(buf: Bytes, n: nat, bs: Bytes): (r: Bytes)
    requires n + |bs| <= |buf|
    ensures |r| == |buf|
  {
    buf[..n] + bs + buf[n + |bs|..]
  }

  /** Each character is put after as many places as the one before it had raw bytes. */
  function StoreAll(buf: Bytes, n: nat, vs: seq<CodePoint>): (r: (Bytes, nat))
    requires n + 4 * |vs| <= |buf|
    ensures |r.0| == |buf| && n <= r.1 <= n + 4 * |vs|
    decreases |vs|
  {
    if vs == [] then (buf, n) else StoreAll(Put(buf, n, Encode(vs[0])), n + |Encode16(vs[0], false)|, vs[1..])
  }

  /** The buffer holds the characters in UTF-8 from `n` on. */
  predicate Holds(r: (Bytes, nat), n: nat, vs: seq<CodePoint>) {
    r.1 == n + |EncodeAll(vs)| && r.1 <= |r.0| && r.0[n..r.1] == EncodeAll(vs)
  }

  /** As long in UTF-8 as in UTF-16. */
  predicate SameWidth(v: CodePoint) { |Encode(v)| == |Encode16(v, false)| }

  lemma SameWidthIff(v: CodePoint)
    ensures SameWidth(v) <==> 0x80 <= v <= 0x7FF || v >= 0x10000
    ensures !SameWidth(v) ==> (|Encode(v)| == 1 || |Encode(v)| == 3) && |Encode16(v, false)| == 2
  {
    assert IsScalarValue(v);
  }

  /** What is stored before `n` is not touched. */
  lemma {:induction false} StoreKeeps(buf: Bytes, n: nat, vs: seq<CodePoint>)
    requires n + 4 * |vs| <= |buf|
    ensures StoreAll(buf, n, vs).0[..n] == buf[..n]
    decreases |vs|
  {
    hide Encode, Encode16;
    if vs != [] {
      var next, m := Put(buf, n, Encode(vs[0])), n + |Encode16(vs[0], false)|;
      StoreKeeps(next, m, vs[1..]);
      var r := StoreAll(next, m, vs[1..]).0;
      assert r[..n] == r[..m][..n] == next[..m][..n] == next[..n] == buf[..n];
    }
  }

  lemma {:induction false} StoredRight(buf: Bytes, n: nat, vs: seq<CodePoint>)
    requires n + 4 * |vs| <= |buf| && forall i :: 0 <= i < |vs| ==> SameWidth(vs[i])
    ensures Holds(StoreAll(buf, n, vs), n, vs)
    decreases |vs|
  {
    hide Encode, Encode16;
    if vs != [] {
      var bs := Encode(vs[0]);
      var next, m := Put(buf, n, bs), n + |bs|;
      assert SameWidth(vs[0]);
      StoredRight(next, m, vs[1..]);
      StoreKeeps(next, m, vs[1..]);
      var r := StoreAll(next, m, vs[1..]);
      assert r.0[n..m] == r.0[..m][n..] == next[..m][n..] == bs;
      assert r.0[n..r.1] == r.0[n..m] + r.0[m..r.1];
    }
  }

  /** A first character that is shorter in UTF-8 leaves a stale byte behind it. */
  lemma StaleByte(buf: Bytes, n: nat, vs: seq<CodePoint>)
    requires n + 4 * |vs| <= |buf| && vs != [] && |Encode(vs[0])| == 1 && |Encode16(vs[0], false)| == 2
    ensures StoreAll(buf, n, vs).0[n + 1] == buf[n + 1]
  {
    var next := Put(buf, n, Encode(vs[0]));
    StoreKeeps(next, n + 2, vs[1..]);
    var r := StoreAll(next, n + 2, vs[1..]).0;
    assert r[n + 1] == r[..n + 2][n + 1] == next[..n + 2][n + 1] == buf[n + 1];
  }

  /** A first character that is longer in UTF-8 loses its last byte to the next one, or its place. */
  lemma LostByte(buf: Bytes, n: nat, vs: seq<CodePoint>)
    requires n + 4 * |vs| <= |buf| && vs != [] && |Encode(vs[0])| == 3 && |Encode16(vs[0], false)| == 2
    ensures !Holds(StoreAll(buf, n, vs), n, vs)
  {
    hide Encode, Encode16, WellFormedChar;
    var v, next := vs[0], Put(buf, n, Encode(vs[0]));
    var r := StoreAll(next, n + 2, vs[1..]);
    AllStarts(vs);
    if |vs| == 1 {
      assert vs[1..] == [];
    } else {
      var u := vs[1];
      var after := Put(next, n + 2, Encode(u));
      assert vs[1..][0] == u;
      NoTrail(u);
      LastTrail(v);
      var m := n + 2 + |Encode16(u, false)|;
      StoreKeeps(after, m, vs[1..][1..]);
      assert r == StoreAll(after, m, vs[1..][1..]);
      assert r.0[n + 2] == r.0[..m][n + 2] == after[..m][n + 2] == after[n + 2] == Encode(u)[0];
      assert EncodeAll(vs)[2] == EncodeAll(vs)[..3][2] == Encode(v)[2];
      HeldByte(r, n, vs, 2);
    }
  }

  lemma HeldByte(r: (Bytes, nat), n: nat, vs: seq<CodePoint>, k: nat)
    ensures Holds(r, n, vs) && k < |EncodeAll(vs)| ==> r.0[n + k] == EncodeAll(vs)[k]
  {
    hide EncodeAll;
    assert Holds(r, n, vs) && k < |EncodeAll(vs)| ==> r.0[n..r.1][k] == r.0[n + k];
  }

  lemma AllStarts(vs: seq<CodePoint>)
    requires vs != []
    ensures |EncodeAll(vs)| >= |Encode(vs[0])| && EncodeAll(vs)[..|Encode(vs[0])|] == Encode(vs[0])
  {
    hide Encode;
  }

  lemma NoTrail(v: CodePoint)
    ensures !IsTrail(Encode(v)[0])
  {
    assert IsScalarValue(v);
  }

  lemma LastTrail(v: CodePoint)
    requires |Encode(v)| == 3
    ensures IsTrail(Encode(v)[2])
  {
    assert IsScalarValue(v);
  }

  /**
   Whatever the buffer held before, the characters stand in it as UTF-8 text, exactly when each is as long in
   UTF-8 as in UTF-16.
   */
  lemma {:induction false} StoredIff(size: nat, n: nat, vs: seq<CodePoint>)
    requires n + 4 * |vs| <= size
    ensures (forall buf: Bytes :: |buf| == size ==> Holds(StoreAll(buf, n, vs), n, vs))
            <==> forall i :: 0 <= i < |vs| ==> SameWidth(vs[i])
  {
    hide Holds, StoreAll, SameWidth;
    if forall i :: 0 <= i < |vs| ==> SameWidth(vs[i]) {
      forall buf: Bytes | |buf| == size ensures Holds(StoreAll(buf, n, vs), n, vs) {
        StoredRight(buf, n, vs);
      }
    } else {
      var i :| 0 <= i < |vs| && !SameWidth(vs[i]);
      var buf := Garbled(size, n, vs, i);
      assert !Holds(StoreAll(buf, n, vs), n, vs);
    }
  }

  /** The first character of another width garbles the text over some earlier contents of the buffer. */
  lemma {:induction false} Garbled(size: nat, n: nat, vs: seq<CodePoint>, i: nat) returns (buf: Bytes)
    requires n + 4 * |vs| <= size && i < |vs| && !SameWidth(vs[i])
    ensures |buf| == size && !Holds(StoreAll(buf, n, vs), n, vs)
    decreases |vs|
  {
    hide Encode, Encode16, Holds, StoreAll;
    SameWidthIff(vs[0]);
    if SameWidth(vs[0]) {
      buf := Garbled(size, n + |Encode16(vs[0], false)|, vs[1..], i - 1);
      SameTail(buf, n, vs);
    } else if |Encode(vs[0])| == 3 {
      buf := seq(size, _ => 0);
      LostByte(buf, n, vs);
    } else {
      buf := OtherByte(size, n, vs);
      StaleGarbles(buf, n, vs);
    }
  }

  lemma StaleGarbles(buf: Bytes, n: nat, vs: seq<CodePoint>)
    requires n + 4 * |vs| <= |buf| && vs != [] && |Encode(vs[0])| == 1 && |Encode16(vs[0], false)| == 2
    requires |EncodeAll(vs)| >= 2 ==> buf[n + 1] != EncodeAll(vs)[1]
    ensures !Holds(StoreAll(buf, n, vs), n, vs)
  {
    hide Encode, Encode16, StoreAll;
    StaleByte(buf, n, vs);
    StoreGrows(buf, n, vs);
    HeldByte(StoreAll(buf, n, vs), n, vs, 1);
  }

  /** A buffer whose byte after the first character is not the one the text wants there. */
  lemma OtherByte(size: nat, n: nat, vs: seq<CodePoint>) returns (buf: Bytes)
    requires n + 1 < size
    ensures |buf| == size && (|EncodeAll(vs)| >= 2 ==> buf[n + 1] != EncodeAll(vs)[1])
  {
    var zero: Bytes, one: Bytes := seq(size, _ => 0), seq(size, _ => 1);
    buf := if |EncodeAll(vs)| >= 2 && EncodeAll(vs)[1] == 0 then one else zero;
  }

  lemma StoreGrows(buf: Bytes, n: nat, vs: seq<CodePoint>)
    requires n + 4 * |vs| <= |buf| && vs != []
    ensures StoreAll(buf, n, vs).1 >= n + 2
  {
    hide Encode;
  }

  lemma {:induction false} SameTail(buf: Bytes, n: nat, vs: seq<CodePoint>)
    requires n + 4 * |vs| <= |buf| && vs != [] && SameWidth(vs[0])
    ensures var m := n + |Encode16(vs[0], false)|;
            Holds(StoreAll(buf, n, vs), n, vs) ==> Holds(StoreAll(buf, m, vs[1..]), m, vs[1..])
  {
    hide Encode, Encode16;
    var bs := Encode(vs[0]);
    var m, r := n + |bs|, StoreAll(Put(buf, n, bs), n + |bs|, vs[1..]);
    SameBeyond(Put(buf, n, bs), buf, m, vs[1..]);
    if Holds(r, n, vs) {
      assert r.0[n..r.1][|bs|..] == r.0[m..r.1] && EncodeAll(vs)[|bs|..] == EncodeAll(vs[1..]);
    }
  }

  /** What is stored from `n` on depends only on the buffer from there on. */
  lemma {:induction false} SameBeyond(a: Bytes, b: Bytes, n: nat, vs: seq<CodePoint>)
    requires |a| == |b| && n + 4 * |vs| <= |a| && a[n..] == b[n..]
    ensures StoreAll(a, n, vs).1 == StoreAll(b, n, vs).1 && StoreAll(a, n, vs).0[n..] == StoreAll(b, n, vs).0[n..]
    decreases |vs|
  {
    hide Encode, Encode16, Put;
    if vs != [] {
      var bs, m := Encode(vs[0]), n + |Encode16(vs[0], false)|;
      var x, y := Put(a, n, bs), Put(b, n, bs);
      PutBeyond(a, b, n, bs, m);
      SameBeyond(x, y, m, vs[1..]);
      StoreKeeps(x, m, vs[1..]);
      StoreKeeps(y, m, vs[1..]);
      Joined(StoreAll(x, m, vs[1..]).0, StoreAll(y, m, vs[1..]).0, n, m);
    }
  }

  lemma PutBeyond(a: Bytes, b: Bytes, n: nat, bs: Bytes, m: nat)
    requires |a| == |b| && n + |bs| <= |a| && a[n..] == b[n..] && n <= m <= |a|
    ensures var x, y := Put(a, n, bs), Put(b, n, bs); x[n..m] == y[n..m] && x[m..] == y[m..]
    ensures var x, y := Put(a, n, bs), Put(b, n, bs); x[..m][n..] == y[..m][n..]
  {
    assert Put(a, n, bs)[n..] == bs + a[n..][|bs|..] == bs + b[n..][|bs|..] == Put(b, n, bs)[n..];
    var x, y := Put(a, n, bs), Put(b, n, bs);
    assert x[n..m] == x[n..][..m - n] && y[n..m] == y[n..][..m - n];
    assert x[m..] == x[n..][m - n..] && y[m..] == y[n..][m - n..];
  }

  lemma Joined(r: Bytes, s: Bytes, n: nat, m: nat)
    requires |r| == |s| && n <= m <= |r| && r[..m][n..] == s[..m][n..] && r[m..] == s[m..]
    ensures r[n..] == s[n..]
  {
    assert r[n..] == r[..m][n..] + r[m..] && s[n..] == s[..m][n..] + s[m..];
  }

  /** The letters "ab" in a buffer that was never used: the NUL behind the "a" ends the text for the scanner. */
  lemma LettersGarbled()
    ensures EncodeAll16([0x61, 0x62], false) == [0x61, 0x00, 0x62, 0x00]
    ensures StoreAll([0, 0, 0, 0, 0, 0, 0, 0], 0, [0x61, 0x62]) == ([0x61, 0x00, 0x62, 0x00, 0, 0, 0, 0], 4)
  {
    var vs: seq<CodePoint>, zero: Bytes := [0x61, 0x62], [0, 0, 0, 0, 0, 0, 0, 0];
    LetterCodes();
    hide Encode, Encode16;
    assert vs[1..] == [0x62] && vs[1..][1..] == [];
    assert EncodeAll16(vs[1..], false) == [0x62, 0x00] + [];
    var one: Bytes, two: Bytes := [0x61, 0, 0, 0, 0, 0, 0, 0], [0x61, 0, 0x62, 0, 0, 0, 0, 0];
    assert Put(zero, 0, [0x61]) == one && Put(one, 2, [0x62]) == two;
    hide Put;
    assert StoreAll(two, 4, []) == (two, 4);
    assert StoreAll(one, 2, vs[1..]) == (two, 4);
  }

  lemma LetterCodes()
    ensures Encode(0x61) == [0x61] && Encode(0x62) == [0x62]
    ensures Encode16(0x61, false) == [0x61, 0x00] && Encode16(0x62, false) == [0x62, 0x00]
  {
  }

  //
  // The loop.
  //

  method PutBytes(buffer: array<Byte>, n: nat, bs: Bytes)
    requires n + |bs| <= buffer.Length
    modifies buffer
    ensures buffer[..] == Put(old(buffer[..]), n, bs)
  {
    ghost var was := buffer[..];
    for k := 0 to |bs|
      invariant buffer[..] == Put(was, n, bs[..k])
    {
      buffer[n + k] := bs[k];
      assert bs[..k + 1] == bs[..k] + [bs[k]];
    }
    assert bs[..|bs|] == bs;
  }

  lemma {:induction false} TwoBytesEach(raw: Bytes)
    ensures 2 * |DecodeAll(raw).0| <= |raw|
    decreases |raw|
  {
    hide DecodeOne, Allowed;
    if DecodeOne(raw).OneChar? { TwoBytesEach(raw[DecodeOne(raw).width..]); }
  }

  lemma OneStored(buf: Bytes, n: nat, raw: Bytes)
    requires n + 2 * |raw| <= |buf| && DecodeOne(raw).OneChar?
    ensures var s := DecodeOne(raw);
            && 4 * |DecodeAll(raw).0| <= 2 * |raw| && 4 * |DecodeAll(raw[s.width..]).0| <= 2 * |raw[s.width..]|
            && s.width == |Encode16(s.v, false)| && |Encode(s.v)| <= 4 <= 2 * |raw|
            && n + s.width + 2 * |raw[s.width..]| <= |buf|
            && StoreAll(buf, n, DecodeAll(raw).0) == StoreAll(Put(buf, n, Encode(s.v)), n + s.width, DecodeAll(raw[s.width..]).0)
            && DecodeAll(raw).1 == DecodeAll(raw[s.width..]).1
            && |DecodeAll(raw).0| == 1 + |DecodeAll(raw[s.width..]).0|
  {
    hide DecodeOne, Encode16, Encode, Allowed;
    var s := DecodeOne(raw);
    TwoBytesEach(raw);
    TwoBytesEach(raw[s.width..]);
    EncodeDecoded(raw);
    var more := DecodeAll(raw[s.width..]).0;
    assert ([s.v] + more)[1..] == more;
  }

  /**
   Decode the raw bytes from `pos` on into the buffer, up to an incomplete character at the end; `big` is
   looked at and makes no difference.
   */
  method DecodeRaw(raw: Bytes, from: nat, eof: bool, big: bool, buffer: array<Byte>, len: nat)
    returns (ok: bool, pos: nat, end: nat, count: nat)
    requires from <= |raw| && len + 2 * (|raw| - from) <= buffer.Length
    modifies buffer
    ensures 4 * |DecodeAll(raw[from..]).0| <= 2 * (|raw| - from)
    ensures (buffer[..], end) == StoreAll(old(buffer[..]), len, DecodeAll(raw[from..]).0)
    ensures pos <= |raw| && raw[pos..] == DecodeAll(raw[from..]).1 && count == |DecodeAll(raw[from..]).0|
    ensures ok <==> pos == |raw| || (!eof && DecodeOne(raw[pos..]).Incomplete?)
  {
    hide DecodeAll, StoreAll, DecodeOne, Allowed, Encode, Encode16, Put;
    var low, high;
    if big { high, low := 1, 0; } else { low, high := 0, 1; }
    ok, pos, end, count := true, from, len, 0;
    TwoBytesEach(raw[from..]);
    ghost var all, was := DecodeAll(raw[from..]), buffer[..];
    while pos != |raw|
      invariant from <= pos <= |raw| && end + 2 * (|raw| - pos) <= buffer.Length && buffer.Length == |was|
      invariant 4 * |DecodeAll(raw[pos..]).0| <= 2 * (|raw| - pos) && 4 * |all.0| <= 2 * (|raw| - from)
      invariant StoreAll(buffer[..], end, DecodeAll(raw[pos..]).0) == StoreAll(was, len, all.0)
      invariant DecodeAll(raw[pos..]).1 == all.1 && count + |DecodeAll(raw[pos..]).0| == |all.0|
      decreases |raw| - pos
    {
      var step := DecodeAt(raw, pos, low, high);
      match step {
        case Incomplete =>
          Stopped(raw[pos..], buffer[..], end);
          ok := !eof;
          return;
        case Refused =>
          Stopped(raw[pos..], buffer[..], end);
          ok := false;
          return;
        case OneChar(v, width) =>
          OneStored(buffer[..], end, raw[pos..]);
          assert raw[pos..][width..] == raw[pos + width..];
          pos := pos + width;
          PutBytes(buffer, end, Encode(v));
          end := end + width;
          count := count + 1;
      }
    }
    assert raw[pos..] == [];
    Stopped(raw[pos..], buffer[..], end);
  }

  lemma Stopped(raw: Bytes, buf: Bytes, n: nat)
    requires n <= |buf|
    ensures !DecodeOne(raw).OneChar? ==> DecodeAll(raw) == ([], raw) && StoreAll(buf, n, DecodeAll(raw).0) == (buf, n)
    ensures raw == [] ==> !DecodeOne(raw).OneChar?
  {
  }

  /** One character, by the tests of the loop body. */
  method DecodeAt(raw: Bytes, pos: nat, low: nat, high: nat) returns (s: Step)
    requires pos < |raw| && low == 0 && high == 1
    ensures s == DecodeOne(raw[pos..])
  {
    var unread := |raw| - pos;
    if unread < 2 { return Incomplete; }
    var lo: nat, hi: nat := raw[pos + low], raw[pos + high];
    var value: nat := lo + 256 * hi;
    assert value == UnitAt(raw[pos..], 0);
    if value / 1024 == 0xDC00 / 1024 { return Refused; }
    var width := 2;
    if value / 1024 == 0xD800 / 1024 {
      width := 4;
      if unread < 4 { return Incomplete; }
      var lo2: nat, hi2: nat := raw[pos + low + 2], raw[pos + high + 2];
      var value2: nat := lo2 + 256 * hi2;
      assert value2 == UnitAt(raw[pos..], 2);
      if value2 / 1024 != 0xDC00 / 1024 { return Refused; }
      value := 0x10000 + value % 1024 * 1024 + value2 % 1024;
    }
    s := Take(value, width);
  }
}
