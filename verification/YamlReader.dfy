/**
 The reader: decodes UTF-8 from chunks of the input into a buffer of whole characters that the scanner
 consumes, ending with one NUL.

 Whatever requests and consumptions a run makes, the characters handed over so far are those of the whole
 input read at once (`Valid`); input in UTF-16 is recognised but not decoded here.
 */
module YamlReader {
  import opened Wrappers
  import opened Utf8

  const RAW_SIZE := 512
  const BUFFER_SIZE := 3 * RAW_SIZE
  const MAX_REQUEST := 8

  datatype Encoding = AnyEncoding | Utf8Encoding | Utf16Encoding

  /** The character set of section 4.1.1 of YAML 1.1. */
  predicate Allowed(v: int) {
    v == 0x09 || v == 0x0A || v == 0x0D || 0x20 <= v <= 0x7E || v == 0x85
    || 0xA0 <= v <= 0xD7FF || 0xE000 <= v <= 0xFFFD || 0x10000 <= v <= 0x10FFFF
  }

  predicate AllAllowed(vs: seq<CodePoint>) { forall i | 0 <= i < |vs| :: Allowed(vs[i]) }

  /** Well-formed text in the character set. */
  ghost predicate IsText(b: Bytes) { exists vs :: AllAllowed(vs) && EncodeAll(vs) == b }

  predicate Utf16Bom(b: Bytes) { |b| >= 2 && ((b[0] == 0xFF && b[1] == 0xFE) || (b[0] == 0xFE && b[1] == 0xFF)) }

  predicate Utf8Bom(b: Bytes) { |b| >= 3 && b[0] == 0xEF && b[1] == 0xBB && b[2] == 0xBF }

  /** The input without its byte order mark. */
  function Body(input: Bytes): Bytes { if Utf8Bom(input) then input[3..] else input }

  ghost predicate StartsWell(b: Bytes) { exists v: CodePoint :: Allowed(v) && Encode(v) <= b }

  /** UTF-8 text can be split only at characters. */
  lemma {:induction false} UniqueSplit(vs: seq<CodePoint>, cs: seq<CodePoint>, rest: Bytes)
    requires EncodeAll(vs) == EncodeAll(cs) + rest
    ensures |cs| <= |vs| && cs == vs[..|cs|] && rest == EncodeAll(vs[|cs|..])
    decreases |cs|
  {
    hide Encode;
    if cs == [] {
      assert vs[0..] == vs;
    } else {
      var u, c := Encode(vs[0]), Encode(cs[0]);
      assert EncodeAll(vs) == u + EncodeAll(vs[1..]);
      assert EncodeAll(vs) == c + (EncodeAll(cs[1..]) + rest);
      SameLead(vs[0], cs[0], EncodeAll(vs));
      hide EncodeAll;
      CancelPrefix(c, EncodeAll(vs[1..]), EncodeAll(cs[1..]) + rest);
      UniqueSplit(vs[1..], cs[1..], rest);
      assert vs[1..][|cs| - 1..] == vs[|cs|..] && vs[..|cs|] == [vs[0]] + vs[1..][..|cs| - 1];
    }
  }

  lemma CancelPrefix(p: Bytes, x: Bytes, y: Bytes)
    requires p + x == p + y
    ensures x == y
  {
    assert (p + x)[|p|..] == x && (p + y)[|p|..] == y;
  }

  lemma SameLead(u: CodePoint, v: CodePoint, b: Bytes)
    requires Encode(u) <= b && Encode(v) <= b
    ensures u == v
  {
    hide Encode, Value;
    assert Encode(u)[0] == b[0] == Encode(v)[0];
    ValueOfEncoded(u);
    ValueOfEncoded(v);
    assert Encode(u) == b[..|Encode(u)|] == Encode(v);
  }

  lemma TextStartsWell(vs: seq<CodePoint>)
    requires AllAllowed(vs)
    ensures EncodeAll(vs) == [] || StartsWell(EncodeAll(vs))
  {
    hide Encode;
    if vs != [] { assert Encode(vs[0]) <= EncodeAll(vs); }
  }

  /** Text whose remainder does not start with an allowed character is not text. */
  lemma StuckIsNotText(b: Bytes, cs: seq<CodePoint>, rest: Bytes)
    requires b == EncodeAll(cs) + rest && rest != [] && !StartsWell(rest)
    ensures !IsText(b)
  {
    forall vs | AllAllowed(vs) ensures EncodeAll(vs) != b {
      if EncodeAll(vs) == b {
        UniqueSplit(vs, cs, rest);
        TextStartsWell(vs[|cs|..]);
      }
    }
  }

  datatype Decoded = Char(v: CodePoint) | NeedMore | BadChar

  class Reader {
    const input: Bytes
    var inputPos: nat
    var eof: bool
    var rawBuffer: Bytes
    var rawPos: nat
    const buffer: array<Byte>
    var bufferLen: nat
    var bufferPos: nat
    var unread: nat
    var encoding: Encoding
    var failed: bool
    ghost var chars: seq<CodePoint>  // every character decoded so far
    ghost var used: nat              // how many of them, and of the NUL, the scanner has consumed
    ghost var ended: bool            // whether the NUL has been appended

    /** The raw bytes not yet decoded, and those not yet read. */
    ghost function Ahead(): Bytes
      requires inputPos <= |input| && rawPos <= |rawBuffer|
      reads this
    {
      rawBuffer[rawPos..] + input[inputPos..]
    }

    /** What has been handed over: the decoded characters, then NUL. */
    ghost function Seen(): seq<CodePoint>
      reads this
    {
      chars + if ended then [0] else []
    }

    ghost predicate RawOk()
      reads this
    {
      && inputPos <= |input| && (eof ==> inputPos == |input|)
      && rawPos <= |rawBuffer| <= RAW_SIZE
      && (encoding.AnyEncoding? ==> chars == [] && !ended && used == 0 && rawPos == 0 && Ahead() == input)
      && (encoding.Utf8Encoding? ==> Body(input) == EncodeAll(chars) + Ahead() && !Utf16Bom(input))
      && (encoding.Utf16Encoding? ==> Utf16Bom(input) && chars == [])
      && AllAllowed(chars)
      && (ended ==> eof && rawPos == |rawBuffer| && encoding.Utf8Encoding?)
    }

    ghost predicate BufferOk()
      reads this, buffer
    {
      && buffer.Length == BUFFER_SIZE && bufferPos <= bufferLen <= BUFFER_SIZE
      && used <= |Seen()| && unread == |Seen()| - used
      && buffer[bufferPos..bufferLen] == EncodeAll(Seen()[used..])
    }

    ghost predicate Core()
      reads this, buffer
    {
      && buffer.Length == BUFFER_SIZE
      && (!failed ==> RawOk() && BufferOk())
      && (failed ==> Utf16Bom(input) || !IsText(Body(input)))
    }

    /** On every run: what was handed over is the whole input's text, and a failure means it is not text. */
    ghost predicate Valid()
      reads this, buffer
    {
      Core() && (!failed ==> (eof <==> ended))
    }

    constructor (input: Bytes)
      ensures Valid() && !failed && this.input == input && chars == [] && !ended && used == 0 && fresh(buffer)
    {
      this.input := input;
      buffer := new Byte[BUFFER_SIZE](_ => 0);
      inputPos, eof, rawBuffer, rawPos := 0, false, [], 0;
      bufferLen, bufferPos, unread, encoding, failed := 0, 0, 0, AnyEncoding, false;
      chars, used, ended := [], 0, false;
    }

    /** At the end the scanner has been given exactly the text of the input, and then NUL. */
    lemma WholeInput()
      requires Valid() && !failed && ended
      ensures Body(input) == EncodeAll(chars) && AllAllowed(chars) && IsText(Body(input)) && !Utf16Bom(input)
    {
      assert Ahead() == [];
      assert EncodeAll(chars) + [] == EncodeAll(chars);
    }

    /** The scanner consumes one character. */
    method Skip()
      requires Valid() && !failed && unread > 0
      modifies this`unread, this`bufferPos, this`used
      ensures Valid() && used == old(used) + 1
    {
      hide Encode, EncodeAll, Body, Utf16Bom, AllAllowed, Allowed, IsText, Width;
      ghost var rest := Seen()[used..];
      NextInBuffer(buffer[bufferPos..bufferLen], rest);
      assert buffer[bufferPos] == buffer[bufferPos..bufferLen][0];
      unread := unread - 1;
      ghost var w := Width(buffer[bufferPos]);
      assert buffer[bufferPos..bufferLen][w..] == buffer[bufferPos + w..bufferLen];
      assert Seen()[used + 1..] == rest[1..];
      bufferPos := bufferPos + Width(buffer[bufferPos]);
      used := used + 1;
    }

    /** The scanner consumes one character and keeps it. */
    method Read(s: Bytes) returns (s': Bytes)
      requires Valid() && !failed && unread > 0
      modifies this`unread, this`bufferPos, this`used
      ensures Valid() && used == old(used) + 1 && old(used) < |Seen()|
      ensures s' == s + Encode(Seen()[old(used)])
    {
      hide Encode, EncodeAll, Body, Utf16Bom, AllAllowed, Allowed, IsText, Width;
      FirstInBuffer(buffer[bufferPos..bufferLen], Seen()[used..]);
      NextInBuffer(buffer[bufferPos..bufferLen], Seen()[used..]);
      var w := Width(buffer[bufferPos]);
      assert buffer[bufferPos..bufferLen][0] == buffer[bufferPos];
      s' := s + buffer[bufferPos..bufferPos + w];
      assert buffer[bufferPos..bufferPos + w] == buffer[bufferPos..bufferLen][..w];
      Skip();
    }

    /** The scanner reads characters up to the NUL: they are the whole text. */
    method ReadAll() returns (ok: bool, text: Bytes)
      requires Valid() && !failed && used == 0
      modifies this, buffer
      ensures !Utf16Bom(input) ==> (ok <==> IsText(Body(input)))
      ensures ok ==> text == Body(input)
    {
      hide Encode, EncodeAll, Body, IsText, Utf16Bom, Allowed, RawOk, BufferOk;
      text := [];
      NoneEncoded();
      while true
        invariant Valid() && !failed && used <= |chars| && text == EncodeAll(chars[..used])
        decreases |input| - used
      {
        ghost var before := chars;
        ok := UpdateBuffer(1);
        if !ok { return; }
        assert chars[..used] == before[..used];
        AtHead();
        if buffer[bufferPos] == 0 { break; }
        assert chars[..used + 1] == chars[..used] + [chars[used]];
        EncodeAllSnoc(chars[..used], chars[used]);
        text := Read(text);
      }
      WholeInput();
      assert chars[..used] == chars;
    }

    /** The next byte is NUL exactly at the end of the text. */
    lemma AtHead()
      requires Valid() && !failed && used <= |chars| && (unread >= 1 || ended)
      ensures unread > 0 && bufferPos < buffer.Length && used < |Seen()| && |chars| <= |input|
      ensures buffer[bufferPos] == 0 <==> used == |chars| && ended
      ensures used < |chars| ==> Seen()[used] == chars[used]
      ensures buffer[bufferPos] != 0 ==> used < |chars|
    {
      hide Encode, EncodeAll;
      FirstInBuffer(buffer[bufferPos..bufferLen], Seen()[used..]);
      FirstOctet(Seen()[used]);
      EncodedLength(chars);
    }

    /** Refill the raw buffer, after moving what is left of it to the front. */
    method UpdateRawBuffer()
      requires RawOk()
      modifies this`rawBuffer, this`rawPos, this`inputPos, this`eof
      ensures RawOk() && Ahead() == old(Ahead())
      ensures (old(rawPos) == 0 && |old(rawBuffer)| == RAW_SIZE) || old(eof) ==>
                rawBuffer == old(rawBuffer) && rawPos == old(rawPos) && inputPos == old(inputPos) && eof == old(eof)
      ensures !(old(rawPos) == 0 && |old(rawBuffer)| == RAW_SIZE) && !old(eof) ==>
                rawPos == 0 && (inputPos > old(inputPos) || (eof && rawBuffer == old(rawBuffer)[old(rawPos)..]))
      ensures inputPos >= old(inputPos) && |rawBuffer| - rawPos >= |old(rawBuffer)| - old(rawPos)
    {
      hide Encode, EncodeAll, Body, Utf16Bom, AllAllowed, Allowed;
      if rawPos == 0 && |rawBuffer| == RAW_SIZE { return; }
      if eof { return; }
      rawBuffer := rawBuffer[rawPos..];
      rawPos := 0;
      // The string read handler.
      if inputPos == |input| {
        eof := true;
      } else {
        var n := if RAW_SIZE - |rawBuffer| <= |input| - inputPos then RAW_SIZE - |rawBuffer| else |input| - inputPos;
        Refilled(rawBuffer, input, inputPos, n);
        rawBuffer := rawBuffer + input[inputPos..inputPos + n];
        inputPos := inputPos + n;
      }
      assert rawBuffer[0..] == rawBuffer;
    }

    method DetermineEncoding()
      requires RawOk() && encoding.AnyEncoding? && rawPos == 0
      modifies this`rawBuffer, this`rawPos, this`inputPos, this`eof, this`encoding
      ensures RawOk() && !encoding.AnyEncoding?
      ensures |input| - inputPos + (if eof then 0 else 1) <= old(|input| - inputPos + (if eof then 0 else 1))
    {
      hide Encode, EncodeAll, AllAllowed, Allowed;
      NoneEncoded();
      Prefetch();
      var avail := |rawBuffer| - rawPos;
      assert rawBuffer[0..] == rawBuffer && forall k | 0 <= k < avail :: input[k] == rawBuffer[k];
      assert avail < 3 ==> input == rawBuffer;
      if avail >= 2 && ((rawBuffer[0] == 0xFF && rawBuffer[1] == 0xFE) || (rawBuffer[0] == 0xFE && rawBuffer[1] == 0xFF)) {
        encoding := Utf16Encoding;
        rawPos := rawPos + 2;
      } else if avail >= 3 && rawBuffer[0] == 0xEF && rawBuffer[1] == 0xBB && rawBuffer[2] == 0xBF {
        encoding := Utf8Encoding;
        rawPos := rawPos + 3;
        assert Ahead() == input[3..];
        assert [] + Ahead() == Ahead();
      } else {
        encoding := Utf8Encoding;
        assert [] + Ahead() == Ahead();
      }
    }

    /** Read until three bytes are there or the input ends. */
    method Prefetch()
      requires RawOk() && encoding.AnyEncoding? && rawPos == 0
      modifies this`rawBuffer, this`rawPos, this`inputPos, this`eof
      ensures RawOk() && rawPos == 0 && (eof || |rawBuffer| >= 3)
      ensures |input| - inputPos + (if eof then 0 else 1) <= old(|input| - inputPos + (if eof then 0 else 1))
    {
      hide Encode, EncodeAll, Body, Utf16Bom, AllAllowed, Allowed;
      while !eof && |rawBuffer| - rawPos < 3
        invariant RawOk() && encoding.AnyEncoding? && rawPos == 0
        invariant |input| - inputPos + (if eof then 0 else 1) <= old(|input| - inputPos + (if eof then 0 else 1))
        decreases |input| - inputPos + if eof then 0 else 1
      {
        UpdateRawBuffer();
      }
    }

    /** Decode the character at the front of the raw buffer, without consuming it. */
    method DecodeNext() returns (d: Decoded)
      requires RawOk() && rawPos < |rawBuffer|
      ensures d.Char? ==> Allowed(d.v) && Encode(d.v) <= rawBuffer[rawPos..]
      ensures d.NeedMore? ==> !eof && |rawBuffer| - rawPos < 4
      ensures d.BadChar? ==> !StartsWell(Ahead())
    {
      hide Encode, EncodeAll, Body, Utf16Bom, AllAllowed, Allowed, StartsWell;
      var lead := rawBuffer[rawPos];
      var width := Width(lead);
      if width == 0 {
        NotWell(Ahead());
        return BadChar;
      }
      if width > |rawBuffer| - rawPos {
        if eof {
          assert Ahead() == rawBuffer[rawPos..];
          NotWell(Ahead());
          return BadChar;
        }
        return NeedMore;
      }
      var bs := rawBuffer[rawPos..rawPos + width];
      assert bs == Ahead()[..width] && bs == rawBuffer[rawPos..][..width];
      var value := LeadBits(lead);
      assert bs[..1] == [lead];
      var k := 1;
      while k < width
        invariant 1 <= k <= width && value == Value(bs[..k])
        invariant forall j | 1 <= j < k :: IsTrail(bs[j])
      {
        var octet := rawBuffer[rawPos + k];
        assert octet == bs[k];
        if !IsTrail(octet) {
          NotWell(Ahead());
          return BadChar;
        }
        assert bs[..k + 1][..k] == bs[..k];
        value := 64 * value + TrailBits(octet);
        k := k + 1;
      }
      assert bs[..width] == bs;
      if !LengthOk(width, value) || !IsScalarValue(value) || !Allowed(value) {
        NotWell(Ahead());
        return BadChar;
      }
      EncodedIsWellFormed(bs);
      return Char(value);
    }

    /** Move a decoded character from the raw buffer to the buffer. */
    method Store(v: CodePoint)
      requires RawOk() && BufferOk() && encoding.Utf8Encoding? && !ended
      requires Allowed(v) && rawPos < |rawBuffer| && Encode(v) <= rawBuffer[rawPos..]
      requires bufferLen + |Encode(v)| <= BUFFER_SIZE
      modifies this`rawPos, this`bufferLen, this`unread, this`chars, buffer
      ensures RawOk() && BufferOk() && chars == old(chars) + [v] && unread == old(unread) + 1
      ensures rawPos - old(rawPos) == bufferLen - old(bufferLen) == |Encode(v)|
    {
      hide Encode, EncodeAll, Body, Utf16Bom, AllAllowed, Allowed;
      var bs := Encode(v);
      AllowedOneMore(chars, v);
      DecodedOne(Body(input), chars, rawBuffer, rawPos, input[inputPos..], v);
      SeenOneMore(chars, used, v);
      assert Seen() == chars;
      rawPos := rawPos + |bs|;
      StoreBytes(bs);
      chars := chars + [v];
      unread := unread + 1;
      assert Seen() == chars;
    }

    /** Append bytes to the buffer. */
    method StoreBytes(bs: Bytes)
      requires buffer.Length == BUFFER_SIZE && bufferPos <= bufferLen && bufferLen + |bs| <= BUFFER_SIZE
      modifies this`bufferLen, buffer
      ensures bufferLen == old(bufferLen) + |bs|
      ensures buffer[bufferPos..bufferLen] == old(buffer[bufferPos..bufferLen]) + bs
    {
      var k, n := 0, bufferLen;
      ghost var text := buffer[bufferPos..n];
      bufferLen := n + |bs|;
      while k < |bs|
        invariant 0 <= k <= |bs| && bufferLen == n + |bs|
        invariant buffer[bufferPos..n + k] == text + bs[..k]
      {
        buffer[n + k] := bs[k];
        assert buffer[bufferPos..n + k + 1] == text + bs[..k] + [bs[k]];
        k := k + 1;
      }
    }

    /** Move the unread characters to the front of the buffer. */
    method MoveToFront()
      requires BufferOk()
      modifies this`bufferLen, this`bufferPos, buffer
      ensures BufferOk() && bufferPos == 0 && bufferLen == old(bufferLen) - old(bufferPos)
    {
      var n, from := bufferLen - bufferPos, bufferPos;
      ghost var text := buffer[bufferPos..bufferLen];
      forall i | 0 <= i < n { buffer[i] := buffer[from + i]; }
      bufferLen, bufferPos := n, 0;
      assert buffer[0..n] == text;
    }

    /** Decode the whole raw buffer, up to an incomplete character at its end. */
    method DecodeRawBuffer()
      requires Core() && !failed && encoding.Utf8Encoding? && !ended && bufferPos == 0
      requires bufferLen + (|rawBuffer| - rawPos) <= BUFFER_SIZE
      modifies this`rawPos, this`bufferLen, this`unread, this`chars, this`failed, buffer
      ensures Core() && encoding.Utf8Encoding? && !ended
      ensures !failed ==> bufferLen + (|rawBuffer| - rawPos) == old(bufferLen + (|rawBuffer| - rawPos))
      ensures !failed ==> unread >= old(unread) && rawPos >= old(rawPos) && old(chars) <= chars
      ensures !failed ==> rawPos == |rawBuffer| || (!eof && |rawBuffer| - rawPos < 4)
    {
      hide Encode, EncodeAll, Body, Utf16Bom, AllAllowed, Allowed, IsText, StartsWell;
      while rawPos != |rawBuffer|
        invariant RawOk() && BufferOk() && !failed && unread >= old(unread) && rawPos >= old(rawPos) && old(chars) <= chars
        invariant bufferLen + (|rawBuffer| - rawPos) == old(bufferLen + (|rawBuffer| - rawPos))
        decreases |rawBuffer| - rawPos
      {
        var d := DecodeNext();
        match d {
          case Char(v) =>
            assert |Encode(v)| <= |rawBuffer| - rawPos;
            Store(v);
          case NeedMore => return;
          case BadChar =>
            StuckIsNotText(Body(input), chars, Ahead());
            failed := true;
            return;
        }
      }
    }

    /** Ensure that `length` characters are in the buffer, or all there are and the final NUL. */
    method UpdateBuffer(length: nat) returns (ok: bool)
      requires Valid() && !failed && length <= MAX_REQUEST
      modifies this, buffer
      ensures Valid() && (ok <==> !failed)
      ensures ok ==> unread >= length || ended
      ensures ok ==> used == old(used) && old(chars) <= chars
    {
      hide EncodeAll;
      if eof && rawPos == |rawBuffer| { return true; }
      if unread >= length { return true; }
      if encoding.AnyEncoding? {
        DetermineEncoding();
      }
      if encoding.Utf16Encoding? {
        failed := true;
        return false;
      }
      MoveToFront();
      assert RawOk() && !ended && unread < length;
      ok := Fill(length);
    }

    /** Reading to the end succeeds exactly on text, whatever the size of the requests. */
    method ReadToEnd(request: nat) returns (ok: bool)
      requires Valid() && !failed && 1 <= request <= MAX_REQUEST
      modifies this, buffer
      ensures Valid()
      ensures !Utf16Bom(input) ==> (ok <==> IsText(Body(input)))
      ensures ok ==> ended && Body(input) == EncodeAll(chars)
    {
      hide EncodeAll, IsText;
      EncodedLength(chars);
      while !eof
        invariant Valid() && !failed && used <= |input| + 1
        decreases |input| + 1 - used, !eof
      {
        ok := UpdateBuffer(request);
        if !ok { return; }
        EncodedLength(chars);
        if !eof { Skip(); }
      }
      WholeInput();
      ok := true;
    }

    method Fill(length: nat) returns (ok: bool)
      requires unread < length && Core() && !failed && length <= MAX_REQUEST && encoding.Utf8Encoding? && !ended && bufferPos == 0
      modifies this, buffer
      ensures Valid() && (ok <==> !failed)
      ensures ok ==> unread >= length || ended
      ensures ok ==> used == old(used) && old(chars) <= chars
    {
      hide EncodeAll, IsText, BufferOk;
      var first := true;
      while unread < length
        invariant Core() && !failed && encoding.Utf8Encoding? && !ended && bufferPos == 0
        invariant used == old(used) && old(chars) <= chars
        invariant (first ==> unread < length) && (!first ==> !eof)
        invariant !first ==> rawPos == |rawBuffer| || (!eof && |rawBuffer| - rawPos < 4)
        decreases |input| - inputPos + (if eof then 0 else 1), first
      {
        FillOnce(!first || rawPos == |rawBuffer|);
        first := false;
        if failed { return false; }
        if eof {
          AppendNul();
          return true;
        }
      }
      return true;
    }

    /** One round: read more input if asked to, then decode all of it. */
    method FillOnce(refill: bool)
      requires Core() && !failed && encoding.Utf8Encoding? && !ended && bufferPos == 0 && unread < MAX_REQUEST
      requires refill ==> rawPos == |rawBuffer| || (!eof && |rawBuffer| - rawPos < 4)
      modifies this`rawBuffer, this`rawPos, this`inputPos, this`eof, this`bufferLen, this`unread, this`chars, this`failed, buffer
      ensures Core() && encoding.Utf8Encoding? && !ended && bufferPos == 0
      ensures !failed ==> old(chars) <= chars && bufferLen < BUFFER_SIZE
      ensures !failed ==> rawPos == |rawBuffer| || (!eof && |rawBuffer| - rawPos < 4)
      ensures |input| - inputPos + (if eof then 0 else 1) <= old(|input| - inputPos + (if eof then 0 else 1))
      ensures refill && !old(eof) ==> |input| - inputPos + (if eof then 0 else 1) < old(|input| - inputPos + (if eof then 0 else 1))
    {
      hide EncodeAll, IsText;
      EncodedLength(Seen()[used..]);
      if refill { UpdateRawBuffer(); }
      DecodeRawBuffer();
    }

    /** On end of file, put NUL into the buffer. */
    method AppendNul()
      requires Core() && !failed && encoding.Utf8Encoding? && !ended && eof && rawPos == |rawBuffer| && bufferLen < BUFFER_SIZE
      modifies this`bufferLen, this`unread, this`ended, buffer
      ensures Valid() && ended
    {
      hide EncodeAll, IsText;
      SeenOneMore(chars, used, 0);
      assert Seen() == chars;
      StoreBytes([0]);
      unread := unread + 1;
      ended := true;
      NulEncoded();
    }
  }

  lemma Refilled(raw: Bytes, input: Bytes, pos: nat, n: nat)
    requires pos + n <= |input|
    ensures raw + input[pos..] == (raw + input[pos..pos + n]) + input[pos + n..]
  {
    assert input[pos..] == input[pos..pos + n] + input[pos + n..];
  }

  lemma NoneEncoded()
    ensures EncodeAll([]) == []
  {
  }

  lemma NulEncoded()
    ensures Encode(0) == [0]
  {
  }

  /** The buffer starts with the bytes of the next character. */
  lemma NextInBuffer(text: Bytes, rest: seq<CodePoint>)
    requires text == EncodeAll(rest) && rest != []
    ensures text != [] && Width(text[0]) <= |text| && text[Width(text[0])..] == EncodeAll(rest[1..])
  {
    hide Encode;
    assert text == Encode(rest[0]) + EncodeAll(rest[1..]);
  }

  lemma FirstInBuffer(text: Bytes, rest: seq<CodePoint>)
    requires text == EncodeAll(rest) && rest != []
    ensures text != [] && Width(text[0]) <= |text| && text[..Width(text[0])] == Encode(rest[0]) && text[0] == Encode(rest[0])[0]
  {
    hide Encode;
    assert text == Encode(rest[0]) + EncodeAll(rest[1..]);
  }

  lemma FirstOctet(v: CodePoint)
    ensures Encode(v)[0] == 0 <==> v == 0
  {
    assert IsScalarValue(v);
  }

  lemma {:induction false} EncodedLength(vs: seq<CodePoint>)
    ensures |vs| <= |EncodeAll(vs)| <= 4 * |vs|
  {
    hide Encode;
    if vs != [] { EncodedLength(vs[1..]); }
  }

  /** Bytes whose first character is malformed or not allowed start no allowed character. */
  lemma NotWell(b: Bytes)
    requires b != []
    requires var w := Width(b[0]);
             w == 0 || w > |b| || !WellFormedChar(b[..w]) || !Allowed(Value(b[..w]))
    ensures !StartsWell(b)
  {
    forall v: CodePoint | Allowed(v) ensures !(Encode(v) <= b) {
      if Encode(v) <= b { EncodedPrefix(v, b); }
    }
  }

  lemma EncodedPrefix(v: CodePoint, b: Bytes)
    requires Encode(v) <= b
    ensures b != [] && Width(b[0]) == |Encode(v)| <= |b|
    ensures WellFormedChar(b[..Width(b[0])]) && Value(b[..Width(b[0])]) == v
  {
    hide Encode;
    ValueOfEncoded(v);
    assert Encode(v)[0] == b[0] && b[..|Encode(v)|] == Encode(v);
  }

  /** Decoding one character moves its bytes from the text ahead to the text decoded. */
  lemma DecodedOne(body: Bytes, chars: seq<CodePoint>, raw: Bytes, pos: nat, rest: Bytes, v: CodePoint)
    requires pos <= |raw| && body == EncodeAll(chars) + (raw[pos..] + rest) && Encode(v) <= raw[pos..]
    ensures body == EncodeAll(chars + [v]) + (raw[pos + |Encode(v)|..] + rest)
  {
    hide Encode, EncodeAll;
    var bs := Encode(v);
    EncodeAllSnoc(chars, v);
    assert raw[pos..] == bs + raw[pos + |bs|..];
    assert EncodeAll(chars) + (bs + raw[pos + |bs|..] + rest) == EncodeAll(chars) + bs + (raw[pos + |bs|..] + rest);
  }

  lemma AllowedOneMore(vs: seq<CodePoint>, v: CodePoint)
    requires AllAllowed(vs) && Allowed(v)
    ensures AllAllowed(vs + [v])
  {
  }

  lemma SeenOneMore(seen: seq<CodePoint>, used: nat, v: CodePoint)
    requires used <= |seen|
    ensures EncodeAll((seen + [v])[used..]) == EncodeAll(seen[used..]) + Encode(v)
  {
    hide Encode, EncodeAll;
    assert (seen + [v])[used..] == seen[used..] + [v];
    EncodeAllSnoc(seen[used..], v);
  }
}
