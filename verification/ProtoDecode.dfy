/**
 * Decoding messages, and what decoding makes of an encoding: the message
 * itself, with an unset required field reported where the decoder looks.
 */
module ProtoDecode {
  import opened Wrappers
  import opened ProtoWire
  import opened ProtoMessage

  /** The decoder's book-keeping about required fields while it reads one message. */
  datatype Progress = Progress(required: int, seen: set<nat>, missing: bool)

  /** What reading one message gives; `missing` is the required-field-not-set error. */
  datatype Outcome =
    | Done(msg: Msg, missing: bool, rest: Bytes)
    | Fail(error: Error)

  datatype SlotRead =
    | Got(slot: Slot, missing: bool, rest: Bytes)
    | Failed(error: Error)

  // ---------------------------------------------------------------- unknown bytes

  lemma SkipStaysLocal(a: Bytes, wire: nat, t: Bytes)
    requires Skip(a, wire).Ok?
    ensures Skip(a + t, wire) == Ok((), Skip(a, wire).rest + t)
  {
    hide Skip;
    var p := SkipSound(a, wire);
    var r := Skip(a, wire).rest;
    assert a + t == Flatten(p) + (r + t);
    SkipComplete(p, r + t);
  }

  lemma {:induction false} UnknownFieldsAppend(fields: seq<Field>, a: Bytes, b: Bytes)
    requires UnknownFields(fields, a) && UnknownFields(fields, b)
    ensures UnknownFields(fields, a + b)
    decreases |a|
  {
    hide ReadVarint, Skip, Varint;
    if a == [] {
      assert a + b == b;
    } else {
      var u, rest := ReadVarint(a).value, ReadVarint(a).rest;
      VarintRoundTrip(u, rest + b);
      assert a + b == Varint(u) + (rest + b);
      SkipStaysLocal(rest, u % 8, b);
      UnknownFieldsAppend(fields, Skip(rest, u % 8).rest, b);
    }
  }

  lemma SavedIsUnknown(fields: seq<Field>, u: Word64, after: Bytes)
    requires u / 8 > 0 && u % 8 != WIRE_END_GROUP && FindField(fields, u / 8, 0).None?
    requires Skip(after, u % 8).Ok?
    ensures UnknownFields(fields, Saved(u, after, Skip(after, u % 8).rest))
  {
    hide ReadVarint, Skip, Varint, UnknownFields;
    var rest := Skip(after, u % 8).rest;
    var p := SkipSound(after, u % 8);
    var payload := after[..|after| - |rest|];
    assert payload == Flatten(p);
    SkipComplete(p, []);
    assert payload + [] == payload;
    VarintRoundTrip(u, payload);
    assert UnknownFields(fields, []) by { UnknownNone(fields); }
    UnknownOne(fields, u, payload);
  }

  lemma UnknownNone(fields: seq<Field>)
    ensures UnknownFields(fields, [])
  {
  }

  lemma UnknownOne(fields: seq<Field>, u: Word64, payload: Bytes)
    requires u / 8 > 0 && u % 8 != WIRE_END_GROUP && FindField(fields, u / 8, 0).None?
    requires ReadVarint(Varint(u) + payload) == Ok(u, payload)
    requires Skip(payload, u % 8).Ok? && UnknownFields(fields, Skip(payload, u % 8).rest)
    ensures UnknownFields(fields, Varint(u) + payload)
  {
    hide ReadVarint, Skip, Varint;
  }

  // ---------------------------------------------------------------- reading one field

  predicate Singular(mode: Label) {
    !mode.Repeated? && !mode.Packed?
  }

  /** A singular field is overwritten, a repeated one grows. */
  function Store(mode: Label, values: seq<Value>, v: Value): (after: seq<Value>)
    ensures Fits(mode, after)
    ensures forall j :: 0 <= j < |after| ==> after[j] == v || after[j] in values
  {
    if !Singular(mode) then values + [v]
    else if mode.Implicit? && IsZero(v) then []
    else [v]
  }

  /** Appends exactly `n` scalars. */
  function ReadCount(word: Word, coder: Coder, values: seq<Value>, n: nat, s: Bytes): (r: Read<seq<Value>>)
    requires forall j :: 0 <= j < |values| ==> values[j].Num? && InRange(word, values[j].n)
    ensures r.Ok? ==> Tail(r.rest, s)
    ensures r.Ok? ==> forall j :: 0 <= j < |r.value| ==> r.value[j].Num? && InRange(word, r.value[j].n)
    decreases n
  {
    if n == 0 then Ok(values, s)
    else
      match ReadScalar(coder, s)
      case Err(e) => Err(e)
      case Ok(u, rest) => ReadCount(word, coder, values + [Num(Narrow(word, u))], n - 1, rest)
  }

  /** Appends scalars until at most `stop` bytes are left. */
  function ReadUntil(word: Word, coder: Coder, values: seq<Value>, stop: int, s: Bytes): (r: Read<seq<Value>>)
    requires forall j :: 0 <= j < |values| ==> values[j].Num? && InRange(word, values[j].n)
    ensures r.Ok? ==> Tail(r.rest, s)
    ensures r.Ok? ==> forall j :: 0 <= j < |r.value| ==> r.value[j].Num? && InRange(word, r.value[j].n)
    decreases |s|
  {
    if |s| <= stop then Ok(values, s)
    else
      match ReadScalar(coder, s)
      case Err(e) => Err(e)
      case Ok(u, rest) => ReadUntil(word, coder, values + [Num(Narrow(word, u))], stop, rest)
  }

  /**
   * A packed field: a length, then scalars back to back. The length counts
   * booleans; for the other words it counts bytes, and one past the top of
   * the signed range is refused.
   */
  function ReadPacked(word: Word, coder: Coder, values: seq<Value>, s: Bytes): (r: Read<seq<Value>>)
    requires forall j :: 0 <= j < |values| ==> values[j].Num? && InRange(word, values[j].n)
    ensures r.Ok? ==> Tail(r.rest, s)
    ensures r.Ok? ==> forall j :: 0 <= j < |r.value| ==> r.value[j].Num? && InRange(word, r.value[j].n)
  {
    match ReadVarint(s)
    case Err(e) => Err(e)
    case Ok(n, rest) =>
      if word.Bool? then ReadCount(word, coder, values, if n >= TWO_63 then 0 else n, rest)
      else if n >= TWO_63 then Err(Overflow)
      else ReadUntil(word, coder, values, |rest| - n, rest)
  }

  /** What a singular message field merges into, or a new element starts from. */
  function Base(S: Schema, id: nat, mode: Label, values: seq<Value>): (m: Msg)
    requires id < |S|
    requires forall j :: 0 <= j < |values| ==> values[j].Sub? && Shaped(S, id, values[j].m)
    ensures Shaped(S, id, m)
  {
    if Singular(mode) && values != [] then values[0].m else Empty(S, id)
  }

  function Start(d: Descriptor): Progress {
    Progress(RequiredFrom(d.fields, 0), {}, false)
  }

  function RequiredFrom(fields: seq<Field>, i: nat): (n: nat)
    requires i <= |fields|
    decreases |fields| - i
  {
    if i == |fields| then 0
    else (if fields[i].mode.Required? then 1 else 0) + RequiredFrom(fields, i + 1)
  }

  /** A required field was read: tags up to 64 are counted once, larger ones every time. */
  function Tally(p: Progress, f: Field, missing: bool): Progress {
    var q := p.(missing := p.missing || missing);
    if !f.mode.Required? then q
    else if f.tag <= 64 then
      if f.tag in p.seen then q else q.(seen := p.seen + {f.tag}, required := p.required - 1)
    else q.(required := p.required - 1)
  }

  /** The wire type on the wire is one the field's decoder takes as it is. */
  predicate TakesWire(f: Field, wire: nat) {
    wire == WIRE_START_GROUP || wire == WireType(f.typ)
  }

  predicate Packable(f: Field) {
    !Singular(f.mode) && f.typ.Scalar?
  }

  // ---------------------------------------------------------------- the decoder

  function DecodeSlot(S: Schema, f: Field, slot: Slot, wire: nat, s: Bytes): (o: SlotRead)
    requires GoodSchema(S) && GoodField(|S|, f) && ShapedSlot(S, f, slot)
    ensures o.Got? ==> ShapedSlot(S, f, o.slot) && Tail(o.rest, s)
    decreases |s|, 2
  {
    assert forall j :: 0 <= j < |slot.values| ==> ShapedValue(S, f.typ, slot.values[j]);
    if !TakesWire(f, wire) then
      if wire == WIRE_BYTES && Packable(f) then
        match ReadPacked(f.typ.word, f.typ.coder, slot.values, s)
        case Err(e) => Failed(e)
        case Ok(values, rest) => Got(Slot(values), false, rest)
      else Failed(BadWireType)
    else
      match f.typ
      case Scalar(word, coder) =>
        (match ReadScalar(coder, s)
         case Err(e) => Failed(e)
         case Ok(u, rest) => Got(Slot(Store(f.mode, slot.values, Num(Narrow(word, u)))), false, rest))
      case Text =>
        (match ReadDelimited(s)
         case Err(e) => Failed(e)
         case Ok(b, rest) => Got(Slot(Store(f.mode, slot.values, Data(b))), false, rest))
      case Message(id) =>
        (match ReadDelimited(s)
         case Err(e) => Failed(e)
         case Ok(raw, rest) =>
           match Unmarshal(S, id, false, Base(S, id, f.mode, slot.values), Start(S[id]), raw)
           case Fail(e) => Failed(e)
           case Done(m, missing, _) => Got(Slot(Store(f.mode, slot.values, Sub(m))), missing, rest))
      case Group(id) =>
        match Unmarshal(S, id, true, Base(S, id, f.mode, slot.values), Start(S[id]), s)
        case Fail(e) => Failed(e)
        case Done(m, missing, rest) => Got(Slot(Store(f.mode, slot.values, Sub(m))), missing, rest)
  }

  /** The loop that reads fields into `m` until the input, or the group, ends. */
  function Unmarshal(S: Schema, t: nat, isGroup: bool, m: Msg, p: Progress, s: Bytes): (o: Outcome)
    requires GoodSchema(S) && Shaped(S, t, m)
    ensures o.Done? ==> Shaped(S, t, o.msg) && Tail(o.rest, s)
    decreases |s|, 1
  {
    hide ReadVarint, Skip, Shaped, ShapedSlot, Tally, UnknownFields;
    if s == [] then
      if isGroup then Fail(UnexpectedEof) else Done(m, p.missing || p.required > 0, [])
    else
      match ReadVarint(s)
      case Err(e) => Fail(e)
      case Ok(u, rest) =>
        if u % 8 == WIRE_END_GROUP then
          if isGroup then Done(m, false, rest) else Fail(EndGroupOutsideGroup)
        else if u / 8 == 0 then Fail(IllegalTag)
        else
          match FindField(S[t].fields, u / 8, 0)
          case None =>
            (match Skip(rest, u % 8)
             case Err(e) => Fail(e)
             case Ok(_, after) => Unmarshal(S, t, isGroup, Remember(S, t, m, u, rest), p, after))
          case Some(i) =>
            match DecodeSlot(S, S[t].fields[i], m.slots[i], u % 8, rest)
            case Failed(e) => Fail(e)
            case Got(slot, missing, after) =>
              Unmarshal(S, t, isGroup, Put(S, t, m, i, slot), Tally(p, S[t].fields[i], missing), after)
  }

  function Put(S: Schema, t: nat, m: Msg, i: nat, slot: Slot): (r: Msg)
    requires Shaped(S, t, m) && i < |m.slots| && ShapedSlot(S, S[t].fields[i], slot)
    ensures Shaped(S, t, r)
  {
    m.(slots := m.slots[i := slot])
  }

  /** Appends a skipped field to the unknown bytes, where the message type keeps them. */
  function Remember(S: Schema, t: nat, m: Msg, u: Word64, after: Bytes): (r: Msg)
    requires Shaped(S, t, m)
    requires u / 8 > 0 && u % 8 != WIRE_END_GROUP && FindField(S[t].fields, u / 8, 0).None?
    requires Skip(after, u % 8).Ok?
    ensures Shaped(S, t, r)
  {
    if !S[t].keepsUnknown then m
    else
      var saved := Saved(u, after, Skip(after, u % 8).rest);
      SavedIsUnknown(S[t].fields, u, after);
      UnknownFieldsAppend(S[t].fields, m.unknown, saved);
      m.(unknown := m.unknown + saved)
  }
}
