/**
 * The bytes the repository's own tests expect of a message with a required
 * field of every type, and of packed fields: the model writes exactly these.
 */
module ProtoGolden {
  import opened Wrappers
  import opened ProtoWire
  import opened ProtoMessage

  const LABEL: Bytes := [0x6C, 0x61, 0x62, 0x65, 0x6C]
  const TYPE: Bytes := [0x74, 0x79, 0x70, 0x65]
  const STRING: Bytes := [0x73, 0x74, 0x72, 0x69, 0x6E, 0x67]
  const REQUIRED: Bytes := [0x72, 0x65, 0x71, 0x75, 0x69, 0x72, 0x65, 0x64]
  const BYTES: Bytes := [0x62, 0x79, 0x74, 0x65, 0x73]

  function Needed(tag: nat, typ: Type): Field { Field(tag, Required, typ) }

  /** The test message, the message in its field 4 and the group in its field 70. */
  const TEST: Descriptor := Descriptor([
    Needed(1, Scalar(Int32, AsVarint)),
    Needed(4, Message(1)),
    Needed(10, Scalar(Bool, AsVarint)),
    Needed(11, Scalar(Int32, AsVarint)),
    Needed(12, Scalar(Int64, AsVarint)),
    Needed(13, Scalar(Uint32, AsFixed32)),
    Needed(14, Scalar(Int64, AsFixed64)),
    Needed(15, Scalar(Uint32, AsVarint)),
    Needed(16, Scalar(Int64, AsVarint)),
    Needed(17, Scalar(Uint32, AsFixed32)),
    Needed(18, Scalar(Int64, AsFixed64)),
    Needed(19, Text),
    Needed(70, Group(2)),
    Needed(101, Text),
    Needed(102, Scalar(Int32, AsZigzag32)),
    Needed(103, Scalar(Int64, AsZigzag64))
  ], true)

  const PARTS: seq<Descriptor> := [
    Descriptor([Needed(1, Text), Needed(2, Text)], true),
    Descriptor([Needed(71, Text)], true)
  ]

  const SCHEMA: Schema := [TEST] + PARTS

  const TEST_FIELD := Msg([Slot([Data(LABEL)]), Slot([Data(TYPE)])], [])
  const GROUP := Msg([Slot([Data(REQUIRED)])], [])

  const VALUES: seq<Value> := [
    Num(7),
    Sub(TEST_FIELD),
    Num(1),
    Num(3),
    Num(6),
    Num(32),
    Num(64),
    Num(3232),
    Num(6464),
    Num(0x454A_0000),
    Num(0x40B9_4000_0000_0000),
    Data(STRING),
    Sub(GROUP),
    Data(BYTES),
    Num(TWO_32 - 32),
    Num(TWO_64 - 64)
  ]

  const MESSAGE := Msg(seq(16, i requires 0 <= i < 16 => Slot([VALUES[i]])), [])

  /** Field by field, as the test has them. */
  const EXPECTED: seq<Bytes> := [
    [0x08, 0x07],
    [0x22, 0x0D, 0x0A, 0x05, 0x6C, 0x61, 0x62, 0x65, 0x6C, 0x12, 0x04, 0x74, 0x79, 0x70, 0x65],
    [0x50, 0x01],
    [0x58, 0x03],
    [0x60, 0x06],
    [0x6D, 0x20, 0x00, 0x00, 0x00],
    [0x71, 0x40, 0x00, 0x00, 0x00, 0x00, 0x00, 0x00, 0x00],
    [0x78, 0xA0, 0x19],
    [0x80, 0x01, 0xC0, 0x32],
    [0x8D, 0x01, 0x00, 0x00, 0x4A, 0x45],
    [0x91, 0x01, 0x00, 0x00, 0x00, 0x00, 0x00, 0x40, 0xB9, 0x40],
    [0x9A, 0x01, 0x06, 0x73, 0x74, 0x72, 0x69, 0x6E, 0x67],
    [0xB3, 0x04, 0xBA, 0x04, 0x08, 0x72, 0x65, 0x71, 0x75, 0x69, 0x72, 0x65, 0x64, 0xB4, 0x04],
    [0xAA, 0x06, 0x05, 0x62, 0x79, 0x74, 0x65, 0x73],
    [0xB0, 0x06, 0x3F],
    [0xB8, 0x06, 0x7F]
  ]

  function Joined(bs: seq<Bytes>, i: nat): Bytes
    requires i <= |bs|
    decreases |bs| - i
  {
    if i == |bs| then [] else bs[i] + Joined(bs, i + 1)
  }

  lemma SchemaGood()
    ensures GoodSchema(SCHEMA)
  {
    assert SCHEMA[0] == TEST && SCHEMA[1] == PARTS[0] && SCHEMA[2] == PARTS[1];
    TestGood();
    assert GoodDescriptor(3, PARTS[0]);
    assert GoodDescriptor(3, PARTS[1]);
  }

  lemma TestGood()
    ensures GoodDescriptor(3, TEST)
  {
    hide GoodField;
    forall i | 0 <= i < 16 ensures GoodField(3, TEST.fields[i]) {
      FieldGood(i);
    }
    forall i, j | 0 <= i < j < 16 ensures TEST.fields[i].tag < TEST.fields[j].tag {
      TagsRise(i, j);
    }
  }

  lemma {:induction false} TagsRise(i: nat, j: nat)
    requires i < j < 16
    ensures TEST.fields[i].tag < TEST.fields[j].tag
    decreases j - i
  {
    if i + 1 < j { TagsRise(i + 1, j); }
  }

  lemma PartsShaped()
    ensures Shaped(SCHEMA, 1, TEST_FIELD) && Shaped(SCHEMA, 2, GROUP)
  {
    assert SCHEMA[1] == PARTS[0] && SCHEMA[2] == PARTS[1];
    assert ShapedValue(SCHEMA, Text, Data(LABEL)) && ShapedValue(SCHEMA, Text, Data(TYPE)) && ShapedValue(SCHEMA, Text, Data(REQUIRED));
    assert ShapedSlot(SCHEMA, SCHEMA[1].fields[0], TEST_FIELD.slots[0]);
    assert ShapedSlot(SCHEMA, SCHEMA[1].fields[1], TEST_FIELD.slots[1]);
    assert ShapedSlot(SCHEMA, SCHEMA[2].fields[0], GROUP.slots[0]);
  }

  lemma ValueShaped(i: nat)
    requires i < 16
    ensures ShapedValue(SCHEMA, TEST.fields[i].typ, VALUES[i])
  {
    PartsShaped();
  }

  lemma MessageShaped()
    ensures Shaped(SCHEMA, 0, MESSAGE)
  {
    hide ShapedValue;
    assert SCHEMA[0] == TEST;
    forall i | 0 <= i < 16 ensures ShapedSlot(SCHEMA, SCHEMA[0].fields[i], MESSAGE.slots[i]) {
      ValueShaped(i);
    }
  }

  /** A slot with one value. */
  lemma OneValue(f: Field, v: Value)
    requires GoodSchema(SCHEMA) && GoodField(3, f) && f.mode.Required? && ShapedValue(SCHEMA, f.typ, v)
    ensures |SCHEMA| == 3 && ShapedSlot(SCHEMA, f, Slot([v])) && EncodeSlot(SCHEMA, f, Slot([v])) == EncodeValue(SCHEMA, f, v)
  {
    hide EncodeValue;
    assert EncodeValues(SCHEMA, f, Slot([v]), 1) == [];
    assert EncodeValues(SCHEMA, f, Slot([v]), 0) == EncodeValue(SCHEMA, f, v) + [];
  }

  lemma PartsEncoded()
    requires GoodSchema(SCHEMA) && Shaped(SCHEMA, 1, TEST_FIELD) && Shaped(SCHEMA, 2, GROUP)
    ensures Encode(SCHEMA, 1, TEST_FIELD) == [0x0A, 0x05, 0x6C, 0x61, 0x62, 0x65, 0x6C, 0x12, 0x04, 0x74, 0x79, 0x70, 0x65]
    ensures Encode(SCHEMA, 2, GROUP) == [0xBA, 0x04, 0x08, 0x72, 0x65, 0x71, 0x75, 0x69, 0x72, 0x65, 0x64]
  {
    hide EncodeValue, EncodeSlot, Shaped, GoodSchema, ShapedValue, ShapedSlot;
    PartSlots();
    TextsEncoded();
    var a, b := EncodeSlots(SCHEMA, 1, TEST_FIELD, 1), EncodeSlots(SCHEMA, 1, TEST_FIELD, 0);
    assert EncodeSlots(SCHEMA, 1, TEST_FIELD, 2) == [];
    assert a == EncodeSlot(SCHEMA, Needed(2, Text), Slot([Data(TYPE)])) + [];
    assert b == EncodeSlot(SCHEMA, Needed(1, Text), Slot([Data(LABEL)])) + a;
    assert EncodeSlots(SCHEMA, 2, GROUP, 1) == [];
    assert EncodeSlots(SCHEMA, 2, GROUP, 0) == EncodeSlot(SCHEMA, Needed(71, Text), Slot([Data(REQUIRED)])) + [];
  }

  lemma PartSlots()
    requires GoodSchema(SCHEMA)
    ensures SCHEMA[1] == PARTS[0] && SCHEMA[2] == PARTS[1]
    ensures ShapedSlot(SCHEMA, Needed(1, Text), Slot([Data(LABEL)])) && ShapedSlot(SCHEMA, Needed(2, Text), Slot([Data(TYPE)]))
    ensures ShapedSlot(SCHEMA, Needed(71, Text), Slot([Data(REQUIRED)]))
    ensures GoodField(|SCHEMA|, Needed(1, Text)) && GoodField(|SCHEMA|, Needed(2, Text)) && GoodField(|SCHEMA|, Needed(71, Text))
    ensures EncodeSlot(SCHEMA, Needed(1, Text), Slot([Data(LABEL)])) == EncodeValue(SCHEMA, Needed(1, Text), Data(LABEL))
    ensures EncodeSlot(SCHEMA, Needed(2, Text), Slot([Data(TYPE)])) == EncodeValue(SCHEMA, Needed(2, Text), Data(TYPE))
    ensures EncodeSlot(SCHEMA, Needed(71, Text), Slot([Data(REQUIRED)])) == EncodeValue(SCHEMA, Needed(71, Text), Data(REQUIRED))
  {
    hide EncodeValue, EncodeSlot, GoodSchema, ShapedSlot;
    assert SCHEMA[1] == PARTS[0] && SCHEMA[2] == PARTS[1];
    OneValue(Needed(1, Text), Data(LABEL));
    OneValue(Needed(2, Text), Data(TYPE));
    OneValue(Needed(71, Text), Data(REQUIRED));
  }

  lemma TextsEncoded()
    requires GoodSchema(SCHEMA)
    ensures EncodeValue(SCHEMA, Needed(1, Text), Data(LABEL)) == [0x0A, 0x05, 0x6C, 0x61, 0x62, 0x65, 0x6C]
    ensures EncodeValue(SCHEMA, Needed(2, Text), Data(TYPE)) == [0x12, 0x04, 0x74, 0x79, 0x70, 0x65]
    ensures EncodeValue(SCHEMA, Needed(71, Text), Data(REQUIRED)) == [0xBA, 0x04, 0x08, 0x72, 0x65, 0x71, 0x75, 0x69, 0x72, 0x65, 0x64]
    ensures EncodeValue(SCHEMA, Needed(19, Text), Data(STRING)) == [0x9A, 0x01, 0x06, 0x73, 0x74, 0x72, 0x69, 0x6E, 0x67]
    ensures EncodeValue(SCHEMA, Needed(101, Text), Data(BYTES)) == [0xAA, 0x06, 0x05, 0x62, 0x79, 0x74, 0x65, 0x73]
  {
    TagCodes();
  }

  /** The keys of the fields used here. */
  lemma TagCodes()
    ensures Tagged(1, WIRE_VARINT) == [0x08]
    ensures Tagged(1, WIRE_BYTES) == [0x0A]
    ensures Tagged(2, WIRE_BYTES) == [0x12]
    ensures Tagged(4, WIRE_BYTES) == [0x22]
    ensures Tagged(10, WIRE_VARINT) == [0x50]
    ensures Tagged(11, WIRE_VARINT) == [0x58]
    ensures Tagged(12, WIRE_VARINT) == [0x60]
    ensures Tagged(13, WIRE_FIXED32) == [0x6D]
    ensures Tagged(14, WIRE_FIXED64) == [0x71]
    ensures Tagged(15, WIRE_VARINT) == [0x78]
    ensures Tagged(16, WIRE_VARINT) == [0x80, 0x01]
    ensures Tagged(17, WIRE_FIXED32) == [0x8D, 0x01]
    ensures Tagged(18, WIRE_FIXED64) == [0x91, 0x01]
    ensures Tagged(19, WIRE_BYTES) == [0x9A, 0x01]
    ensures Tagged(70, WIRE_START_GROUP) == [0xB3, 0x04]
    ensures Tagged(70, WIRE_END_GROUP) == [0xB4, 0x04]
    ensures Tagged(71, WIRE_BYTES) == [0xBA, 0x04]
    ensures Tagged(101, WIRE_BYTES) == [0xAA, 0x06]
    ensures Tagged(102, WIRE_VARINT) == [0xB0, 0x06]
    ensures Tagged(103, WIRE_VARINT) == [0xB8, 0x06]
  {
  }

  lemma VarintsWritten()
    ensures Varint(7) == [7] && Varint(1) == [1] && Varint(3) == [3] && Varint(6) == [6] && Varint(63) == [63] && Varint(127) == [127]
    ensures Varint(3232) == [0xA0, 0x19] && Varint(6464) == [0xC0, 0x32]
  {
  }

  lemma FixedWritten()
    ensures Fixed(32, 4) == [0x20, 0, 0, 0] && Fixed(0x454A_0000, 4) == [0, 0, 0x4A, 0x45]
    ensures Fixed(64, 8) == [0x40, 0, 0, 0, 0, 0, 0, 0]
    ensures Fixed(0x40B9_4000_0000_0000, 8) == [0, 0, 0, 0, 0, 0x40, 0xB9, 0x40]
  {
    hide Fixed;
    FixedTail(32, 4);
    FixedTail(0x454A_0000, 4);
    LongWritten();
    OtherWritten();
  }

  lemma LongWritten()
    ensures Fixed(64, 8) == [0x40, 0, 0, 0, 0, 0, 0, 0]
  {
    hide Fixed;
    FixedTail(64, 8);
    FixedTail(64, 4);
    FixedTail(0, 4);
  }

  lemma OtherWritten()
    ensures Fixed(0x40B9_4000_0000_0000, 8) == [0, 0, 0, 0, 0, 0x40, 0xB9, 0x40]
  {
    hide Fixed;
    var x := 0x40B9_4000_0000_0000;
    FixedTail(x, 8);
    FixedTail(x, 4);
    assert x / 256 / 256 / 256 / 256 == 0x40B9_4000;
    FixedTail(0x40B9_4000, 4);
  }

  lemma {:induction false} FixedTail(x: nat, k: nat)
    ensures k == 4 ==> Fixed(x, k) == [x % 256, x / 256 % 256, x / 256 / 256 % 256, x / 256 / 256 / 256 % 256]
    ensures k == 8 ==> Fixed(x, k) == Fixed(x, 4) + Fixed(x / 256 / 256 / 256 / 256, 4)
  {
    if k == 4 {
      var a, b, c := x / 256, x / 256 / 256, x / 256 / 256 / 256;
      assert Fixed(c, 1) == [c % 256] + Fixed(c / 256, 0);
      assert Fixed(b, 2) == [b % 256] + Fixed(c, 1);
      assert Fixed(a, 3) == [a % 256] + Fixed(b, 2);
    } else if k == 8 {
      FixedTail(x, 4);
      var a, b, c := x / 256, x / 256 / 256, x / 256 / 256 / 256;
      var d := c / 256;
      assert Fixed(c, 5) == [c % 256] + Fixed(d, 4);
      assert Fixed(b, 6) == [b % 256] + Fixed(c, 5);
      assert Fixed(a, 7) == [a % 256] + Fixed(b, 6);
    }
  }

  lemma VarintFields()
    requires GoodSchema(SCHEMA)
    ensures EncodeValue(SCHEMA, Needed(1, Scalar(Int32, AsVarint)), Num(7)) == [0x08, 0x07]
    ensures EncodeValue(SCHEMA, Needed(10, Scalar(Bool, AsVarint)), Num(1)) == [0x50, 0x01]
    ensures EncodeValue(SCHEMA, Needed(11, Scalar(Int32, AsVarint)), Num(3)) == [0x58, 0x03]
    ensures EncodeValue(SCHEMA, Needed(12, Scalar(Int64, AsVarint)), Num(6)) == [0x60, 0x06]
    ensures EncodeValue(SCHEMA, Needed(15, Scalar(Uint32, AsVarint)), Num(3232)) == [0x78, 0xA0, 0x19]
    ensures EncodeValue(SCHEMA, Needed(16, Scalar(Int64, AsVarint)), Num(6464)) == [0x80, 0x01, 0xC0, 0x32]
  {
    hide Varint, Tagged;
    TagCodes();
    VarintsWritten();
  }

  lemma FixedFields()
    requires GoodSchema(SCHEMA)
    ensures EncodeValue(SCHEMA, Needed(13, Scalar(Uint32, AsFixed32)), Num(32)) == [0x6D, 0x20, 0x00, 0x00, 0x00]
    ensures EncodeValue(SCHEMA, Needed(14, Scalar(Int64, AsFixed64)), Num(64)) == [0x71, 0x40, 0x00, 0x00, 0x00, 0x00, 0x00, 0x00, 0x00]
    ensures EncodeValue(SCHEMA, Needed(17, Scalar(Uint32, AsFixed32)), Num(0x454A_0000)) == [0x8D, 0x01, 0x00, 0x00, 0x4A, 0x45]
    ensures EncodeValue(SCHEMA, Needed(18, Scalar(Int64, AsFixed64)), Num(0x40B9_4000_0000_0000)) == [0x91, 0x01, 0x00, 0x00, 0x00, 0x00, 0x00, 0x40, 0xB9, 0x40]
  {
    hide Fixed, Tagged;
    TagCodes();
    FixedWritten();
  }

  lemma ZigzagFields()
    requires GoodSchema(SCHEMA)
    ensures EncodeValue(SCHEMA, Needed(102, Scalar(Int32, AsZigzag32)), Num(TWO_32 - 32)) == [0xB0, 0x06, 0x3F]
    ensures EncodeValue(SCHEMA, Needed(103, Scalar(Int64, AsZigzag64)), Num(TWO_64 - 64)) == [0xB8, 0x06, 0x7F]
  {
    hide Varint, Tagged, Zigzag;
    TagCodes();
    VarintsWritten();
    ZigzagMeaning(TWO_32 - 32, 0, TWO_31);
    ZigzagMeaning(TWO_64 - 64, 0, TWO_63);
  }

  lemma PartFields()
    requires GoodSchema(SCHEMA) && Shaped(SCHEMA, 1, TEST_FIELD) && Shaped(SCHEMA, 2, GROUP)
    ensures EncodeValue(SCHEMA, Needed(4, Message(1)), Sub(TEST_FIELD)) == [0x22, 0x0D, 0x0A, 0x05, 0x6C, 0x61, 0x62, 0x65, 0x6C, 0x12, 0x04, 0x74, 0x79, 0x70, 0x65]
    ensures EncodeValue(SCHEMA, Needed(70, Group(2)), Sub(GROUP)) == [0xB3, 0x04, 0xBA, 0x04, 0x08, 0x72, 0x65, 0x71, 0x75, 0x69, 0x72, 0x65, 0x64, 0xB4, 0x04]
  {
    hide Varint, Tagged, Encode;
    TagCodes();
    PartsEncoded();
    ShortLength();
  }

  lemma ShortLength()
    ensures Varint(13) == [13]
  {
  }

  lemma FirstEncoded(i: nat)
    requires GoodSchema(SCHEMA) && 0 <= i < 4 && ShapedValue(SCHEMA, TEST.fields[i].typ, VALUES[i])
    ensures EncodeValue(SCHEMA, TEST.fields[i], VALUES[i]) == EXPECTED[i]
  {
    hide EncodeValue, ShapedValue, Shaped, GoodSchema;
    VarintFields();
    PartsShaped();
    PartFields();
  }

  lemma NextEncoded(i: nat)
    requires GoodSchema(SCHEMA) && 4 <= i < 8 && ShapedValue(SCHEMA, TEST.fields[i].typ, VALUES[i])
    ensures EncodeValue(SCHEMA, TEST.fields[i], VALUES[i]) == EXPECTED[i]
  {
    hide EncodeValue, ShapedValue, Shaped, GoodSchema;
    VarintFields();
    FixedFields();
  }

  lemma LaterEncoded(i: nat)
    requires GoodSchema(SCHEMA) && 8 <= i < 12 && ShapedValue(SCHEMA, TEST.fields[i].typ, VALUES[i])
    ensures EncodeValue(SCHEMA, TEST.fields[i], VALUES[i]) == EXPECTED[i]
  {
    hide EncodeValue, ShapedValue, Shaped, GoodSchema;
    VarintFields();
    FixedFields();
    TextsEncoded();
  }

  lemma LastEncoded(i: nat)
    requires GoodSchema(SCHEMA) && 12 <= i < 16 && ShapedValue(SCHEMA, TEST.fields[i].typ, VALUES[i])
    ensures EncodeValue(SCHEMA, TEST.fields[i], VALUES[i]) == EXPECTED[i]
  {
    hide EncodeValue, ShapedValue, Shaped, GoodSchema;
    ZigzagFields();
    PartsShaped();
    PartFields();
    TextsEncoded();
  }

  lemma ValueEncoded(i: nat)
    requires GoodSchema(SCHEMA) && i < 16
    ensures ShapedValue(SCHEMA, TEST.fields[i].typ, VALUES[i]) && EncodeValue(SCHEMA, TEST.fields[i], VALUES[i]) == EXPECTED[i]
  {
    hide EncodeValue, ShapedValue, GoodSchema;
    ValueShaped(i);
    if i < 4 {
      FirstEncoded(i);
    } else if i < 8 {
      NextEncoded(i);
    } else if i < 12 {
      LaterEncoded(i);
    } else {
      LastEncoded(i);
    }
  }

  lemma {:induction false} SlotsEncoded(i: nat)
    requires GoodSchema(SCHEMA) && Shaped(SCHEMA, 0, MESSAGE) && i <= 16
    ensures EncodeSlots(SCHEMA, 0, MESSAGE, i) == Joined(EXPECTED, i)
    decreases 16 - i
  {
    hide EncodeValue, EncodeSlot, ShapedValue, ShapedSlot, Shaped, GoodSchema;
    if i < 16 {
      ValueEncoded(i);
      FieldGood(i);
      OneValue(TEST.fields[i], VALUES[i]);
      SlotsEncoded(i + 1);
      assert SCHEMA[0] == TEST && MESSAGE.slots[i] == Slot([VALUES[i]]);
    }
  }

  lemma FieldGood(i: nat)
    requires i < 16
    ensures |TEST.fields| == 16 && GoodField(3, TEST.fields[i]) && TEST.fields[i].mode.Required?
  {
  }

  /** The test message is written as the test expects. */
  lemma MessageEncoded()
    ensures GoodSchema(SCHEMA) && Shaped(SCHEMA, 0, MESSAGE)
    ensures Encode(SCHEMA, 0, MESSAGE) == Joined(EXPECTED, 0)
  {
    hide EncodeSlots, Shaped, GoodSchema, Joined;
    SchemaGood();
    MessageShaped();
    SlotsEncoded(0);
    assert Joined(EXPECTED, 0) + [] == Joined(EXPECTED, 0);
  }

  // ---------------------------------------------------------------- packed fields

  /** What two packed values are written as behind their tag and length. */
  lemma PackedEncoded()
    ensures PackedBody(Bool, AsVarint, [Num(0), Num(1)], 0) == [0x00, 0x01]
    ensures PackedBody(Int32, AsVarint, [Num(32), Num(33)], 0) == [0x20, 0x21]
    ensures PackedBody(Uint32, AsFixed32, [Num(3232), Num(3333)], 0) == [0xA0, 0x0C, 0, 0, 0x05, 0x0D, 0, 0]
    ensures PackedBody(Int32, AsZigzag32, [Num(32), Num(TWO_32 - 32)], 0) == [0x40, 0x3F]
    ensures PackedBody(Int64, AsZigzag64, [Num(64), Num(TWO_64 - 64)], 0) == [0x80, 0x01, 0x7F]
  {
    hide PackedBody, WriteScalar, Widen;
    PackedTwo(Bool, AsVarint, 0, 1);
    PackedTwo(Int32, AsVarint, 32, 33);
    PackedTwo(Uint32, AsFixed32, 3232, 3333);
    PackedTwo(Int32, AsZigzag32, 32, TWO_32 - 32);
    PackedTwo(Int64, AsZigzag64, 64, TWO_64 - 64);
    PlainWritten();
    ZigzagsWritten();
  }

  lemma PlainWritten()
    ensures WriteScalar(AsVarint, Widen(Bool, 0)) == [0] && WriteScalar(AsVarint, Widen(Bool, 1)) == [1]
    ensures WriteScalar(AsVarint, Widen(Int32, 32)) == [0x20] && WriteScalar(AsVarint, Widen(Int32, 33)) == [0x21]
    ensures WriteScalar(AsFixed32, Widen(Uint32, 3232)) == [0xA0, 0x0C, 0, 0]
    ensures WriteScalar(AsFixed32, Widen(Uint32, 3333)) == [0x05, 0x0D, 0, 0]
  {
    hide Fixed, Varint;
    FixedTail(3232, 4);
    FixedTail(3333, 4);
    SmallVarints();
  }

  lemma ZigzagsWritten()
    ensures WriteScalar(AsZigzag32, Widen(Int32, 32)) == [0x40] && WriteScalar(AsZigzag32, Widen(Int32, TWO_32 - 32)) == [0x3F]
    ensures WriteScalar(AsZigzag64, Widen(Int64, 64)) == [0x80, 0x01] && WriteScalar(AsZigzag64, Widen(Int64, TWO_64 - 64)) == [0x7F]
  {
    hide Zigzag, Varint;
    ZigzagMeaning(32, 0, TWO_31);
    ZigzagMeaning(TWO_32 - 32, 0, TWO_31);
    ZigzagMeaning(64, 0, TWO_63);
    ZigzagMeaning(TWO_64 - 64, 0, TWO_63);
    SmallVarints();
  }

  lemma SmallVarints()
    ensures Varint(0) == [0] && Varint(1) == [1] && Varint(32) == [0x20] && Varint(33) == [0x21]
    ensures Varint(64) == [0x40] && Varint(63) == [0x3F] && Varint(128) == [0x80, 0x01] && Varint(127) == [0x7F]
  {
  }

  lemma PackedTwo(word: Word, coder: Coder, a: nat, b: nat)
    requires InRange(word, a) && InRange(word, b)
    ensures PackedBody(word, coder, [Num(a), Num(b)], 0) == WriteScalar(coder, Widen(word, a)) + WriteScalar(coder, Widen(word, b))
  {
    hide WriteScalar, Widen;
    var vs := [Num(a), Num(b)];
    assert PackedBody(word, coder, vs, 2) == [];
    assert PackedBody(word, coder, vs, 1) == WriteScalar(coder, Widen(word, b)) + [];
    assert PackedBody(word, coder, vs, 0) == WriteScalar(coder, Widen(word, a)) + PackedBody(word, coder, vs, 1);
  }

  /** Behind the tag stands the length in bytes, then the values: here for field 53 and booleans in field 50. */
  lemma PackedSlots()
    ensures var f, g := Field(53, Packed, Scalar(Uint32, AsFixed32)), Field(50, Packed, Scalar(Bool, AsVarint));
      var a, b := Slot([Num(3232), Num(3333)]), Slot([Num(0), Num(1)]);
      && GoodSchema([]) && ShapedSlot([], f, a) && ShapedSlot([], g, b)
      && EncodeSlot([], f, a) == [0xAA, 0x03, 0x08, 0xA0, 0x0C, 0, 0, 0x05, 0x0D, 0, 0]
      && EncodeSlot([], g, b) == [0x92, 0x03, 0x02, 0x00, 0x01]
  {
    hide PackedBody, Varint, Tagged;
    PackedEncoded();
    PackedKeys();
  }

  lemma PackedKeys()
    ensures Varint(8) == [8] && Varint(2) == [2]
    ensures Tagged(53, WIRE_BYTES) == [0xAA, 0x03] && Tagged(50, WIRE_BYTES) == [0x92, 0x03]
  {
  }
}
