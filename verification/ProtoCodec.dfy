/** Marshalling and unmarshalling whole messages. */
module ProtoCodec {
  import opened Wrappers
  import opened ProtoWire
  import opened ProtoMessage
  import opened ProtoDecode
  import opened ProtoRoundTrip
  import opened ProtoBuffer
  import opened ProtoReader

  /** The bytes of a message; `missing` is the required-field-not-set error, with which the bytes still come. */
  method Marshal(S: Schema, t: nat, m: Msg) returns (b: Bytes, missing: bool)
    requires GoodSchema(S) && Shaped(S, t, m)
    ensures b == Encode(S, t, m) && missing == Incomplete(S, t, m)
  {
    hide Encode, Shaped, Incomplete, GoodSchema;
    var buffer := new Buffer();
    missing := buffer.EncodeStruct(S, t, m);
    b := buffer.data[..buffer.len];
    assert [] + Encode(S, t, m) == Encode(S, t, m);
  }

  /** Decodes into an empty message. */
  method UnmarshalBytes(S: Schema, t: nat, b: Bytes) returns (r: Reply<Decoded>)
    requires GoodSchema(S) && t < |S|
    ensures match Unmarshal(S, t, false, Empty(S, t), Start(S[t]), b)
            case Done(m, missing, _) => r == Value(Decoded(m, missing)) && Shaped(S, t, m)
            case Fail(e) => r == Error(e)
  {
    hide Unmarshal, Shaped, GoodSchema, Start, Empty;
    var reader := new Reader(b);
    r := reader.UnmarshalType(S, t, false, Empty(S, t));
  }

  /** Every well-shaped message survives the trip to bytes and back. */
  method MarshalAndBack(S: Schema, t: nat, m: Msg) returns (r: Reply<Decoded>)
    requires GoodSchema(S) && Shaped(S, t, m)
    requires |Encode(S, t, m)| < TWO_63
    ensures r == Value(Decoded(m, Missing(S, t, m)))
  {
    hide Unmarshal, Encode, Shaped, GoodSchema, Start, Empty, Incomplete, Missing;
    TypeKnown(S, t, m);
    var b, _ := Marshal(S, t, m);
    MessageReads(S, t, m);
    r := UnmarshalBytes(S, t, b);
  }
}
