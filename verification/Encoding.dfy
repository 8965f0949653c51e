/** The encryption layer of the file and Redis backends over an abstract JSON printer and
    AEAD: nonce framing, decryption failures, and the two-layer pending record
    (store/encryption.go, store/file.go). */
module Encoding {
  import opened Values

  /** Go strings and byte slices alike. */
  type Bytes = string

  /** encoding/json and AES-GCM as functions: `marshal` and `unmarshal` are json.Marshal and json.Unmarshal
      (None is an error), `seal` and `open` the AEAD under one key. */
  datatype Codec = Codec(
    marshal: Value -> Bytes,
    unmarshal: Bytes -> Option<Value>,
    representable: Value -> bool,
    nonceSize: nat,
    seal: (Bytes, Bytes) -> Bytes,
    open: (Bytes, Bytes) -> Option<Bytes>)

  /** What is asked of them: representable values survive JSON up to normalisation, the
      empty text is no JSON, records of representable metadata are representable, and a sealed
      text opens. */
  ghost predicate Lawful(c: Codec) {
    && (forall v | c.representable(v) :: c.unmarshal(c.marshal(v)) == Some(Normal(v)))
    && c.representable(Null) && c.unmarshal("") == None
    && (forall text :: c.representable(WrapperValue(text)))
    && (forall d, expires | c.representable(DocValue(d)) :: c.representable(RecordValue(Record(d, expires))))
    && (forall nonce, text :: c.open(nonce, c.seal(nonce, text)) == Some(text))
  }

  /** A nil map prints as null. */
  function DocValue(d: Doc): Value {
    match d
    case None => Null
    case Some(fields) => Object(fields)
  }

  /** Unmarshalling into a map: an object, or null for nil; anything else is an error. */
  function ParseDoc(c: Codec, text: Bytes): Option<Doc> {
    match c.unmarshal(text)
    case Some(Object(fields)) => Some(Some(fields))
    case Some(Null) => Some(None)
    case _ => None
  }

  /** Cipher.Encrypt with the nonce it drew. */
  function Encrypt(c: Codec, nonce: Bytes, d: Doc): Bytes {
    nonce + c.seal(nonce, c.marshal(DocValue(d)))
  }

  /** Cipher.Decrypt: None for a short, forged or malformed ciphertext. */
  function Decrypt(c: Codec, data: Bytes): Option<Doc> {
    if |data| < c.nonceSize then
      None
    else
      match c.open(data[..c.nonceSize], data[c.nonceSize..])
      case None => None
      case Some(text) => ParseDoc(c, text)
  }

  /** Decryption reverses encryption under every nonce, up to number normalisation; nil maps
      included. */
  lemma DecryptEncrypt(c: Codec, nonce: Bytes, d: Doc)
    requires Lawful(c) && |nonce| == c.nonceSize && c.representable(DocValue(d))
    ensures Decrypt(c, Encrypt(c, nonce, d)) == Some(NormalDoc(d))
  {
    var data := Encrypt(c, nonce, d);
    assert data[..c.nonceSize] == nonce;
    assert data[c.nonceSize..] == c.seal(nonce, c.marshal(DocValue(d)));
    assert c.unmarshal(c.marshal(DocValue(d))) == Some(Normal(DocValue(d)));
    if d.Some? {
      NormalObject(d.value);
    }
  }

  // ----- pending records -----

  datatype Record = Record(metadata: Doc, expires: int)

  function RecordValue(r: Record): Value {
    Object(map["metadata" := DocValue(r.metadata), "expires" := Int64(r.expires)])
  }

  function WrapperFields(text: Bytes): Fields {
    map["record" := Str(text)]
  }

  function WrapperValue(text: Bytes): Value {
    Object(WrapperFields(text))
  }

  /** The file contents that writeRecord makes: record JSON inside an encrypted wrapper. */
  function EncodeRecord(c: Codec, nonce: Bytes, r: Record): Bytes {
    Encrypt(c, nonce, Some(WrapperFields(c.marshal(RecordValue(r)))))
  }

  /** Unmarshalling into the record struct: absent or null members take their zero values,
      members of another type are an error. */
  function ParseRecord(c: Codec, text: Bytes): Option<Record> {
    match c.unmarshal(text)
    case Some(Object(fields)) =>
      var metadata, expires := Lookup(fields, "metadata"), Lookup(fields, "expires");
      if !(metadata.Object? || metadata.Null?) then None
      else if expires.Null? then Some(Record(AsDoc(metadata), 0))
      else if expires.Float? && IsWhole(expires.r) then Some(Record(AsDoc(metadata), expires.r.Floor))
      else None
    case Some(Null) => Some(Record(None, 0))
    case _ => None
  }

  predicate IsWhole(r: real) {
    r == r.Floor as real
  }

  function AsDoc(v: Value): Doc {
    if v.Object? then Some(v.fields) else None
  }

  /** What readRecord makes of file contents before it looks at the clock. */
  function DecodeRecord(c: Codec, data: Bytes): Option<Record> {
    match Decrypt(c, data)
    case None => None
    case Some(None) => ParseRecord(c, "")
    case Some(Some(fields)) => ParseRecord(c, AsString(Lookup(fields, "record")))
  }

  /** Text that `r` is read from: null, or an object in which metadata is absent, null or an
      object and expires is absent, null or a whole number; absent and null stand for the zero
      values. */
  ghost predicate IsTextOf(c: Codec, text: Bytes, r: Record) {
    (c.unmarshal(text) == Some(Null) && r == Record(None, 0)) ||
    exists fields: Fields ::
      && c.unmarshal(text) == Some(Object(fields))
      && (if "metadata" in fields && fields["metadata"] != Null
          then r.metadata.Some? && fields["metadata"] == Object(r.metadata.value) else r.metadata == None)
      && (if "expires" in fields && fields["expires"] != Null
          then fields["expires"] == Float(r.expires as real) else r.expires == 0)
  }

  ghost predicate IsRecordText(c: Codec, text: Bytes) {
    exists r :: IsTextOf(c, text, r)
  }

  /** Plain text of a wrapper: an object whose member "record" is the text of a record. */
  ghost predicate IsWrapper(c: Codec, plain: Bytes) {
    exists fields: Fields, text ::
      c.unmarshal(plain) == Some(Object(fields)) && "record" in fields && fields["record"] == Str(text)
      && IsRecordText(c, text)
  }

  /** Bytes that cannot be read back as a record: too short for a nonce, refused by the AEAD, or
      not a wrapper around a record. */
  ghost predicate Unreadable(c: Codec, data: Bytes) {
    || |data| < c.nonceSize
    || c.open(data[..c.nonceSize], data[c.nonceSize..]).None?
    || !IsWrapper(c, c.open(data[..c.nonceSize], data[c.nonceSize..]).value)
  }

  lemma ParsesIffTextOf(c: Codec, text: Bytes, r: Record)
    ensures ParseRecord(c, text) == Some(r) <==> IsTextOf(c, text, r)
  {
  }

  lemma ParsesIffRecordText(c: Codec, text: Bytes)
    ensures ParseRecord(c, text).Some? <==> IsRecordText(c, text)
  {
    hide ParseRecord, IsTextOf;
    forall r {
      ParsesIffTextOf(c, text, r);
    }
    assert ParseRecord(c, text).Some? ==> IsTextOf(c, text, ParseRecord(c, text).value);
  }

  lemma DecodesIffReadable(c: Codec, data: Bytes)
    requires Lawful(c)
    ensures DecodeRecord(c, data).None? <==> Unreadable(c, data)
  {
    match Decrypt(c, data)
    case None =>
    case Some(None) => ParsesIffRecordText(c, "");
    case Some(Some(fields)) =>
      ParsesIffRecordText(c, "");
      ParsesIffRecordText(c, AsString(Lookup(fields, "record")));
  }

  /** Bytes decode to `r` if and only if, behind the nonce, they open to an object whose member
      "record" is a text that `r` is read from. */
  lemma DecodesToIff(c: Codec, data: Bytes, r: Record)
    requires Lawful(c)
    ensures DecodeRecord(c, data) == Some(r) <==>
            && |data| >= c.nonceSize
            && var plain := c.open(data[..c.nonceSize], data[c.nonceSize..]);
               plain.Some? && exists fields: Fields, text ::
                 && c.unmarshal(plain.value) == Some(Object(fields)) && "record" in fields
                 && fields["record"] == Str(text) && IsTextOf(c, text, r)
  {
    hide ParseRecord, IsTextOf;
    ParsesIffTextOf(c, "", r);
    assert !IsTextOf(c, "", r) by { EmptyTextIsNoRecord(c, r); }
    if |data| >= c.nonceSize && c.open(data[..c.nonceSize], data[c.nonceSize..]).Some? {
      var plain := c.open(data[..c.nonceSize], data[c.nonceSize..]).value;
      match c.unmarshal(plain)
      case Some(Object(fields)) => ParsesIffTextOf(c, AsString(Lookup(fields, "record")), r);
      case _ =>
    }
  }

  lemma EmptyTextIsNoRecord(c: Codec, r: Record)
    requires Lawful(c)
    ensures !IsTextOf(c, "", r)
  {
  }

  lemma RecordTextParses(c: Codec, r: Record)
    requires c.unmarshal(c.marshal(RecordValue(r))) == Some(Normal(RecordValue(r)))
    ensures ParseRecord(c, c.marshal(RecordValue(r))) == Some(Record(NormalDoc(r.metadata), r.expires))
  {
    var fields := NormalFields(RecordValue(r).fields);
    NormalObject(RecordValue(r).fields);
    if r.metadata.Some? {
      NormalObject(r.metadata.value);
    }
    assert Lookup(fields, "expires") == Float(r.expires as real);
    assert Lookup(fields, "metadata") == Normal(DocValue(r.metadata));
  }

  /** Through both JSON layers, the nonce prefix and the seal, a record comes back with its
      metadata normalised and its expiry exact. */
  lemma DecodeEncodeRecord(c: Codec, nonce: Bytes, r: Record)
    requires Lawful(c) && |nonce| == c.nonceSize && c.representable(DocValue(r.metadata))
    ensures DecodeRecord(c, EncodeRecord(c, nonce, r)) == Some(Record(NormalDoc(r.metadata), r.expires))
  {
    hide Decrypt, Encrypt, ParseRecord;
    var text := c.marshal(RecordValue(r));
    assert c.representable(WrapperValue(text)) && c.representable(RecordValue(r));
    DecryptEncrypt(c, nonce, Some(WrapperFields(text)));
    assert Lookup(NormalFields(WrapperFields(text)), "record") == Str(text);
    RecordTextParses(c, r);
  }
}
