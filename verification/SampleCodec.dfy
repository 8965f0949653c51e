/** The laws asked of a codec can be met: a small printer for null, wrappers, the metadata of the
    providers and records of these, and a toy seal that carries its nonce. */
module SampleCodec {
  import opened Values
  import opened Encoding

  /** A number in unary, ended by a dot. */
  function Tally(n: nat): Bytes {
    if n == 0 then "." else "|" + Tally(n - 1)
  }

  /** The tally at the start of `text`, and what follows it. */
  function ReadTally(text: Bytes): (r: Option<(nat, Bytes)>)
    ensures r.Some? ==> |r.value.1| < |text|
  {
    if text == "" then None
    else if text[0] == '.' then Some((0, text[1..]))
    else
      match ReadTally(text[1..])
      case None => None
      case Some((n, rest)) => Some((n + 1, rest))
  }

  /** An object with the one member `name`, a text. */
  predicate IsSingle(v: Value, name: string) {
    v.Object? && v.fields.Keys == {name} && v.fields[name].Str?
  }

  function Single(name: string, s: string): Value {
    Object(map[name := Str(s)])
  }

  predicate IsRecord(v: Value) {
    && v.Object? && v.fields.Keys == {"metadata", "expires"}
    && v.fields["expires"].Int64? && (v.fields["metadata"].Null? || v.fields["metadata"].Object?)
  }

  function AsRead(metadata: Value, expires: int): Value {
    Object(map["metadata" := metadata, "expires" := Float(expires as real)])
  }

  predicate Representable(v: Value) {
    v.Null? || IsSingle(v, "record") || IsSingle(v, "sub") || (IsRecord(v) && Representable(v.fields["metadata"]))
  }

  function Marshal(v: Value): Bytes {
    if v.Null? then "n"
    else if IsSingle(v, "record") then "w" + v.fields["record"].s
    else if IsSingle(v, "sub") then "s" + v.fields["sub"].s
    else if IsRecord(v) then
      var expires := v.fields["expires"].n;
      (if expires < 0 then "-" + Tally(-expires) else "+" + Tally(expires)) + Marshal(v.fields["metadata"])
    else ""
  }

  function Unmarshal(text: Bytes): Option<Value>
    decreases |text|
  {
    if text == "" then None
    else if text[0] == 'n' then Some(Null)
    else if text[0] == 'w' then Some(Single("record", text[1..]))
    else if text[0] == 's' then Some(Single("sub", text[1..]))
    else
      match ReadTally(text[1..])
      case None => None
      case Some((n, rest)) =>
        match Unmarshal(rest)
        case None => None
        case Some(metadata) => Some(AsRead(metadata, if text[0] == '-' then -(n as int) else n as int))
  }

  function Seal(nonce: Bytes, text: Bytes): Bytes { nonce + text }

  function Open(nonce: Bytes, sealed: Bytes): Option<Bytes> {
    if nonce <= sealed then Some(sealed[|nonce|..]) else None
  }

  const CODEC := Codec(Marshal, Unmarshal, Representable, 12, Seal, Open)

  lemma {:induction false} TallyReadsBack(n: nat, rest: Bytes)
    ensures ReadTally(Tally(n) + rest) == Some((n, rest))
  {
    if n == 0 {
      assert (Tally(0) + rest)[1..] == rest;
    } else {
      assert (Tally(n) + rest)[1..] == Tally(n - 1) + rest;
      TallyReadsBack(n - 1, rest);
    }
  }

  lemma SingleReadsBack(v: Value, name: string, tag: string)
    requires IsSingle(v, name) && |tag| == 1
    ensures (tag + v.fields[name].s)[1..] == v.fields[name].s
    ensures Normal(v) == Single(name, v.fields[name].s)
  {
    assert Normal(v).fields == Single(name, v.fields[name].s).fields;
  }

  lemma RecordIsNormalised(v: Value)
    requires IsRecord(v)
    ensures Normal(v) == AsRead(Normal(v.fields["metadata"]), v.fields["expires"].n)
  {
    assert Normal(v).fields == AsRead(Normal(v.fields["metadata"]), v.fields["expires"].n).fields;
  }

  lemma TaggedTallyReadsBack(tag: string, n: nat, rest: Bytes, metadata: Value)
    requires tag == "-" || tag == "+"
    requires Unmarshal(rest) == Some(metadata)
    ensures Unmarshal(tag + Tally(n) + rest) == Some(AsRead(metadata, if tag == "-" then -(n as int) else n as int))
  {
    TallyReadsBack(n, rest);
    var text := tag + Tally(n) + rest;
    assert text[1..] == Tally(n) + rest;
  }

  lemma LeafReadsBack(v: Value)
    requires v.Null? || IsSingle(v, "record") || IsSingle(v, "sub")
    ensures Unmarshal(Marshal(v)) == Some(Normal(v))
  {
    if IsSingle(v, "record") {
      SingleReadsBack(v, "record", "w");
    } else if IsSingle(v, "sub") {
      SingleReadsBack(v, "sub", "s");
    }
  }

  lemma RecordReadsBack(v: Value)
    requires IsRecord(v) && Unmarshal(Marshal(v.fields["metadata"])) == Some(Normal(v.fields["metadata"]))
    ensures Unmarshal(Marshal(v)) == Some(Normal(v))
  {
    hide Normal, AsRead, Unmarshal, Tally;
    var n, metadata := v.fields["expires"].n, v.fields["metadata"];
    RecordIsNormalised(v);
    if n < 0 {
      TaggedTallyReadsBack("-", -n, Marshal(metadata), Normal(metadata));
    } else {
      TaggedTallyReadsBack("+", n, Marshal(metadata), Normal(metadata));
    }
  }

  lemma {:induction false} UnmarshalReverses(v: Value)
    requires Representable(v)
    ensures Unmarshal(Marshal(v)) == Some(Normal(v))
  {
    hide Normal, Marshal, Unmarshal;
    if v.Null? || IsSingle(v, "record") || IsSingle(v, "sub") {
      LeafReadsBack(v);
    } else {
      UnmarshalReverses(v.fields["metadata"]);
      RecordReadsBack(v);
    }
  }

  lemma RecordsAreRepresentable(d: Doc, expires: int)
    requires Representable(DocValue(d))
    ensures Representable(RecordValue(Record(d, expires)))
  {
    assert RecordValue(Record(d, expires)).fields.Keys == {"metadata", "expires"};
  }

  /** So there is a lawful codec, and it represents the metadata that the providers store. */
  lemma SampleIsLawful()
    ensures Lawful(CODEC) && forall sub :: CODEC.representable(Object(map["sub" := Str(sub)]))
  {
    hide Marshal, Unmarshal, Normal;
    assert Unmarshal("") == None by { EmptyTextIsRefused(); }
    forall v | Representable(v)
      ensures Unmarshal(Marshal(v)) == Some(Normal(v))
    {
      UnmarshalReverses(v);
    }
    forall d, expires | Representable(DocValue(d))
      ensures Representable(RecordValue(Record(d, expires)))
    {
      RecordsAreRepresentable(d, expires);
    }
    forall nonce, text
      ensures Open(nonce, Seal(nonce, text)) == Some(text)
    {
      assert (nonce + text)[|nonce|..] == text;
    }
  }

  lemma EmptyTextIsRefused()
    ensures Unmarshal("") == None
  {
  }
}
