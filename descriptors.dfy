/**
 * The DOB descriptor documents and the rules that decide which JSON documents
 * are read as them: the `description` of a cluster (`ClusterDescriptionField`
 * with its `dob` part, whose `decoder` says where the decoder program lives)
 * and the `content` of a spore (`SporeContentField`).
 *
 * Each record is read with the struct rules of module StructFields; the
 * scalar fields follow serde_json's typing: a `String` only from a JSON
 * string, an unsigned integer only from an integer literal within the type's
 * range (never from a floating-point literal), a `H256` only from a JSON
 * string that the hash text decoder `hashOf` accepts.
 */
module Descriptors {
  import opened Wrappers
  import opened Json
  import opened StructFields

  type U8 = x: int | 0 <= x < 0x100
  type U64 = x: int | 0 <= x < 0x1_0000_0000_0000_0000

  /** A 32-byte hash; its textual form is decoded by a function the model receives. */
  type H256 = s: seq<U8> | |s| == 32 witness seq(32, _ => 0)

  /** Where a decoder program is found: by its type id or by its code hash. */
  datatype DecoderLocationType = TypeId | CodeHash

  datatype DOBDecoderFormat = DOBDecoderFormat(location: DecoderLocationType, hash: H256)

  datatype DOBClusterFormat = DOBClusterFormat(decoder: DOBDecoderFormat, pattern: string, dnaBytes: U8)

  datatype ClusterDescriptionField = ClusterDescriptionField(description: string, dob: DOBClusterFormat)

  datatype SporeContentField = SporeContentField(blockNumber: U64, cellId: U64, dna: string)

  /** The keys accepted for the decoder's `location` field: its name and its alias. */
  const LocationKeys: set<string> := {"location", "type"}

  const DecoderFields: seq<set<string>> := [LocationKeys, {"hash"}]
  const ClusterFormatFields: seq<set<string>> := [{"decoder"}, {"pattern"}, {"dna_bytes"}]
  const ClusterDescriptionFields: seq<set<string>> := [{"description"}, {"dob"}]
  const SporeContentFields: seq<set<string>> := [{"block_number"}, {"cell_id"}, {"dna"}]

  function ParseString(j: Json): Option<string> {
    if j.JString? then Some(j.s) else None
  }

  function ParseU8(j: Json): Option<U8> {
    if j.JInt? && 0 <= j.i < 0x100 then Some(j.i) else None
  }

  function ParseU64(j: Json): Option<U64> {
    if j.JInt? && 0 <= j.i < 0x1_0000_0000_0000_0000 then Some(j.i) else None
  }

  function ParseHash(j: Json, hashOf: string -> Option<H256>): Option<H256> {
    if j.JString? then hashOf(j.s) else None
  }

  /** The variant a name or alias denotes. */
  function VariantNamed(name: string): Option<DecoderLocationType> {
    if name == "TypeId" || name == "type_id" then Some(TypeId)
    else if name == "CodeHash" || name == "code_hash" then Some(CodeHash)
    else None
  }

  /**
   * A unit variant is read from its name as a JSON string, or from an object
   * with that name as its only key and `null` as its value.
   */
  function ParseLocation(j: Json): (r: Option<DecoderLocationType>)
    ensures j.JString? ==> (r.Some? <==> j.s in {"TypeId", "type_id", "CodeHash", "code_hash"})
    ensures r.Some? ==> j.JString? || (j.JObject? && |j.members| == 1)
  {
    match j
    case JString(name) => VariantNamed(name)
    case JObject(members) =>
      if |members| == 1 && members[0].1 == JNull then VariantNamed(members[0].0) else None
    case _ => None
  }

  function ParseDecoder(j: Json, hashOf: string -> Option<H256>): (r: Option<DOBDecoderFormat>)
    ensures r.Some? ==> j.JObject? || (j.JArray? && |j.items| == 2)
  {
    var values :- StructValues(j, DecoderFields);
    var location :- ParseLocation(values[0]);
    var hash :- ParseHash(values[1], hashOf);
    Some(DOBDecoderFormat(location, hash))
  }

  function ParseClusterFormat(j: Json, hashOf: string -> Option<H256>): (r: Option<DOBClusterFormat>)
    ensures r.Some? ==> j.JObject? || (j.JArray? && |j.items| == 3)
  {
    var values :- StructValues(j, ClusterFormatFields);
    var decoder :- ParseDecoder(values[0], hashOf);
    var pattern :- ParseString(values[1]);
    var dnaBytes :- ParseU8(values[2]);
    Some(DOBClusterFormat(decoder, pattern, dnaBytes))
  }

  function ParseClusterDescription(j: Json, hashOf: string -> Option<H256>): (r: Option<ClusterDescriptionField>)
    ensures r.Some? ==> j.JObject? || (j.JArray? && |j.items| == 2)
  {
    var values :- StructValues(j, ClusterDescriptionFields);
    var description :- ParseString(values[0]);
    var dob :- ParseClusterFormat(values[1], hashOf);
    Some(ClusterDescriptionField(description, dob))
  }

  function ParseSporeContent(j: Json): (r: Option<SporeContentField>)
    ensures r.Some? ==> j.JObject? || (j.JArray? && |j.items| == 3)
  {
    var values :- StructValues(j, SporeContentFields);
    var blockNumber :- ParseU64(values[0]);
    var cellId :- ParseU64(values[1]);
    var dna :- ParseString(values[2]);
    Some(SporeContentField(blockNumber, cellId, dna))
  }

  /** The derived `Serialize` of spore content: an object with the fields in declaration order. */
  function SporeContentJson(s: SporeContentField): (j: Json)
    ensures j.JObject? && |j.members| == 3
  {
    JObject([("block_number", JInt(s.blockNumber)), ("cell_id", JInt(s.cellId)), ("dna", JString(s.dna))])
  }

  /**
   * A document listing a decoder location's fields under their declared keys
   * and its tag under its declared name; the reader must accept it. The source
   * never writes this record: the document is a witness for DecoderRoundTrip.
   */
  function DecoderJson(d: DOBDecoderFormat, hashText: H256 -> string): (j: Json)
    ensures j.JObject? && |j.members| == 2
  {
    JObject([
      ("location", JString(if d.location == TypeId then "TypeId" else "CodeHash")),
      ("hash", JString(hashText(d.hash)))])
  }

  /** A document listing a `dob` record's fields under their declared keys; a witness for ClusterFormatRoundTrip. */
  function ClusterFormatJson(d: DOBClusterFormat, hashText: H256 -> string): (j: Json)
    ensures j.JObject? && |j.members| == 3
  {
    JObject([("decoder", DecoderJson(d.decoder, hashText)), ("pattern", JString(d.pattern)), ("dna_bytes", JInt(d.dnaBytes))])
  }

  /** A document listing a cluster description's fields under their declared keys; a witness for ClusterDescriptionRoundTrip. */
  function ClusterDescriptionJson(c: ClusterDescriptionField, hashText: H256 -> string): (j: Json)
    ensures j.JObject? && |j.members| == 2
  {
    JObject([("description", JString(c.description)), ("dob", ClusterFormatJson(c.dob, hashText))])
  }

  lemma DeclaredFieldsDisjoint()
    ensures Disjoint(DecoderFields)
    ensures Disjoint(ClusterFormatFields)
    ensures Disjoint(ClusterDescriptionFields)
    ensures Disjoint(SporeContentFields)
  {
  }

  /** The location tag is `TypeId` for "TypeId" or "type_id", `CodeHash` for "CodeHash" or "code_hash", and nothing else. */
  lemma LocationSpellings(name: string)
    ensures ParseLocation(JString(name)) == Some(TypeId) <==> name == "TypeId" || name == "type_id"
    ensures ParseLocation(JString(name)) == Some(CodeHash) <==> name == "CodeHash" || name == "code_hash"
    ensures ParseLocation(JString(name)) == None <==>
      name !in {"TypeId", "type_id", "CodeHash", "code_hash"}
    ensures ParseLocation(JObject([(name, JNull)])) == ParseLocation(JString(name))
  {
  }

  /**
   * A decoder object is read exactly when one member is keyed `location` or
   * `type` and holds a valid tag, and one member is keyed `hash` and holds a
   * valid hash text.
   */
  lemma DecoderAccepted(members: seq<Member>, hashOf: string -> Option<H256>, d: DOBDecoderFormat)
    ensures ParseDecoder(JObject(members), hashOf) == Some(d) <==>
      && |Occurrences(members, LocationKeys)| == 1
      && ParseLocation(Occurrences(members, LocationKeys)[0]) == Some(d.location)
      && |Occurrences(members, {"hash"})| == 1
      && ParseHash(Occurrences(members, {"hash"})[0], hashOf) == Some(d.hash)
  {
    var fs := DecoderFields;
    DeclaredFieldsDisjoint();
    FieldValuesCorrect(members, fs);
    var o0, o1 := Occurrences(members, fs[0]), Occurrences(members, fs[1]);
    if |o0| == 1 && |o1| == 1 {
      assert FieldValues(members, fs).value == [o0[0], o1[0]];
    } else {
      assert FieldValues(members, fs).None?;
    }
  }

  /** A decoder object holding both `location` and its alias `type` is rejected. */
  lemma LocationAliasCollision(members: seq<Member>, hashOf: string -> Option<H256>, i: nat, j: nat)
    requires i < |members| && j < |members|
    requires members[i].0 == "location" && members[j].0 == "type"
    ensures ParseDecoder(JObject(members), hashOf) == None
  {
    DeclaredFieldsDisjoint();
    if i < j {
      DuplicateFieldRejected(members, DecoderFields, 0, i, j);
    } else {
      DuplicateFieldRejected(members, DecoderFields, 0, j, i);
    }
  }

  /**
   * A `dob` object is read exactly when it has one valid `decoder`, one string
   * `pattern` and one integer `dna_bytes` from 0 to 255.
   */
  lemma ClusterFormatAccepted(members: seq<Member>, hashOf: string -> Option<H256>, d: DOBClusterFormat)
    ensures ParseClusterFormat(JObject(members), hashOf) == Some(d) <==>
      && |Occurrences(members, {"decoder"})| == 1
      && ParseDecoder(Occurrences(members, {"decoder"})[0], hashOf) == Some(d.decoder)
      && Occurrences(members, {"pattern"}) == [JString(d.pattern)]
      && Occurrences(members, {"dna_bytes"}) == [JInt(d.dnaBytes)]
  {
    var fs := ClusterFormatFields;
    DeclaredFieldsDisjoint();
    FieldValuesCorrect(members, fs);
    var o0, o1, o2 := Occurrences(members, fs[0]), Occurrences(members, fs[1]), Occurrences(members, fs[2]);
    if |o0| == 1 && |o1| == 1 && |o2| == 1 {
      assert FieldValues(members, fs).value == [o0[0], o1[0], o2[0]];
    } else {
      assert FieldValues(members, fs).None?;
    }
  }

  /** A `dob` object whose `dna_bytes` is an integer outside 0..255 is rejected. */
  lemma DnaBytesOutOfRange(members: seq<Member>, hashOf: string -> Option<H256>, i: nat, n: int)
    requires i < |members| && members[i] == ("dna_bytes", JInt(n))
    requires n < 0 || n > 255
    ensures ParseClusterFormat(JObject(members), hashOf) == None
  {
    DeclaredFieldsDisjoint();
    FieldValuesCorrect(members, ClusterFormatFields);
    OccurrenceIncluded(members, {"dna_bytes"}, i);
  }

  /**
   * A cluster description object is read exactly when it has one string
   * `description` and one valid `dob`.
   */
  lemma ClusterDescriptionAccepted(members: seq<Member>, hashOf: string -> Option<H256>, c: ClusterDescriptionField)
    ensures ParseClusterDescription(JObject(members), hashOf) == Some(c) <==>
      && Occurrences(members, {"description"}) == [JString(c.description)]
      && |Occurrences(members, {"dob"})| == 1
      && ParseClusterFormat(Occurrences(members, {"dob"})[0], hashOf) == Some(c.dob)
  {
    var fs := ClusterDescriptionFields;
    DeclaredFieldsDisjoint();
    FieldValuesCorrect(members, fs);
    var o0, o1 := Occurrences(members, fs[0]), Occurrences(members, fs[1]);
    if |o0| == 1 && |o1| == 1 {
      assert FieldValues(members, fs).value == [o0[0], o1[0]];
    } else {
      assert FieldValues(members, fs).None?;
    }
  }

  /** A cluster description object without a `dob` member is rejected. */
  lemma MissingDobRejected(members: seq<Member>, hashOf: string -> Option<H256>)
    requires forall i :: 0 <= i < |members| ==> members[i].0 != "dob"
    ensures ParseClusterDescription(JObject(members), hashOf) == None
  {
    DeclaredFieldsDisjoint();
    MissingFieldRejected(members, ClusterDescriptionFields, 1);
  }

  /**
   * A spore content object is read exactly when `block_number` and `cell_id`
   * are each one unsigned 64-bit integer and `dna` is one string.
   */
  lemma SporeContentAccepted(members: seq<Member>, s: SporeContentField)
    ensures ParseSporeContent(JObject(members)) == Some(s) <==>
      && Occurrences(members, {"block_number"}) == [JInt(s.blockNumber)]
      && Occurrences(members, {"cell_id"}) == [JInt(s.cellId)]
      && Occurrences(members, {"dna"}) == [JString(s.dna)]
  {
    var fs := SporeContentFields;
    DeclaredFieldsDisjoint();
    FieldValuesCorrect(members, fs);
    var o0, o1, o2 := Occurrences(members, fs[0]), Occurrences(members, fs[1]), Occurrences(members, fs[2]);
    if |o0| == 1 && |o1| == 1 && |o2| == 1 {
      assert FieldValues(members, fs).value == [o0[0], o1[0], o2[0]];
    } else {
      assert FieldValues(members, fs).None?;
    }
  }

  /** Spore content given as an array holds exactly the three fields in declaration order. */
  lemma SporeContentArrayForm(items: seq<Json>, s: SporeContentField)
    ensures ParseSporeContent(JArray(items)) == Some(s) <==>
      items == [JInt(s.blockNumber), JInt(s.cellId), JString(s.dna)]
  {
  }

  /** Reading back the serialized spore content gives the same content. */
  lemma SporeContentRoundTrip(s: SporeContentField)
    ensures ParseSporeContent(SporeContentJson(s)) == Some(s)
  {
    var ms := SporeContentJson(s).members;
    var tail := ms[1..];
    var last := tail[1..];
    assert last[1..] == [];
    assert Occurrences(ms, {"block_number"}) == [JInt(s.blockNumber)] by {
      assert Occurrences(last, {"block_number"}) == [];
    }
    assert Occurrences(ms, {"cell_id"}) == [JInt(s.cellId)] by {
      assert Occurrences(last, {"cell_id"}) == [];
    }
    assert Occurrences(ms, {"dna"}) == [JString(s.dna)] by {
      assert Occurrences(last, {"dna"}) == [JString(s.dna)];
      assert Occurrences(tail, {"dna"}) == [JString(s.dna)];
    }
    SporeContentAccepted(ms, s);
  }

  /** Every decoder location is read from the document that lists its fields under their declared keys. */
  lemma DecoderRoundTrip(d: DOBDecoderFormat, hashOf: string -> Option<H256>, hashText: H256 -> string)
    requires hashOf(hashText(d.hash)) == Some(d.hash)
    ensures ParseDecoder(DecoderJson(d, hashText), hashOf) == Some(d)
  {
    var ms := DecoderJson(d, hashText).members;
    var tail := ms[1..];
    assert tail[1..] == [];
    assert Occurrences(ms, LocationKeys) == [ms[0].1] by {
      assert Occurrences(tail, LocationKeys) == [];
    }
    assert Occurrences(ms, {"hash"}) == [tail[0].1] by {
      assert Occurrences(tail, {"hash"}) == [tail[0].1];
    }
    DecoderAccepted(ms, hashOf, d);
  }

  /** Every `dob` record is read from the document that lists its fields under their declared keys. */
  lemma ClusterFormatRoundTrip(d: DOBClusterFormat, hashOf: string -> Option<H256>, hashText: H256 -> string)
    requires hashOf(hashText(d.decoder.hash)) == Some(d.decoder.hash)
    ensures ParseClusterFormat(ClusterFormatJson(d, hashText), hashOf) == Some(d)
  {
    var ms := ClusterFormatJson(d, hashText).members;
    var tail := ms[1..];
    var last := tail[1..];
    assert last[1..] == [];
    assert Occurrences(ms, {"decoder"}) == [ms[0].1] by {
      assert Occurrences(last, {"decoder"}) == [];
    }
    assert Occurrences(ms, {"pattern"}) == [JString(d.pattern)] by {
      assert Occurrences(last, {"pattern"}) == [];
    }
    assert Occurrences(ms, {"dna_bytes"}) == [JInt(d.dnaBytes)] by {
      assert Occurrences(last, {"dna_bytes"}) == [JInt(d.dnaBytes)];
      assert Occurrences(tail, {"dna_bytes"}) == [JInt(d.dnaBytes)];
    }
    DecoderRoundTrip(d.decoder, hashOf, hashText);
    ClusterFormatAccepted(ms, hashOf, d);
  }

  /** Every cluster description is read from the document that lists its fields under their declared keys. */
  lemma ClusterDescriptionRoundTrip(c: ClusterDescriptionField, hashOf: string -> Option<H256>, hashText: H256 -> string)
    requires hashOf(hashText(c.dob.decoder.hash)) == Some(c.dob.decoder.hash)
    ensures ParseClusterDescription(ClusterDescriptionJson(c, hashText), hashOf) == Some(c)
  {
    var ms := ClusterDescriptionJson(c, hashText).members;
    var tail := ms[1..];
    assert tail[1..] == [];
    assert Occurrences(ms, {"description"}) == [JString(c.description)] by {
      assert Occurrences(tail, {"description"}) == [];
    }
    assert Occurrences(ms, {"dob"}) == [tail[0].1] by {
      assert Occurrences(tail, {"dob"}) == [tail[0].1];
    }
    ClusterFormatRoundTrip(c.dob, hashOf, hashText);
    ClusterDescriptionAccepted(ms, hashOf, c);
  }

  /** A member whose key names no field of the record does not change how the record is read. */
  lemma UnknownKeysIgnored(before: seq<Member>, m: Member, after: seq<Member>, hashOf: string -> Option<H256>)
    ensures m.0 !in {"location", "type", "hash"} ==>
      ParseDecoder(JObject(before + [m] + after), hashOf) == ParseDecoder(JObject(before + after), hashOf)
    ensures m.0 !in {"decoder", "pattern", "dna_bytes"} ==>
      ParseClusterFormat(JObject(before + [m] + after), hashOf) == ParseClusterFormat(JObject(before + after), hashOf)
    ensures m.0 !in {"description", "dob"} ==>
      ParseClusterDescription(JObject(before + [m] + after), hashOf) == ParseClusterDescription(JObject(before + after), hashOf)
    ensures m.0 !in {"block_number", "cell_id", "dna"} ==>
      ParseSporeContent(JObject(before + [m] + after)) == ParseSporeContent(JObject(before + after))
  {
    DeclaredFieldsDisjoint();
    if m.0 !in {"location", "type", "hash"} {
      UnknownMemberIgnored(before, m, after, DecoderFields);
    }
    if m.0 !in {"decoder", "pattern", "dna_bytes"} {
      UnknownMemberIgnored(before, m, after, ClusterFormatFields);
    }
    if m.0 !in {"description", "dob"} {
      UnknownMemberIgnored(before, m, after, ClusterDescriptionFields);
    }
    if m.0 !in {"block_number", "cell_id", "dna"} {
      UnknownMemberIgnored(before, m, after, SporeContentFields);
    }
  }
}
