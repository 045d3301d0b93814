# DOB decoder types: error codes and descriptor documents

This project models the type surface of the standalone DOB (Digital Object)
decoder server. It covers two things from `src/types.rs`.

- **The error enumeration** (`Error`). There are 20 failure kinds. Each is
  reported to JSON-RPC callers as a stable numeric code. The enumeration is
  `#[repr(i32)]`. The first variant is set to 1001 and each later variant is
  one more than the variant before it. The RPC conversion is a plain cast to
  `i32`. Module `ErrorCodes` (file `error_codes.dfy`) defines the code of a
  variant as 1001 plus its position in the declaration. It proves that the
  codes are distinct, fill 1001..1020 with no gaps, and decode back to the same
  variant.
- **The descriptor documents** that the decoder reads from chain data:
  - the cluster `description`: `ClusterDescriptionField`, its `dob` part
    `DOBClusterFormat`, the decoder location `DOBDecoderFormat`, and the tag
    `DecoderLocationType`;
  - the spore `content`: `SporeContentField`.

  All of these are read by the derived `Deserialize` implementation. Module
  `StructFields` (file `struct_fields.dfy`) states how a derived
  implementation reads a struct:
  - a key that names a field, by its own name or by an alias, fills that field;
  - a key that names no field is skipped;
  - a second key for the same field rejects the document;
  - a missing field rejects the document;
  - an array fills the fields by position and must have exactly one element
    per field.

  Module `Descriptors` (file `descriptors.dfy`) builds the validators for the
  five shapes on top of these rules. It proves which documents each validator
  accepts and what it reads from them.

Module `Json` (file `json.dfy`) is the JSON value that the validators read.
Integer literals and floating-point literals are separate kinds, as they are
in serde_json. An object keeps its members in text order, repeats included.
Module `Wrappers` (file `wrappers.dfy`) holds `Option`.

The enumeration in `src/types.rs` declares 20 variants. The decoder location
tag is accepted under the key `location` or its alias `type`, spelled
`TypeId`/`type_id` or `CodeHash`/`code_hash`.

## Model

| member | source | states |
|---|---|---|
| `ErrorCodes.Ordinal` | src/types.rs:13-53 | each variant's position in the declaration is below the variant count, 20 |
| `ErrorCodes.AtOrdinal` | src/types.rs:13-53 | a position names a variant exactly when it lies in 0..19, and that variant has that position |
| `ErrorCodes.Code` | src/types.rs:12-15 | every discriminant lies in 1001..1020 |
| `ErrorCodes.FromCode` | src/types.rs:12-54 | a number decodes to a variant exactly when it lies in 1001..1020, and that variant's code is the number |
| `ErrorCodes.ToRpcCode` | src/types.rs:57-61 | the RPC code fits in `i32` and decodes back to the variant it came from |
| `ErrorCodes.CodeRoundTrip` | src/types.rs:12-54 | decoding a variant's code gives that variant |
| `ErrorCodes.CodeInjective` | src/types.rs:12-54 | two variants share a code only if they are the same variant |
| `ErrorCodes.CodesDense` | src/types.rs:12-54 | every number in 1001..1020 is the code of some variant |
| `ErrorCodes.CodeEndpoints` | src/types.rs:14-53 | `DnaLengthNotMatch` is 1001, `DOBMetadataUnexpected` is 1020, and every code lies between them |
| `ErrorCodes.CodeSuccessor` | src/types.rs:16-53 | the code after any variant except the last belongs to the next declared variant |
| `StructFields.FieldIndex` | src/types.rs:88-93 | a key matches a field (by name or alias) only if that field's key set holds it; no match means no field holds it |
| `StructFields.Collect` | src/types.rs:88-93 | reading an object's members yields one slot per declared field |
| `StructFields.Filled` | src/types.rs:64-68 | a record is formed only when every field has a value, and that value is used unchanged |
| `StructFields.FieldValues` | src/types.rs:64-68 | reading an object yields one value per declared field |
| `StructFields.StructValues` | src/types.rs:96-102 | reading any JSON value as a struct yields one value per declared field |
| `StructFields.NonObjectForms` | src/types.rs:64-102 | an array is read as a struct exactly when it has one element per field, taken in order; any value that is neither an object nor an array is rejected |
| `StructFields.CollectCorrect` | src/types.rs:88-93 | reading members into partly filled slots succeeds exactly when no field gets a second value; each slot then holds its earlier value or the field's first occurrence |
| `StructFields.FieldValuesCorrect` | src/types.rs:64-102 | an object is read exactly when each field is named by exactly one member, and each field gets that member's value |
| `StructFields.UnknownMemberIgnored` | src/types.rs:64-102 | adding a member whose key names no field anywhere in an object changes nothing |
| `StructFields.DuplicateFieldRejected` | src/types.rs:88-93 | two members naming the same field, by name or alias, reject the object |
| `StructFields.MissingFieldRejected` | src/types.rs:64-68 | an object with no member for some field is rejected |
| `Descriptors.ParseLocation` | src/types.rs:79-85 | a string tag is accepted exactly when it is one of the four spellings, and only a string or a one-key object is accepted; `LocationSpellings` states which variant each gives |
| `Descriptors.ParseDecoder` | src/types.rs:88-93 | only an object or a two-element array is read as a decoder location; `DecoderAccepted` states exactly which objects and what they give |
| `Descriptors.ParseClusterFormat` | src/types.rs:71-76 | only an object or a three-element array is read as a `dob` record; `ClusterFormatAccepted` and `DnaBytesOutOfRange` state exactly which objects and what they give |
| `Descriptors.ParseClusterDescription` | src/types.rs:64-68 | only an object or a two-element array is read as a cluster description; `ClusterDescriptionAccepted` and `MissingDobRejected` state exactly which objects and what they give |
| `Descriptors.ParseSporeContent` | src/types.rs:96-102 | only an object or a three-element array is read as spore content; `SporeContentAccepted` and `SporeContentArrayForm` state exactly which documents and what they give |
| `Descriptors.LocationSpellings` | src/types.rs:79-85 | the tag is `TypeId` exactly for "TypeId"/"type_id", `CodeHash` exactly for "CodeHash"/"code_hash", rejected for any other string, and read the same from a one-key object whose value is null |
| `Descriptors.DecoderAccepted` | src/types.rs:88-93 | a decoder object is read as a given location exactly when one member keyed `location` or `type` holds its tag and one member `hash` holds text that decodes to its 32-byte hash |
| `Descriptors.LocationAliasCollision` | src/types.rs:90-91 | an object with both `location` and `type` is rejected |
| `Descriptors.ClusterFormatAccepted` | src/types.rs:71-76 | a `dob` object is read as a given record exactly when it has one valid `decoder`, one string `pattern`, and one integer `dna_bytes` equal to the record's |
| `Descriptors.DnaBytesOutOfRange` | src/types.rs:75 | a `dob` object whose `dna_bytes` is an integer outside 0..255 is rejected |
| `Descriptors.ClusterDescriptionAccepted` | src/types.rs:64-68 | a cluster description object is read as a given record exactly when it has one string `description` and one `dob` that reads as the record's |
| `Descriptors.MissingDobRejected` | src/types.rs:64-68 | a cluster description without `dob` is rejected |
| `Descriptors.SporeContentAccepted` | src/types.rs:96-102 | spore content is read as a given record exactly when `block_number` and `cell_id` are each one integer below 2^64 and `dna` is one string, all equal to the record's |
| `Descriptors.SporeContentArrayForm` | src/types.rs:96-102 | spore content given as an array is read exactly when it is `[block_number, cell_id, dna]` with those types |
| `Descriptors.SporeContentJson` | src/types.rs:97-102 | the serialized spore content is an object with one member per field |
| `Descriptors.SporeContentRoundTrip` | src/types.rs:96-102 | reading back serialized spore content gives the same content |
| `Descriptors.DecoderRoundTrip` | src/types.rs:79-93 | every decoder record is read from the document that lists its fields under their declared keys, given a hash text the hash decoder accepts |
| `Descriptors.ClusterFormatRoundTrip` | src/types.rs:71-76 | every `dob` record is read from the document that lists its fields under their declared keys |
| `Descriptors.ClusterDescriptionRoundTrip` | src/types.rs:64-68 | every cluster description is read from the document that lists its fields under their declared keys, so the validator rejects no valid record outright |
| `Descriptors.UnknownKeysIgnored` | src/types.rs:63-102 | a member whose key is not declared by the record does not change how the record is read; none of the structs denies unknown fields |

The contracts of the validators say only which kinds of JSON value they can
accept. The `...Accepted`, `...Rejected` and `...RoundTrip` lemmas above state
exactly what each one accepts and what it reads.

## Left out

- `Settings` (src/types.rs:104-115) is configuration with only a derived default. It has no behaviour.
- `ServerDecodeResult` (src/types.rs:118-123) is an output record with no logic.
- The `#[error(...)]` message texts are display strings only.
- The `cfg(feature = "standalone_server")` gating is build configuration.
- Decoding a 32-byte hash from its hex text belongs to the `ckb_types` library. The validators take that decoder as a parameter `hashOf`, whose results are always 32 bytes long.
- `DecoderJson`, `ClusterFormatJson` and `ClusterDescriptionJson` build documents that the validators must accept; they serve the round-trip lemmas. The source never writes these three records as JSON.
- The JSON-RPC library's `ErrorCode` type is left out. `ToRpcCode` gives the `i32` that the conversion hands over, not the library value built from it.
- Parsing JSON text is left out: escapes, whitespace, and whether a literal counts as an integer or a float. The model starts from a parsed `Json` value, where that split is already made.
- Objects are read as they appear in the text, repeated keys included. Documents first collected into a JSON map would lose repeated keys; that path is not modelled.
- Which error the deserializer reports, and in what order, is left out. The validators only accept or reject, so each field's value is collected first and typed afterwards. This accepts and rejects the same documents as checking each value as it is met.
- The rest of the decoding pipeline is not part of this model: chain lookups, the decoder cache, DNA pattern extraction, the virtual-machine runner and the orchestration of a request. None of it is in `src/types.rs`, and it is bound to I/O or to other processes.
