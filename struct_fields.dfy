/**
 * How a derived `Deserialize` implementation reads a struct from JSON.
 *
 * A struct is declared by its fields in order; each field is the set of keys
 * that name it (its own name and its aliases). From an object, every member
 * whose key names a field fills that field, a second member for an already
 * filled field is a duplicate-field error, a member whose key names no field
 * is skipped, and a field no member fills is a missing-field error. From an
 * array, the elements fill the fields positionally and the array must hold
 * exactly one element per field. Any other JSON value is rejected.
 *
 * The result is only accept or reject: which of several errors the
 * deserializer reports first is not modelled, and so each field's value is
 * collected first and typed afterwards, which accepts the same documents.
 */
module StructFields {
  import opened Wrappers
  import opened Json

  /** No key names two different fields. */
  ghost predicate Disjoint(fields: seq<set<string>>) {
    forall i, j | 0 <= i < j < |fields| :: fields[i] !! fields[j]
  }

  /** The values of the members whose key is in `names`, in document order. */
  function Occurrences(members: seq<Member>, names: set<string>): (r: seq<Json>)
    ensures |r| <= |members|
  {
    if members == [] then []
    else (if members[0].0 in names then [members[0].1] else []) + Occurrences(members[1..], names)
  }

  /** The first field, from position `from` on, that `key` names. */
  function FieldIndex(fields: seq<set<string>>, key: string, from: nat): (r: Option<nat>)
    ensures r.Some? ==> from <= r.value < |fields| && key in fields[r.value]
    ensures r.None? ==> forall j :: from <= j < |fields| ==> key !in fields[j]
    decreases |fields| - from
  {
    if from >= |fields| then None
    else if key in fields[from] then Some(from)
    else FieldIndex(fields, key, from + 1)
  }

  /** Reads the members in order into the field slots, rejecting a field filled twice. */
  function Collect(members: seq<Member>, fields: seq<set<string>>, slots: seq<Option<Json>>): (r: Option<seq<Option<Json>>>)
    requires |slots| == |fields|
    ensures r.Some? ==> |r.value| == |fields|
    decreases |members|
  {
    if members == [] then Some(slots)
    else
      match FieldIndex(fields, members[0].0, 0)
      case None => Collect(members[1..], fields, slots)
      case Some(j) =>
        if slots[j].Some? then None
        else Collect(members[1..], fields, slots[j := Some(members[0].1)])
  }

  /** All slots filled: their values; a slot left empty rejects. */
  function Filled(slots: seq<Option<Json>>): (r: Option<seq<Json>>)
    ensures r.Some? <==> forall j :: 0 <= j < |slots| ==> slots[j].Some?
    ensures r.Some? ==> |r.value| == |slots| && forall j :: 0 <= j < |slots| ==> r.value[j] == slots[j].value
  {
    if slots == [] then Some([])
    else if slots[0].None? then None
    else
      match Filled(slots[1..])
      case None => None
      case Some(rest) => Some([slots[0].value] + rest)
  }

  /** The value of each field, read from an object's members. */
  function FieldValues(members: seq<Member>, fields: seq<set<string>>): (r: Option<seq<Json>>)
    ensures r.Some? ==> |r.value| == |fields|
  {
    match Collect(members, fields, seq(|fields|, _ => None))
    case None => None
    case Some(slots) => Filled(slots)
  }

  /** The value of each field of a struct read from any JSON value. */
  function StructValues(j: Json, fields: seq<set<string>>): (r: Option<seq<Json>>)
    ensures r.Some? ==> |r.value| == |fields|
  {
    match j
    case JObject(members) => FieldValues(members, fields)
    case JArray(items) => if |items| == |fields| then Some(items) else None
    case _ => None
  }

  /**
   * An array is read exactly when it holds one element per field, and the
   * elements are the field values in order; a value that is neither an object
   * nor an array is rejected.
   */
  lemma NonObjectForms(j: Json, fields: seq<set<string>>)
    ensures j.JArray? ==> (StructValues(j, fields).Some? <==> |j.items| == |fields|)
    ensures j.JArray? && StructValues(j, fields).Some? ==> StructValues(j, fields).value == j.items
    ensures !j.JObject? && !j.JArray? ==> StructValues(j, fields) == None
  {
  }

  /** 1 for a filled slot, 0 for an empty one. */
  function SlotCount(slot: Option<Json>): nat {
    if slot.Some? then 1 else 0
  }

  lemma {:induction false} OccurrencesAppend(a: seq<Member>, b: seq<Member>, names: set<string>)
    ensures Occurrences(a + b, names) == Occurrences(a, names) + Occurrences(b, names)
  {
    if a != [] {
      assert (a + b)[1..] == a[1..] + b;
      OccurrencesAppend(a[1..], b, names);
    } else {
      assert a + b == b;
    }
  }

  /** The value of every member whose key is in `names` is among the occurrences. */
  lemma {:induction false} OccurrenceIncluded(members: seq<Member>, names: set<string>, i: nat)
    requires i < |members| && members[i].0 in names
    ensures members[i].1 in Occurrences(members, names)
  {
    if i > 0 {
      OccurrenceIncluded(members[1..], names, i - 1);
    }
  }

  /** Two members whose keys are in `names` give at least two occurrences. */
  lemma {:induction false} OccurrencesTwice(members: seq<Member>, names: set<string>, i: nat, j: nat)
    requires i < j < |members|
    requires members[i].0 in names && members[j].0 in names
    ensures |Occurrences(members, names)| >= 2
  {
    if i == 0 {
      OccurrenceIncluded(members[1..], names, j - 1);
    } else {
      OccurrencesTwice(members[1..], names, i - 1, j - 1);
    }
  }

  /**
   * Reading members into partly filled slots succeeds exactly when no field
   * ends up with more than one value, and each slot then holds its earlier
   * value or else the first occurrence of its field.
   */
  lemma {:induction false} CollectCorrect(members: seq<Member>, fields: seq<set<string>>, slots: seq<Option<Json>>)
    requires Disjoint(fields) && |slots| == |fields|
    ensures Collect(members, fields, slots).Some? <==>
      forall j :: 0 <= j < |fields| ==> SlotCount(slots[j]) + |Occurrences(members, fields[j])| <= 1
    ensures Collect(members, fields, slots).Some? ==>
      forall j :: 0 <= j < |fields| ==>
        Collect(members, fields, slots).value[j] ==
          if slots[j].Some? then slots[j]
          else if Occurrences(members, fields[j]) == [] then None
          else Some(Occurrences(members, fields[j])[0])
    decreases |members|
  {
    if members != [] {
      var key, rest := members[0].0, members[1..];
      match FieldIndex(fields, key, 0)
      case None =>
        forall j | 0 <= j < |fields|
          ensures Occurrences(members, fields[j]) == Occurrences(rest, fields[j])
        {
        }
        CollectCorrect(rest, fields, slots);
      case Some(k) =>
        forall j | 0 <= j < |fields| && j != k
          ensures Occurrences(members, fields[j]) == Occurrences(rest, fields[j])
        {
          assert key !in fields[j] by {
            if j < k { assert fields[j] !! fields[k]; } else { assert fields[k] !! fields[j]; }
          }
        }
        assert Occurrences(members, fields[k]) == [members[0].1] + Occurrences(rest, fields[k]);
        if slots[k].None? {
          var slots' := slots[k := Some(members[0].1)];
          CollectCorrect(rest, fields, slots');
          assert forall j :: 0 <= j < |fields| ==>
            SlotCount(slots'[j]) + |Occurrences(rest, fields[j])| == SlotCount(slots[j]) + |Occurrences(members, fields[j])|;
        }
    }
  }

  /**
   * An object yields its field values exactly when every field is named by
   * exactly one member, and each field's value is that member's value.
   */
  lemma FieldValuesCorrect(members: seq<Member>, fields: seq<set<string>>)
    requires Disjoint(fields)
    ensures FieldValues(members, fields).Some? <==>
      forall j :: 0 <= j < |fields| ==> |Occurrences(members, fields[j])| == 1
    ensures FieldValues(members, fields).Some? ==>
      forall j :: 0 <= j < |fields| ==> FieldValues(members, fields).value[j] == Occurrences(members, fields[j])[0]
  {
    var empty: seq<Option<Json>> := seq(|fields|, _ => None);
    CollectCorrect(members, fields, empty);
    assert forall j :: 0 <= j < |fields| ==> SlotCount(empty[j]) == 0;
  }

  /** A member whose key names no field does not change what an object yields. */
  lemma UnknownMemberIgnored(before: seq<Member>, m: Member, after: seq<Member>, fields: seq<set<string>>)
    requires Disjoint(fields)
    requires forall j :: 0 <= j < |fields| ==> m.0 !in fields[j]
    ensures StructValues(JObject(before + [m] + after), fields) == StructValues(JObject(before + after), fields)
  {
    var with, without := before + [m] + after, before + after;
    forall j | 0 <= j < |fields|
      ensures Occurrences(with, fields[j]) == Occurrences(without, fields[j])
    {
      OccurrencesAppend(before + [m], after, fields[j]);
      OccurrencesAppend(before, [m], fields[j]);
      OccurrencesAppend(before, after, fields[j]);
      assert Occurrences([m], fields[j]) == [] by {
        assert [m][1..] == [];
      }
    }
    FieldValuesCorrect(with, fields);
    FieldValuesCorrect(without, fields);
    if FieldValues(with, fields).Some? {
      var x, y := FieldValues(with, fields).value, FieldValues(without, fields).value;
      assert x == y by {
        forall j | 0 <= j < |fields| ensures x[j] == y[j] {
          assert Occurrences(with, fields[j]) == Occurrences(without, fields[j]);
        }
      }
    }
  }

  /** Two members naming the same field reject the object. */
  lemma DuplicateFieldRejected(members: seq<Member>, fields: seq<set<string>>, f: nat, i: nat, j: nat)
    requires Disjoint(fields) && f < |fields|
    requires i < j < |members| && members[i].0 in fields[f] && members[j].0 in fields[f]
    ensures StructValues(JObject(members), fields) == None
  {
    OccurrencesTwice(members, fields[f], i, j);
    FieldValuesCorrect(members, fields);
  }

  /** An object with no member naming some field is rejected. */
  lemma MissingFieldRejected(members: seq<Member>, fields: seq<set<string>>, f: nat)
    requires Disjoint(fields) && f < |fields|
    requires forall i :: 0 <= i < |members| ==> members[i].0 !in fields[f]
    ensures StructValues(JObject(members), fields) == None
  {
    if Occurrences(members, fields[f]) != [] {
      var v := Occurrences(members, fields[f])[0];
      OccurrenceFrom(members, fields[f], v);
    }
    FieldValuesCorrect(members, fields);
  }

  /** Every occurrence comes from a member whose key is in `names`. */
  lemma {:induction false} OccurrenceFrom(members: seq<Member>, names: set<string>, v: Json)
    requires v in Occurrences(members, names)
    ensures exists i :: 0 <= i < |members| && members[i].0 in names && members[i].1 == v
  {
    if members[0].0 in names && members[0].1 == v {
      assert members[0].0 in names;
    } else {
      OccurrenceFrom(members[1..], names, v);
      var i :| 0 <= i < |members[1..]| && members[1..][i].0 in names && members[1..][i].1 == v;
      assert members[i + 1] == members[1..][i];
    }
  }
}
