/**
 * The pre-validation rewrite of an inbound payload: when the body carries
 * its metadata under the alias `meta_info` and not under `metadata`, the
 * entry is moved (popped and re-inserted) to the key `metadata`.  The raw
 * body is a mutable dictionary, so the rewrite is an in-place update; the
 * function `Promoted` states what the dictionary holds afterwards.
 */
module MetaInfoAlias {

  const MetaInfoKey: string := "meta_info"
  const MetadataKey: string := "metadata"

  /** A JSON value as decoded from the request body. */
  datatype Json =
    | Null
    | Bool(b: bool)
    | Number(n: real)
    | Str(s: string)
    | Array(items: seq<Json>)
    | Object(members: map<string, Json>)

  /** A decoded JSON object: a dictionary whose entries are updated in place. */
  class RawDict {
    var fields: map<string, Json>

    constructor (fields: map<string, Json>)
      ensures this.fields == fields
    {
      this.fields := fields;
    }
  }

  /** What the validator receives: a dictionary, or any other decoded value. */
  datatype Raw = DictRaw(dict: RawDict) | OtherRaw(value: Json)

  /**
   * The dictionary after the rewrite.  Afterwards `meta_info` is never
   * present without `metadata`, and `metadata` is present exactly when
   * either spelling was.
   */
  function Promoted(m: map<string, Json>): (r: map<string, Json>)
    ensures MetaInfoKey in r ==> MetadataKey in r
    ensures MetadataKey in r <==> MetadataKey in m || MetaInfoKey in m
    ensures forall k :: k != MetaInfoKey && k != MetadataKey ==> (k in r <==> k in m)
    ensures forall k :: k in r && k != MetaInfoKey && k != MetadataKey ==> r[k] == m[k]
  {
    if MetaInfoKey in m && MetadataKey !in m then
      (m - {MetaInfoKey})[MetadataKey := m[MetaInfoKey]]
    else
      m
  }

  /**
   * The validator: rewrites a dictionary in place and hands back the same
   * value; anything that is not a dictionary passes through untouched.
   */
  method AllowMetaInfo(values: Raw) returns (r: Raw)
    modifies if values.DictRaw? then {values.dict} else {}
    ensures r == values
    ensures values.DictRaw? ==> values.dict.fields == Promoted(old(values.dict.fields))
  {
    if values.DictRaw? {
      var d := values.dict;
      if MetaInfoKey in d.fields && MetadataKey !in d.fields {
        var popped := d.fields[MetaInfoKey];
        d.fields := d.fields - {MetaInfoKey};
        d.fields := d.fields[MetadataKey := popped];
      }
    }
    r := values;
  }

  /** With only the alias present, its value moves to `metadata` and the alias disappears. */
  lemma PromotesAlias(m: map<string, Json>)
    requires MetaInfoKey in m && MetadataKey !in m
    ensures MetadataKey in Promoted(m) && Promoted(m)[MetadataKey] == m[MetaInfoKey]
    ensures MetaInfoKey !in Promoted(m)
    ensures |Promoted(m)| == |m|
  {
  }

  /** When `metadata` is already present, or the alias is absent, nothing changes. */
  lemma KeepsOtherwise(m: map<string, Json>)
    requires MetadataKey in m || MetaInfoKey !in m
    ensures Promoted(m) == m
  {
  }

  /** Applying the rewrite twice is the same as applying it once. */
  lemma PromotedIdempotent(m: map<string, Json>)
    ensures Promoted(Promoted(m)) == Promoted(m)
  {
  }

  /**
   * The two spellings are interchangeable: a body that carries the metadata
   * as `meta_info` is rewritten to the very dictionary that carries it as
   * `metadata`, so validation sees identical input.
   */
  lemma AliasEquivalence(m: map<string, Json>, v: Json)
    requires MetaInfoKey !in m && MetadataKey !in m
    ensures Promoted(m[MetaInfoKey := v]) == m[MetadataKey := v]
    ensures Promoted(m[MetadataKey := v]) == m[MetadataKey := v]
  {
  }
}
