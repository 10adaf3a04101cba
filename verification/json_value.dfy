/**
 * The dictionary form of a model (`model_dump()` and the input of
 * `model_validate()`): a tree of JSON-like values. Turning this tree into JSON
 * text (`json.dumps`, `model_dump_json`) is not part of the model.
 */
module JsonValue {
  import opened Outcomes

  datatype Json =
    | JNull
    | JBool(b: bool)
    | JInt(i: int)
    | JFloat(r: real)
    | JStr(s: string)
    | JArr(items: seq<Json>)
    | JObj(fields: map<string, Json>)

  /** A list of strings as a JSON array. */
  function StrList(xs: seq<string>): (j: Json)
    ensures j.JArr? && |j.items| == |xs|
    ensures forall i :: 0 <= i < |xs| ==> j.items[i] == JStr(xs[i])
  {
    JArr(seq(|xs|, i requires 0 <= i < |xs| => JStr(xs[i])))
  }

  /** Reads a JSON array of strings; anything else is rejected. */
  function AsStrList(j: Json): (r: Option<seq<string>>)
    ensures r.Some? ==> j.JArr? && |r.value| == |j.items|
    ensures r.Some? ==> forall i :: 0 <= i < |j.items| ==> j.items[i] == JStr(r.value[i])
  {
    if j.JArr? && forall i :: 0 <= i < |j.items| ==> j.items[i].JStr? then
      Some(seq(|j.items|, i requires 0 <= i < |j.items| => j.items[i].s))
    else None
  }

  lemma StrListRoundTrip(xs: seq<string>)
    ensures AsStrList(StrList(xs)) == Some(xs)
  {
    var r := AsStrList(StrList(xs));
    assert r.Some?;
    assert r.value == xs;
  }

  /** A required string field. */
  function GetStr(m: map<string, Json>, key: string): (r: Option<string>)
    ensures r.Some? <==> key in m && m[key].JStr?
    ensures r.Some? ==> m[key] == JStr(r.value)
  {
    if key in m && m[key].JStr? then Some(m[key].s) else None
  }

  /** A string field that falls back to `default` when the key is absent. */
  function GetStrOr(m: map<string, Json>, key: string, default: string): (r: Option<string>)
    ensures key !in m ==> r == Some(default)
    ensures key in m ==> r == GetStr(m, key)
  {
    if key in m then GetStr(m, key) else Some(default)
  }

  /** A required list-of-strings field. */
  function GetStrList(m: map<string, Json>, key: string): (r: Option<seq<string>>)
    ensures key !in m ==> r.None?
    ensures key in m ==> r == AsStrList(m[key])
  {
    if key in m then AsStrList(m[key]) else None
  }

  /** A list-of-strings field whose default (`default_factory=list`) is the empty list. */
  function GetStrListOrEmpty(m: map<string, Json>, key: string): (r: Option<seq<string>>)
    ensures key !in m ==> r == Some([])
    ensures key in m ==> r == AsStrList(m[key])
  {
    if key in m then AsStrList(m[key]) else Some([])
  }

  /** A required integer field (a JSON float is not accepted). */
  function GetInt(m: map<string, Json>, key: string): (r: Option<int>)
    ensures r.Some? <==> key in m && m[key].JInt?
    ensures r.Some? ==> m[key] == JInt(r.value)
  {
    if key in m && m[key].JInt? then Some(m[key].i) else None
  }

  /** A required float field: a JSON float, or an integer widened to a float. */
  function GetFloat(m: map<string, Json>, key: string): (r: Option<real>)
    ensures key in m && m[key].JFloat? ==> r == Some(m[key].r)
    ensures key in m && m[key].JInt? ==> r == Some(m[key].i as real)
    ensures r.Some? ==> key in m && (m[key].JFloat? || m[key].JInt?)
  {
    if key in m && m[key].JFloat? then Some(m[key].r)
    else if key in m && m[key].JInt? then Some(m[key].i as real)
    else None
  }

  /** A required boolean field. */
  function GetBool(m: map<string, Json>, key: string): (r: Option<bool>)
    ensures r.Some? <==> key in m && m[key].JBool?
    ensures r.Some? ==> m[key] == JBool(r.value)
  {
    if key in m && m[key].JBool? then Some(m[key].b) else None
  }

  /** Reads every element of a JSON array with `parse`; fails if any element fails. */
  function ParseAll<T>(items: seq<Json>, parse: Json -> Option<T>): (r: Option<seq<T>>)
    ensures r.Some? ==> |r.value| == |items|
    ensures r.Some? ==> forall i :: 0 <= i < |items| ==> parse(items[i]) == Some(r.value[i])
    ensures r.None? ==> exists i :: 0 <= i < |items| && parse(items[i]).None?
  {
    if |items| == 0 then Some([])
    else
      match parse(items[0])
      case None => None
      case Some(x) =>
        match ParseAll(items[1..], parse)
        case None => None
        case Some(rest) => Some([x] + rest)
  }

  /** Encodes a sequence element-wise. */
  function EncodeAll<T>(xs: seq<T>, encode: T -> Json): (r: seq<Json>)
    ensures |r| == |xs|
    ensures forall i :: 0 <= i < |xs| ==> r[i] == encode(xs[i])
  {
    seq(|xs|, i requires 0 <= i < |xs| => encode(xs[i]))
  }

  /** Element-wise round trip lifts to sequences. */
  lemma {:induction false} ParseAllEncodeAll<T>(xs: seq<T>, encode: T -> Json, parse: Json -> Option<T>)
    requires forall i :: 0 <= i < |xs| ==> parse(encode(xs[i])) == Some(xs[i])
    ensures ParseAll(EncodeAll(xs, encode), parse) == Some(xs)
    decreases |xs|
  {
    if |xs| > 0 {
      var items := EncodeAll(xs, encode);
      assert items[1..] == EncodeAll(xs[1..], encode);
      assert forall i :: 0 <= i < |xs[1..]| ==> parse(encode(xs[1..][i])) == Some(xs[1..][i]) by {
        forall i | 0 <= i < |xs[1..]| ensures parse(encode(xs[1..][i])) == Some(xs[1..][i]) {
          assert xs[1..][i] == xs[i + 1];
        }
      }
      ParseAllEncodeAll(xs[1..], encode, parse);
      assert parse(items[0]) == Some(xs[0]);
      assert [xs[0]] + xs[1..] == xs;
    }
  }
}
