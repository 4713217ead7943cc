/** The JSON metadata that the Faust compiler writes next to the generated
    C++ file, as the generator reads it, and the `ChainMap` lookup the
    generator applies to its lists of dictionaries. */
module Metadata {
  import opened Wrappers

  /** A JSON number: its value, for Python truthiness, and the text that
      Python's `%s` prints for it. */
  datatype Number = Number(value: real, text: string)

  /** One entry of a UI group's `items`: every key the generator reads,
      each absent when the JSON object lacks it. */
  datatype UiItem = UiItem(
    labelText: Option<string>,  // the `label` key
    min: Option<Number>,
    max: Option<Number>,
    init: Option<Number>,
    meta: Option<seq<map<string, string>>>)

  /** A top-level entry of `ui`, keeping its list-valued keys (`items`). */
  type UiGroup = map<string, seq<UiItem>>

  /** The parsed JSON document. */
  datatype DspMeta = DspMeta(
    name: string,
    inputs: int,
    outputs: int,
    meta: seq<map<string, string>>,
    ui: seq<UiGroup>)

  /** Python truthiness of a value that defaults to `""` when its key is
      absent: the empty string and the number zero are false. */
  predicate Truthy(v: Option<Number>)
  {
    v.Some? && v.value.value != 0.0
  }

  /** `ChainMap(*dicts)[key]`: the value in the first dictionary that has
      the key, or None when `key in ChainMap(*dicts)` is false. */
  function Lookup<V>(dicts: seq<map<string, V>>, key: string): Option<V>
  {
    if |dicts| == 0 then None
    else if key in dicts[0] then Some(dicts[0][key])
    else Lookup(dicts[1..], key)
  }

  /** `dicts[i]` is the first dictionary holding `key`. */
  ghost predicate FirstHolder<V>(dicts: seq<map<string, V>>, key: string, i: int)
  {
    0 <= i < |dicts| && key in dicts[i] && forall j :: 0 <= j < i ==> key !in dicts[j]
  }

  /** The chain lookup finds the key exactly when some dictionary holds it,
      and then yields that key's value in the first such dictionary. */
  lemma {:induction false} LookupFirstMatch<V>(dicts: seq<map<string, V>>, key: string)
    ensures Lookup(dicts, key).None? <==> forall i :: 0 <= i < |dicts| ==> key !in dicts[i]
    ensures Lookup(dicts, key).Some? ==>
      exists i :: FirstHolder(dicts, key, i) && Lookup(dicts, key).value == dicts[i][key]
    ensures forall i :: FirstHolder(dicts, key, i) ==> Lookup(dicts, key) == Some(dicts[i][key])
  {
    if |dicts| > 0 {
      if key in dicts[0] {
        assert FirstHolder(dicts, key, 0);
        forall i | FirstHolder(dicts, key, i) ensures i == 0 { }
      } else {
        var rest := dicts[1..];
        LookupFirstMatch(rest, key);
        forall i | 0 <= i < |dicts| && key in dicts[i] ensures key in rest[i - 1] { }
        if Lookup(rest, key).Some? {
          var i :| FirstHolder(rest, key, i) && Lookup(rest, key).value == rest[i][key];
          assert FirstHolder(dicts, key, i + 1);
        }
        forall i | FirstHolder(dicts, key, i) ensures Lookup(dicts, key) == Some(dicts[i][key]) {
          assert FirstHolder(rest, key, i - 1);
        }
      }
    }
  }
}
