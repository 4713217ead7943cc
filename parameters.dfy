/** `get_parameter_list` in faust2sc.py: the argument list of the generated
    class's `*ar` and `*kr` methods. */
module Parameters {
  import opened Wrappers
  import opened Text
  import opened Metadata
  import opened Labels

  /** The argument name of a control: its sanitised label, or "" without one. */
  function ParamName(item: UiItem): string
  {
    if item.labelText.Some? then Sanitized(item.labelText.value) else ""
  }

  /** The default shown for a control: its `init`, or "0" without one. */
  function InitText(item: UiItem): string
  {
    if item.init.Some? then item.init.value.text else "0"
  }

  /** One control in the list: `name(init)` with initialisation, `name` without. */
  function Entry(item: UiItem, withInit: bool): string
  {
    if withInit then ParamName(item) + "(" + InitText(item) + ")" else ParamName(item)
  }

  function InputName(i: nat): string
  {
    "in" + NatText(i)
  }

  function InputNames(n: nat): seq<string>
  {
    seq(n, i requires 0 <= i < n => InputName(i))
  }

  function Entries(items: seq<UiItem>, withInit: bool): seq<string>
  {
    seq(|items|, i requires 0 <= i < |items| => Entry(items[i], withInit))
  }

  /** `json_data["ui"][0]["items"]`: the first UI group's controls. */
  function FirstGroupItems(ui: seq<UiGroup>): Result<seq<UiItem>>
  {
    if |ui| == 0 then Err(IndexError("ui"))
    else if "items" !in ui[0] then Err(KeyError("items"))
    else Ok(ui[0]["items"])
  }

  /** What `get_parameter_list` returns: `in0, …, in{n-1}` for n > 0
      inputs, then the controls joined by ", ", the two parts joined by ","
      when both are non-empty. */
  function ParameterList(data: DspMeta, withInit: bool): (r: Result<string>)
    ensures r.Err? <==> |data.ui| == 0 || "items" !in data.ui[0]
    ensures r.Ok? && data.inputs <= 0 && |data.ui[0]["items"]| == 0 ==> r.value == ""
  {
    var items :- FirstGroupItems(data.ui);
    var controls := Join(Entries(items, withInit), ", ");
    if data.inputs > 0 then
      var inputs := Join(InputNames(data.inputs), ", ");
      Ok(if controls == "" then inputs else inputs + "," + controls)
    else
      Ok(controls)
  }

  lemma InputNamesSnoc(i: nat)
    ensures InputNames(i + 1) == InputNames(i) + [InputName(i)]
  {
  }

  lemma EntriesSnoc(items: seq<UiItem>, k: nat, withInit: bool)
    requires k < |items|
    ensures Entries(items[..k + 1], withInit) == Entries(items[..k], withInit) + [Entry(items[k], withInit)]
    ensures Entries(items[..|items|], withInit) == Entries(items, withInit)
  {
    assert items[..|items|] == items;
  }

  /** `get_parameter_list`: the inputs loop, then the loop over the first
      group's items with its `counter`. */
  method GetParameterList(data: DspMeta, withInit: bool) returns (r: Result<string>)
    ensures r == ParameterList(data, withInit)
  {
    var outString := "";
    var counter := 0;

    var inputs := "";
    if data.inputs > 0 {
      for i := 0 to data.inputs
        invariant inputs == Join(InputNames(i), ", ")
      {
        InputNamesSnoc(i);
        if i != 0 {
          JoinSnoc(InputNames(i), InputName(i), ", ");
          inputs := inputs + ", in" + NatText(i);
        } else {
          inputs := inputs + "in" + NatText(i);
        }
      }
    }

    if |data.ui| == 0 {
      return Err(IndexError("ui"));
    }
    if "items" !in data.ui[0] {
      return Err(KeyError("items"));
    }
    var items := data.ui[0]["items"];
    for k := 0 to |items|
      invariant counter == k
      invariant outString == Join(Entries(items[..k], withInit), ", ")
    {
      var item := items[k];
      var paramName := "";
      if item.labelText.Some? {
        paramName := SanitizeLabel(item.labelText.value);
      }
      var paramDefault := "";
      if item.init.Some? {
        paramDefault := item.init.value.text;
      } else {
        paramDefault := "0";
      }
      var thisArgument;
      if withInit {
        thisArgument := paramName + "(" + paramDefault + ")";
      } else {
        thisArgument := paramName;
      }
      assert thisArgument == Entry(item, withInit);
      EntriesSnoc(items, k, withInit);
      if counter != 0 {
        JoinSnoc(Entries(items[..k], withInit), thisArgument, ", ");
        outString := outString + ", " + thisArgument;
      } else {
        outString := thisArgument;
      }
      counter := counter + 1;
    }
    assert items[..|items|] == items;

    if data.inputs > 0 {
      if outString == "" {
        outString := inputs;
      } else {
        outString := inputs + "," + outString;
      }
    }
    r := Ok(outString);
  }

  /** No comma in any label or initial value. */
  predicate CommaFree(items: seq<UiItem>)
  {
    forall i :: 0 <= i < |items| ==>
      (items[i].labelText.Some? ==> ',' !in items[i].labelText.value) &&
      (items[i].init.Some? ==> ',' !in items[i].init.value.text)
  }

  lemma {:induction false} NoCharNoCount(s: string, c: char)
    requires c !in s
    ensures CountChar(s, c) == 0
  {
    if |s| > 0 {
      NoCharNoCount(s[..|s| - 1], c);
    }
  }

  lemma {:induction false} WithoutKeepsOnlyItsOwn(s: string, cs: set<char>, c: char)
    requires c !in s
    ensures c !in Without(s, cs)
  {
    if |s| > 0 {
      WithoutKeepsOnlyItsOwn(s[1..], cs, c);
    }
  }

  lemma EntryHasNoComma(item: UiItem)
    requires item.labelText.Some? ==> ',' !in item.labelText.value
    requires item.init.Some? ==> ',' !in item.init.value.text
    ensures CountChar(Entry(item, true), ',') == 0
    ensures |Entry(item, true)| > 0
  {
    var name := ParamName(item);
    if item.labelText.Some? {
      WithoutKeepsOnlyItsOwn(item.labelText.value, Removed, ',');
      var w := Without(item.labelText.value, Removed);
      assert forall i :: 0 <= i < |w| ==> LowerChar(w[i]) != ',' by {
        forall i | 0 <= i < |w| ensures LowerChar(w[i]) != ',' { assert w[i] != ','; }
      }
    }
    assert ',' !in name;
    NoCharNoCount(Entry(item, true), ',');
  }

  lemma InputNamesHaveNoComma(n: nat)
    ensures forall i :: 0 <= i < n ==> CountChar(InputNames(n)[i], ',') == 0
  {
    forall i | 0 <= i < n ensures CountChar(InputNames(n)[i], ',') == 0 {
      var t := NatText(i);
      assert forall j :: 0 <= j < |t| ==> IsDigit(t[j]);
      assert ',' !in InputName(i);
      NoCharNoCount(InputName(i), ',');
    }
  }

  lemma JoinNonEmpty(xs: seq<string>, sep: string)
    requires forall i :: 0 <= i < |xs| ==> |xs[i]| > 0
    ensures Join(xs, sep) == "" <==> |xs| == 0
  {
  }

  /** With initialisation, the list holds one argument per input and one per
      control: with comma-free labels and defaults, its commas are exactly
      the separators between them, and it is empty only when there are
      neither inputs nor controls. */
  lemma ParameterCountWithInit(data: DspMeta)
    requires |data.ui| > 0 && "items" in data.ui[0] && CommaFree(data.ui[0]["items"])
    ensures
      var items := data.ui[0]["items"];
      var arity := (if data.inputs > 0 then data.inputs else 0) + |items|;
      var r := ParameterList(data, true);
      r.Ok? && (r.value == "" <==> arity == 0) && (arity > 0 ==> CountChar(r.value, ',') == arity - 1)
  {
    var items := data.ui[0]["items"];
    var entries := Entries(items, true);
    forall i | 0 <= i < |items| ensures CountChar(entries[i], ',') == 0 && |entries[i]| > 0 {
      EntryHasNoComma(items[i]);
    }
    var controls := Join(entries, ", ");
    JoinNonEmpty(entries, ", ");
    assert CountChar(", ", ',') == 1;
    if |items| > 0 {
      JoinCountsSeparators(entries, ", ", ',');
    }
    if data.inputs > 0 {
      var inputs := Join(InputNames(data.inputs), ", ");
      InputNamesHaveNoComma(data.inputs);
      JoinCountsSeparators(InputNames(data.inputs), ", ", ',');
      assert |InputNames(data.inputs)[0]| > 0;
      if controls != "" {
        CountCharAppend(inputs, ",", ',');
        CountCharAppend(inputs + ",", controls, ',');
      }
    }
  }
}
