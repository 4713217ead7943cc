/** The SuperCollider help file: `get_help_file_arguments` and `class_help`
    in faust2sc.py. */
module HelpFile {
  import opened Wrappers
  import opened Text
  import opened Metadata
  import opened Labels
  import opened ClassName

  /** What one `ARGUMENT::` block says about a control. */
  datatype Argument = Argument(
    name: string,
    tooltip: Option<string>,
    bounds: Option<(string, string)>)

  /** The block's content chosen from a UI item: the sanitised label (or ""),
      the tooltip of its flattened `meta` if it has one, and the min/max
      texts only when both are present and non-zero. */
  function ArgumentOf(item: UiItem): (a: Argument)
    ensures a.name == if item.labelText.Some? then Sanitized(item.labelText.value) else ""
    ensures a.tooltip.Some? <==>
      item.meta.Some? && exists i :: 0 <= i < |item.meta.value| && "tooltip" in item.meta.value[i]
    ensures forall i :: item.meta.Some? && FirstHolder(item.meta.value, "tooltip", i) ==>
      a.tooltip == Some(item.meta.value[i]["tooltip"])
    ensures a.bounds.Some? <==>
      item.min.Some? && item.min.value.value != 0.0 && item.max.Some? && item.max.value.value != 0.0
    ensures a.bounds.Some? ==> a.bounds.value == (item.min.value.text, item.max.value.text)
  {
    var paramName := if item.labelText.Some? then Sanitized(item.labelText.value) else "";
    SanitizedLowerIsItself(item);
    var dicts := if item.meta.Some? then item.meta.value else [];
    LookupFirstMatch(dicts, "tooltip");
    Argument(
      Lower(paramName),
      if item.meta.Some? then Lookup(item.meta.value, "tooltip") else None,
      if Truthy(item.min) && Truthy(item.max) then Some((item.min.value.text, item.max.value.text)) else None)
  }

  lemma SanitizedLowerIsItself(item: UiItem)
    ensures item.labelText.Some? ==>
      Lower(Sanitized(item.labelText.value)) == Sanitized(item.labelText.value)
    ensures Lower("") == ""
  {
    if item.labelText.Some? {
      var s := Sanitized(item.labelText.value);
      SanitizedIsClean(item.labelText.value);
      assert forall i :: 0 <= i < |s| ==> LowerChar(s[i]) == s[i];
    }
  }

  /** The text of one block as the loop appends it: a newline, then the
      block proper. */
  function RenderArgument(a: Argument): string
  {
    "\n" + ArgumentText(a)
  }

  function ArgumentText(a: Argument): string
  {
    "ARGUMENT::" + a.name + "\n" + TooltipLine(a.tooltip) + BoundsLines(a.bounds)
  }

  function TooltipLine(tooltip: Option<string>): string
  {
    if tooltip.Some? then tooltip.value + "\n" else ""
  }

  function BoundsLines(bounds: Option<(string, string)>): string
  {
    if bounds.Some? then "Minimum value: " + bounds.value.0 + "\nMaximum value: " + bounds.value.1 + "\n" else ""
  }

  function Blocks(items: seq<UiItem>): seq<string>
  {
    seq(|items|, i requires 0 <= i < |items| => RenderArgument(ArgumentOf(items[i])))
  }

  /** What `get_help_file_arguments` returns: one block per item of the
      first top-level UI group that has `items`, in order. */
  function HelpArguments(data: DspMeta): (r: Result<string>)
    ensures r.Err? <==> forall i :: 0 <= i < |data.ui| ==> "items" !in data.ui[i]
    ensures forall i :: FirstHolder(data.ui, "items", i) ==>
      r == Ok(Concat(Blocks(data.ui[i]["items"])))
  {
    LookupFirstMatch(data.ui, "items");
    match Lookup(data.ui, "items")
    case None => Err(KeyError("items"))
    case Some(items) => Ok(Concat(Blocks(items)))
  }

  lemma BlocksSnoc(items: seq<UiItem>, k: nat)
    requires k < |items|
    ensures Blocks(items[..k + 1]) == Blocks(items[..k]) + [RenderArgument(ArgumentOf(items[k]))]
  {
  }

  lemma ConcatBlocksStep(items: seq<UiItem>, k: nat, text: string)
    requires k < |items| && RenderArgument(ArgumentOf(items[k])) == "\n" + text
    ensures Concat(Blocks(items[..k + 1])) == Concat(Blocks(items[..k])) + "\n" + text
  {
    BlocksSnoc(items, k);
    ConcatSnoc(Blocks(items[..k]), "\n" + text);
  }

  lemma BlocksWhole(items: seq<UiItem>)
    ensures Blocks(items[..|items|]) == Blocks(items)
  {
    assert items[..|items|] == items;
  }

  /** `get_help_file_arguments`: the loop over the flattened `items`. */
  method GetHelpFileArguments(data: DspMeta) returns (r: Result<string>)
    ensures r == HelpArguments(data)
  {
    var outString := "";
    var found := Lookup(data.ui, "items");
    if found.None? {
      return Err(KeyError("items"));
    }
    var items := found.value;
    for k := 0 to |items|
      invariant outString == Concat(Blocks(items[..k]))
    {
      var uiElement := items[k];
      ghost var a := ArgumentOf(uiElement);

      var paramName := "";
      if uiElement.labelText.Some? {
        paramName := SanitizeLabel(uiElement.labelText.value);
      }
      // `param_min` and `param_max` stay "" (None) when the key is absent.
      var paramMin := uiElement.min;
      var paramMax := uiElement.max;

      var thisArgument := "ARGUMENT::" + Lower(paramName) + "\n";
      assert thisArgument == "ARGUMENT::" + a.name + "\n";
      if uiElement.meta.Some? {
        var meta := uiElement.meta.value;
        var tooltip := Lookup(meta, "tooltip");
        if tooltip.Some? {
          thisArgument := thisArgument + tooltip.value + "\n";
        }
      }
      assert thisArgument == "ARGUMENT::" + a.name + "\n" + TooltipLine(a.tooltip);
      if Truthy(paramMin) && Truthy(paramMax) {
        thisArgument := thisArgument
          + ("Minimum value: " + paramMin.value.text + "\nMaximum value: " + paramMax.value.text + "\n");
      }
      assert thisArgument == ArgumentText(a);
      ConcatBlocksStep(items, k, thisArgument);
      outString := outString + "\n" + thisArgument;
    }
    BlocksWhole(items);
    r := Ok(outString);
  }

  /** The description: the flattened `meta`'s `description`, else a fixed text. */
  function Description(meta: seq<map<string, string>>): (d: string)
    ensures (forall i :: 0 <= i < |meta| ==> "description" !in meta[i]) ==> d == "A Faust plugin"
    ensures forall i :: FirstHolder(meta, "description", i) ==> d == meta[i]["description"]
  {
    LookupFirstMatch(meta, "description");
    match Lookup(meta, "description")
    case None => "A Faust plugin"
    case Some(desc) => desc
  }

  /** The author sentence: empty exactly when no `meta` entry names an author. */
  function AuthorSentence(meta: seq<map<string, string>>): (s: string)
    ensures s == "" <==> forall i :: 0 <= i < |meta| ==> "author" !in meta[i]
    ensures forall i :: FirstHolder(meta, "author", i) ==>
      s == "A Faust plugin written by " + meta[i]["author"] + "."
  {
    LookupFirstMatch(meta, "author");
    match Lookup(meta, "author")
    case None => ""
    case Some(author) => "A Faust plugin written by " + author + "."
  }

  /** The fixed lines between the class name and the author sentence. */
  const HelpHeader: string := "SUMMARY::A Faust plugin\nRELATED::Classes/UGen\nCATEGORIES::Categories>Faust\nDESCRIPTION::\n"

  /** The fixed example section that ends the help file. */
  const HelpTail: string := "\n\ncode::\n// TODO\n::\n\nKEYWORD::faust,plugin"

  /** The paragraph giving the channel counts and the description. */
  function CountsParagraph(inputs: int, outputs: int, description: string): string
  {
    "This plugin has " + IntText(inputs) + " inputs and " + IntText(outputs) + " outputs.\n" + description + "\n"
  }

  /** The `METHOD::ar,kr` section holding the argument blocks. */
  function MethodsSection(arguments: string): string
  {
    "\nMETHOD::ar,kr\n" + arguments + "\nEXAMPLES::"
  }

  /** The help file template filled in: it opens with the `CLASS::` line and
      holds the counts paragraph and the methods section. */
  function HelpText(className: string, author: string, counts: string, arguments: string): (text: string)
    ensures var head := "CLASS::" + className + "\n";
      |head| <= |text| && text[..|head|] == head
    ensures IsSubstring(counts, text)
    ensures IsSubstring(MethodsSection(arguments), text)
  {
    var head := "CLASS::" + className + "\n";
    var header := HelpHeader + author + "\n";
    var afterCounts := "\nCLASSMETHODS::" + (MethodsSection(arguments) + HelpTail);
    var text := head + (header + (counts + afterCounts));
    Sandwiched(head + header, counts, afterCounts, text);
    Sandwiched(head + header + counts + "\nCLASSMETHODS::", MethodsSection(arguments), HelpTail, text);
    text
  }

  /** What `class_help` returns: the help file text for the DSP's class
      name, author sentence, channel counts, description and argument blocks. */
  function ClassHelp(data: DspMeta, noprefix: int): (r: Result<string>)
    ensures r.Ok? <==> HelpArguments(data).Ok?
    ensures r.Ok? ==> r.value == HelpText(GetClassName(data, noprefix), AuthorSentence(data.meta),
      CountsParagraph(data.inputs, data.outputs, Description(data.meta)), HelpArguments(data).value)
    ensures r.Ok? ==>
      var head := "CLASS::" + GetClassName(data, noprefix) + "\n";
      && |head| <= |r.value| && r.value[..|head|] == head
      && IsSubstring(CountsParagraph(data.inputs, data.outputs, Description(data.meta)), r.value)
      && IsSubstring(MethodsSection(HelpArguments(data).value), r.value)
  {
    var arguments := HelpArguments(data);
    if arguments.Err? then Err(arguments.error)
    else
      Ok(HelpText(GetClassName(data, noprefix), AuthorSentence(data.meta),
        CountsParagraph(data.inputs, data.outputs, Description(data.meta)), arguments.value))
  }
}
