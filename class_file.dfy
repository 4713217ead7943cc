/** The SuperCollider class file: `get_sc_class` in faust2sc.py. */
module ClassFile {
  import opened Wrappers
  import opened Text
  import opened Metadata
  import opened ClassName
  import opened Parameters

  /** The parts of the class that depend on the channel counts. */
  datatype ClassShape = ClassShape(parent: string, init: string, inputCheck: string)

  // The fixed text around the `initOutputs` call of the `init` override.
  const InitBefore: string := "\n\ninit { | ... theInputs |\n      inputs = theInputs\n      "
  const InitAfter: string := "\n  }\n\n    "

  // The fixed text around the input count in the `checkInputs` block.
  const CheckBefore: string := "\n\ncheckInputs {\n    if (rate == 'audio', {\n      "
  const CheckAfter: string :=
    "\n        if (inputs.at(i).rate != 'audio', {\n          ^(\" input at index \" + i + \"(\" + inputs.at(i) +\n            \") is not audio rate\");\n        });\n      });\n    });\n    ^this.checkValidInputs\n  }\n\n"

  function InitCall(outputs: int): string
  {
    "^this.initOutputs(" + IntText(outputs) + ", rate)"
  }

  function InputLoop(inputs: int): string
  {
    IntText(inputs) + ".do({|i|"
  }

  /** The `init` override a multi-output UGen needs. */
  function InitOverride(outputs: int): (r: string)
    ensures |r| > 0 && IsSubstring(InitCall(outputs), r)
  {
    Sandwiched(InitBefore, InitCall(outputs), InitAfter, InitBefore + InitCall(outputs) + InitAfter);
    InitBefore + InitCall(outputs) + InitAfter
  }

  /** The `checkInputs` block that rejects non-audio-rate inputs. */
  function InputCheck(inputs: int): (r: string)
    ensures |r| > 0 && IsSubstring(InputLoop(inputs), r)
  {
    Sandwiched(CheckBefore, InputLoop(inputs), CheckAfter, CheckBefore + InputLoop(inputs) + CheckAfter);
    CheckBefore + InputLoop(inputs) + CheckAfter
  }

  /** The parent class and `init` follow the output count, the input check
      the input count. */
  function SelectShape(inputs: int, outputs: int): (s: ClassShape)
    ensures s.parent == "MultiOutUGen" <==> outputs > 1
    ensures s.parent == "UGen" <==> outputs <= 1
    ensures s.init != "" <==> outputs > 1
    ensures outputs > 1 ==> IsSubstring(InitCall(outputs), s.init)
    ensures s.inputCheck != "" <==> inputs > 0
    ensures inputs > 0 ==> IsSubstring(InputLoop(inputs), s.inputCheck)
  {
    ClassShape(
      if outputs > 1 then "MultiOutUGen" else "UGen",
      if outputs > 1 then InitOverride(outputs) else "",
      if inputs > 0 then InputCheck(inputs) else "")
  }

  // The fixed text between the parts of the class.
  const AfterHead: string := "\n\n    "
  const AfterMethod: string := "\n    }\n\n    "
  const AfterName: string := "\n\n    info { ^\"Generated with Faust\" }\n    "

  /** The class template filled in: `head` is the declaration line, `ar`
      and `kr` the two constructor methods, `foot` the optional blocks and
      the closing brace. */
  function ClassText(head: string, ar: string, kr: string, nameMethod: string, foot: string): string
  {
    head + (AfterHead + (ar + (AfterMethod + (kr + (AfterMethod + (nameMethod + (AfterName + foot)))))))
  }

  lemma ClassTextParts(head: string, ar: string, kr: string, nameMethod: string, foot: string)
    ensures var text := ClassText(head, ar, kr, nameMethod, foot);
      && |head| + |foot| <= |text|
      && text[..|head|] == head
      && text[|text| - |foot|..] == foot
      && IsSubstring(ar, text) && IsSubstring(kr, text) && IsSubstring(nameMethod, text)
  {
    var text := ClassText(head, ar, kr, nameMethod, foot);
    var afterKr := AfterMethod + (nameMethod + (AfterName + foot));
    var afterAr := AfterMethod + (kr + afterKr);
    Sandwiched(head + AfterHead, ar, afterAr, text);
    Sandwiched(head + AfterHead + ar + AfterMethod, kr, afterKr, text);
    Sandwiched(head + AfterHead + ar + AfterMethod + kr + AfterMethod, nameMethod, AfterName + foot, text);
    assert text == head + (AfterHead + (ar + afterAr));
    assert text == (head + AfterHead + ar + AfterMethod + kr + AfterMethod + nameMethod + AfterName) + foot;
  }

  function ArMethod(withInit: string, plain: string): string
  {
    "*ar{|" + withInit + "|\n      ^this.multiNew('audio', " + plain + ")"
  }

  function KrMethod(withInit: string, plain: string): string
  {
    "*kr{|" + withInit + "|\n      ^this.multiNew('control', " + plain + ")"
  }

  function NameMethod(name: string): string
  {
    "name { ^\"" + name + "\" }"
  }

  function ClassHead(className: string, parent: string): string
  {
    "\n" + className + " : " + parent + " {"
  }

  function ClassFoot(shape: ClassShape): string
  {
    shape.inputCheck + "\n    " + shape.init + "\n}\n"
  }

  /** The class file for a class `className` generated from the DSP `name`,
      with the given shape and argument lists (with and without initial
      values). */
  function ClassSource(className: string, name: string, shape: ClassShape, withInit: string, plain: string): (text: string)
    ensures var head := ClassHead(className, shape.parent);
      |head| <= |text| && text[..|head|] == head
    ensures IsSubstring(ArMethod(withInit, plain), text) && IsSubstring(KrMethod(withInit, plain), text)
    ensures IsSubstring(NameMethod(name), text)
    ensures var foot := ClassFoot(shape);
      |foot| <= |text| && text[|text| - |foot|..] == foot
  {
    ClassTextParts(ClassHead(className, shape.parent), ArMethod(withInit, plain), KrMethod(withInit, plain),
      NameMethod(name), ClassFoot(shape));
    ClassText(ClassHead(className, shape.parent), ArMethod(withInit, plain), KrMethod(withInit, plain),
      NameMethod(name), ClassFoot(shape))
  }

  /** What `get_sc_class` returns: the class text, or the error the
      argument list raises. */
  function ScClass(data: DspMeta, noprefix: int): (r: Result<string>)
    ensures r.Ok? <==> ParameterList(data, true).Ok?
    ensures r.Ok? ==>
      r.value == ClassSource(GetClassName(data, noprefix), DspName(data), SelectShape(data.inputs, data.outputs),
        ParameterList(data, true).value, ParameterList(data, false).value)
    ensures r.Ok? ==>
      && IsSubstring(" : " + (if data.outputs > 1 then "MultiOutUGen" else "UGen") + " {", r.value)
      && (data.outputs > 1 ==> IsSubstring(InitCall(data.outputs), r.value))
      && (data.inputs > 0 ==> IsSubstring(InputLoop(data.inputs), r.value))
  {
    var withInit := ParameterList(data, true);
    if withInit.Err? then Err(withInit.error)
    else
      ClassFollowsChannelCounts(GetClassName(data, noprefix), DspName(data), data.inputs, data.outputs,
        withInit.value, ParameterList(data, false).value);
      Ok(ClassSource(GetClassName(data, noprefix), DspName(data), SelectShape(data.inputs, data.outputs),
        withInit.value, ParameterList(data, false).value))
  }

  /** The class text follows the channel counts: it declares the parent
      `SelectShape` picks (`MultiOutUGen` exactly when there is more than
      one output), calls `initOutputs` with the output count when there is
      more than one output, and loops over the input count when there are
      inputs. */
  lemma ClassFollowsChannelCounts(className: string, name: string, inputs: int, outputs: int,
                                  withInit: string, plain: string)
    ensures var text := ClassSource(className, name, SelectShape(inputs, outputs), withInit, plain);
      && IsSubstring(" : " + SelectShape(inputs, outputs).parent + " {", text)
      && (outputs > 1 ==> IsSubstring(InitCall(outputs), text))
      && (inputs > 0 ==> IsSubstring(InputLoop(inputs), text))
  {
    var shape := SelectShape(inputs, outputs);
    var text := ClassSource(className, name, shape, withInit, plain);
    ShapeShows(text, className, shape);
    if outputs > 1 {
      SubstringTransitive(InitCall(outputs), shape.init, text);
    }
    if inputs > 0 {
      SubstringTransitive(InputLoop(inputs), shape.inputCheck, text);
    }
  }

  /** A text that opens with the declaration line and ends with the
      optional blocks holds the declared parent and both blocks. */
  lemma ShapeShows(text: string, className: string, shape: ClassShape)
    requires var head := ClassHead(className, shape.parent);
      |head| <= |text| && text[..|head|] == head
    requires var foot := ClassFoot(shape);
      |foot| <= |text| && text[|text| - |foot|..] == foot
    ensures IsSubstring(" : " + shape.parent + " {", text)
    ensures IsSubstring(shape.init, text) && IsSubstring(shape.inputCheck, text)
  {
    var head := ClassHead(className, shape.parent);
    var foot := ClassFoot(shape);
    EndsOccur(head, foot, text);
    HeadNamesParent(className, shape.parent);
    SubstringTransitive(" : " + shape.parent + " {", head, text);
    FootHoldsShape(shape);
    SubstringTransitive(shape.init, foot, text);
    SubstringTransitive(shape.inputCheck, foot, text);
  }

  lemma HeadNamesParent(className: string, parent: string)
    ensures IsSubstring(" : " + parent + " {", ClassHead(className, parent))
  {
    Sandwiched("\n" + className, " : " + parent + " {", "", ClassHead(className, parent));
  }

  lemma FootHoldsShape(shape: ClassShape)
    ensures IsSubstring(shape.init, ClassFoot(shape)) && IsSubstring(shape.inputCheck, ClassFoot(shape))
  {
    Sandwiched(shape.inputCheck + "\n    ", shape.init, "\n}\n", ClassFoot(shape));
    Sandwiched("", shape.inputCheck, "\n    " + shape.init + "\n}\n", ClassFoot(shape));
  }
}
