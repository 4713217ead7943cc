/** Deriving the SuperCollider class name from the DSP's `name`:
    `normalizeClassName`, `dsp_name` and `get_class_name` in faust2sc.py. */
module ClassName {
  import opened Text
  import opened Metadata

  /** The name length cap; normalised names keep `MaxLen - 1` characters. */
  const MaxLen: nat := 31

  /** The prefix added unless `noprefix == 1`. */
  const Prefix: string := "Faust"

  predicate IsSeparator(c: char) { c == '_' || c == '-' || c == ' ' }

  /** The untruncated output of the normalising loop started on `s` with
      the given `upnext` flag. When the flag is set the next character is
      emitted upper-cased whatever it is (a separator included); otherwise
      a separator is dropped and sets the flag, and any other character is
      copied. */
  function Normalized(s: string, upnext: bool): (r: string)
    ensures |r| <= |s|
    ensures upnext && |s| > 0 ==> |r| > 0 && r[0] == UpperChar(s[0])
  {
    if |s| == 0 then ""
    else if upnext then [UpperChar(s[0])] + Normalized(s[1..], false)
    else if IsSeparator(s[0]) then Normalized(s[1..], true)
    else [s[0]] + Normalized(s[1..], false)
  }

  /** What `normalizeClassName` returns: at most 30 characters, starting
      with the upper-cased first character of a non-empty input. */
  function Normalize(metaName: string): (r: string)
    ensures |r| <= MaxLen - 1 && |r| <= |metaName|
    ensures |metaName| > 0 ==> |r| > 0 && r[0] == UpperChar(metaName[0])
  {
    Take(Normalized(metaName, true), MaxLen - 1)
  }

  /** `normalizeClassName`: one pass over the name with the `upnext` flag,
      then the slice `[0:maxlen-1]`. */
  method NormalizeClassName(metaName: string) returns (r: string)
    ensures r == Normalize(metaName)
  {
    var upnext := true;
    var normalized := "";
    for i := 0 to |metaName|
      invariant normalized + Normalized(metaName[i..], upnext) == Normalized(metaName, true)
    {
      var c := metaName[i];
      assert metaName[i..][1..] == metaName[i + 1..];
      if upnext {
        normalized := normalized + [UpperChar(c)];
        upnext := false;
        continue;
      }
      if IsSeparator(c) {
        upnext := true;
      } else {
        normalized := normalized + [c];
      }
    }
    assert metaName[|metaName|..] == "";
    r := Take(normalized, MaxLen - 1);
  }

  /** `dsp_name`: the normalised `name` field. */
  function DspName(data: DspMeta): (r: string)
    ensures |r| <= MaxLen - 1 && |r| <= |data.name|
    ensures |data.name| > 0 ==> |r| > 0 && r[0] == UpperChar(data.name[0])
  {
    Normalize(data.name)
  }

  /** `get_class_name`: the normalised name, prefixed with "Faust" unless
      `noprefix == 1`, and cut to 30 characters if that makes it longer
      than 31. */
  function GetClassName(data: DspMeta, noprefix: int): (r: string)
    ensures |r| <= MaxLen
    ensures noprefix == 1 ==> r == DspName(data)
    ensures noprefix != 1 ==> |r| >= |Prefix| && r[..|Prefix|] == Prefix
    ensures noprefix != 1 ==>
      var full := Prefix + DspName(data);
      |r| <= |full| && r == full[..|r|] && (|r| == |full| <==> |full| <= MaxLen)
    ensures noprefix != 1 && |Prefix + DspName(data)| > MaxLen ==> r == (Prefix + DspName(data))[..MaxLen - 1]
  {
    var name := DspName(data);
    var name := if noprefix != 1 then Prefix + name else name;
    if |name| > MaxLen then name[0..30] else name
  }

  // ---- Reference definition: the name as capitalised words ----

  /** The words of `s` between separators (possibly empty ones). */
  function Split(s: string): (ws: seq<string>)
    ensures |ws| > 0
  {
    if |s| == 0 then [""]
    else if IsSeparator(s[0]) then [""] + Split(s[1..])
    else
      var rest := Split(s[1..]);
      [[s[0]] + rest[0]] + rest[1..]
  }

  function Capitalized(w: string): string
  {
    if |w| == 0 then "" else [UpperChar(w[0])] + w[1..]
  }

  /** The words capitalised and run together. */
  function CamelCase(ws: seq<string>): string
  {
    if |ws| == 0 then "" else Capitalized(ws[0]) + CamelCase(ws[1..])
  }

  /** No separator is directly followed by another. */
  predicate NoDoubleSeparator(s: string)
  {
    forall i :: 0 <= i < |s| - 1 && IsSeparator(s[i]) ==> !IsSeparator(s[i + 1])
  }

  /** The inputs on which the loop's quirk (it upper-cases a character
      before testing whether it is a separator) does not show. */
  predicate WellSeparated(s: string)
  {
    (|s| == 0 || !IsSeparator(s[0])) && NoDoubleSeparator(s)
  }

  lemma {:induction false} NormalizedAtWordStart(s: string)
    requires WellSeparated(s)
    ensures Normalized(s, true) == CamelCase(Split(s))
    decreases |s|, 1
  {
    if |s| > 0 {
      var t := s[1..];
      assert NoDoubleSeparator(t) by {
        forall i | 0 <= i < |t| - 1 && IsSeparator(t[i]) ensures !IsSeparator(t[i + 1]) {
          assert s[i + 1] == t[i] && s[i + 2] == t[i + 1];
        }
      }
      NormalizedInWord(t);
      var rest := Split(t);
      assert Split(s) == [[s[0]] + rest[0]] + rest[1..];
      assert Split(s)[1..] == rest[1..];
    }
  }

  lemma {:induction false} NormalizedInWord(s: string)
    requires NoDoubleSeparator(s)
    ensures Normalized(s, false) == Split(s)[0] + CamelCase(Split(s)[1..])
    decreases |s|, 0
  {
    if |s| > 0 {
      var t := s[1..];
      assert NoDoubleSeparator(t) by {
        forall i | 0 <= i < |t| - 1 && IsSeparator(t[i]) ensures !IsSeparator(t[i + 1]) {
          assert s[i + 1] == t[i] && s[i + 2] == t[i + 1];
        }
      }
      if IsSeparator(s[0]) {
        assert |t| > 0 ==> !IsSeparator(t[0]) by {
          if |t| > 0 { assert s[1] == t[0]; }
        }
        NormalizedAtWordStart(t);
        assert Split(s)[1..] == Split(t);
      } else {
        NormalizedInWord(t);
        var rest := Split(t);
        assert Split(s) == [[s[0]] + rest[0]] + rest[1..];
        assert Split(s)[1..] == rest[1..];
      }
    }
  }

  /** On names without a leading or doubled separator, the class name is
      the words capitalised and joined, cut to 30 characters. */
  lemma NormalizeIsCamelCase(s: string)
    requires WellSeparated(s)
    ensures Normalize(s) == Take(CamelCase(Split(s)), MaxLen - 1)
  {
    NormalizedAtWordStart(s);
  }

  /** One step of the loop, on a name split into its first character and the rest. */
  lemma NormalizedStep(c: char, t: string, upnext: bool)
    ensures Normalized([c] + t, upnext) ==
      if upnext then [UpperChar(c)] + Normalized(t, false)
      else if IsSeparator(c) then Normalized(t, true)
      else [c] + Normalized(t, false)
  {
    assert ([c] + t)[1..] == t;
  }

  /** A run of non-separators is copied unchanged. */
  lemma {:induction false} NormalizedPlainRun(w: string, rest: string)
    requires forall i :: 0 <= i < |w| ==> !IsSeparator(w[i])
    ensures Normalized(w + rest, false) == w + Normalized(rest, false)
    decreases |w|
  {
    if |w| > 0 {
      assert w + rest == [w[0]] + (w[1..] + rest);
      NormalizedStep(w[0], w[1..] + rest, false);
      assert forall i :: 0 <= i < |w[1..]| ==> w[1..][i] == w[i + 1];
      NormalizedPlainRun(w[1..], rest);
      assert [w[0]] + (w[1..] + Normalized(rest, false)) == w + Normalized(rest, false);
    } else {
      assert w + rest == rest;
    }
  }

  /** A word opening the name, or following a separator, is capitalised
      and copied up to the next separator, which is dropped. */
  lemma NormalizedWord(c: char, w: string, sep: char, rest: string)
    requires forall i :: 0 <= i < |w| ==> !IsSeparator(w[i])
    requires IsSeparator(sep)
    ensures Normalized([c] + w + [sep] + rest, true) == [UpperChar(c)] + w + Normalized(rest, true)
  {
    NormalizedStep(c, w + ([sep] + rest), true);
    NormalizedPlainRun(w, [sep] + rest);
    NormalizedStep(sep, rest, false);
    assert [c] + w + [sep] + rest == [c] + (w + ([sep] + rest));
  }

  /** The last word is capitalised and copied. */
  lemma NormalizedLastWord(c: char, w: string)
    requires forall i :: 0 <= i < |w| ==> !IsSeparator(w[i])
    ensures Normalized([c] + w, true) == [UpperChar(c)] + w
  {
    NormalizedStep(c, w, true);
    NormalizedPlainRun(w, "");
    assert w + "" == w;
  }

  lemma NormalizedSynth()
    ensures Normalized("synth", true) == "Synth"
  {
    NormalizedLastWord('s', "ynth");
    assert "synth" == ['s'] + "ynth";
  }

  lemma NormalizedMySynth()
    ensures Normalized("my-synth", true) == "MySynth"
  {
    NormalizedWord('m', "y", '-', "synth");
    NormalizedSynth();
    assert "my-synth" == ['m'] + "y" + ['-'] + "synth";
  }

  lemma NormalizeExample()
    ensures Normalize("my-synth") == "MySynth"
    ensures Normalize("") == ""
  {
    NormalizedMySynth();
  }

  // ---- The quirk: leading and doubled separators ----

  /** A leading separator survives, and so does the second of two
      consecutive separators; as a consequence normalising is not
      idempotent in general. */
  lemma NormalizeKeepsSomeSeparators()
    ensures Normalize("_ab") == "_ab"
    ensures Normalize("a__b") == "A_b"
    ensures Normalize(Normalize("a__b")) == "AB" != Normalize("a__b")
  {
    assert Normalized("b", false) == "b";
    assert Normalized("_b", false) == Normalized("b", true) == "B";
    assert Normalized("ab", false) == "ab";
    assert Normalized("_b", true) == "_b";
    assert Normalized("__b", false) == "_b";
    assert Normalized("a__b", true) == "A_b";
    assert Normalized("A_b", true) == "AB";
  }

  lemma {:induction false} NormalizedWithoutSeparators(s: string)
    requires forall i :: 0 <= i < |s| ==> !IsSeparator(s[i])
    ensures Normalized(s, false) == s
  {
    if |s| > 0 {
      NormalizedWithoutSeparators(s[1..]);
    }
  }

  /** Normalising a class name that holds no separator gives it back. */
  lemma NormalizeIdempotentWithoutSeparators(s: string)
    requires forall i :: 0 <= i < |Normalize(s)| ==> !IsSeparator(Normalize(s)[i])
    ensures Normalize(Normalize(s)) == Normalize(s)
  {
    var t := Normalize(s);
    if |t| > 0 {
      NormalizedWithoutSeparators(t[1..]);
      UpperCharIdempotent(s[0]);
      assert Normalized(t, true) == [UpperChar(t[0])] + t[1..];
      assert [t[0]] + t[1..] == t;
    }
  }
}
