/** `sanitize_label` in faust2sc.py: the argument name made from a UI
    control's label. */
module Labels {
  import opened Text

  /** The characters deleted from labels, in the order they are deleted. */
  const RemoveChars: string := "\\-_/([^)]*)"

  /** The deleted characters as a set. */
  const Removed: set<char> := {'\\', '-', '_', '/', '(', '[', '^', ')', ']', '*'}

  function CharsOf(s: string): set<char>
  {
    set i | 0 <= i < |s| :: s[i]
  }

  lemma RemovedIsRemoveChars()
    ensures CharsOf(RemoveChars) == Removed
  {
    var s := RemoveChars;
    assert s[0] == '\\' && s[1] == '-' && s[2] == '_' && s[3] == '/' && s[4] == '(';
    assert s[5] == '[' && s[6] == '^' && s[7] == ')' && s[8] == ']' && s[9] == '*' && s[10] == ')';
  }

  /** `s` with every character of `cs` deleted; for a single character
      this is Python's `s.replace(c, "")`. */
  function Without(s: string, cs: set<char>): (r: string)
    ensures |r| <= |s|
    ensures forall i :: 0 <= i < |r| ==> r[i] !in cs
  {
    if |s| == 0 then ""
    else if s[0] in cs then Without(s[1..], cs)
    else [s[0]] + Without(s[1..], cs)
  }

  lemma {:induction false} WithoutThenWithout(s: string, a: set<char>, b: set<char>)
    ensures Without(Without(s, a), b) == Without(s, a + b)
  {
    if |s| > 0 {
      WithoutThenWithout(s[1..], a, b);
      if s[0] !in a {
        assert ([s[0]] + Without(s[1..], a))[1..] == Without(s[1..], a);
      }
    }
  }

  lemma {:induction false} WithoutConcat(x: string, y: string, cs: set<char>)
    ensures Without(x + y, cs) == Without(x, cs) + Without(y, cs)
  {
    if |x| > 0 {
      assert (x + y)[1..] == x[1..] + y;
      WithoutConcat(x[1..], y, cs);
    } else {
      assert x + y == y;
    }
  }

  lemma {:induction false} WithoutNothing(s: string, cs: set<char>)
    requires forall i :: 0 <= i < |s| ==> s[i] !in cs
    ensures Without(s, cs) == s
  {
    if |s| > 0 {
      WithoutNothing(s[1..], cs);
    }
  }

  /** What `sanitize_label` returns. */
  function Sanitized(labelText: string): string
  {
    Lower(Without(labelText, Removed))
  }

  /** `sanitize_label`: delete each character of `remove_chars` in turn,
      then lower-case. */
  method SanitizeLabel(labelText: string) returns (r: string)
    ensures r == Sanitized(labelText)
  {
    var current := labelText;
    WithoutNothing(labelText, {});
    WholeAndEmptyPrefix(RemoveChars);
    for k := 0 to |RemoveChars|
      invariant current == Without(labelText, CharsOf(RemoveChars[..k]))
    {
      var c := RemoveChars[k];
      DeleteOneMore(labelText, RemoveChars, k);
      current := Without(current, {c});
    }
    WholeAndEmptyPrefix(RemoveChars);
    RemovedIsRemoveChars();
    r := Lower(current);
  }

  lemma WholeAndEmptyPrefix(chars: string)
    ensures chars[..|chars|] == chars && CharsOf(chars[..0]) == {}
  {
  }

  /** Deleting the characters of `chars[..k]` and then `chars[k]` deletes
      those of `chars[..k + 1]`. */
  lemma DeleteOneMore(s: string, chars: string, k: nat)
    requires k < |chars|
    ensures Without(Without(s, CharsOf(chars[..k])), {chars[k]}) == Without(s, CharsOf(chars[..k + 1]))
  {
    WithoutThenWithout(s, CharsOf(chars[..k]), {chars[k]});
    assert chars[..k + 1] == chars[..k] + [chars[k]];
    assert CharsOf(chars[..k + 1]) == CharsOf(chars[..k]) + {chars[k]};
  }

  /** A sanitised label is clean: none of the deleted characters and no
      upper-case ASCII letter. */
  predicate Clean(s: string)
  {
    forall i :: 0 <= i < |s| ==> s[i] !in Removed && !IsUpperAscii(s[i])
  }

  lemma SanitizedIsClean(labelText: string)
    ensures Clean(Sanitized(labelText))
  {
    var w := Without(labelText, Removed);
    forall i | 0 <= i < |w| ensures LowerChar(w[i]) !in Removed && !IsUpperAscii(LowerChar(w[i])) {
      LowerCharFacts(w[i]);
    }
  }

  /** Sanitising leaves a label unchanged exactly when it is already clean. */
  lemma SanitizedFixesExactlyClean(s: string)
    ensures Sanitized(s) == s <==> Clean(s)
  {
    if Clean(s) {
      WithoutNothing(s, Removed);
      assert Lower(s) == s;
    } else {
      SanitizedIsClean(s);
    }
  }

  /** Sanitising twice is sanitising once. */
  lemma SanitizedIdempotent(labelText: string)
    ensures Sanitized(Sanitized(labelText)) == Sanitized(labelText)
  {
    SanitizedIsClean(labelText);
    SanitizedFixesExactlyClean(Sanitized(labelText));
  }

  /** Sanitising works character by character: every kept character stays
      in place relative to the others. */
  lemma SanitizedConcat(x: string, y: string)
    ensures Sanitized(x + y) == Sanitized(x) + Sanitized(y)
  {
    WithoutConcat(x, y, Removed);
  }
}
