/** The search box's input sanitiser (`handleSearch`): strip the five
    characters `< > " ' &`, trim, then cut to 50 characters. A query is only
    sent on when the result has at least two characters. */
module SearchInput {
  import opened JsStrings

  const MaxQueryLength: nat := 50
  const MinQueryLength: nat := 2

  /** The characters of the class `[<>"'&]`. */
  predicate IsStripped(c: char) {
    c == '<' || c == '>' || c == '"' || c == '\'' || c == '&'
  }

  /** `value.replace(/[<>"'&]/g, '')`: none of the five characters remains. */
  function StripUnsafe(s: string): (r: string)
    ensures |r| <= |s|
    ensures forall i :: 0 <= i < |r| ==> !IsStripped(r[i])
  {
    if s == [] then []
    else
      assert s == [s[0]] + s[1..];
      (if IsStripped(s[0]) then [] else [s[0]]) + StripUnsafe(s[1..])
  }

  /** Stripping removes nothing else: every other character keeps its number
      of occurrences. */
  lemma {:induction false} StripUnsafeKeepsOthers(s: string, c: char)
    requires !IsStripped(c)
    ensures multiset(StripUnsafe(s))[c] == multiset(s)[c]
  {
    if s != [] {
      assert s == [s[0]] + s[1..];
      StripUnsafeKeepsOthers(s[1..], c);
    }
  }

  /** A string without any of the five characters passes through unchanged. */
  lemma {:induction false} StripUnsafeOfSafe(s: string)
    requires forall i :: 0 <= i < |s| ==> !IsStripped(s[i])
    ensures StripUnsafe(s) == s
  {
    if s != [] {
      StripUnsafeOfSafe(s[1..]);
    }
  }

  /** What the trim step produces, before truncation. */
  function Trimmed(value: string): string {
    Trim(StripUnsafe(value))
  }

  /** `finalValue` in `handleSearch`: at most 50 characters, none of the five
      stripped ones, the stripped-and-trimmed input when that fits and its
      first 50 characters when it is longer; it never starts with white space, and it ends with
      white space only when truncation cut into the input. */
  function Sanitize(value: string): (r: string)
    ensures |r| <= MaxQueryLength
    ensures forall i :: 0 <= i < |r| ==> !IsStripped(r[i])
    ensures |r| <= |Trimmed(value)| && r == Trimmed(value)[..|r|]
    ensures |Trimmed(value)| <= MaxQueryLength ==> r == Trimmed(value)
    ensures |Trimmed(value)| > MaxQueryLength ==> r == Trimmed(value)[..MaxQueryLength]
    ensures r == [] || !IsWhiteSpace(r[0])
    ensures r != [] && IsWhiteSpace(r[|r| - 1]) ==> |Trimmed(value)| > MaxQueryLength
  {
    var t := Trimmed(value);
    TrimmedIsSafe(value);
    if |t| > MaxQueryLength then t[..MaxQueryLength] else t
  }

  lemma TrimmedIsSafe(value: string)
    ensures forall i :: 0 <= i < |Trimmed(value)| ==> !IsStripped(Trimmed(value)[i])
  {
    var s := StripUnsafe(value);
    TrimIsSlice(s);
  }

  /** A query long enough to be sent is never blank, so it always passes the
      hook's own `!query.trim()` guard. */
  lemma SendableQueryIsNotBlank(value: string)
    requires |Sanitize(value)| >= MinQueryLength
    ensures Trim(Sanitize(value)) != []
  {
    assert !IsWhiteSpace(Sanitize(value)[0]);
  }

  /** A value that needs no cleaning, is short enough and has no white space
      at either end is its own sanitised form. */
  lemma SanitizeOfClean(value: string)
    requires |value| <= MaxQueryLength
    requires forall i :: 0 <= i < |value| ==> !IsStripped(value[i])
    requires value == [] || (!IsWhiteSpace(value[0]) && !IsWhiteSpace(value[|value| - 1]))
    ensures Sanitize(value) == value
  {
    StripUnsafeOfSafe(value);
    TrimOfTrimmed(value);
  }

  /** Sanitising the result again changes nothing unless truncation left
      white space at its end. */
  lemma SanitizeStable(value: string)
    requires Sanitize(value) == [] || !IsWhiteSpace(Sanitize(value)[|Sanitize(value)| - 1])
    ensures Sanitize(Sanitize(value)) == Sanitize(value)
  {
    SanitizeOfClean(Sanitize(value));
  }

  /** An example: `<script>'; DROP`, taken in two pieces: the angle
      brackets and the quote go, the semicolon and the inner space stay, giving
      `script; DROP`. The two pieces are parameters fixed by the `requires`
      rather than literals in the `ensures`: with a literal argument the
      verifier unfolds `Sanitize` character by character and runs out of
      resources before the proof below is used. */
  lemma ScriptTagExample(tag: string, rest: string)
    requires tag == "<script>'" && rest == "; DROP"
    ensures Sanitize(tag + rest) == "script" + rest
  {
    var clean := "script" + rest;
    assert StripUnsafe(tag + rest) == clean by {
      OpeningTagStripped(tag);
      StripUnsafeOfSafe(rest);
      StripUnsafeAppend(tag, rest);
    }
    assert Trim(clean) == clean by {
      assert clean[0] == 's' && clean[|clean| - 1] == 'P';
      TrimOfTrimmed(clean);
    }
  }

  /** The opening tag and the quote after it leave only the tag's name. The
      tag is a parameter for the same reason as in `ScriptTagExample`. */
  lemma OpeningTagStripped(tag: string)
    requires tag == "<script>'"
    ensures StripUnsafe(tag) == "script"
  {
    var name := "script";
    assert tag == ['<'] + name + ['>', '\''];
    assert StripUnsafe(['<'] + name) == name by {
      StripUnsafeOfSafe(name);
      StripUnsafeAppend(['<'], name);
    }
    assert StripUnsafe(['>', '\'']) == [] by {
      assert StripUnsafe(['\'']) == [];
    }
    StripUnsafeAppend(['<'] + name, ['>', '\'']);
  }

  lemma {:induction false} StripUnsafeAppend(a: string, b: string)
    ensures StripUnsafe(a + b) == StripUnsafe(a) + StripUnsafe(b)
  {
    if a != [] {
      var head := if IsStripped(a[0]) then [] else [a[0]];
      assert (a + b)[0] == a[0] && (a + b)[1..] == a[1..] + b;
      assert StripUnsafe(a + b) == head + StripUnsafe(a[1..] + b);
      assert StripUnsafe(a) == head + StripUnsafe(a[1..]);
      StripUnsafeAppend(a[1..], b);
    } else {
      assert a + b == b;
    }
  }

  /** Truncation can leave white space at the end: 49 letters, a space and a
      letter lose the final letter and keep the space, and a second pass
      then trims that space away. */
  lemma TruncationCanLeaveTrailingSpace()
    ensures var v := seq(49, _ => 'a') + [' ', 'b'];
            Sanitize(v) == seq(49, _ => 'a') + [' ']
            && Sanitize(Sanitize(v)) == seq(49, _ => 'a')
  {
    var letters := seq(49, _ => 'a');
    var v := letters + [' ', 'b'];
    StripUnsafeOfSafe(v);
    TrimOfTrimmed(v);
    assert v[..MaxQueryLength] == letters + [' '];
    var w := letters + [' '];
    StripUnsafeOfSafe(w);
    assert TrimStart(w) == w;
    assert w[..|w| - 1] == letters;
    assert TrimEnd(letters) == letters;
  }
}
