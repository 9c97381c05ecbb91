/** Text helpers of the calculator: cleaning a free-text name (sanitizeInput) and
    turning a name into an identifier (toCamelCase). Strings are sequences of
    Unicode scalar values; upper/lower case is the ASCII mapping only. */
module Text {

  /** The characters that JavaScript's String.prototype.trim removes and that the
      regular-expression class \s matches: ECMAScript WhiteSpace and LineTerminator. */
  predicate IsSpace(c: char) {
    || c == '\t' || c == '\n' || c == '\U{000B}' || c == '\U{000C}' || c == '\r'
    || c == ' ' || c == '\U{00A0}' || c == '\U{1680}' || ('\U{2000}' <= c <= '\U{200A}')
    || c == '\U{2028}' || c == '\U{2029}' || c == '\U{202F}' || c == '\U{205F}'
    || c == '\U{3000}' || c == '\U{FEFF}'
  }

  predicate IsAngle(c: char) {
    c == '<' || c == '>'
  }

  /** The separators of toCamelCase's pattern: hyphen, underscore and whitespace. */
  predicate IsSeparator(c: char) {
    c == '-' || c == '_' || IsSpace(c)
  }

  predicate IsAsciiLower(c: char) {
    'a' <= c <= 'z'
  }

  predicate IsAsciiUpper(c: char) {
    'A' <= c <= 'Z'
  }

  function LowerChar(c: char): (r: char)
    ensures IsAsciiUpper(c) ==> IsAsciiLower(r)
    ensures !IsAsciiUpper(c) ==> r == c
  {
    if IsAsciiUpper(c) then (c as int + 32) as char else c
  }

  function UpperChar(c: char): (r: char)
    requires IsAsciiLower(c)
    ensures IsAsciiUpper(r) && LowerChar(r) == c
  {
    (c as int - 32) as char
  }

  /** String.prototype.toLowerCase, restricted to the ASCII letters. */
  function Lower(s: string): (r: string)
    ensures |r| == |s|
    ensures forall i :: 0 <= i < |s| ==> r[i] == LowerChar(s[i])
  {
    seq(|s|, i requires 0 <= i < |s| => LowerChar(s[i]))
  }

  // ---------------------------------------------------------------------------
  // sanitizeInput (src/scripts.js:19): trim the edges, remove the angle brackets,
  // then turn each whitespace run into one space
  // ---------------------------------------------------------------------------

  /** Drops the white space at the start of s. */
  function TrimStart(s: string): (r: string)
    ensures |r| <= |s| && r == s[|s| - |r|..]
    ensures |r| > 0 ==> !IsSpace(r[0])
    ensures forall i :: 0 <= i < |s| - |r| ==> IsSpace(s[i])
  {
    if |s| > 0 && IsSpace(s[0]) then TrimStart(s[1..]) else s
  }

  /** Drops the white space at the end of s. */
  function TrimEnd(s: string): (r: string)
    ensures |r| <= |s| && r == s[..|r|]
    ensures |r| > 0 ==> !IsSpace(r[|r| - 1])
    ensures forall i :: |r| <= i < |s| ==> IsSpace(s[i])
  {
    if |s| > 0 && IsSpace(s[|s| - 1]) then TrimEnd(s[..|s| - 1]) else s
  }

  /** String.prototype.trim. */
  function Trim(s: string): (r: string)
    ensures |r| > 0 ==> !IsSpace(r[0]) && !IsSpace(r[|r| - 1])
    ensures r == [] <==> forall i :: 0 <= i < |s| ==> IsSpace(s[i])
    ensures exists a :: SpaceFramed(s, a, r)
  {
    TrimFrame(s);
    TrimEnd(TrimStart(s))
  }

  /** Where the trim's result sits in s: after the leading whitespace. */
  lemma TrimFrame(s: string)
    ensures SpaceFramed(s, |s| - |TrimStart(s)|, TrimEnd(TrimStart(s)))
  {
    FramedBy(s, TrimStart(s), TrimEnd(TrimStart(s)));
  }

  /** A prefix r of a suffix t of s, each cut from whitespace, is framed by it. */
  lemma FramedBy(s: string, t: string, r: string)
    requires |t| <= |s| && t == s[|s| - |t|..]
    requires forall i :: 0 <= i < |s| - |t| ==> IsSpace(s[i])
    requires |r| <= |t| && r == t[..|r|]
    requires forall i :: |r| <= i < |t| ==> IsSpace(t[i])
    ensures SpaceFramed(s, |s| - |t|, r)
  {
    var a := |s| - |t|;
    assert r == s[a..a + |r|];
    forall i | a + |r| <= i < |s|
      ensures IsSpace(s[i])
    {
      assert s[i] == t[i - a];
    }
  }

  /** r is the slice of s that starts at a, with only whitespace on either side. */
  predicate SpaceFramed(s: string, a: int, r: string) {
    && 0 <= a <= |s| - |r| && r == s[a..a + |r|]
    && (forall i :: 0 <= i < a ==> IsSpace(s[i]))
    && (forall i :: a + |r| <= i < |s| ==> IsSpace(s[i]))
  }

  /** The bracket removal of sanitizeInput: every angle bracket removed, the rest
      kept in order. */
  function StripAngles(s: string): (r: string)
    ensures forall c :: c in r ==> !IsAngle(c) && c in s
    ensures r == [] <==> forall i :: 0 <= i < |s| ==> IsAngle(s[i])
  {
    if s == [] then []
    else
      var rest := StripAngles(s[1..]);
      assert forall i :: 1 <= i < |s| ==> s[i] == s[1..][i - 1];
      (if IsAngle(s[0]) then [] else [s[0]]) + rest
  }

  /** Length of the run of white space that starts s. */
  function SpaceRun(s: string): (n: nat)
    ensures n <= |s|
    ensures forall i :: 0 <= i < n ==> IsSpace(s[i])
    ensures n < |s| ==> !IsSpace(s[n])
  {
    if |s| > 0 && IsSpace(s[0]) then 1 + SpaceRun(s[1..]) else 0
  }

  /** The whitespace step of sanitizeInput: every maximal run of white space becomes
      one plain space. */
  function Collapse(s: string): (r: string)
    ensures r == [] <==> s == []
    ensures r != [] ==> (IsSpace(r[0]) <==> IsSpace(s[0]))
    ensures forall c :: c in r ==> c == ' ' || c in s
    ensures forall i :: 0 <= i < |r| && IsSpace(r[i]) ==> r[i] == ' '
    ensures forall i :: 0 <= i < |r| - 1 ==> !(IsSpace(r[i]) && IsSpace(r[i + 1]))
    decreases |s|
  {
    if s == [] then []
    else if IsSpace(s[0]) then
      var rest := Collapse(s[SpaceRun(s)..]);
      [' '] + rest
    else
      [s[0]] + Collapse(s[1..])
  }

  /** sanitizeInput (src/scripts.js:19): no angle bracket survives, white space is
      only ever a single plain space, and the result is empty exactly when the
      trimmed value consists of angle brackets only. */
  function Sanitize(value: string): (r: string)
    ensures forall c :: c in r ==> !IsAngle(c)
    ensures forall i :: 0 <= i < |r| && IsSpace(r[i]) ==> r[i] == ' '
    ensures forall i :: 0 <= i < |r| - 1 ==> !(IsSpace(r[i]) && IsSpace(r[i + 1]))
    ensures r == [] <==> forall i :: 0 <= i < |Trim(value)| ==> IsAngle(Trim(value)[i])
  {
    Collapse(StripAngles(Trim(value)))
  }

  // ---------------------------------------------------------------------------
  // toCamelCase (src/scripts.js:15): lower-case the name, then replace each run of
  // separators that precedes a letter a-z by that letter in upper case
  // ---------------------------------------------------------------------------

  /** Length of the run of separators that starts s. */
  function SeparatorRun(s: string): (n: nat)
    ensures n <= |s|
    ensures forall i :: 0 <= i < n ==> IsSeparator(s[i])
    ensures n < |s| ==> !IsSeparator(s[n])
  {
    if |s| > 0 && IsSeparator(s[0]) then 1 + SeparatorRun(s[1..]) else 0
  }

  /** The global replace of toCamelCase's pattern: a maximal run of separators
      followed by a letter a-z becomes that letter in upper case; a run followed
      by anything else (or by nothing) stays as it is. */
  function CapitalizeAfterSeparators(s: string): (r: string)
    ensures |r| <= |s|
    ensures r == [] <==> s == []
    ensures s != [] && !IsSeparator(s[0]) ==> r[0] == s[0]
    ensures forall i :: 0 <= i < |r| - 1 && IsSeparator(r[i]) ==> !IsAsciiLower(r[i + 1])
    decreases |s|
  {
    if s == [] then []
    else if IsSeparator(s[0]) then
      var n := SeparatorRun(s);
      if n < |s| && IsAsciiLower(s[n]) then
        [UpperChar(s[n])] + CapitalizeAfterSeparators(s[n + 1..])
      else
        s[..n] + CapitalizeAfterSeparators(s[n..])
    else
      [s[0]] + CapitalizeAfterSeparators(s[1..])
  }

  /** toCamelCase (src/scripts.js:15): never leaves a separator directly in front of
      a lower-case letter, and never lengthens the name. */
  function ToCamelCase(str: string): (r: string)
    ensures |r| <= |str|
    ensures r == [] <==> str == []
    ensures forall i :: 0 <= i < |r| - 1 && IsSeparator(r[i]) ==> !IsAsciiLower(r[i + 1])
  {
    CapitalizeAfterSeparators(Lower(str))
  }

  /** The characters of s that are not separators, in order. */
  function DropSeparators(s: string): string {
    if s == [] then [] else (if IsSeparator(s[0]) then [] else [s[0]]) + DropSeparators(s[1..])
  }

  // ---------------------------------------------------------------------------
  // Lemmas
  // ---------------------------------------------------------------------------

  lemma LowerAppend(a: string, b: string)
    ensures Lower(a + b) == Lower(a) + Lower(b)
  {
  }

  lemma {:induction false} DropSeparatorsAppend(a: string, b: string)
    ensures DropSeparators(a + b) == DropSeparators(a) + DropSeparators(b)
  {
    if a == [] {
      assert a + b == b;
    } else {
      assert (a + b)[1..] == a[1..] + b;
      DropSeparatorsAppend(a[1..], b);
    }
  }

  lemma {:induction false} DropAllSeparators(s: string)
    requires forall i :: 0 <= i < |s| ==> IsSeparator(s[i])
    ensures DropSeparators(s) == []
  {
    if s != [] {
      DropAllSeparators(s[1..]);
    }
  }

  /** Camel-casing only removes separators and changes letter case: folded to lower
      case, the non-separator characters of the key are those of the name. */
  lemma {:induction false} CamelCaseKeepsText(str: string)
    ensures DropSeparators(Lower(ToCamelCase(str))) == DropSeparators(Lower(str))
  {
    CapitalizeKeepsText(Lower(str));
    LowerTwice(str);
  }

  lemma LowerTwice(s: string)
    ensures Lower(Lower(s)) == Lower(s)
  {
  }

  lemma {:induction false} CapitalizeKeepsText(s: string)
    ensures DropSeparators(Lower(CapitalizeAfterSeparators(s))) == DropSeparators(Lower(s))
    decreases |s|, 1
  {
    if s == [] {
    } else if IsSeparator(s[0]) {
      CapitalizeRunKeepsText(s);
    } else {
      CapitalizeKeepsText(s[1..]);
      assert s == [s[0]] + s[1..];
      PlainStep(s[0], s[1..], CapitalizeAfterSeparators(s[1..]));
    }
  }

  /** The step of CapitalizeKeepsText for a name that starts with a separator run. */
  lemma {:induction false} CapitalizeRunKeepsText(s: string)
    requires s != [] && IsSeparator(s[0])
    ensures DropSeparators(Lower(CapitalizeAfterSeparators(s))) == DropSeparators(Lower(s))
    decreases |s|, 0
  {
    var n := SeparatorRun(s);
    if n < |s| && IsAsciiLower(s[n]) {
      CapitalizeKeepsText(s[n + 1..]);
      assert s == s[..n] + [s[n]] + s[n + 1..];
      MatchRunKeepsText(s[..n], s[n], s[n + 1..]);
    } else {
      CapitalizeKeepsText(s[n..]);
      assert s == s[..n] + s[n..];
      KeepRunKeepsText(s[..n], s[n..]);
    }
  }

  /** CapitalizeRunKeepsText when the run is followed by nothing or by another character. */
  lemma KeepRunKeepsText(run: string, tail: string)
    requires run != [] && forall i :: 0 <= i < |run| ==> IsSeparator(run[i])
    requires tail == [] || (!IsSeparator(tail[0]) && !IsAsciiLower(tail[0]))
    requires DropSeparators(Lower(CapitalizeAfterSeparators(tail))) == DropSeparators(Lower(tail))
    ensures DropSeparators(Lower(CapitalizeAfterSeparators(run + tail))) == DropSeparators(Lower(run + tail))
  {
    KeepRunBeforeOther(run, tail);
    CopyStep(run, tail, CapitalizeAfterSeparators(tail));
  }

  /** CapitalizeRunKeepsText when the run is followed by a letter a-z. */
  lemma MatchRunKeepsText(run: string, c: char, tail: string)
    requires run != [] && forall i :: 0 <= i < |run| ==> IsSeparator(run[i])
    requires IsAsciiLower(c)
    requires DropSeparators(Lower(CapitalizeAfterSeparators(tail))) == DropSeparators(Lower(tail))
    ensures DropSeparators(Lower(CapitalizeAfterSeparators(run + [c] + tail))) == DropSeparators(Lower(run + [c] + tail))
  {
    CapitalizeLetterAfterRun(run, c, tail);
    MatchStep(run, c, tail, CapitalizeAfterSeparators(tail));
  }

  lemma RunDropsOut(run: string, x: string)
    requires forall i :: 0 <= i < |run| ==> IsSeparator(run[i])
    ensures DropSeparators(Lower(run + x)) == DropSeparators(Lower(x))
  {
    LowerAppend(run, x);
    DropAllSeparators(Lower(run));
    DropSeparatorsAppend(Lower(run), Lower(x));
  }

  lemma MatchStep(run: string, c: char, tail: string, r: string)
    requires forall i :: 0 <= i < |run| ==> IsSeparator(run[i])
    requires IsAsciiLower(c)
    requires DropSeparators(Lower(r)) == DropSeparators(Lower(tail))
    ensures DropSeparators(Lower([UpperChar(c)] + r)) == DropSeparators(Lower(run + [c] + tail))
  {
    assert run + [c] + tail == run + ([c] + tail);
    RunDropsOut(run, [c] + tail);
    LowerAppend([c], tail);
    DropSeparatorsAppend(Lower([c]), Lower(tail));
    LowerAppend([UpperChar(c)], r);
    DropSeparatorsAppend(Lower([UpperChar(c)]), Lower(r));
    assert Lower([UpperChar(c)]) == Lower([c]);
  }

  lemma CopyStep(run: string, tail: string, r: string)
    requires forall i :: 0 <= i < |run| ==> IsSeparator(run[i])
    requires DropSeparators(Lower(r)) == DropSeparators(Lower(tail))
    ensures DropSeparators(Lower(run + r)) == DropSeparators(Lower(run + tail))
  {
    RunDropsOut(run, r);
    RunDropsOut(run, tail);
  }

  lemma PlainStep(c: char, tail: string, r: string)
    requires DropSeparators(Lower(r)) == DropSeparators(Lower(tail))
    ensures DropSeparators(Lower([c] + r)) == DropSeparators(Lower([c] + tail))
  {
    LowerAppend([c], tail);
    DropSeparatorsAppend(Lower([c]), Lower(tail));
    LowerAppend([c], r);
    DropSeparatorsAppend(Lower([c]), Lower(r));
  }

  lemma {:induction false} LowerTrimStart(s: string)
    ensures Lower(TrimStart(s)) == TrimStart(Lower(s))
  {
    if |s| > 0 {
      LowerKeepsSpace(s[0]);
      assert Lower(s)[0] == LowerChar(s[0]);
      if IsSpace(s[0]) {
        assert Lower(s)[1..] == Lower(s[1..]);
        LowerTrimStart(s[1..]);
      }
    }
  }

  /** Lower-casing neither makes nor unmakes an angle bracket. */
  lemma LowerKeepsAngle(c: char)
    ensures IsAngle(LowerChar(c)) <==> IsAngle(c)
  {
  }

  /** Lower-casing neither makes nor unmakes whitespace. */
  lemma LowerKeepsSpace(c: char)
    ensures IsSpace(LowerChar(c)) <==> IsSpace(c)
  {
  }

  lemma {:induction false} LowerTrimEnd(s: string)
    ensures Lower(TrimEnd(s)) == TrimEnd(Lower(s))
    decreases |s|, 1
  {
    if |s| > 0 {
      var n := |s| - 1;
      LowerKeepsSpace(s[n]);
      assert Lower(s)[n] == LowerChar(s[n]);
      if IsSpace(s[n]) {
        LowerTrimEndSpace(s);
      } else {
        assert TrimEnd(s) == s;
        assert TrimEnd(Lower(s)) == Lower(s);
      }
    }
  }

  /** The step of LowerTrimEnd for text that ends in whitespace. */
  lemma {:induction false} LowerTrimEndSpace(s: string)
    requires |s| > 0 && IsSpace(s[|s| - 1])
    ensures Lower(TrimEnd(s)) == TrimEnd(Lower(s))
    decreases |s|, 0
  {
    var n := |s| - 1;
    LowerKeepsSpace(s[n]);
    TrimEndSpaceStep(s);
    TrimEndSpaceStep(Lower(s));
    LowerPrefix(s, n);
    LowerTrimEnd(s[..n]);
  }

  /** Trailing whitespace is dropped one character at a time. */
  lemma TrimEndSpaceStep(s: string)
    requires |s| > 0 && IsSpace(s[|s| - 1])
    ensures TrimEnd(s) == TrimEnd(s[..|s| - 1])
  {
  }

  lemma LowerPrefix(s: string, n: nat)
    requires n <= |s|
    ensures Lower(s)[..n] == Lower(s[..n])
  {
  }

  lemma {:induction false} LowerStripAngles(s: string)
    ensures Lower(StripAngles(s)) == StripAngles(Lower(s))
  {
    if s != [] {
      LowerKeepsAngle(s[0]);
      assert Lower(s)[0] == LowerChar(s[0]);
      assert Lower(s)[1..] == Lower(s[1..]);
      LowerStripAngles(s[1..]);
      LowerAppend(if IsAngle(s[0]) then [] else [s[0]], StripAngles(s[1..]));
    }
  }

  lemma {:induction false} LowerSpaceRun(s: string)
    ensures SpaceRun(Lower(s)) == SpaceRun(s)
  {
    if |s| > 0 && IsSpace(s[0]) {
      assert Lower(s)[1..] == Lower(s[1..]);
      LowerSpaceRun(s[1..]);
    }
  }

  lemma {:induction false} LowerCollapse(s: string)
    ensures Lower(Collapse(s)) == Collapse(Lower(s))
    decreases |s|, 1
  {
    if s != [] {
      if IsSpace(s[0]) {
        LowerCollapseRun(s);
      } else {
        assert Lower(s)[1..] == Lower(s[1..]);
        LowerCollapse(s[1..]);
        LowerAppend([s[0]], Collapse(s[1..]));
      }
    }
  }

  /** The step of LowerCollapse for text that starts with whitespace. */
  lemma {:induction false} LowerCollapseRun(s: string)
    requires s != [] && IsSpace(s[0])
    ensures Lower(Collapse(s)) == Collapse(Lower(s))
    decreases |s|, 0
  {
    var n := SpaceRun(s);
    LowerSpaceRun(s);
    assert Lower(s)[n..] == Lower(s[n..]);
    LowerCollapse(s[n..]);
    LowerAppend([' '], Collapse(s[n..]));
  }


  /** Sanitizing and lower-casing commute: neither touches what the other looks at. */
  lemma SanitizeCommutesWithLower(value: string)
    ensures Lower(Sanitize(value)) == Sanitize(Lower(value))
  {
    LowerTrimStart(value);
    LowerTrimEnd(TrimStart(value));
    LowerStripAngles(Trim(value));
    LowerCollapse(StripAngles(Trim(value)));
  }

  /** Names that differ only in letter case give the same camel-cased, sanitized
      identifier ("Blue Mug" and "blue mug"). */
  lemma CaseInsensitiveIdentifier(a: string, b: string)
    requires Lower(a) == Lower(b)
    ensures ToCamelCase(Sanitize(a)) == ToCamelCase(Sanitize(b))
  {
    SanitizeCommutesWithLower(a);
    SanitizeCommutesWithLower(b);
    LowerTwice(Sanitize(a));
    LowerTwice(Sanitize(b));
  }

  /** The trim happens before the angle brackets are removed, so a space that an
      angle bracket shielded from the trim survives at the edge. */
  lemma SanitizeKeepsShieldedEdgeSpace()
    ensures Sanitize("< a >") == " a "
  {
    TrimShielded();
    StripShielded();
    CollapseShielded();
  }

  lemma TrimShielded()
    ensures Trim("< a >") == "< a >"
  {
    TrimKeepsUnpadded("< a >");
  }

  /** Text that neither starts nor ends with whitespace is left as it is by the trim. */
  lemma TrimKeepsUnpadded(s: string)
    requires s != [] && !IsSpace(s[0]) && !IsSpace(s[|s| - 1])
    ensures Trim(s) == s
  {
    assert TrimStart(s) == s;
  }

  lemma StripShielded()
    ensures StripAngles("< a >") == " a "
  {
    StripShieldedTail();
  }

  lemma StripShieldedTail()
    ensures StripAngles(" a >") == " a "
  {
    assert StripAngles(">") == [];
    assert StripAngles(" >") == " ";
    assert StripAngles("a >") == "a ";
  }

  lemma CollapseShielded()
    ensures Collapse(" a ") == " a "
  {
    assert Collapse(" ") == " ";
    assert Collapse("a ") == "a ";
    assert SpaceRun(" a ") == 1;
    assert " a "[1..] == "a ";
  }

  /** "< >" sanitizes to a single space, which is not empty, so the save-name check
      lets a name through that shows as blank. */
  lemma SanitizeBlankLookingName()
    ensures Sanitize("< >") == " "
  {
    TrimBlankLooking();
    StripBlankLooking();
    CollapseOneSpace();
  }

  lemma StripBlankLooking()
    ensures StripAngles("< >") == " "
  {
    assert "< >" == "<" + (" " + ">");
    StripAnglesAppend("<", " " + ">");
    StripAnglesAppend(" ", ">");
    StripAnglesOne('<');
    StripAnglesOne(' ');
    StripAnglesOne('>');
  }

  lemma CollapseOneSpace()
    ensures Collapse(" ") == " "
  {
    assert SpaceRun(" ") == 1;
  }

  lemma TrimBlankLooking()
    ensures Trim("< >") == "< >"
  {
    TrimKeepsUnpadded("< >");
  }

  // ---------------------------------------------------------------------------
  // What sanitizing keeps
  // ---------------------------------------------------------------------------

  /** The text of a name: its characters that are neither whitespace nor angle
      brackets, in order. */
  function DropSpaceAndAngles(s: string): string {
    if s == [] then []
    else (if IsSpace(s[0]) || IsAngle(s[0]) then [] else [s[0]]) + DropSpaceAndAngles(s[1..])
  }

  lemma {:induction false} DropSpaceAndAnglesAppend(a: string, b: string)
    ensures DropSpaceAndAngles(a + b) == DropSpaceAndAngles(a) + DropSpaceAndAngles(b)
  {
    if a == [] {
      assert a + b == b;
    } else {
      assert (a + b)[1..] == a[1..] + b;
      DropSpaceAndAnglesAppend(a[1..], b);
    }
  }

  /** Leading whitespace carries none of the name's text. */
  lemma {:induction false} DropLeadingSpace(s: string, n: nat)
    requires n <= |s| && forall i :: 0 <= i < n ==> IsSpace(s[i])
    ensures DropSpaceAndAngles(s) == DropSpaceAndAngles(s[n..])
  {
    if n > 0 {
      assert forall i :: 0 <= i < n - 1 ==> s[1..][i] == s[i + 1];
      DropLeadingSpace(s[1..], n - 1);
      assert s[1..][n - 1..] == s[n..];
    }
  }

  /** The trim removes whitespace only. */
  lemma TrimKeepsText(s: string)
    ensures DropSpaceAndAngles(Trim(s)) == DropSpaceAndAngles(s)
  {
    var t := TrimStart(s);
    DropLeadingSpace(s, |s| - |t|);
    TrimEndKeepsText(t);
  }

  lemma {:induction false} TrimEndKeepsText(s: string)
    ensures DropSpaceAndAngles(TrimEnd(s)) == DropSpaceAndAngles(s)
  {
    if |s| > 0 && IsSpace(s[|s| - 1]) {
      var n := |s| - 1;
      TrimEndKeepsText(s[..n]);
      assert s == s[..n] + [s[n]];
      DropSpaceAndAnglesAppend(s[..n], [s[n]]);
    }
  }

  /** The bracket removal removes angle brackets only. */
  lemma {:induction false} StripAnglesKeepsText(s: string)
    ensures DropSpaceAndAngles(StripAngles(s)) == DropSpaceAndAngles(s)
  {
    if s != [] {
      StripAnglesKeepsText(s[1..]);
      DropSpaceAndAnglesAppend(if IsAngle(s[0]) then [] else [s[0]], StripAngles(s[1..]));
    }
  }

  /** The whitespace step changes whitespace only. */
  lemma {:induction false} CollapseKeepsText(s: string)
    ensures DropSpaceAndAngles(Collapse(s)) == DropSpaceAndAngles(s)
    decreases |s|
  {
    if s != [] {
      if IsSpace(s[0]) {
        var n := SpaceRun(s);
        CollapseKeepsText(s[n..]);
        DropLeadingSpace(s, n);
        DropSpaceAndAnglesAppend([' '], Collapse(s[n..]));
      } else {
        CollapseKeepsText(s[1..]);
        DropSpaceAndAnglesAppend([s[0]], Collapse(s[1..]));
      }
    }
  }

  /** sanitizeInput changes only whitespace and angle brackets: the name's text
      survives, in order. */
  lemma SanitizeKeepsText(value: string)
    ensures DropSpaceAndAngles(Sanitize(value)) == DropSpaceAndAngles(value)
  {
    TrimKeepsText(value);
    StripAnglesKeepsText(Trim(value));
    CollapseKeepsText(StripAngles(Trim(value)));
  }

  /** The bracket removal works piece by piece: it distributes over concatenation. */
  lemma {:induction false} StripAnglesAppend(a: string, b: string)
    ensures StripAngles(a + b) == StripAngles(a) + StripAngles(b)
  {
    if a == [] {
      assert a + b == b;
    } else {
      assert (a + b)[1..] == a[1..] + b;
      StripAnglesAppend(a[1..], b);
    }
  }

  /** A lone bracket is dropped; any other single character is kept. */
  lemma StripAnglesOne(c: char)
    ensures StripAngles([c]) == if IsAngle(c) then [] else [c]
  {
    assert [c][1..] == [];
  }

  /** A whitespace run ends where the first other character stands. */
  lemma {:induction false} SpaceRunOf(run: string, t: string)
    requires forall i :: 0 <= i < |run| ==> IsSpace(run[i])
    requires t == [] || !IsSpace(t[0])
    ensures SpaceRun(run + t) == |run|
  {
    if run == [] {
      assert run + t == t;
    } else {
      assert (run + t)[1..] == run[1..] + t;
      SpaceRunOf(run[1..], t);
    }
  }

  /** Each maximal whitespace run becomes exactly one plain space, and every other
      character is copied. */
  lemma CollapseRun(run: string, t: string)
    requires run != [] && forall i :: 0 <= i < |run| ==> IsSpace(run[i])
    requires t == [] || !IsSpace(t[0])
    ensures Collapse(run + t) == [' '] + Collapse(t)
  {
    SpaceRunOf(run, t);
    assert (run + t)[|run|..] == t;
  }

  lemma CollapsePlain(c: char, t: string)
    requires !IsSpace(c)
    ensures Collapse([c] + t) == [c] + Collapse(t)
  {
    assert ([c] + t)[1..] == t;
  }

  /** A separator run ends where the first other character stands. */
  lemma {:induction false} SeparatorRunOf(run: string, t: string)
    requires forall i :: 0 <= i < |run| ==> IsSeparator(run[i])
    requires t == [] || !IsSeparator(t[0])
    ensures SeparatorRun(run + t) == |run|
  {
    if run == [] {
      assert run + t == t;
    } else {
      assert (run + t)[1..] == run[1..] + t;
      SeparatorRunOf(run[1..], t);
    }
  }

  /** A separator run in front of a letter a-z is replaced by that letter in upper
      case. */
  lemma CapitalizeLetterAfterRun(run: string, c: char, t: string)
    requires run != [] && forall i :: 0 <= i < |run| ==> IsSeparator(run[i])
    requires IsAsciiLower(c)
    ensures CapitalizeAfterSeparators(run + [c] + t) == [UpperChar(c)] + CapitalizeAfterSeparators(t)
  {
    var s := run + [c] + t;
    assert s == run + ([c] + t);
    SeparatorRunOf(run, [c] + t);
    assert s[|run|] == c;
    assert s[|run| + 1..] == t;
  }

  /** A separator run in front of any other character, or at the end, is kept as
      it is. */
  lemma KeepRunBeforeOther(run: string, t: string)
    requires run != [] && forall i :: 0 <= i < |run| ==> IsSeparator(run[i])
    requires t == [] || (!IsSeparator(t[0]) && !IsAsciiLower(t[0]))
    ensures CapitalizeAfterSeparators(run + t) == run + CapitalizeAfterSeparators(t)
  {
    var s := run + t;
    SeparatorRunOf(run, t);
    assert s[..|run|] == run;
    assert s[|run|..] == t;
  }

  /** Text without separators is copied unchanged in front of whatever follows. */
  lemma {:induction false} CapitalizePlainPrefix(a: string, t: string)
    requires forall i :: 0 <= i < |a| ==> !IsSeparator(a[i])
    ensures CapitalizeAfterSeparators(a + t) == a + CapitalizeAfterSeparators(t)
  {
    if a == [] {
      assert a + t == t;
    } else {
      assert (a + t)[1..] == a[1..] + t;
      CapitalizePlainPrefix(a[1..], t);
      assert a == [a[0]] + a[1..];
    }
  }

  /** A word of lower-case letters a-z. */
  predicate LowerWord(s: string) {
    forall i :: 0 <= i < |s| ==> IsAsciiLower(s[i])
  }

  /** A lower-case word is its own lower case and holds no separator. */
  lemma LowerWordFacts(s: string)
    requires LowerWord(s)
    ensures Lower(s) == s
    ensures forall i :: 0 <= i < |s| ==> !IsSeparator(s[i])
  {
  }

  /** Two words typed with a space between them: the second is capitalised. */
  lemma CamelCaseWithBreak(first: string, second: string)
    requires LowerWord(first) && LowerWord(second) && second != []
    ensures ToCamelCase(first + " " + second) == first + [UpperChar(second[0])] + second[1..]
  {
    LowerOfBreak(first, second);
    assert second == [second[0]] + second[1..];
    assert LowerWord(second[1..]);
    CapitalizeBreak(first, second[0], second[1..]);
  }

  /** Lower-casing two lower-case words and the space between them changes nothing. */
  lemma LowerOfBreak(first: string, second: string)
    requires LowerWord(first) && LowerWord(second)
    ensures Lower(first + " " + second) == first + " " + second
  {
    LowerWordFacts(first);
    LowerWordFacts(second);
    LowerAppend(first, " ");
    LowerAppend(first + " ", second);
    assert Lower(" ") == " ";
  }

  /** The space before a lower-case letter goes and the letter is capitalised. */
  lemma CapitalizeBreak(first: string, c: char, rest: string)
    requires LowerWord(first) && IsAsciiLower(c) && LowerWord(rest)
    ensures CapitalizeAfterSeparators(first + " " + ([c] + rest)) == first + [UpperChar(c)] + rest
  {
    LowerWordFacts(first);
    LowerWordFacts(rest);
    CapitalizePlainPrefix(rest, []);
    assert rest + [] == rest;
    CapitalizeLetterAfterRun(" ", c, rest);
    assert first + " " + ([c] + rest) == first + (" " + [c] + rest);
    CapitalizePlainPrefix(first, " " + [c] + rest);
  }

  /** Two words typed together are kept as they are. */
  lemma CamelCaseWithoutBreak(first: string, second: string)
    requires LowerWord(first) && LowerWord(second)
    ensures ToCamelCase(first + second) == first + second
  {
    assert LowerWord(first + second);
    LowerWordFacts(first + second);
    CapitalizePlainPrefix(first + second, []);
    assert first + second + [] == first + second;
  }

  /** A word break is kept in the identifier as a capital, so two words typed with
      a space ("blue mug", blueMug) and without one ("bluemug") give different
      identifiers. */
  lemma WordBreakKeepsNamesApart(first: string, second: string)
    requires LowerWord(first) && LowerWord(second) && second != []
    ensures ToCamelCase(first + " " + second) != ToCamelCase(first + second)
  {
    CamelCaseWithBreak(first, second);
    CamelCaseWithoutBreak(first, second);
    assert (first + [UpperChar(second[0])] + second[1..])[|first|] != (first + second)[|first|];
  }
}
