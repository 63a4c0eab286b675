/** String primitives of JavaScript that the editors rely on: `trim`, `split`,
    `includes`, `toLowerCase` and the decimal rendering of a count. */
module Text {
  import opened Lists

  /** The characters `String.prototype.trim` removes and the regular-expression class `\s`
      matches (ECMAScript WhiteSpace and LineTerminator). */
  predicate IsWhitespace(c: char) {
    c == '\t' || c == '\n' || c == '\U{000B}' || c == '\U{000C}' || c == '\r' || c == ' '
    || c == '\U{00A0}' || c == '\U{1680}' || ('\U{2000}' <= c <= '\U{200A}')
    || c == '\U{2028}' || c == '\U{2029}' || c == '\U{202F}' || c == '\U{205F}'
    || c == '\U{3000}' || c == '\U{FEFF}'
  }

  function TrimStart(s: string): (r: string)
    ensures |r| <= |s| && r == s[|s| - |r|..]
    ensures r == [] || !IsWhitespace(r[0])
    ensures forall k :: 0 <= k < |s| - |r| ==> IsWhitespace(s[k])
  {
    if s != [] && IsWhitespace(s[0]) then TrimStart(s[1..]) else s
  }

  function TrimEnd(s: string): (r: string)
    ensures |r| <= |s| && r == s[..|r|]
    ensures r == [] || !IsWhitespace(r[|r| - 1])
    ensures forall k :: |r| <= k < |s| ==> IsWhitespace(s[k])
  {
    if s != [] && IsWhitespace(s[|s| - 1]) then TrimEnd(s[..|s| - 1]) else s
  }

  /** `r` is the slice of `s` starting at `i` with only whitespace around it. */
  predicate TrimmedAt(s: string, i: int, r: string) {
    0 <= i <= i + |r| <= |s| && r == s[i..i + |r|]
    && (forall k :: 0 <= k < i ==> IsWhitespace(s[k]))
    && (forall k :: i + |r| <= k < |s| ==> IsWhitespace(s[k]))
  }

  /** `s.trim()`: the slice of `s` left after dropping whitespace at both ends. */
  function Trim(s: string): (r: string)
    ensures r == [] || (!IsWhitespace(r[0]) && !IsWhitespace(r[|r| - 1]))
    ensures TrimmedAt(s, |s| - |TrimStart(s)|, r)
  {
    TrimBothEnds(s);
    var r := TrimEnd(TrimStart(s));
    assert r != [] ==> r[0] == TrimStart(s)[0];
    r
  }

  lemma TrimBothEnds(s: string)
    ensures TrimmedAt(s, |s| - |TrimStart(s)|, TrimEnd(TrimStart(s)))
  {
    TrimEndAfter(s, |s| - |TrimStart(s)|, TrimStart(s));
  }

  /** Trimming the end of the text after a whitespace prefix of length `i` leaves a
      slice with only whitespace around it. */
  lemma TrimEndAfter(s: string, i: nat, t: string)
    requires i <= |s| && t == s[i..]
    requires forall k :: 0 <= k < i ==> IsWhitespace(s[k])
    ensures TrimmedAt(s, i, TrimEnd(t))
  {
    var r := TrimEnd(t);
    assert s[i..i + |r|] == t[..|r|];
    forall k | i <= k < |s|
      ensures s[k] == t[k - i]
    {
    }
  }

  /** Trimming twice trims nothing more. */
  lemma TrimIdempotent(s: string)
    ensures Trim(Trim(s)) == Trim(s)
  {
    var r := Trim(s);
    if r != [] {
      assert TrimStart(r) == r;
      assert TrimEnd(r) == r;
    }
  }

  /** `!s.trim()`: the guard of every add handler. */
  predicate IsBlank(s: string) {
    Trim(s) == ""
  }

  /** A string is blank exactly when it consists of whitespace only. */
  lemma BlankIffAllWhitespace(s: string)
    ensures IsBlank(s) <==> forall k :: 0 <= k < |s| ==> IsWhitespace(s[k])
  {
    if !IsBlank(s) {
      var r := Trim(s);
      var i := |s| - |TrimStart(s)|;
      assert s[i] == r[0] && !IsWhitespace(s[i]);
    }
  }

  /** `s.split(sep)` for a one-character separator; `"".split(sep)` is `[""]`. */
  function Split(s: string, sep: char): (r: seq<string>)
    ensures |r| >= 1
    ensures forall i, k :: 0 <= i < |r| && 0 <= k < |r[i]| ==> r[i][k] != sep
  {
    if s == [] then [""]
    else
      var rest := Split(s[1..], sep);
      if s[0] == sep then [""] + rest else [[s[0]] + rest[0]] + rest[1..]
  }

  /** `parts.join(sep)`. */
  function Join(parts: seq<string>, sep: string): string
  {
    if parts == [] then ""
    else if |parts| == 1 then parts[0]
    else parts[0] + sep + Join(parts[1..], sep)
  }

  /** Splitting and joining with the same separator gives the text back. */
  lemma {:induction false} JoinSplit(s: string, sep: char)
    ensures Join(Split(s, sep), [sep]) == s
  {
    if s != [] {
      var rest := Split(s[1..], sep);
      JoinSplit(s[1..], sep);
      if s[0] == sep {
        assert Split(s, sep) == [""] + rest;
        assert s == [sep] + s[1..];
      } else {
        var r := Split(s, sep);
        assert r == [[s[0]] + rest[0]] + rest[1..];
        if |rest| == 1 {
          assert s[1..] == rest[0];
        } else {
          assert r[1..] == rest[1..];
          assert Join(rest, [sep]) == rest[0] + [sep] + Join(rest[1..], [sep]);
          assert Join(r, [sep]) == r[0] + [sep] + Join(rest[1..], [sep]);
        }
      }
    }
  }

  /** `text.split(',').map(t => t.trim()).filter(Boolean)`: the comma-separated tag and
      equipment inputs. */
  function ParseCommaList(text: string): (r: seq<string>)
    ensures forall i :: 0 <= i < |r| ==> r[i] != "" && Trim(r[i]) == r[i]
    ensures IsSubsequence(r, Map(Split(text, ','), Trim))
    ensures forall t :: t in Map(Split(text, ','), Trim) && t != "" ==> t in r
    ensures |r| == Count(Map(Split(text, ','), Trim), NonEmpty)
  {
    Filter(Map(Split(text, ','), Trim), NonEmpty)
  }

  /** `filter(Boolean)` on strings keeps the non-empty ones. */
  predicate NonEmpty(t: string) {
    t != ""
  }

  /** Every element of a list of tags is a valid, trimmed, comma-free tag. */
  predicate CleanTags(tags: seq<string>) {
    forall i :: 0 <= i < |tags| ==>
      tags[i] != "" && Trim(tags[i]) == tags[i] && ',' !in tags[i]
  }

  /** Whatever was typed, the parsed list is clean: no empty, untrimmed or comma-holding entry. */
  lemma ParsedListIsClean(text: string)
    ensures CleanTags(ParseCommaList(text))
  {
    var pieces := Split(text, ',');
    var trimmed := Map(pieces, Trim);
    forall j | 0 <= j < |trimmed|
      ensures ',' !in trimmed[j]
    {
      TrimAddsNothing(pieces[j], ',');
    }
    var r := ParseCommaList(text);
    forall i | 0 <= i < |r|
      ensures ',' !in r[i]
    {
      assert r[i] in trimmed;
    }
  }

  /** Trimming only removes characters. */
  lemma TrimAddsNothing(s: string, c: char)
    requires c !in s
    ensures c !in Trim(s)
  {
    var r := Trim(s);
    var i := |s| - |TrimStart(s)|;
    forall k | 0 <= k < |r|
      ensures r[k] != c
    {
      assert r[k] == s[i + k];
    }
  }

  /** Showing a parsed list joined by `", "` and parsing that text again gives the same list. */
  lemma ParseIsStable(text: string)
    ensures ParseCommaList(Join(ParseCommaList(text), ", ")) == ParseCommaList(text)
  {
    ParsedListIsClean(text);
    ParseJoinRoundTrip(ParseCommaList(text));
  }

  /** Displaying a clean list joined by `", "` and parsing the text back gives the list
      (the equipment field of a shooting log shows `join(', ')` and parses on change). */
  lemma {:induction false} ParseJoinRoundTrip(tags: seq<string>)
    requires CleanTags(tags)
    ensures ParseCommaList(Join(tags, ", ")) == tags
  {
    if tags != [] {
      SplitJoined(tags);
      TrimPieces(tags);
      FilterKeepsAll(tags, NonEmpty);
    }
  }

  /** Trimming the pieces `a`, ` b`, ` c` of a clean list gives the list. */
  lemma TrimPieces(tags: seq<string>)
    requires tags != [] && CleanTags(tags)
    ensures Map([tags[0]] + Map(tags[1..], Padded), Trim) == tags
  {
    var pieces := [tags[0]] + Map(tags[1..], Padded);
    forall i | 0 <= i < |tags|
      ensures Trim(pieces[i]) == tags[i]
    {
      if i > 0 {
        assert pieces[i] == " " + tags[i];
        TrimLeadingSpace(tags[i]);
      }
    }
  }

  lemma TrimLeadingSpace(t: string)
    requires t != [] && Trim(t) == t
    ensures Trim(" " + t) == t
  {
    assert (" " + t)[1..] == t;
    assert TrimStart(" " + t) == TrimStart(t);
  }

  /** A tag as it follows `", "` once the text is split at the commas. */
  function Padded(t: string): string {
    " " + t
  }

  /** The text `a, b, c` splits at the commas into `a`, ` b`, ` c`. */
  lemma {:induction false} SplitJoined(tags: seq<string>)
    requires tags != [] && forall i :: 0 <= i < |tags| ==> ',' !in tags[i]
    ensures Split(Join(tags, ", "), ',') == [tags[0]] + Map(tags[1..], Padded)
  {
    if |tags| == 1 {
      SplitNoSeparator(tags[0], ',');
    } else {
      var tail := Join(tags[1..], ", ");
      assert forall i :: 0 <= i < |tags| - 1 ==> tags[1..][i] == tags[i + 1];
      SplitJoined(tags[1..]);
      var rest := Split(tail, ',');
      assert rest == [tags[1]] + Map(tags[2..], Padded) by {
        assert tags[1..][1..] == tags[2..];
      }
      SplitSpacePrefix(tail, ',');
      assert Split(" " + tail, ',') == Map(tags[1..], Padded) by {
        assert Map(tags[1..], Padded) == [Padded(tags[1])] + Map(tags[2..], Padded);
      }
      JoinCons(tags);
      SplitPrefix(tags[0], " " + tail, ',');
    }
  }

  lemma JoinCons(tags: seq<string>)
    requires |tags| >= 2
    ensures Join(tags, ", ") == tags[0] + [','] + (" " + Join(tags[1..], ", "))
  {
    var tail := Join(tags[1..], ", ");
    assert Join(tags, ", ") == tags[0] + ", " + tail;
  }

  lemma {:induction false} SplitNoSeparator(s: string, sep: char)
    requires sep !in s
    ensures Split(s, sep) == [s]
  {
    if s != [] {
      SplitNoSeparator(s[1..], sep);
      assert [s[0]] + s[1..] == s;
    }
  }

  /** Text without the separator, then the separator, then more text. */
  lemma {:induction false} SplitPrefix(a: string, b: string, sep: char)
    requires sep !in a
    ensures Split(a + [sep] + b, sep) == [a] + Split(b, sep)
  {
    if a == [] {
      assert [sep] + b == a + [sep] + b;
      assert ([sep] + b)[1..] == b;
    } else {
      assert (a + [sep] + b)[1..] == a[1..] + [sep] + b;
      SplitPrefix(a[1..], b, sep);
      assert [a[0]] + a[1..] == a;
    }
  }

  /** A leading non-separator character joins the first piece. */
  lemma SplitSpacePrefix(s: string, sep: char)
    requires sep != ' '
    ensures var r := Split(s, sep); Split(" " + s, sep) == [" " + r[0]] + r[1..]
  {
    assert (" " + s)[1..] == s;
  }

  /** ASCII upper-case letters to lower case; other characters are left as they are. */
  function ToLower(s: string): (r: string)
    ensures |r| == |s|
    ensures forall k :: 0 <= k < |s| ==> (r[k] == s[k] || ('A' <= s[k] <= 'Z' && r[k] as int == s[k] as int + 32))
    ensures forall k :: 0 <= k < |r| ==> !('A' <= r[k] <= 'Z')
  {
    if s == [] then ""
    else [if 'A' <= s[0] <= 'Z' then (s[0] as int + 32) as char else s[0]] + ToLower(s[1..])
  }

  /** Lowering a lowered text changes nothing: the search may lower both sides once. */
  lemma ToLowerIdempotent(s: string)
    ensures ToLower(ToLower(s)) == ToLower(s)
  {
    var r := ToLower(s);
    var rr := ToLower(r);
    forall k | 0 <= k < |r|
      ensures rr[k] == r[k]
    {
    }
  }

  /** A comma-free text with something in it parses to the one trimmed entry. */
  lemma ParseSingle(text: string)
    requires ',' !in text && !IsBlank(text)
    ensures ParseCommaList(text) == [Trim(text)]
  {
    SplitNoSeparator(text, ',');
  }

  /** `needle` starts `text`. */
  predicate StartsWith(text: string, needle: string) {
    |needle| <= |text| && text[..|needle|] == needle
  }

  /** `needle` occurs in `text` at position `i`. */
  predicate OccursAt(text: string, needle: string, i: int) {
    0 <= i <= |text| - |needle| && text[i..i + |needle|] == needle
  }

  /** `text.includes(needle)`. */
  function Includes(text: string, needle: string): (r: bool)
    ensures r <==> exists i :: OccursAt(text, needle, i)
  {
    if StartsWith(text, needle) then
      assert OccursAt(text, needle, 0);
      true
    else if text == [] then
      assert forall i :: !OccursAt(text, needle, i);
      false
    else
      var r := Includes(text[1..], needle);
      assert r ==> exists i :: OccursAt(text, needle, i) by {
        if r {
          var j :| OccursAt(text[1..], needle, j);
          OccursInTail(text, needle, j);
        }
      }
      assert (exists i :: OccursAt(text, needle, i)) ==> r by {
        if exists i :: OccursAt(text, needle, i) {
          var i :| OccursAt(text, needle, i);
          assert i != 0;
          OccursInTail(text, needle, i - 1);
        }
      }
      r
  }

  /** An occurrence in the text after its first character is one position further on in the text. */
  lemma OccursInTail(text: string, needle: string, i: int)
    requires text != [] && 0 <= i
    ensures OccursAt(text[1..], needle, i) <==> OccursAt(text, needle, i + 1)
  {
    if i + 1 <= |text| - |needle| {
      assert text[1..][i..i + |needle|] == text[i + 1..i + 1 + |needle|];
    }
  }

  /** Every text includes the empty search term. */
  lemma IncludesEmpty(text: string)
    ensures Includes(text, "")
  {
    assert OccursAt(text, "", 0);
  }

  function DigitChar(d: nat): char
    requires d < 10
  {
    "0123456789"[d]
  }

  /** The decimal text of a count, as template-based `${index}` and `${length}` render it. */
  function DecimalString(n: nat): (r: string)
    ensures r != []
    ensures forall k :: 0 <= k < |r| ==> '0' <= r[k] <= '9'
  {
    if n < 10 then [DigitChar(n)] else DecimalString(n / 10) + [DigitChar(n % 10)]
  }

  /** Reads decimal digits back (the reference for `DecimalString`). */
  function DecimalValue(s: string): nat
    requires forall k :: 0 <= k < |s| ==> '0' <= s[k] <= '9'
  {
    if s == [] then 0 else DecimalValue(s[..|s| - 1]) * 10 + (s[|s| - 1] as int - '0' as int)
  }

  lemma {:induction false} DecimalRoundTrip(n: nat)
    ensures DecimalValue(DecimalString(n)) == n
  {
    var s := DecimalString(n);
    if n < 10 {
      assert s[..0] == [];
    } else {
      DecimalRoundTrip(n / 10);
      assert s[..|s| - 1] == DecimalString(n / 10);
    }
  }

  /** Different counts render differently. */
  lemma DecimalStringInjective(m: nat, n: nat)
    requires m != n
    ensures DecimalString(m) != DecimalString(n)
  {
    DecimalRoundTrip(m);
    DecimalRoundTrip(n);
  }
}
