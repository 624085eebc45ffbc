/** The pieces of Python's `str` behaviour the core relies on. */
module Text {

  /** `c.isspace()`: the characters Python's `str.strip()` removes by default. */
  predicate IsSpace(c: char) {
    || c == ' '
    || ('\t' <= c <= '\r')
    || ('\U{1C}' <= c <= '\U{1F}')
    || c == '\U{85}' || c == '\U{A0}' || c == '\U{1680}'
    || ('\U{2000}' <= c <= '\U{200A}')
    || c == '\U{2028}' || c == '\U{2029}' || c == '\U{202F}' || c == '\U{205F}' || c == '\U{3000}'
  }

  /** Drops the leading characters for which `drop` holds (`s.lstrip(chars)`). */
  function TrimStart(s: string, drop: char -> bool): (r: string)
    ensures |r| <= |s| && r == s[|s| - |r|..]
    ensures r == [] || !drop(r[0])
    ensures forall i :: 0 <= i < |s| - |r| ==> drop(s[i])
  {
    if s != [] && drop(s[0]) then TrimStart(s[1..], drop) else s
  }

  /** Drops the trailing characters for which `drop` holds (`s.rstrip(chars)`). */
  function TrimEnd(s: string, drop: char -> bool): (r: string)
    ensures |r| <= |s| && r == s[..|r|]
    ensures r == [] || !drop(r[|r| - 1])
    ensures forall i :: |r| <= i < |s| ==> drop(s[i])
  {
    if s != [] && drop(s[|s| - 1]) then TrimEnd(s[..|s| - 1], drop) else s
  }

  predicate IsStripped(s: string) {
    s == [] || (!IsSpace(s[0]) && !IsSpace(s[|s| - 1]))
  }

  /** `r` is `s` with some leading and some trailing whitespace removed, and nothing else. */
  predicate IsTrimmedSliceOf(r: string, s: string) {
    exists k :: 0 <= k <= |s| && |r| <= |s[k..]| && r == s[k..][..|r|]
      && (forall i :: 0 <= i < k ==> IsSpace(s[i]))
      && (forall i :: k + |r| <= i < |s| ==> IsSpace(s[i]))
  }

  /** The slice that `TrimStart` then `TrimEnd` leave is what `IsTrimmedSliceOf` describes. */
  lemma TrimmedSlice(s: string, t: string, r: string)
    requires |t| <= |s| && t == s[|s| - |t|..] && forall i :: 0 <= i < |s| - |t| ==> IsSpace(s[i])
    requires |r| <= |t| && r == t[..|r|] && forall i :: |r| <= i < |t| ==> IsSpace(t[i])
    ensures IsTrimmedSliceOf(r, s)
  {
    var k := |s| - |t|;
    assert s[k..] == t;
    assert forall i :: k + |r| <= i < |s| ==> s[i] == t[i - k];
  }

  /**
   * `s.strip()`: `s` with its leading and trailing whitespace removed and nothing else, so
   * the result is a stripped slice of `s` and all of `s` when it has no surrounding whitespace.
   */
  function Strip(s: string): (r: string)
    ensures |r| <= |s| && IsStripped(r)
    ensures IsStripped(s) ==> r == s
    ensures IsTrimmedSliceOf(r, s)
  {
    var t := TrimStart(s, IsSpace);
    var r := TrimEnd(t, IsSpace);
    assert r != [] ==> r[0] == t[0];
    TrimmedSlice(s, t, r);
    r
  }

  /** Two whitespace-bounded slices of `s` whose ends are not whitespace are the same slice. */
  lemma SameTrimmedSlice(s: string, k: nat, r: string, j: nat, q: string)
    requires k <= |s| && |r| <= |s[k..]| && r == s[k..][..|r|]
    requires forall i :: 0 <= i < k ==> IsSpace(s[i])
    requires forall i :: k + |r| <= i < |s| ==> IsSpace(s[i])
    requires j <= |s| && |q| <= |s[j..]| && q == s[j..][..|q|]
    requires forall i :: 0 <= i < j ==> IsSpace(s[i])
    requires forall i :: j + |q| <= i < |s| ==> IsSpace(s[i])
    requires IsStripped(r) && IsStripped(q)
    ensures r == q
  {
    if r != [] && q != [] {
      assert r[0] == s[k] && q[0] == s[j];
      assert j == k;
      assert r[|r| - 1] == s[k + |r| - 1] && q[|q| - 1] == s[j + |q| - 1];
      assert |r| == |q|;
    }
  }

  /** A string has at most one stripped slice with nothing but whitespace around it. */
  lemma TrimmedSliceUnique(s: string, r: string, q: string)
    requires IsStripped(r) && IsTrimmedSliceOf(r, s)
    requires IsStripped(q) && IsTrimmedSliceOf(q, s)
    ensures r == q
  {
    var k :| 0 <= k <= |s| && |r| <= |s[k..]| && r == s[k..][..|r|]
      && (forall i :: 0 <= i < k ==> IsSpace(s[i]))
      && (forall i :: k + |r| <= i < |s| ==> IsSpace(s[i]));
    var j :| 0 <= j <= |s| && |q| <= |s[j..]| && q == s[j..][..|q|]
      && (forall i :: 0 <= i < j ==> IsSpace(s[i]))
      && (forall i :: j + |q| <= i < |s| ==> IsSpace(s[i]));
    SameTrimmedSlice(s, k, r, j, q);
  }

  /** The contract of `Strip` fixes its result: any stripped slice of `s` with only whitespace around it is `Strip(s)`. */
  lemma StripUnique(s: string, r: string)
    requires IsStripped(r) && IsTrimmedSliceOf(r, s)
    ensures r == Strip(s)
  {
    TrimmedSliceUnique(s, r, Strip(s));
  }

  /** Leading whitespace is removed and the rest is kept: `" a".strip()` is `"a"`. */
  lemma StripLeadingSpace(s: string)
    requires s == " a"
    ensures Strip(s) == "a"
  {
    assert s[1..][..1] == "a";
    assert IsTrimmedSliceOf("a", s);
    StripUnique(s, "a");
  }

  lemma TrimStartKeeps(s: string, drop: char -> bool)
    requires s == [] || !drop(s[0])
    ensures TrimStart(s, drop) == s
  {
  }

  lemma TrimEndKeeps(s: string, drop: char -> bool)
    requires s == [] || !drop(s[|s| - 1])
    ensures TrimEnd(s, drop) == s
  {
  }

  /** The stripped text has no surrounding whitespace, and stripping it again changes nothing. */
  lemma StripProperties(s: string)
    ensures IsStripped(Strip(s))
    ensures Strip(Strip(s)) == Strip(s)
  {
  }

  /** Stripped text is left alone by `strip()`. */
  lemma StripOfStripped(s: string)
    requires IsStripped(s)
    ensures Strip(s) == s
  {
  }

  /** `c.lower()` for ASCII letters; every other character is kept. */
  function LowerChar(c: char): char {
    if 'A' <= c <= 'Z' then (c as int + 32) as char else c
  }

  /** `s.lower()`, restricted to ASCII case mapping. */
  function Lower(s: string): (r: string)
    ensures |r| == |s|
    ensures forall i :: 0 <= i < |s| ==> r[i] == LowerChar(s[i])
  {
    seq(|s|, i requires 0 <= i < |s| => LowerChar(s[i]))
  }

  /** `sep.join(parts)` */
  function Join(parts: seq<string>, sep: string): string {
    if |parts| == 0 then ""
    else if |parts| == 1 then parts[0]
    else parts[0] + sep + Join(parts[1..], sep)
  }

  /** `s.split(sep)` for a one-character separator: never empty, and no piece holds `sep`. */
  function Split(s: string, sep: char): (r: seq<string>)
    ensures |r| >= 1
    ensures forall i :: 0 <= i < |r| ==> sep !in r[i]
  {
    if s == [] then [""]
    else
      var rest := Split(s[1..], sep);
      if s[0] == sep then [""] + rest
      else [[s[0]] + rest[0]] + rest[1..]
  }

  /** Joining the pieces of a split with the same separator gives the text back. */
  lemma {:induction false} JoinSplit(s: string, sep: char)
    ensures Join(Split(s, sep), [sep]) == s
  {
    if s != [] {
      var rest := Split(s[1..], sep);
      JoinSplit(s[1..], sep);
      if s[0] == sep {
        assert Split(s, sep) == [""] + rest;
        assert ([""] + rest)[1..] == rest;
      } else {
        var r := Split(s, sep);
        assert r == [[s[0]] + rest[0]] + rest[1..];
        if |rest| == 1 {
          assert r == [[s[0]] + rest[0]];
        } else {
          assert r[1..] == rest[1..];
          assert Join(rest, [sep]) == rest[0] + [sep] + Join(rest[1..], [sep]);
        }
      }
    }
  }

  /** Splitting pieces joined by a separator none of them holds gives the pieces back. */
  lemma {:induction false} SplitJoin(parts: seq<string>, sep: char)
    requires |parts| >= 1
    requires forall i :: 0 <= i < |parts| ==> sep !in parts[i]
    ensures Split(Join(parts, [sep]), sep) == parts
  {
    if |parts| == 1 {
      SplitNoSeparator(parts[0], sep);
    } else {
      var rest := Join(parts[1..], [sep]);
      assert Join(parts, [sep]) == parts[0] + [sep] + rest;
      SplitJoin(parts[1..], sep);
      SplitAppend(parts[0], rest, sep);
      assert [parts[0]] + parts[1..] == parts;
    }
  }

  lemma {:induction false} SplitNoSeparator(s: string, sep: char)
    requires sep !in s
    ensures Split(s, sep) == [s]
  {
    if s != [] {
      assert s[0] != sep && sep !in s[1..];
      SplitNoSeparator(s[1..], sep);
      assert [s[0]] + s[1..] == s;
    }
  }

  /** Splitting `a + [sep] + b`, where `a` holds no separator, puts `a` in front of the pieces of `b`. */
  lemma {:induction false} SplitAppend(a: string, b: string, sep: char)
    requires sep !in a
    ensures Split(a + [sep] + b, sep) == [a] + Split(b, sep)
  {
    if a == [] {
      assert a + [sep] + b == [sep] + b;
      assert ([sep] + b)[1..] == b;
    } else {
      assert (a + [sep] + b)[1..] == a[1..] + [sep] + b;
      SplitAppend(a[1..], b, sep);
      assert [a[0]] + a[1..] == a;
    }
  }

  function Digit(d: nat): char
    requires d < 10
  {
    "0123456789"[d]
  }

  /** `str(n)` for a non-negative integer: its decimal digits, most significant first. */
  function NatToString(n: nat): (r: string)
    ensures |r| >= 1
    ensures forall i :: 0 <= i < |r| ==> '0' <= r[i] <= '9'
  {
    if n < 10 then [Digit(n)] else NatToString(n / 10) + [Digit(n % 10)]
  }

  /** `str(n)` for an integer. */
  function IntToString(n: int): string {
    if n < 0 then "-" + NatToString(-n) else NatToString(n)
  }

  // ---------------------------------------------------------------- repr

  /** The quote `repr` puts around a string: `"` when it holds `'` but no `"`, else `'`. */
  function QuoteFor(s: string): (q: char)
    ensures q == '\'' || q == '"'
    ensures q == '"' <==> '\'' in s && '"' !in s
  {
    if '\'' in s && '"' !in s then '"' else '\''
  }

  /**
   * The characters `repr` writes as `\xhh`: the ASCII controls other than tab,
   * newline and carriage return, DEL, and the non-printable Latin-1 characters.
   */
  predicate IsHexEscaped(c: char) {
    (c < ' ' && c != '\t' && c != '\n' && c != '\r') || ('\U{7F}' <= c <= '\U{A0}') || c == '\U{AD}'
  }

  /** A character `repr` never leaves in its output as it is. */
  predicate IsRawControl(c: char) {
    IsHexEscaped(c) || c == '\t' || c == '\n' || c == '\r'
  }

  function HexDigit(d: nat): (c: char)
    requires d < 16
    ensures HexValue(c) == d
  {
    if d < 10 then ('0' as int + d) as char else ('a' as int + d - 10) as char
  }

  /** The value of a lower-case hexadecimal digit; 0 for any other character. */
  function HexValue(c: char): (v: nat)
    ensures v < 16
  {
    if '0' <= c <= '9' then c as int - '0' as int
    else if 'a' <= c <= 'f' then c as int - 'a' as int + 10
    else 0
  }

  /** How `repr` writes one character of a string quoted with `quote`. */
  function EscapeChar(c: char, quote: char): (r: string)
    requires quote == '\'' || quote == '"'
    ensures r != [] && forall i :: 0 <= i < |r| ==> !IsRawControl(r[i])
  {
    if c == quote || c == '\\' then ['\\', c]
    else if c == '\t' then "\\t"
    else if c == '\n' then "\\n"
    else if c == '\r' then "\\r"
    else if IsHexEscaped(c) then ['\\', 'x', HexDigit(c as int / 16), HexDigit(c as int % 16)]
    else [c]
  }

  /** The body of `repr(s)` between its quotes: no raw control character is left. */
  function Escape(s: string, quote: char): (r: string)
    requires quote == '\'' || quote == '"'
    ensures |r| >= |s|
    ensures forall i :: 0 <= i < |r| ==> !IsRawControl(r[i])
  {
    if s == [] then [] else EscapeChar(s[0], quote) + Escape(s[1..], quote)
  }

  /** `repr(s)` for a string: the body escaped and wrapped in the chosen quote. */
  function StrRepr(s: string): (r: string)
    ensures |r| >= |s| + 2
    ensures r[0] == QuoteFor(s) && r[|r| - 1] == QuoteFor(s)
    ensures r[1..|r| - 1] == Escape(s, QuoteFor(s))
  {
    [QuoteFor(s)] + Escape(s, QuoteFor(s)) + [QuoteFor(s)]
  }

  /** Reading the escapes of a `repr` body back: `\t`, `\n`, `\r`, `\xhh`, and `\` before any other character. */
  function Unescape(r: string): string
    decreases |r|
  {
    if r == [] then []
    else if r[0] == '\\' && |r| >= 2 then
      if r[1] == 't' then "\t" + Unescape(r[2..])
      else if r[1] == 'n' then "\n" + Unescape(r[2..])
      else if r[1] == 'r' then "\r" + Unescape(r[2..])
      else if r[1] == 'x' && |r| >= 4 then [(HexValue(r[2]) * 16 + HexValue(r[3])) as char] + Unescape(r[4..])
      else [r[1]] + Unescape(r[2..])
    else [r[0]] + Unescape(r[1..])
  }

  lemma UnescapeEscapeChar(c: char, quote: char, rest: string)
    requires quote == '\'' || quote == '"'
    ensures Unescape(EscapeChar(c, quote) + rest) == [c] + Unescape(rest)
  {
    var e := EscapeChar(c, quote);
    if IsHexEscaped(c) && c != quote && c != '\\' && c != '\t' && c != '\n' && c != '\r' {
      var a, b := c as int / 16, c as int % 16;
      assert (e + rest)[4..] == rest;
      assert HexValue(HexDigit(a)) * 16 + HexValue(HexDigit(b)) == c as int;
    } else if |e| == 2 {
      assert (e + rest)[2..] == rest;
    } else {
      assert (e + rest)[1..] == rest;
    }
  }

  /** The escapes lose nothing: reading them back gives the string. */
  lemma {:induction false} UnescapeEscape(s: string, quote: char)
    requires quote == '\'' || quote == '"'
    ensures Unescape(Escape(s, quote)) == s
  {
    if s != [] {
      UnescapeEscape(s[1..], quote);
      UnescapeEscapeChar(s[0], quote, Escape(s[1..], quote));
      assert [s[0]] + s[1..] == s;
    }
  }

  /** `repr` can be read back: the body between the quotes unescapes to the string. */
  lemma StrReprRoundTrip(s: string)
    ensures var r := StrRepr(s); Unescape(r[1..|r| - 1]) == s
  {
    UnescapeEscape(s, QuoteFor(s));
  }

  /** Text with no quote, backslash or control character is only wrapped in single quotes. */
  lemma {:induction false} EscapePlain(s: string, quote: char)
    requires quote == '\'' || quote == '"'
    requires forall i :: 0 <= i < |s| ==> s[i] != quote && s[i] != '\\' && !IsRawControl(s[i])
    ensures Escape(s, quote) == s
  {
    if s != [] {
      EscapePlain(s[1..], quote);
      assert [s[0]] + s[1..] == s;
    }
  }

  /** A string holding `'` but no `"`, backslash or control character is wrapped in double quotes as it is. */
  lemma StrReprDoubleQuoted(s: string)
    requires '\'' in s && '"' !in s
    requires forall i :: 0 <= i < |s| ==> s[i] != '\\' && !IsRawControl(s[i])
    ensures StrRepr(s) == ['"'] + s + ['"']
  {
    EscapePlain(s, '"');
  }

  /** `repr("it's")` switches to double quotes: `"it's"`. */
  lemma StrReprApostrophe(s: string)
    requires s == "it's"
    ensures StrRepr(s) == ['"'] + s + ['"']
  {
    assert s[2] == '\'';
    StrReprDoubleQuoted(s);
  }

  /** `repr("a\nb")` writes the newline as the two characters `\n`. */
  lemma StrReprNewline()
    ensures StrRepr("a\nb") == "'a\\nb'"
  {
    var s := "a\nb";
    assert QuoteFor(s) == '\'';
    assert Escape(s, '\'') == "a" + Escape(s[1..], '\'');
    assert Escape(s[1..], '\'') == "\\n" + Escape(s[2..], '\'');
    EscapePlain(s[2..], '\'');
  }
}
