/** String primitives of Rust's `str` that the pipeline relies on: UTF-8 byte
    length, Unicode whitespace, trimming, splitting, joining, substring search,
    `replace`, `split_whitespace`, `parse::<i64>`, and cutting a string at a byte
    offset. Strings are sequences of Unicode scalar values; their byte length is
    the length of their UTF-8 encoding. */
module Text {
  import opened Wrappers

  /** Bytes taken by the UTF-8 encoding of one scalar value. */
  function Utf8Width(c: char): nat {
    if c as int < 0x80 then 1
    else if c as int < 0x800 then 2
    else if c as int < 0x1_0000 then 3
    else 4
  }

  /** `str::len`: the number of bytes of the UTF-8 encoding. */
  function Utf8Len(s: string): nat {
    if s == [] then 0 else Utf8Width(s[0]) + Utf8Len(s[1..])
  }

  lemma {:induction false} Utf8LenAppend(a: string, b: string)
    ensures Utf8Len(a + b) == Utf8Len(a) + Utf8Len(b)
  {
    if a == [] {
      assert a + b == b;
    } else {
      assert (a + b)[1..] == a[1..] + b;
      Utf8LenAppend(a[1..], b);
    }
  }

  lemma {:induction false} Utf8LenBounds(s: string)
    ensures |s| <= Utf8Len(s) <= 4 * |s|
  {
    if s != [] {
      Utf8LenBounds(s[1..]);
    }
  }

  /** An ASCII-only string takes one byte per character. */
  lemma {:induction false} Utf8LenAscii(s: string)
    requires forall i | 0 <= i < |s| :: s[i] as int < 0x80
    ensures Utf8Len(s) == |s|
  {
    if s != [] {
      Utf8LenAscii(s[1..]);
    }
  }

  /** The number of leading characters whose encoding fits in `budget` bytes:
      the longest prefix of `s` that is at most `budget` bytes long. */
  function FitPrefix(s: string, budget: nat): (k: nat)
    ensures k <= |s|
    ensures Utf8Len(s[..k]) <= budget
    ensures k < |s| ==> Utf8Len(s[..k + 1]) > budget
  {
    if s == [] || Utf8Width(s[0]) > budget then
      assert s != [] ==> s[..1] == [s[0]] && Utf8Len(s[..1]) == Utf8Width(s[0]) + Utf8Len([]);
      0
    else
      var k' := FitPrefix(s[1..], budget - Utf8Width(s[0]));
      assert s[..k' + 1] == [s[0]] + s[1..][..k'];
      assert s[..k' + 1][1..] == s[1..][..k'];
      assert k' + 1 < |s| ==> s[..k' + 2][1..] == s[1..][..k' + 1];
      k' + 1
  }

  /** `str::is_char_boundary`: byte offset `b` falls between two characters. */
  predicate IsCharBoundary(s: string, b: nat) {
    b <= Utf8Len(s) && Utf8Len(s[..FitPrefix(s, b)]) == b
  }

  /** The text "..." appended by every truncation. */
  const Ellipsis: string := "..."

  /** `if text.len() > limit { format!("{}...", &text[..limit - 3]) } else { text }`
      exactly as the X, Bluesky and Threads publishers write it. Slicing a `str`
      at a byte offset that is not a character boundary panics; `None` stands
      for that panic. */
  function ByteTruncateAsWritten(text: string, limit: nat): (r: Option<string>)
    requires limit >= 3
    ensures Utf8Len(text) <= limit ==> r == Some(text)
    ensures r.None? <==> Utf8Len(text) > limit && !IsCharBoundary(text, limit - 3)
    ensures r.Some? && Utf8Len(text) > limit ==>
      exists k :: 0 <= k <= |text| && Utf8Len(text[..k]) == limit - 3 && r.value == text[..k] + Ellipsis
  {
    if Utf8Len(text) <= limit then Some(text)
    else
      var k := FitPrefix(text, limit - 3);
      Utf8LenAppend(text[..k], text[k..]);
      assert text[..k] + text[k..] == text;
      if Utf8Len(text[..k]) == limit - 3 then Some(text[..k] + Ellipsis) else None
  }

  /** The truncation the publishers evidently intend: keep the longest prefix
      that fits in `limit - 3` bytes and append "...". It never splits a
      character, and the result never exceeds `limit` bytes. */
  function ByteTruncate(text: string, limit: nat): (r: string)
    requires limit >= 3
    ensures Utf8Len(r) <= limit
    ensures Utf8Len(text) <= limit ==> r == text
    ensures Utf8Len(text) > limit ==>
      exists k :: 0 <= k <= |text| && r == text[..k] + Ellipsis && Utf8Len(text[..k]) <= limit - 3
        && (k < |text| ==> Utf8Len(text[..k + 1]) > limit - 3)
  {
    if Utf8Len(text) <= limit then text
    else
      var k := FitPrefix(text, limit - 3);
      Utf8LenAppend(text[..k], Ellipsis);
      text[..k] + Ellipsis
  }

  /** Wherever the code as written does not panic, it agrees with `ByteTruncate`. */
  lemma ByteTruncateAgrees(text: string, limit: nat)
    requires limit >= 3
    requires ByteTruncateAsWritten(text, limit).Some?
    ensures ByteTruncateAsWritten(text, limit) == Some(ByteTruncate(text, limit))
  {
  }

  /** A string of `n` copies of one character. */
  function Repeat(c: char, n: nat): (s: string)
    ensures |s| == n && forall i | 0 <= i < n :: s[i] == c
  {
    if n == 0 then [] else [c] + Repeat(c, n - 1)
  }

  /** The X publisher (limit 280) panics on 276 ASCII letters followed by "é"
      and ten more letters: 288 bytes, and byte 277 falls inside the "é". */
  lemma ByteTruncatePanicsX()
    ensures var text := Repeat('a', 276) + "é" + Repeat('a', 10);
      Utf8Len(text) == 288 && ByteTruncateAsWritten(text, 280).None?
  {
    var a, b := Repeat('a', 276), Repeat('a', 10);
    var text := a + "é" + b;
    PanicTextLength(a, b);
    PanicTextCut(a, b);
    assert text[..276] == a;
    Utf8LenAscii(a);
    assert !IsCharBoundary(text, 277);
  }

  lemma PanicTextLength(a: string, b: string)
    requires a == Repeat('a', 276) && b == Repeat('a', 10)
    ensures Utf8Len(a + "é" + b) == 288
  {
    Utf8LenAscii(a);
    Utf8LenAscii(b);
    Utf8LenAppend(a, "é");
    Utf8LenAppend(a + "é", b);
  }

  /** The longest prefix of the text within 277 bytes stops before the "é". */
  lemma PanicTextCut(a: string, b: string)
    requires a == Repeat('a', 276) && b == Repeat('a', 10)
    ensures FitPrefix(a + "é" + b, 277) == 276
  {
    var text := a + "é" + b;
    var k := FitPrefix(text, 277);
    assert text[..277] == a + "é";
    if k < 276 {
      assert text[..k + 1] == Repeat('a', k + 1);
      Utf8LenAscii(text[..k + 1]);
    } else if k > 276 {
      Utf8LenAscii(a);
      Utf8LenAppend(a, "é");
      assert text[..k] == text[..277] + text[277..k];
      Utf8LenAppend(text[..277], text[277..k]);
    }
  }

  /** `char::is_whitespace`: the Unicode White_Space property. */
  predicate IsWhitespace(c: char) {
    || ('\t' <= c <= '\r')
    || c == ' '
    || c == '\U{0085}'
    || c == '\U{00A0}'
    || c == '\U{1680}'
    || ('\U{2000}' <= c <= '\U{200A}')
    || c == '\U{2028}'
    || c == '\U{2029}'
    || c == '\U{202F}'
    || c == '\U{205F}'
    || c == '\U{3000}'
  }

  /** `str::trim_end`: drop trailing whitespace. */
  function TrimEnd(s: string): (r: string)
    ensures r <= s
    ensures r == [] || !IsWhitespace(r[|r| - 1])
    ensures forall i | |r| <= i < |s| :: IsWhitespace(s[i])
  {
    if s != [] && IsWhitespace(s[|s| - 1]) then TrimEnd(s[..|s| - 1]) else s
  }

  /** `str::trim_start`: drop leading whitespace. */
  function TrimStart(s: string): (r: string)
    ensures |r| <= |s| && r == s[|s| - |r|..]
    ensures r == [] || !IsWhitespace(r[0])
    ensures forall i | 0 <= i < |s| - |r| :: IsWhitespace(s[i])
  {
    if s != [] && IsWhitespace(s[0]) then TrimStart(s[1..]) else s
  }

  /** `str::trim`. */
  function Trim(s: string): (r: string)
    ensures r == [] || (!IsWhitespace(r[0]) && !IsWhitespace(r[|r| - 1]))
  {
    TrimEnd(TrimStart(s))
  }

  /** `str::trim` keeps the text between the leading and the trailing
      whitespace: a slice of the input with only whitespace around it. */
  lemma TrimIsSlice(s: string) returns (a: nat, b: nat)
    ensures a <= b <= |s| && Trim(s) == s[a..b]
    ensures forall i | 0 <= i < a :: IsWhitespace(s[i])
    ensures forall i | b <= i < |s| :: IsWhitespace(s[i])
  {
    var t := TrimStart(s);
    var r := TrimEnd(t);
    a := |s| - |t|;
    b := a + |r|;
    assert t == s[a..] && r == t[..|r|];
    assert r == s[a..b];
    forall i | b <= i < |s|
      ensures IsWhitespace(s[i])
    {
      assert s[i] == t[i - a];
    }
  }

  /** `s.starts_with(p)`. */
  predicate StartsWith(s: string, p: string) {
    |p| <= |s| && s[..|p|] == p
  }

  /** `sub` occurs in `s` starting at index `i`. */
  predicate OccursAt(s: string, sub: string, i: nat) {
    i + |sub| <= |s| && s[i..i + |sub|] == sub
  }

  /** `s.contains(sub)`: `sub` occurs at some position of `s`. */
  predicate Contains(s: string, sub: string) {
    exists i: nat | i <= |s| :: OccursAt(s, sub, i)
  }

  /** `str::replace(pat, rep)`: every non-overlapping occurrence of `pat`,
      scanning left to right, is replaced by `rep`. */
  function ReplaceAll(s: string, pat: string, rep: string): string
    requires pat != []
    decreases |s|
  {
    if |s| < |pat| then s
    else if s[..|pat|] == pat then rep + ReplaceAll(s[|pat|..], pat, rep)
    else [s[0]] + ReplaceAll(s[1..], pat, rep)
  }

  /** After replacing `pat` by a line break, a string that begins with a text
      free of line breaks began with that text before the replacement. */
  lemma {:induction false} ReplaceByNewlinePrefix(t: string, pat: string, x: string)
    requires pat != []
    requires StartsWith(ReplaceAll(t, pat, "\n"), x)
    ensures StartsWith(t, x) || '\n' in x
    decreases |t|
  {
    var r := ReplaceAll(t, pat, "\n");
    if |t| < |pat| {
      assert r == t;
    } else if x != [] {
      if t[..|pat|] == pat {
        ReplaceAllHead(t, pat, "\n");
        assert x[0] == r[0] == '\n';
      } else {
        var rest := ReplaceAll(t[1..], pat, "\n");
        assert r == [t[0]] + rest;
        assert |x| <= |r| && r[..|x|] == x;
        assert rest[..|x| - 1] == r[1..|x|];
        assert StartsWith(rest, x[1..]);
        ReplaceByNewlinePrefix(t[1..], pat, x[1..]);
        if '\n' in x[1..] {
          var j :| 0 <= j < |x[1..]| && x[1..][j] == '\n';
          assert x[j + 1] == '\n';
        }
      }
    }
  }

  lemma ReplaceAllHead(t: string, pat: string, rep: string)
    requires pat != [] && StartsWith(t, pat)
    ensures ReplaceAll(t, pat, rep) == rep + ReplaceAll(t[|pat|..], pat, rep)
  {
  }

  lemma OccursAtCons(c: char, t: string, sub: string, i: nat)
    requires i > 0
    ensures OccursAt([c] + t, sub, i) <==> OccursAt(t, sub, i - 1)
  {
    if i + |sub| <= |[c] + t| {
      assert ([c] + t)[i..i + |sub|] == t[i - 1..i - 1 + |sub|];
    }
  }

  /** Replacing a pattern free of line breaks by a line break leaves no
      occurrence of the pattern. */
  lemma {:induction false} ReplaceByNewlineRemoves(s: string, pat: string)
    requires pat != [] && '\n' !in pat
    ensures forall i: nat | i <= |ReplaceAll(s, pat, "\n")| :: !OccursAt(ReplaceAll(s, pat, "\n"), pat, i)
    decreases |s|
  {
    var r := ReplaceAll(s, pat, "\n");
    if |s| >= |pat| {
      var head := s[..|pat|] == pat;
      var t := if head then s[|pat|..] else s[1..];
      var c := if head then '\n' else s[0];
      var rest := ReplaceAll(t, pat, "\n");
      assert r == [c] + rest;
      ReplaceByNewlineRemoves(t, pat);
      forall i: nat | i <= |r| ensures !OccursAt(r, pat, i) {
        if i > 0 {
          OccursAtCons(c, rest, pat, i);
        } else if !head && OccursAt(r, pat, 0) {
          assert StartsWith(rest, pat[1..]) by {
            assert rest[..|pat| - 1] == r[1..|pat|];
          }
          ReplaceByNewlinePrefix(s[1..], pat, pat[1..]);
          assert false;
        }
      }
    }
  }

  /** `s.find(c)` when `c` occurs: the first index holding `c`. */
  function IndexOf(s: string, c: char): (i: nat)
    requires c in s
    ensures i < |s| && s[i] == c && c !in s[..i]
  {
    if s[0] == c then 0 else 1 + IndexOf(s[1..], c)
  }

  /** `s.find(c)`: the first index holding `c`, if any. */
  function Find(s: string, c: char): (r: Option<nat>)
    ensures r.Some? ==> r.value < |s|
  {
    if s == [] then None
    else if s[0] == c then Some(0)
    else
      match Find(s[1..], c)
      case None => None
      case Some(i) => Some(i + 1)
  }

  /** `Find` gives the first index holding `c`, and nothing when `c` does
      not occur. */
  lemma {:induction false} FindProps(s: string, c: char)
    ensures var r := Find(s, c);
      && (r.Some? ==> s[r.value] == c && forall j | 0 <= j < r.value :: s[j] != c)
      && (r.None? ==> forall j | 0 <= j < |s| :: s[j] != c)
  {
    if s != [] && s[0] != c {
      FindProps(s[1..], c);
      assert forall j | 1 <= j < |s| :: s[j] == s[1..][j - 1];
    }
  }

  /** `s.rfind(c)`: the last index holding `c`, if any. */
  function LastIndexOf(s: string, c: char): (r: Option<nat>)
    ensures r.None? <==> c !in s
    ensures r.Some? ==> r.value < |s| && s[r.value] == c && c !in s[r.value + 1..]
  {
    if s == [] then None
    else if s[|s| - 1] == c then Some(|s| - 1)
    else
      var r := LastIndexOf(s[..|s| - 1], c);
      assert s == s[..|s| - 1] + [s[|s| - 1]];
      r
  }

  /** `s.split(sep)`: the pieces between separators (at least one piece). */
  function Split(s: string, sep: char): (parts: seq<string>)
    ensures |parts| >= 1
    ensures forall i | 0 <= i < |parts| :: sep !in parts[i]
    decreases |s|
  {
    if sep !in s then [s]
    else
      var i := IndexOf(s, sep);
      [s[..i]] + Split(s[i + 1..], sep)
  }

  /** `parts.join(sep)`. */
  function Join(parts: seq<string>, sep: string): string {
    if parts == [] then ""
    else if |parts| == 1 then parts[0]
    else parts[0] + sep + Join(parts[1..], sep)
  }

  /** Splitting a join at the separator gives back the pieces. */
  lemma {:induction false} SplitJoin(parts: seq<string>, sep: char)
    requires |parts| >= 1
    requires forall i | 0 <= i < |parts| :: sep !in parts[i]
    ensures Split(Join(parts, [sep]), sep) == parts
  {
    if |parts| > 1 {
      var s := Join(parts, [sep]);
      var rest := Join(parts[1..], [sep]);
      assert s == parts[0] + [sep] + rest;
      assert sep in s by { assert s[|parts[0]|] == sep; }
      var i := IndexOf(s, sep);
      assert i == |parts[0]|;
      assert s[..i] == parts[0];
      assert s[i + 1..] == rest;
      SplitJoin(parts[1..], sep);
    }
  }

  /** Length of the run of non-whitespace characters that starts `s`. */
  function RunLen(s: string): (n: nat)
    ensures n <= |s|
    ensures forall i | 0 <= i < n :: !IsWhitespace(s[i])
    ensures n < |s| ==> IsWhitespace(s[n])
  {
    if s == [] || IsWhitespace(s[0]) then 0 else 1 + RunLen(s[1..])
  }

  /** A word: a non-empty string without whitespace. */
  predicate IsWord(w: string) {
    w != [] && forall i | 0 <= i < |w| :: !IsWhitespace(w[i])
  }

  /** `str::split_whitespace`: the maximal runs of non-whitespace characters. */
  function Words(s: string): (ws: seq<string>)
    ensures forall i | 0 <= i < |ws| :: IsWord(ws[i])
    decreases |s|
  {
    if s == [] then []
    else if IsWhitespace(s[0]) then Words(s[1..])
    else
      var n := RunLen(s);
      [s[..n]] + Words(s[n..])
  }

  lemma {:induction false} RunLenOfWord(w: string, t: string)
    requires IsWord(w) && (t == [] || IsWhitespace(t[0]))
    ensures RunLen(w + t) == |w|
  {
    assert (w + t)[1..] == w[1..] + t;
    if |w| > 1 {
      RunLenOfWord(w[1..], t);
    }
  }

  lemma WordsPrepend(w: string, t: string)
    requires IsWord(w) && (t == [] || IsWhitespace(t[0]))
    ensures Words(w + t) == [w] + Words(t)
  {
    RunLenOfWord(w, t);
    assert (w + t)[..|w|] == w;
    assert (w + t)[|w|..] == t;
  }

  /** Joining words with single spaces and splitting at whitespace gives the
      words back. */
  lemma {:induction false} WordsOfJoin(ws: seq<string>)
    requires forall i | 0 <= i < |ws| :: IsWord(ws[i])
    ensures Words(Join(ws, " ")) == ws
  {
    if |ws| == 1 {
      WordsPrepend(ws[0], "");
      assert ws[0] + "" == ws[0];
    } else if |ws| > 1 {
      var rest := Join(ws[1..], " ");
      assert Join(ws, " ") == ws[0] + (" " + rest);
      WordsOfJoin(ws[1..]);
      WordsPrepend(ws[0], " " + rest);
      WordsSkipSpace(rest);
      assert ws == [ws[0]] + ws[1..];
    }
  }

  lemma WordsSkipSpace(t: string)
    ensures Words(" " + t) == Words(t)
  {
    assert (" " + t)[1..] == t;
  }

  predicate IsAsciiDigit(c: char) {
    '0' <= c <= '9'
  }

  /** The value of a string of decimal digits. */
  function DigitsValue(ds: string): (v: nat)
    requires forall i | 0 <= i < |ds| :: IsAsciiDigit(ds[i])
  {
    if ds == [] then 0
    else
      var d := ds[|ds| - 1];
      assert IsAsciiDigit(d);
      10 * DigitsValue(ds[..|ds| - 1]) + (d as int - '0' as int)
  }

  const I64Min: int := -0x8000_0000_0000_0000
  const I64Max: int := 0x7FFF_FFFF_FFFF_FFFF

  /** `str::parse::<i64>`: an optional `+` or `-`, then one or more ASCII
      digits, and a value within the 64-bit signed range; anything else
      (including surrounding whitespace) is an error, written `None`. */
  function ParseI64(s: string): (r: Option<int>)
    ensures r.Some? ==> I64Min <= r.value <= I64Max
  {
    var negative := s != [] && s[0] == '-';
    var digits := if s != [] && (s[0] == '-' || s[0] == '+') then s[1..] else s;
    if digits == [] || exists i | 0 <= i < |digits| :: !IsAsciiDigit(digits[i]) then None
    else
      var v := DigitsValue(digits);
      var n: int := if negative then 0 - v as int else v;
      if I64Min <= n <= I64Max then Some(n) else None
  }

  /** Decimal rendering of a natural number, without leading zeros. */
  function DecimalString(n: nat): (s: string)
    ensures s != [] && forall i | 0 <= i < |s| :: IsAsciiDigit(s[i])
  {
    if n < 10 then [('0' as int + n) as char]
    else DecimalString(n / 10) + [('0' as int + n % 10) as char]
  }

  lemma {:induction false} DigitsValueOfDecimal(n: nat)
    ensures DigitsValue(DecimalString(n)) == n
  {
    var s := DecimalString(n);
    if n >= 10 {
      DigitsValueOfDecimal(n / 10);
      assert s[..|s| - 1] == DecimalString(n / 10);
    }
  }

  /** Every positive 64-bit value written in decimal parses back to itself. */
  lemma ParseI64OfDecimal(n: nat)
    requires n <= I64Max
    ensures ParseI64(DecimalString(n)) == Some(n)
  {
    DigitsValueOfDecimal(n);
  }
}
