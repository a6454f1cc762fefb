/** The template filters `truncate`, `word_limit` and `strip_html`, and the
    default message template of each publisher type. Rendering a template is
    done by the template engine, which is not part of this model. */
module Template {
  import opened Wrappers
  import opened Text

  /** `arg.as_i64().unwrap_or(default) as usize` on a 64-bit target: a
      non-integer argument (`None` here) gives the default, a negative one
      wraps around. */
  function ArgAsUsize(arg: Option<int>, default: nat): (n: nat)
    requires arg.Some? ==> I64Min <= arg.value <= I64Max
    ensures arg.None? ==> n == default
    ensures arg.Some? && arg.value >= 0 ==> n == arg.value
    ensures arg.Some? && arg.value < 0 ==> n == arg.value + 0x1_0000_0000_0000_0000
  {
    match arg
    case None => default
    case Some(v) => if v < 0 then v + 0x1_0000_0000_0000_0000 else v
  }

  /** The `truncate(length)` filter. `value` is `None` when the filtered value
      is not a string (the filter then works on ""); `length` is `None` when
      the argument is not an integer (the filter then uses 100). A text whose
      byte length fits is returned as it is; otherwise its first `length`
      characters are kept, cut back to a word boundary when there is one,
      and "..." is appended. */
  function Truncate(value: Option<string>, length: Option<int>): string
    requires length.Some? ==> I64Min <= length.value <= I64Max
  {
    var text := value.GetOr("");
    var maxLen := ArgAsUsize(length, 100);
    if Utf8Len(text) <= maxLen then text else Shorten(text, maxLen)
  }

  /** The text of a value that does not fit: its first `maxLen` characters,
      without the trailing blanks when they end in a space, else cut at the
      last space when there is one, followed by "...". */
  function Shorten(text: string, maxLen: nat): string {
    var truncated := text[..if maxLen < |text| then maxLen else |text|];
    if truncated != [] && truncated[|truncated| - 1] == ' ' then
      TrimEnd(truncated) + Ellipsis
    else
      match LastIndexOf(truncated, ' ')
      case Some(i) => truncated[..i] + Ellipsis
      case None => truncated + Ellipsis
  }

  /** The rules by which `truncate` cuts the first `cut` characters of a
      text back to `k`: when they end in a space, every trailing whitespace
      character goes and nothing else; otherwise, when they hold a space,
      the cut falls on the last one; otherwise all `cut` are kept. */
  predicate ShortenRule(text: string, cut: nat, k: nat)
    requires k <= cut <= |text|
  {
    var p := text[..cut];
    && (p != [] && p[|p| - 1] == ' ' ==>
          (forall i | k <= i < cut :: IsWhitespace(text[i])) && (k == 0 || !IsWhitespace(text[k - 1])))
    && (!(p != [] && p[|p| - 1] == ' ') && ' ' in p ==>
          k < cut && text[k] == ' ' && ' ' !in text[k + 1..cut])
    && (' ' !in p ==> k == cut)
  }

  /** A text that fits is returned as it is; otherwise the result is the
      text's first `min(length, |text|)` characters cut back by
      `ShortenRule`, followed by "...". */
  lemma TruncateCut(value: Option<string>, length: Option<int>)
    requires length.Some? ==> I64Min <= length.value <= I64Max
    ensures var text, maxLen := value.GetOr(""), ArgAsUsize(length, 100);
      var cut := if maxLen < |text| then maxLen else |text|;
      var r := Truncate(value, length);
      && (Utf8Len(text) <= maxLen ==> r == text)
      && (Utf8Len(text) > maxLen ==>
            exists k :: 0 <= k <= cut && r == text[..k] + Ellipsis && ShortenRule(text, cut, k))
  {
    var text := value.GetOr("");
    var maxLen := ArgAsUsize(length, 100);
    if Utf8Len(text) > maxLen {
      var k := ShortenCut(text, maxLen);
    }
  }

  /** Where `Shorten` cuts the first `min(maxLen, |text|)` characters: by
      `ShortenRule`, so never past the cut and, short of it, only at
      whitespace. */
  lemma ShortenCut(text: string, maxLen: nat) returns (k: nat)
    ensures var cut := if maxLen < |text| then maxLen else |text|;
      k <= cut && Shorten(text, maxLen) == text[..k] + Ellipsis && ShortenRule(text, cut, k)
    ensures k == maxLen || k == |text| || IsWhitespace(text[k])
  {
    var cut := if maxLen < |text| then maxLen else |text|;
    var truncated := text[..cut];
    if truncated != [] && truncated[|truncated| - 1] == ' ' {
      var kept := TrimEnd(truncated);
      k := |kept|;
      assert kept == text[..k];
      assert IsWhitespace(truncated[k]);
      assert forall i | k <= i < cut :: IsWhitespace(text[i]) by {
        forall i | k <= i < cut ensures IsWhitespace(text[i]) {
          assert text[i] == truncated[i];
        }
      }
      assert k > 0 ==> text[k - 1] == kept[|kept| - 1];
    } else if LastIndexOf(truncated, ' ').Some? {
      k := LastIndexOf(truncated, ' ').value;
      assert truncated[..k] == text[..k];
      assert text[k] == ' ';
      assert text[k + 1..cut] == truncated[k + 1..];
    } else {
      k := cut;
      assert truncated == text[..cut];
    }
  }

  /** On an ASCII text (as in the filter's own test, where a 40-character
      title truncated to 20 must come out at most 24 bytes long and hold "..."),
      the result is at most `length` + 3 bytes, and a text that did not fit
      carries the "...". */
  lemma TruncateAsciiBound(text: string, length: Option<int>)
    requires length.Some? ==> I64Min <= length.value <= I64Max
    requires forall i | 0 <= i < |text| :: text[i] as int < 0x80
    ensures var r, maxLen := Truncate(Some(text), length), ArgAsUsize(length, 100);
      && Utf8Len(r) <= maxLen + 3
      && (Utf8Len(text) > maxLen ==> Contains(r, Ellipsis))
  {
    var r, maxLen := Truncate(Some(text), length), ArgAsUsize(length, 100);
    TruncateCut(Some(text), length);
    Utf8LenAscii(text);
    if Utf8Len(text) > maxLen {
      var k :| 0 <= k <= maxLen && k <= |text| && r == text[..k] + Ellipsis;
      AsciiCut(text, k);
    }
  }

  lemma AsciiCut(text: string, k: nat)
    requires k <= |text|
    requires forall i | 0 <= i < |text| :: text[i] as int < 0x80
    ensures Utf8Len(text[..k] + Ellipsis) == k + 3
    ensures Contains(text[..k] + Ellipsis, Ellipsis)
  {
    var r := text[..k] + Ellipsis;
    Utf8LenAscii(r);
    assert OccursAt(r, Ellipsis, k);
  }

  /** The `word_limit(limit)` filter: a text of at most `limit` words (10 when
      the argument is not an integer) is returned as it is; otherwise the first
      `limit` words, joined by single spaces, followed by "...". */
  function WordLimit(value: Option<string>, limit: Option<int>): (r: string)
    requires limit.Some? ==> I64Min <= limit.value <= I64Max
  {
    var text := value.GetOr("");
    var maxWords := ArgAsUsize(limit, 10);
    var words := Words(text);
    if |words| <= maxWords then text
    else Join(words[..maxWords], " ") + Ellipsis
  }

  lemma {:induction false} JoinAppendLast(ws: seq<string>, sep: string, suffix: string)
    requires |ws| >= 1
    ensures Join(ws, sep) + suffix == Join(ws[..|ws| - 1] + [ws[|ws| - 1] + suffix], sep)
  {
    if |ws| > 1 {
      JoinAppendLast(ws[1..], sep, suffix);
      assert (ws[..|ws| - 1] + [ws[|ws| - 1] + suffix])[1..] == ws[1..][..|ws[1..]| - 1] + [ws[1..][|ws[1..]| - 1] + suffix];
    }
  }

  /** What `word_limit` keeps: a text within the limit is unchanged; a longer
      one keeps exactly its first `limit` words, the last of them carrying the
      "..." (or is just "..." for a limit of 0). */
  lemma WordLimitKeepsFirstWords(value: Option<string>, limit: Option<int>)
    requires limit.Some? ==> I64Min <= limit.value <= I64Max
    ensures var words, n := Words(value.GetOr("")), ArgAsUsize(limit, 10);
      var r := WordLimit(value, limit);
      && (|words| <= n ==> r == value.GetOr(""))
      && (|words| > n && n == 0 ==> r == Ellipsis)
      && (|words| > n && n > 0 ==> Words(r) == words[..n - 1] + [words[n - 1] + Ellipsis])
  {
    var words, n := Words(value.GetOr("")), ArgAsUsize(limit, 10);
    if |words| > n && n > 0 {
      JoinedWordsMarked(words, n);
    }
  }

  /** The first `n` of some words, joined by spaces with "..." after them,
      split back into those words, the last carrying the "...". */
  lemma JoinedWordsMarked(words: seq<string>, n: nat)
    requires 0 < n <= |words| && forall i | 0 <= i < |words| :: IsWord(words[i])
    ensures Words(Join(words[..n], " ") + Ellipsis) == words[..n - 1] + [words[n - 1] + Ellipsis]
  {
    var kept := words[..n];
    JoinAppendLast(kept, " ", Ellipsis);
    var marked := kept[..n - 1] + [kept[n - 1] + Ellipsis];
    assert IsWord(kept[n - 1] + Ellipsis) by {
      var w := kept[n - 1];
      assert IsWord(w);
      forall i | 0 <= i < |w + Ellipsis| ensures !IsWhitespace((w + Ellipsis)[i]) {
        if i >= |w| {
          assert (w + Ellipsis)[i] == '.';
        }
      }
    }
    assert forall i | 0 <= i < |marked| :: IsWord(marked[i]) by {
      forall i | 0 <= i < |marked| ensures IsWord(marked[i]) {
        if i < n - 1 {
          assert marked[i] == words[i];
        }
      }
    }
    WordsOfJoin(marked);
    assert kept[..n - 1] == words[..n - 1];
  }

  /** Every whitespace character of `s` is a ' ' between two characters
      that are not whitespace: words joined by single spaces. */
  predicate SingleSpaced(s: string) {
    forall i | 0 <= i < |s| && IsWhitespace(s[i]) ::
      s[i] == ' ' && 0 < i < |s| - 1 && !IsWhitespace(s[i - 1]) && !IsWhitespace(s[i + 1])
  }

  /** Words joined by " " are single spaced and neither start nor end
      with whitespace. */
  lemma {:induction false} JoinSingleSpaced(ws: seq<string>)
    requires |ws| >= 1 && forall i | 0 <= i < |ws| :: IsWord(ws[i])
    ensures var j := Join(ws, " ");
      j != [] && !IsWhitespace(j[0]) && !IsWhitespace(j[|j| - 1]) && SingleSpaced(j)
  {
    var j := Join(ws, " ");
    var w := ws[0];
    assert IsWord(w);
    if |ws| > 1 {
      var rest := Join(ws[1..], " ");
      JoinSingleSpaced(ws[1..]);
      assert j == w + " " + rest;
      assert forall i | 0 <= i < |w| :: j[i] == w[i];
      forall i | 0 <= i < |j| && IsWhitespace(j[i])
        ensures j[i] == ' ' && 0 < i < |j| - 1 && !IsWhitespace(j[i - 1]) && !IsWhitespace(j[i + 1])
      {
        if i > |w| {
          assert j[i] == rest[i - |w| - 1];
          assert i - |w| - 1 > 0 ==> j[i - 1] == rest[i - |w| - 2];
          assert j[i + 1] == rest[i - |w|];
        } else if i == |w| {
          assert j[i - 1] == w[|w| - 1] && j[i + 1] == rest[0];
        }
      }
      assert j[0] == w[0] && j[|j| - 1] == rest[|rest| - 1];
    } else {
      assert j == w;
      assert forall i | 0 <= i < |j| :: !IsWhitespace(j[i]);
    }
  }

  /** When `word_limit` cuts, the kept words are joined by single spaces:
      the only whitespace in the result is a ' ' between two words. */
  lemma WordLimitSingleSpaces(value: Option<string>, limit: Option<int>)
    requires limit.Some? ==> I64Min <= limit.value <= I64Max
    ensures |Words(value.GetOr(""))| > ArgAsUsize(limit, 10) ==> SingleSpaced(WordLimit(value, limit))
  {
    var words, n := Words(value.GetOr("")), ArgAsUsize(limit, 10);
    if |words| > n {
      var r := WordLimit(value, limit);
      if n == 0 {
        assert Join(words[..0], " ") == "";
        assert r == Ellipsis;
      } else {
        var j := Join(words[..n], " ");
        JoinSingleSpaced(words[..n]);
        assert r == j + Ellipsis;
        assert forall i | |j| <= i < |r| :: r[i] == '.';
        forall i | 0 <= i < |r| && IsWhitespace(r[i])
          ensures r[i] == ' ' && 0 < i < |r| - 1 && !IsWhitespace(r[i - 1]) && !IsWhitespace(r[i + 1])
        {
          assert r[i] == j[i] && r[i - 1] == j[i - 1];
          assert i + 1 < |j| ==> r[i + 1] == j[i + 1];
        }
      }
    }
  }

  /** The tags that `strip_html` turns into line breaks, in the order it
      replaces them. */
  const BreakTags: seq<string> := ["<br>", "<br/>", "<br />", "<p>", "</p>"]

  /** A replacement by a line break never creates an occurrence of a text
      without line breaks. */
  lemma {:induction false} ReplaceByNewlineKeepsAbsent(s: string, pat: string, q: string)
    requires pat != [] && '\n' !in q
    ensures Contains(ReplaceAll(s, pat, "\n"), q) ==> Contains(s, q)
    decreases |s|
  {
    var r := ReplaceAll(s, pat, "\n");
    if q == [] {
      assert OccursAt(s, q, 0);
    } else if |s| < |pat| {
      assert r == s;
    } else if Contains(r, q) {
      var i: nat :| i <= |r| && OccursAt(r, q, i);
      if i == 0 {
        assert r[..|q|] == q;
        ReplaceByNewlinePrefix(s, pat, q);
        assert OccursAt(s, q, 0);
      } else {
        var head := s[..|pat|] == pat;
        var t := if head then s[|pat|..] else s[1..];
        var c := if head then '\n' else s[0];
        var rest := ReplaceAll(t, pat, "\n");
        assert r == [c] + rest;
        OccursAtCons(c, rest, q, i);
        ReplaceByNewlineKeepsAbsent(t, pat, q);
        ContainsInSuffix(s, |s| - |t|, q);
      }
    }
  }

  lemma ContainsInSuffix(s: string, d: nat, q: string)
    requires d <= |s| && Contains(s[d..], q)
    ensures Contains(s, q)
  {
    var j: nat :| j <= |s[d..]| && OccursAt(s[d..], q, j);
    assert s[j + d..j + d + |q|] == s[d..][j..j + |q|];
    assert OccursAt(s, q, j + d);
  }

  /** First stage of `strip_html`: each break tag in turn becomes "\n". */
  function BreaksToNewlines(text: string): (r: string)
    ensures forall k | 0 <= k < |BreakTags| :: !Contains(r, BreakTags[k])
  {
    var s1 := ReplaceAll(text, "<br>", "\n");
    var s2 := ReplaceAll(s1, "<br/>", "\n");
    var s3 := ReplaceAll(s2, "<br />", "\n");
    var s4 := ReplaceAll(s3, "<p>", "\n");
    var s5 := ReplaceAll(s4, "</p>", "\n");
    BreaksRemoved(text, s1, s2, s3, s4, s5);
    s5
  }

  lemma BreaksRemoved(text: string, s1: string, s2: string, s3: string, s4: string, s5: string)
    requires s1 == ReplaceAll(text, "<br>", "\n")
    requires s2 == ReplaceAll(s1, "<br/>", "\n")
    requires s3 == ReplaceAll(s2, "<br />", "\n")
    requires s4 == ReplaceAll(s3, "<p>", "\n")
    requires s5 == ReplaceAll(s4, "</p>", "\n")
    ensures forall k | 0 <= k < |BreakTags| :: !Contains(s5, BreakTags[k])
  {
    var stages := [s1, s2, s3, s4, s5];
    var inputs := [text, s1, s2, s3, s4];
    forall k | 0 <= k < 5 ensures !Contains(s5, BreakTags[k]) {
      var pat := BreakTags[k];
      ReplaceByNewlineRemoves(inputs[k], pat);
      assert stages[k] == ReplaceAll(inputs[k], pat, "\n");
      assert !Contains(stages[k], pat);
      var j := k + 1;
      while j < 5
        invariant k + 1 <= j <= 5
        invariant !Contains(stages[j - 1], pat)
      {
        ReplaceByNewlineKeepsAbsent(inputs[j], BreakTags[j], pat);
        assert stages[j] == ReplaceAll(inputs[j], BreakTags[j], "\n");
        j := j + 1;
      }
    }
  }

  /** The first tag of `s`: the first '<' and the first '>' after it, if
      both exist. */
  function FirstTag(s: string): (r: Option<(nat, nat)>)
    ensures r.Some? ==> r.value.0 <= r.value.1 < |s|
  {
    match Find(s, '<')
    case None => None
    case Some(start) =>
      match Find(s[start..], '>')
      case None => None
      case Some(offset) => Some((start, start + offset))
  }

  /** Second stage of `strip_html`, as a specification: remove the span from
      the first '<' to the first '>' after it, again and again, until there is
      no '<' or no '>' after the first one. */
  function StripTags(s: string): string
    decreases |s|
  {
    match FirstTag(s)
    case None => s
    case Some((start, end)) => StripTags(s[..start] + s[end + 1..])
  }

  /** No '<' is followed, anywhere later, by a '>'. */
  predicate NoTag(s: string) {
    forall i, j | 0 <= i < j < |s| && s[i] == '<' :: s[j] != '>'
  }

  /** What `StripTags` leaves has no '<' followed later by a '>', and is no
      longer than its input. */
  lemma {:induction false} StripTagsLeavesNoTag(s: string)
    ensures var r := StripTags(s);
      && |r| <= |s|
      && NoTag(r)
    decreases |s|
  {
    match FirstTag(s)
    case None =>
      FindProps(s, '<');
      if Find(s, '<').Some? {
        var start := Find(s, '<').value;
        FindProps(s[start..], '>');
        forall i, j | 0 <= i < j < |s| && s[i] == '<' ensures s[j] != '>' {
          assert s[start..][j - start] == s[j];
        }
      }
    case Some((start, end)) =>
      StripTagsLeavesNoTag(s[..start] + s[end + 1..]);
  }

  /** Third stage of `strip_html`: trim every line and keep the non-empty ones.
      (`str::lines` also strips a "\r" before each "\n" and drops a final empty
      line; trimming and dropping empty lines subsume both.) */
  function CleanLines(lines: seq<string>): seq<string> {
    if lines == [] then []
    else
      var line := Trim(lines[0]);
      if line == [] then CleanLines(lines[1..]) else [line] + CleanLines(lines[1..])
  }

  /** Every line `CleanLines` keeps is a clean line, given lines without breaks. */
  lemma {:induction false} CleanLinesAreClean(lines: seq<string>)
    requires forall i | 0 <= i < |lines| :: '\n' !in lines[i]
    ensures forall i | 0 <= i < |CleanLines(lines)| :: IsCleanLine(CleanLines(lines)[i])
  {
    if lines != [] {
      CleanLinesAreClean(lines[1..]);
      if Trim(lines[0]) != [] {
        TrimKeepsAbsent(lines[0], '\n');
      }
    }
  }

  /** A string without whitespace at either end. */
  predicate IsTrimmed(s: string) {
    s == [] || (!IsWhitespace(s[0]) && !IsWhitespace(s[|s| - 1]))
  }

  /** A line of `strip_html`'s output: non-empty, one line, trimmed. */
  predicate IsCleanLine(s: string) {
    s != [] && '\n' !in s && IsTrimmed(s)
  }

  lemma TrimKeepsAbsent(s: string, c: char)
    requires c !in s
    ensures c !in Trim(s)
  {
    var t := TrimStart(s);
    assert c !in t;
    assert Trim(s) <= t;
  }

  /** One round of the loop: with no '>' after the first '<' nothing is
      left to strip, else the first tag goes. */
  lemma StripTagsStep(s: string, start: nat, close: Option<nat>)
    requires Find(s, '<') == Some(start) && close == Find(s[start..], '>')
    ensures close.None? ==> StripTags(s) == s
    ensures close.Some? ==> StripTags(s) == StripTags(s[..start] + s[start + close.value + 1..])
  {
    if close.None? {
      assert FirstTag(s).None?;
    } else {
      assert FirstTag(s) == Some((start, start + close.value));
    }
  }

  /** The tag-removing loop of `strip_html`, proved against `StripTags`. */
  method RemoveTags(s: string) returns (result: string)
    ensures result == StripTags(s)
  {
    result := s;
    var open := Find(result, '<');
    while open.Some?
      invariant open == Find(result, '<')
      invariant StripTags(result) == StripTags(s)
      decreases |result|
    {
      var start := open.value;
      var close := Find(result[start..], '>');
      StripTagsStep(result, start, close);
      if close.None? {
        return;
      }
      result := result[..start] + result[start + close.value + 1..];
      open := Find(result, '<');
    }
  }

  /** The `strip_html` filter. */
  method StripHtml(value: Option<string>) returns (r: string)
    ensures var tags := StripTags(BreaksToNewlines(value.GetOr("")));
      r == Join(CleanLines(Split(tags, '\n')), "\n")
  {
    var result := RemoveTags(BreaksToNewlines(value.GetOr("")));
    r := Join(CleanLines(Split(result, '\n')), "\n");
  }

  /** A slice of a text without tags has none either. */
  lemma NoTagSlice(s: string, a: nat, b: nat)
    requires NoTag(s) && a <= b <= |s|
    ensures NoTag(s[a..b])
  {
    var t := s[a..b];
    forall i, j | 0 <= i < j < |t| && t[i] == '<' ensures t[j] != '>' {
      assert t[i] == s[a + i] && t[j] == s[a + j];
    }
  }

  /** Every piece of a split text without tags has none. */
  lemma {:induction false} SplitNoTag(s: string, sep: char)
    requires NoTag(s)
    ensures forall i | 0 <= i < |Split(s, sep)| :: NoTag(Split(s, sep)[i])
    decreases |s|
  {
    if sep in s {
      var k := IndexOf(s, sep);
      NoTagSlice(s, 0, k);
      NoTagSlice(s, k + 1, |s|);
      SplitNoTag(s[k + 1..], sep);
    }
  }

  /** Every line `CleanLines` keeps has no tag, given lines without tags. */
  lemma {:induction false} CleanLinesNoTag(lines: seq<string>)
    requires forall i | 0 <= i < |lines| :: NoTag(lines[i])
    ensures forall i | 0 <= i < |CleanLines(lines)| :: NoTag(CleanLines(lines)[i])
  {
    if lines != [] {
      var rest := CleanLines(lines[1..]);
      CleanLinesNoTag(lines[1..]);
      var line := Trim(lines[0]);
      if line != [] {
        var a, b := TrimIsSlice(lines[0]);
        NoTagSlice(lines[0], a, b);
        var r := CleanLines(lines);
        assert r == [line] + rest;
        forall i | 0 <= i < |r| ensures NoTag(r[i]) {
          if i > 0 {
            assert r[i] == rest[i - 1];
          }
        }
      }
    }
  }

  /** A text without line breaks occurs in a join by line breaks only
      inside one of the pieces. */
  lemma {:induction false} JoinLinesContains(lines: seq<string>, q: string)
    requires q != [] && '\n' !in q
    requires forall i | 0 <= i < |lines| :: !Contains(lines[i], q)
    ensures !Contains(Join(lines, "\n"), q)
  {
    if lines == [] {
      assert forall p: nat | p <= 0 :: !OccursAt("", q, p);
    } else if |lines| == 1 {
      assert !Contains(lines[0], q);
    } else {
      var head := lines[0];
      var rest := Join(lines[1..], "\n");
      var s := Join(lines, "\n");
      assert s == head + "\n" + rest;
      JoinLinesContains(lines[1..], q);
      assert !Contains(head, q);
      forall p: nat | p <= |s| ensures !OccursAt(s, q, p) {
        if p + |q| <= |head| {
          assert s[p..p + |q|] == head[p..p + |q|];
          assert !OccursAt(head, q, p);
        } else if p <= |head| {
          if p + |q| <= |s| {
            assert s[p..p + |q|][|head| - p] == '\n';
          }
        } else if p + |q| <= |s| {
          var p' := p - |head| - 1;
          assert s[p..p + |q|] == rest[p'..p' + |q|];
          assert !OccursAt(rest, q, p');
        }
      }
    }
  }

  /** A text without tags contains nothing that opens with '<' and closes
      with '>', such as a break tag. */
  lemma NoTagNoBracketed(s: string, q: string)
    requires NoTag(s) && |q| >= 2 && q[0] == '<' && q[|q| - 1] == '>'
    ensures !Contains(s, q)
  {
    forall p: nat | p <= |s| ensures !OccursAt(s, q, p) {
      if p + |q| <= |s| {
        var w := s[p..p + |q|];
        assert w[0] == s[p] && w[|q| - 1] == s[p + |q| - 1];
        assert s[p] == '<' ==> s[p + |q| - 1] != '>';
      }
    }
  }

  /** The output of `strip_html` has no break tag, and either is empty or
      consists of non-empty trimmed lines separated by single line breaks. */
  lemma StripHtmlOutput(value: Option<string>)
    ensures var stage := BreaksToNewlines(value.GetOr(""));
      var lines := CleanLines(Split(StripTags(stage), '\n'));
      var r := Join(lines, "\n");
      && (forall k | 0 <= k < |BreakTags| :: !Contains(r, BreakTags[k]))
      && (r == "" || (Split(r, '\n') == lines && forall i | 0 <= i < |lines| :: IsCleanLine(lines[i])))
  {
    var stage := BreaksToNewlines(value.GetOr(""));
    var parts := Split(StripTags(stage), '\n');
    var lines := CleanLines(parts);
    CleanLinesAreClean(parts);
    StripHtmlNoBreak(stage);
    if lines != [] {
      assert forall i | 0 <= i < |lines| :: '\n' !in lines[i];
      SplitJoin(lines, '\n');
    }
  }

  /** No break tag survives the last two stages of `strip_html`. */
  lemma StripHtmlNoBreak(stage: string)
    ensures var r := Join(CleanLines(Split(StripTags(stage), '\n')), "\n");
      forall k | 0 <= k < |BreakTags| :: !Contains(r, BreakTags[k])
  {
    var parts := Split(StripTags(stage), '\n');
    var lines := CleanLines(parts);
    StripTagsLeavesNoTag(stage);
    SplitNoTag(StripTags(stage), '\n');
    CleanLinesNoTag(parts);
    BreakTagsBracketed();
    forall k | 0 <= k < |BreakTags| ensures !Contains(Join(lines, "\n"), BreakTags[k]) {
      BracketedAbsent(lines, BreakTags[k]);
    }
  }

  /** One line that opens with '<' and closes with '>'. */
  predicate Bracketed(q: string) {
    |q| >= 2 && q[0] == '<' && q[|q| - 1] == '>' && '\n' !in q
  }

  /** Every break tag is bracketed. */
  lemma BreakTagsBracketed()
    ensures forall k | 0 <= k < |BreakTags| :: Bracketed(BreakTags[k])
  {
  }

  /** Lines without tags, joined by line breaks, contain no one-line text
      that opens with '<' and closes with '>'. */
  lemma BracketedAbsent(lines: seq<string>, q: string)
    requires forall i | 0 <= i < |lines| :: NoTag(lines[i])
    requires Bracketed(q)
    ensures !Contains(Join(lines, "\n"), q)
  {
    forall i | 0 <= i < |lines| ensures !Contains(lines[i], q) {
      NoTagNoBracketed(lines[i], q);
    }
    JoinLinesContains(lines, q);
  }

  const GenericTemplate: string := "{{ title }}\n\n" + "{{ description }}\n\n" + "{{ url }}"

  const KnownTypes: set<string> :=
    {"telegram", "x", "mastodon", "linkedin", "matrix", "bluesky", "threads", "discord", "openobserve"}

  // The templates of the known publisher types, written in short pieces.
  const TelegramTemplate: string :=
    "**{{ title }}**\n\n" + "{{ description | " + "truncate(480) }}\n\n" + "\U{1F517} [Leer más]" + "({{ url }})"
  const XTemplate: string := "{{ title | " + "truncate(240) }}\n\n" + "{{ url }}"
  const MastodonTemplate: string :=
    "{{ title }}\n\n" + "{{ description | " + "truncate(400) }}\n\n" + "{{ url }}"
  const LinkedInTemplate: string :=
    "{{ title }}\n\n" + "{{ description | " + "truncate(700) }}\n\n" + "Leer más: {{ url }}"
  const MatrixTemplate: string :=
    "<h3>{{ title }}</h3>" + "<p>{{ description | " + "truncate(500) }}</p>" + "<p><a href=\"{{ url }}\">" + "Leer más</a></p>"
  const BlueskyTemplate: string := "{{ title | " + "truncate(250) }}\n\n" + "{{ url }}"
  const ThreadsTemplate: string :=
    "{{ title }}\n\n" + "{{ description | " + "truncate(450) }}\n\n" + "{{ url }}"
  const DiscordTemplate: string :=
    "**{{ title }}**\n\n" + "{{ description | " + "truncate(400) }}\n\n" + "\U{1F517} {{ url }}"
  const OpenObserveTemplate: string :=
    "Feed: {{ title }}\n" + "Description: " + "{{ description }}\n" + "URL: {{ url }}"

  /** `TemplateRenderer::get_default_template`: a fixed template per known
      publisher type; any other type gets the generic title/description/url
      template. */
  function DefaultTemplate(publisherType: string): string {
    match publisherType
    case "telegram" => TelegramTemplate
    case "x" => XTemplate
    case "mastodon" => MastodonTemplate
    case "linkedin" => LinkedInTemplate
    case "matrix" => MatrixTemplate
    case "bluesky" => BlueskyTemplate
    case "threads" => ThreadsTemplate
    case "discord" => DiscordTemplate
    case "openobserve" => OpenObserveTemplate
    case _ => GenericTemplate
  }

  /** Exactly the unknown publisher types get the generic template: each
      known type's template differs from it in length. */
  lemma DefaultTemplateGenericIffUnknown(publisherType: string)
    ensures DefaultTemplate(publisherType) == GenericTemplate <==> publisherType !in KnownTypes
  {
    if publisherType in KnownTypes {
      KnownTemplateIsSpecific(publisherType);
    }
  }

  lemma KnownTemplateIsSpecific(publisherType: string)
    requires publisherType in KnownTypes
    ensures |DefaultTemplate(publisherType)| != |GenericTemplate|
  {
    assert |GenericTemplate| == 41;
    var r := DefaultTemplate(publisherType);
    if publisherType == "telegram" {
      assert |r| == 75;
    } else if publisherType == "x" {
      assert |r| == 38;
    } else if publisherType == "mastodon" {
      assert |r| == 57;
    } else if publisherType == "linkedin" {
      assert |r| == 67;
    } else if publisherType == "matrix" {
      assert |r| == 99;
    } else if publisherType == "bluesky" {
      assert |r| == 38;
    } else if publisherType == "threads" {
      assert |r| == 57;
    } else if publisherType == "discord" {
      assert |r| == 63;
    } else {
      assert |r| == 63;
    }
  }
}
