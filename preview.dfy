/**
 * The plain-text preview of an announcement's HTML: tags removed in one left-to-right pass of
 * `<[^>]+>`, every run of whitespace collapsed to one space, the ends stripped, and the text cut
 * at `max_length` characters with `"..."` appended when it is longer.
 */
module Preview {
  import opened Wrappers

  /** Python's `str.isspace`; `\s` in a `str` pattern and `str.strip()` use the same set. */
  predicate IsSpace(c: char)
  {
    var n := c as int;
    (9 <= n <= 13) || (0x1C <= n <= 0x20) || n == 0x85 || n == 0xA0 || n == 0x1680
    || (0x2000 <= n <= 0x200A) || n == 0x2028 || n == 0x2029 || n == 0x202F || n == 0x205F || n == 0x3000
  }

  /** The first position of `c` in `s`. */
  function IndexOf(s: string, c: char): (r: Option<nat>)
    ensures r.None? <==> c !in s
    ensures r.Some? ==> r.value < |s| && s[r.value] == c && c !in s[..r.value]
  {
    if s == [] then None
    else if s[0] == c then Some(0)
    else
      match IndexOf(s[1..], c)
      case None =>
        assert s == [s[0]] + s[1..];
        None
      case Some(k) =>
        assert s[..k + 1] == [s[0]] + s[1..][..k];
        Some(k + 1)
  }

  /**
   * For `s` starting with `<`: the position of the `>` that closes a match of `<[^>]+>` there.
   * `[^>]+` cannot cross a `>`, so the match ends at the first `>`, and it needs at least one
   * character (possibly another `<`) between the brackets.
   */
  function TagEnd(s: string): (r: Option<nat>)
    requires s != [] && s[0] == '<'
    ensures r.None? <==> '>' !in s[1..] || (|s| > 1 && s[1] == '>')
    ensures r.Some? ==> 2 <= r.value < |s| && s[r.value] == '>' && '>' !in s[1..r.value]
  {
    match IndexOf(s[1..], '>')
    case Some(k) =>
      assert s[1..][..k] == s[1..k + 1];
      if k >= 1 then Some(k + 1) else None
    case None => None
  }

  /** A match of `<[^>]+>` starts at the front of `s`. */
  predicate OpensTag(s: string)
  {
    s != [] && s[0] == '<' && TagEnd(s).Some?
  }

  /** `re.sub(r'<[^>]+>', '', s)`: at each position a tag is removed whole, otherwise one character is kept. */
  function StripTags(s: string): (r: string)
    ensures |r| <= |s|
    decreases |s|
  {
    if s == [] then []
    else if OpensTag(s) then StripTags(s[TagEnd(s).value + 1..])
    else [s[0]] + StripTags(s[1..])
  }

  /** No position of `s` starts a match of `<[^>]+>`. */
  predicate NoTags(s: string)
    decreases |s|
  {
    s == [] || (!OpensTag(s) && NoTags(s[1..]))
  }

  /** Removing tags only deletes characters: everything left was in the input. */
  lemma {:induction false} StripTagsChars(s: string)
    ensures forall c :: c in StripTags(s) ==> c in s
    decreases |s|
  {
    if s == [] {
    } else if OpensTag(s) {
      var rest := s[TagEnd(s).value + 1..];
      StripTagsChars(rest);
      assert forall c :: c in rest ==> c in s;
    } else {
      StripTagsChars(s[1..]);
      assert forall c :: c in s[1..] ==> c in s;
    }
  }

  /** The single pass leaves no tag behind, even where removing one brings characters together. */
  lemma {:induction false} StripTagsLeavesNoTags(s: string)
    ensures NoTags(StripTags(s))
    decreases |s|
  {
    if s == [] {
    } else if OpensTag(s) {
      StripTagsLeavesNoTags(s[TagEnd(s).value + 1..]);
    } else {
      var tail := StripTags(s[1..]);
      var r := [s[0]] + tail;
      StripTagsLeavesNoTags(s[1..]);
      assert r[1..] == tail;
      if s[0] == '<' {
        // Either no `>` follows, and none survives into `tail`, or `>` comes right after the `<`
        // and is kept as the first character of `tail`.
        StripTagsChars(s[1..]);
        if '>' !in s[1..] {
          assert '>' !in r[1..];
        } else {
          assert s[1] == '>';
          assert !OpensTag(s[1..]);
          assert r[1] == '>';
        }
      }
    }
  }

  /** Text without tags is left as it is. */
  lemma {:induction false} StripTagsFixesNoTags(s: string)
    requires NoTags(s)
    ensures StripTags(s) == s
    decreases |s|
  {
    if s != [] {
      StripTagsFixesNoTags(s[1..]);
    }
  }

  /** Removing tags a second time changes nothing. */
  lemma StripTagsIdempotent(s: string)
    ensures StripTags(StripTags(s)) == StripTags(s)
  {
    StripTagsLeavesNoTags(s);
    StripTagsFixesNoTags(StripTags(s));
  }

  /** A text without `<` contains no tag and is kept verbatim. */
  lemma {:induction false} StripTagsWithoutAngle(s: string)
    requires '<' !in s
    ensures StripTags(s) == s
    decreases |s|
  {
    if s != [] {
      assert '<' !in s[1..];
      StripTagsWithoutAngle(s[1..]);
    }
  }

  /** `<>` is not a tag (it needs a character inside), while `<<>` is, as one match. */
  lemma StripTagsExamples()
    ensures StripTags("a<>b") == "a<>b"
    ensures StripTags("<<>x") == "x"
  {
    assert !OpensTag("<>b");
    assert StripTags(">b") == [">b"[0]] + StripTags("b");
    assert TagEnd("<<>x") == Some(2);
  }

  /** `lstrip()`: drops the leading whitespace. */
  function TrimStart(s: string): (r: string)
    ensures |r| <= |s| && r == s[|s| - |r|..]
    ensures r == [] || !IsSpace(r[0])
  {
    if s != [] && IsSpace(s[0]) then TrimStart(s[1..]) else s
  }

  /** `rstrip()`: drops the trailing whitespace. */
  function TrimEnd(s: string): (r: string)
    ensures |r| <= |s| && r == s[..|r|]
    ensures r == [] || !IsSpace(r[|r| - 1])
  {
    if s != [] && IsSpace(s[|s| - 1]) then TrimEnd(s[..|s| - 1]) else s
  }

  /** `strip()`. */
  function Strip(s: string): string
  {
    TrimEnd(TrimStart(s))
  }

  /** `re.sub(r'\s+', ' ', s)`: each maximal run of whitespace becomes a single plain space. */
  function Collapse(s: string): string
    decreases |s|
  {
    if s == [] then []
    else if IsSpace(s[0]) then [' '] + Collapse(TrimStart(s[1..]))
    else [s[0]] + Collapse(s[1..])
  }

  /** The cleaned text of an announcement, before truncation. */
  function CleanText(html: string): string
  {
    Strip(Collapse(StripTags(html)))
  }

  /** The only whitespace character in `t` is the plain space. */
  predicate OnlyPlainSpaces(t: string)
  {
    forall i :: 0 <= i < |t| && IsSpace(t[i]) ==> t[i] == ' '
  }

  /** No two whitespace characters stand next to each other in `t`. */
  predicate NoSpaceRun(t: string)
  {
    forall i :: 0 <= i < |t| - 1 ==> !(IsSpace(t[i]) && IsSpace(t[i + 1]))
  }

  /** `t` neither starts nor ends with whitespace. */
  predicate Trimmed(t: string)
  {
    t == [] || (!IsSpace(t[0]) && !IsSpace(t[|t| - 1]))
  }

  predicate Normalized(t: string)
  {
    Trimmed(t) && NoSpaceRun(t) && OnlyPlainSpaces(t)
  }

  /** The characters of `s` that are not whitespace, in order. */
  function NonSpace(s: string): (r: string)
    ensures |r| <= |s|
  {
    if s == [] then [] else (if IsSpace(s[0]) then [] else [s[0]]) + NonSpace(s[1..])
  }

  lemma {:induction false} NonSpaceAppend(a: string, b: string)
    ensures NonSpace(a + b) == NonSpace(a) + NonSpace(b)
    decreases |a|
  {
    if a != [] {
      assert (a + b)[0] == a[0];
      assert (a + b)[1..] == a[1..] + b;
      NonSpaceAppend(a[1..], b);
    } else {
      assert a + b == b;
    }
  }

  lemma {:induction false} NonSpaceTrimStart(s: string)
    ensures NonSpace(TrimStart(s)) == NonSpace(s)
    decreases |s|
  {
    if s != [] && IsSpace(s[0]) {
      NonSpaceTrimStart(s[1..]);
    }
  }

  lemma {:induction false} NonSpaceTrimEnd(s: string)
    ensures NonSpace(TrimEnd(s)) == NonSpace(s)
    decreases |s|
  {
    if s != [] && IsSpace(s[|s| - 1]) {
      var init := s[..|s| - 1];
      NonSpaceTrimEnd(init);
      assert s == init + [s[|s| - 1]];
      NonSpaceAppend(init, [s[|s| - 1]]);
      assert NonSpace([s[|s| - 1]]) == [];
    }
  }

  /** Collapsing whitespace keeps every other character, in order. */
  lemma {:induction false} NonSpaceCollapse(s: string)
    ensures NonSpace(Collapse(s)) == NonSpace(s)
    decreases |s|
  {
    if s == [] {
    } else if IsSpace(s[0]) {
      var rest := TrimStart(s[1..]);
      NonSpaceCollapse(rest);
      NonSpaceTrimStart(s[1..]);
      assert ([' '] + Collapse(rest))[1..] == Collapse(rest);
    } else {
      NonSpaceCollapse(s[1..]);
      assert ([s[0]] + Collapse(s[1..]))[1..] == Collapse(s[1..]);
    }
  }

  /** The collapsed text starts with whitespace exactly when the input does. */
  lemma CollapseHead(s: string)
    requires s != []
    ensures Collapse(s) != [] && (IsSpace(Collapse(s)[0]) <==> IsSpace(s[0]))
  {
    if IsSpace(s[0]) {
      assert Collapse(s) == [' '] + Collapse(TrimStart(s[1..]));
    } else {
      assert Collapse(s) == [s[0]] + Collapse(s[1..]);
    }
  }

  /** `[c] + tail` keeps both shape properties when `tail` has them and `c` does not start a run. */
  lemma ConsShape(c: char, tail: string)
    requires NoSpaceRun(tail) && OnlyPlainSpaces(tail)
    requires IsSpace(c) ==> c == ' ' && (tail == [] || !IsSpace(tail[0]))
    ensures NoSpaceRun([c] + tail) && OnlyPlainSpaces([c] + tail)
  {
    var r := [c] + tail;
    assert forall i :: 1 <= i < |r| ==> r[i] == tail[i - 1];
  }

  /** After collapsing, the only whitespace is single plain spaces. */
  lemma {:induction false} CollapseShape(s: string)
    ensures NoSpaceRun(Collapse(s)) && OnlyPlainSpaces(Collapse(s))
    decreases |s|
  {
    if s == [] {
    } else if IsSpace(s[0]) {
      var rest := TrimStart(s[1..]);
      CollapseShape(rest);
      if rest != [] {
        CollapseHead(rest);
      }
      ConsShape(' ', Collapse(rest));
    } else {
      CollapseShape(s[1..]);
      ConsShape(s[0], Collapse(s[1..]));
    }
  }

  /** A slice keeps the absence of whitespace runs and of whitespace other than the plain space. */
  lemma SliceShape(t: string, a: nat, b: nat)
    requires a <= b <= |t|
    requires NoSpaceRun(t) && OnlyPlainSpaces(t)
    ensures NoSpaceRun(t[a..b]) && OnlyPlainSpaces(t[a..b])
  {
    var u := t[a..b];
    assert forall i :: 0 <= i < |u| ==> u[i] == t[a + i];
  }

  /** The cleaned text has no leading or trailing whitespace and no run of whitespace. */
  lemma CleanTextNormalized(html: string)
    ensures Normalized(CleanText(html))
  {
    var c := Collapse(StripTags(html));
    CollapseShape(StripTags(html));
    var s := TrimStart(c);
    SliceShape(c, |c| - |s|, |c|);
    var t := TrimEnd(s);
    SliceShape(s, 0, |t|);
    if t != [] {
      assert t[0] == s[0];
    }
  }

  /** Cleaning loses only whitespace: the other characters left after tag removal all survive, in order. */
  lemma CleanTextKeepsContent(html: string)
    ensures NonSpace(CleanText(html)) == NonSpace(StripTags(html))
  {
    var c := Collapse(StripTags(html));
    NonSpaceCollapse(StripTags(html));
    NonSpaceTrimStart(c);
    NonSpaceTrimEnd(TrimStart(c));
  }

  lemma {:induction false} CollapseFixes(t: string)
    requires NoSpaceRun(t) && OnlyPlainSpaces(t)
    ensures Collapse(t) == t
    decreases |t|
  {
    if t != [] {
      SliceShape(t, 1, |t|);
      CollapseFixes(t[1..]);
      if IsSpace(t[0]) && |t| > 1 {
        assert !IsSpace(t[1..][0]);
      }
    }
  }

  /** Text that is already normalized and free of tags is its own cleaned text. */
  lemma CleanTextFixpoint(t: string)
    requires Normalized(t) && NoTags(t)
    ensures CleanText(t) == t
  {
    StripTagsFixesNoTags(t);
    CollapseFixes(t);
  }

  function Max(a: int, b: int): int { if a >= b then a else b }
  function Min(a: int, b: int): int { if a <= b then a else b }

  /** Python's `s[:n]`; a negative `n` counts from the end. */
  function PyPrefix(s: string, n: int): (r: string)
    ensures |r| == if n >= 0 then Min(n, |s|) else Max(0, |s| + n)
    ensures r == s[..|r|]
  {
    if n >= 0 then s[..Min(n, |s|)] else s[..Max(0, |s| + n)]
  }

  /** `_extract_text_preview(html_content, max_length)`. */
  function ExtractTextPreview(html: string, maxLength: int): (r: string)
    ensures maxLength >= 0 ==> |r| <= maxLength + 3
  {
    if html == [] then []
    else
      var text := CleanText(html);
      if |text| > maxLength then PyPrefix(text, maxLength) + "..." else text
  }

  /** The announcement formatters use the default length of 200. */
  function DefaultPreview(html: string): (r: string)
    ensures |r| <= 203
  {
    ExtractTextPreview(html, 200)
  }

  /**
   * What the preview is: empty for empty HTML; the cleaned text itself when it fits in
   * `maxLength`; otherwise the cleaned text's first `maxLength` characters and `"..."`.
   */
  lemma PreviewCases(html: string, maxLength: int)
    ensures html == [] ==> ExtractTextPreview(html, maxLength) == []
    ensures html != [] && |CleanText(html)| <= maxLength ==>
      ExtractTextPreview(html, maxLength) == CleanText(html) && Normalized(ExtractTextPreview(html, maxLength))
    ensures html != [] && |CleanText(html)| > maxLength && maxLength >= 0 ==>
      ExtractTextPreview(html, maxLength) == CleanText(html)[..maxLength] + "..."
  {
    CleanTextNormalized(html);
  }

  /**
   * Before the appended `"..."`, a truncated preview is a prefix of the cleaned text: it starts
   * with no whitespace and has no whitespace run, though the cut may fall just after a space.
   */
  lemma TruncatedPreviewShape(html: string, maxLength: int)
    requires html != [] && 0 <= maxLength < |CleanText(html)|
    ensures var body := ExtractTextPreview(html, maxLength)[..maxLength];
      ExtractTextPreview(html, maxLength) == body + "..."
      && NoSpaceRun(body) && OnlyPlainSpaces(body) && (body == [] || !IsSpace(body[0]))
  {
    var t := CleanText(html);
    CleanTextNormalized(html);
    SliceShape(t, 0, maxLength);
    var r := ExtractTextPreview(html, maxLength);
    assert r == t[..maxLength] + "...";
    assert r[..maxLength] == t[..maxLength];
  }

  /** Normalized text without `<` is its own cleaned text. */
  lemma CleanTextOfPlain(t: string)
    requires '<' !in t && Normalized(t)
    ensures CleanText(t) == t
  {
    StripTagsWithoutAngle(t);
    CollapseFixes(t);
  }

  /** Two words of two letters each, one space apart, are already clean. */
  lemma TwoWordsAreClean(a: char, b: char, c: char, d: char)
    requires !IsSpace(a) && !IsSpace(b) && !IsSpace(c) && !IsSpace(d)
    requires a != '<' && b != '<' && c != '<' && d != '<'
    ensures CleanText([a, b, ' ', c, d]) == [a, b, ' ', c, d]
  {
    var t := [a, b, ' ', c, d];
    assert forall i :: 0 <= i < |t| && i != 2 ==> !IsSpace(t[i]) && t[i] != '<';
    assert Normalized(t);
    CleanTextOfPlain(t);
  }

  /** A negative `max_length` cuts from the end, as Python slicing does: `("ab cd", -1)` gives `"ab c..."`. */
  lemma NegativeLengthExample(a: char, b: char, c: char, d: char)
    requires !IsSpace(a) && !IsSpace(b) && !IsSpace(c) && !IsSpace(d)
    requires a != '<' && b != '<' && c != '<' && d != '<'
    ensures ExtractTextPreview([a, b, ' ', c, d], -1) == [a, b, ' ', c] + "..."
  {
    TwoWordsAreClean(a, b, c, d);
    assert [a, b, ' ', c, d][..4] == [a, b, ' ', c];
  }

  /** The cut can leave a trailing space before the `"..."`: `("ab cd", 3)` gives `"ab ..."`. */
  lemma TrailingSpaceExample(a: char, b: char, c: char, d: char)
    requires !IsSpace(a) && !IsSpace(b) && !IsSpace(c) && !IsSpace(d)
    requires a != '<' && b != '<' && c != '<' && d != '<'
    ensures ExtractTextPreview([a, b, ' ', c, d], 3) == [a, b, ' '] + "..."
  {
    TwoWordsAreClean(a, b, c, d);
    assert [a, b, ' ', c, d][..3] == [a, b, ' '];
  }
}
