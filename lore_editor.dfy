/**
 * LoreEditorManager: the lore-line tokeniser (colour codes, text before the
 * first number, the number with an optional '%', text after it), its
 * rebuild, the editing session (a list of lines with a cursor and an edit
 * mode) and the per-player session table with its chat-input handler.
 */
module LoreEditor {
  import opened JavaText
  import opened Bukkit

  // ------------------------------------------------------------ LoreLine

  /** One lore line split for editing. */
  datatype LoreLine = LoreLine(originalText: string, prefix: string, number: string, suffix: string,
                               colorCode: string, hasNumber: bool)

  /** Where the number found at `q` ends: after the [+-]?\d*\.?\d+ match and one optional '%'. */
  function NumberEnd(clean: string, q: nat): (e: nat)
    requires q <= |clean|
    ensures q + EditorNumberLen(clean[q..]) <= e <= |clean|
  {
    var b := q + EditorNumberLen(clean[q..]);
    if b < |clean| && clean[b] == '%' then b + 1 else b
  }

  /**
   * new LoreLine(text), which runs parseText: the colour codes are collected
   * in order and removed, then the first number match splits what is left
   * into a trimmed prefix, the number (with its '%') and a trimmed suffix.
   */
  function ParseText(text: string): LoreLine
  {
    var colors := ColorCodes(text);
    var clean := StripCodes(text);
    match FindEditorNumber(clean, 0)
    case None => LoreLine(text, Trim(clean), "", "", colors, false)
    case Some(q) =>
      var e := NumberEnd(clean, q);
      LoreLine(text, Trim(clean[..q]), clean[q..e], Trim(clean[e..]), colors, true)
  }

  /** buildText: the colour codes, then prefix, number and suffix joined by single blanks, empty parts left out. */
  function BuildText(l: LoreLine): (r: string)
    ensures StartsWith(r, l.colorCode)
  {
    var tail := if l.suffix != "" then " " + l.suffix else "";
    var body :=
      if l.hasNumber && l.number != "" then
        (if l.prefix != "" then l.prefix + " " else "") + l.number + tail
      else l.prefix + tail;
    assert (l.colorCode + body)[..|l.colorCode|] == l.colorCode;
    l.colorCode + body
  }

  /** A line has a number exactly when the text without colour codes holds a match; without one the prefix is all of it. */
  lemma {:induction false} ParseTextNoNumber(text: string)
    ensures ParseText(text).hasNumber <==> exists q :: EditorNumberAt(StripCodes(text), q)
    ensures !ParseText(text).hasNumber ==>
      ParseText(text).prefix == Trim(StripCodes(text)) && ParseText(text).number == "" && ParseText(text).suffix == ""
  {
    var clean := StripCodes(text);
    var found := FindEditorNumber(clean, 0);
    assert ParseText(text).hasNumber == found.Some?;
    if found.Some? {
      var q := found.value;
      assert EditorNumberAt(clean, q);
      assert ParseText(text).hasNumber;
      assert exists p :: EditorNumberAt(StripCodes(text), p);
    } else {
      forall q ensures !EditorNumberAt(clean, q) {
      }
    }
  }

  /** A [+-]?\d*\.?\d+ match ends in a digit. */
  lemma {:induction false} EditorNumberEndsInDigit(s: string)
    requires EditorNumberLen(s) > 0
    ensures IsDigit(s[EditorNumberLen(s) - 1])
  {
    if s != [] && IsSign(s[0]) && EditorBodyLen(s[1..]) > 0 {
      EditorBodyEndsInDigit(s[1..]);
      assert s[EditorNumberLen(s) - 1] == s[1..][EditorBodyLen(s[1..]) - 1];
    } else {
      EditorBodyEndsInDigit(s);
    }
  }

  lemma {:induction false} EditorBodyEndsInDigit(s: string)
    requires EditorBodyLen(s) > 0
    ensures IsDigit(s[EditorBodyLen(s) - 1])
  {
    var d := Digits(s);
    if d + 1 < |s| && s[d] == '.' && IsDigit(s[d + 1]) {
      var t := s[d + 1..];
      var d2 := Digits(t);
      assert d2 >= 1 && t[..d2][d2 - 1] == s[d + d2];
    } else {
      assert s[..d][d - 1] == s[d - 1];
    }
  }

  // ------------------------------------------------------------ rebuild round trip

  /** A run that may follow a number match without extending it: nothing, or a char that is neither digit nor '.'. */
  predicate NumberStop(u: string)
  {
    u == [] || (!IsDigit(u[0]) && u[0] != '.')
  }

  /** The digits-and-fraction part of a match keeps its length when what follows it stops it. */
  lemma {:induction false} EditorBodyOfMatch(s: string, u: string)
    requires EditorBodyLen(s) > 0 && NumberStop(u)
    ensures EditorBodyLen(s[..EditorBodyLen(s)] + u) == EditorBodyLen(s)
  {
    var d := Digits(s);
    if d + 1 < |s| && s[d] == '.' && IsDigit(s[d + 1]) {
      FractionOfMatch(s, u);
    } else {
      var x := s[..d] + u;
      DigitsOfPrefix(s[..d], u);
      assert d < |x| ==> x[d] == u[0];
    }
  }

  lemma {:induction false} FractionOfMatch(s: string, u: string)
    requires NumberStop(u)
    requires Digits(s) + 1 < |s| && s[Digits(s)] == '.' && IsDigit(s[Digits(s) + 1])
    ensures EditorBodyLen(s[..EditorBodyLen(s)] + u) == EditorBodyLen(s)
  {
    var d := Digits(s);
    var d2 := Digits(s[d + 1..]);
    var m := d + 1 + d2;
    var x := s[..m] + u;
    assert EditorBodyLen(s) == m;
    FractionHead(s, u, m, x);
    FractionTail(s, u, d, d2, x);
    assert EditorBodyLen(x) == d + 1 + Digits(x[d + 1..]);
  }

  /** Cut after the fraction, the match still starts with the same digits and the '.' with a digit after it. */
  lemma {:induction false} FractionHead(s: string, u: string, m: nat, x: string)
    requires Digits(s) + 1 < m <= |s| && s[Digits(s)] == '.' && IsDigit(s[Digits(s) + 1])
    requires x == s[..m] + u
    ensures Digits(s) + 1 < |x| && Digits(x) == Digits(s)
    ensures x[Digits(s)] == '.' && IsDigit(x[Digits(s) + 1])
  {
    var d := Digits(s);
    assert x[..d] == s[..d];
    assert x[d] == s[d] && x[d + 1] == s[d + 1];
    DigitsBefore(x, d);
  }

  /** After the '.', the cut match holds the fraction digits and then `u`, which stops them. */
  lemma {:induction false} FractionTail(s: string, u: string, d: nat, d2: nat, x: string)
    requires d + 1 <= |s| && d2 == Digits(s[d + 1..]) && NumberStop(u)
    requires x == s[..d + 1 + d2] + u
    ensures Digits(x[d + 1..]) == d2
  {
    var t := s[d + 1..];
    var w := t[..d2] + u;
    forall i | 0 <= i < |w|
      ensures x[d + 1..][i] == w[i]
    {
      if i < d2 {
        assert x[d + 1 + i] == s[d + 1 + i] == t[i];
      } else {
        assert x[d + 1 + i] == u[i - d2];
      }
    }
    assert x[d + 1..] == w;
    DigitsOfPrefix(t[..d2], u);
  }

  /** A run of `d` digits followed by a non-digit is all Digits counts. */
  lemma {:induction false} DigitsBefore(x: string, d: nat)
    requires d < |x| && AllDigits(x[..d]) && !IsDigit(x[d])
    ensures Digits(x) == d
  {
    assert x == x[..d] + x[d..];
    DigitsOfPrefix(x[..d], x[d..]);
  }

  /** A whole match keeps its length when what follows it stops it. */
  lemma {:induction false} EditorNumberOfMatch(s: string, u: string)
    requires EditorNumberLen(s) > 0 && NumberStop(u)
    ensures EditorNumberLen(s[..EditorNumberLen(s)] + u) == EditorNumberLen(s)
  {
    var n := EditorNumberLen(s);
    var x := s[..n] + u;
    if IsSign(s[0]) && EditorBodyLen(s[1..]) > 0 {
      var m := EditorBodyLen(s[1..]);
      assert x[0] == s[0] && x[1..] == s[1..][..m] + u;
      EditorBodyOfMatch(s[1..], u);
    } else {
      assert x[0] == s[0];
      EditorBodyOfMatch(s, u);
    }
  }

  /** A match inside a slice followed by a stop is a match of the whole text at the same place. */
  lemma {:induction false} NumberInSlice(s: string, a: nat, b: nat, u: string, j: nat)
    requires a <= b <= |s| && j < b - a && NumberStop(u)
    requires EditorNumberAt(s[a..b] + u, j)
    ensures EditorNumberAt(s, a + j)
  {
    var x := s[a..b] + u;
    assert x[j] == s[a + j];
    if j + 1 < |x| && IsDigit(x[j + 1]) {
      assert j + 1 < b - a;
      assert x[j + 1] == s[a + j + 1];
    }
    if j + 1 < |x| && x[j + 1] == '.' {
      assert j + 1 < b - a;
      assert x[j + 1] == s[a + j + 1];
      if j + 2 < |x| && IsDigit(x[j + 2]) {
        assert j + 2 < b - a;
        assert x[j + 2] == s[a + j + 2];
      }
    }
  }

  /** No number match starts inside `p`, whatever stop follows it. */
  ghost predicate NumberFree(p: string)
  {
    forall u, j :: NumberStop(u) && 0 <= j < |p| ==> !EditorNumberAt(p + u, j)
  }

  /** A number as parseText extracts it: a whole [+-]?\d*\.?\d+ match, then at most one '%'. */
  predicate NumberToken(n: string)
  {
    var k := EditorNumberLen(n);
    k > 0 && (|n| == k || (|n| == k + 1 && n[k] == '%'))
  }

  /** The trimmed text before the first match holds no match of its own. */
  lemma {:induction false} NoNumberInPrefix(clean: string, q: nat)
    requires q <= |clean|
    requires forall p :: 0 <= p < q ==> !EditorNumberAt(clean, p)
    ensures NumberFree(Trim(clean[..q]))
  {
    var s := clean[..q];
    var a := LeadingWhite(s);
    var b := VisibleEnd(s, a);
    assert Trim(s) == s[a..b] == clean[a..b];
    forall u, j | NumberStop(u) && 0 <= j < |Trim(s)|
      ensures !EditorNumberAt(Trim(s) + u, j)
    {
      if EditorNumberAt(Trim(s) + u, j) {
        NumberInSlice(clean, a, b, u, j);
      }
    }
  }

  /** What parseText extracts as the number is a number token. */
  lemma {:induction false} ExtractedToken(clean: string, q: nat)
    requires EditorNumberAt(clean, q)
    ensures NumberToken(clean[q..NumberEnd(clean, q)])
  {
    EditorNumberAtMatches(clean, q);
    var n := EditorNumberLen(clean[q..]);
    var e := NumberEnd(clean, q);
    var tok := clean[q..e];
    assert tok[..n] == clean[q..][..n];
    EditorNumberOfMatch(clean[q..], tok[n..]);
    assert tok == clean[q..][..n] + tok[n..];
    assert e == q + n + 1 ==> tok[n] == '%';
  }

  /** A colour-free text with no number match parses back to itself as the prefix. */
  lemma {:induction false} ParsePlain(p: string)
    requires '§' !in p && Trimmed(p) && NumberFree(p)
    ensures ParseText(p).prefix == p && ParseText(p).number == "" && ParseText(p).suffix == ""
    ensures !ParseText(p).hasNumber
  {
    StripCodesNoSection(p);
    assert p + [] == p;
    forall j: nat ensures !EditorNumberAt(p, j) {
      if 0 <= j < |p| {
        assert !EditorNumberAt(p + [], j);
      }
    }
    ParseTextNoNumber(p);
    TrimOfTrimmed(p);
  }

  /** The text buildText makes from a prefix, a number and a suffix. */
  function Joined(p: string, n: string, s: string): string
  {
    (if p != "" then p + " " else "") + n + (if s != "" then " " + s else "")
  }

  /** Nothing in a number-free text, nor the blank after it, starts a match. */
  lemma {:induction false} NoMatchBeforeBlank(p: string, rest: string)
    requires NumberFree(p) && rest != [] && rest[0] == ' '
    ensures forall j :: 0 <= j <= |p| ==> !EditorNumberAt(p + rest, j)
  {
    forall j | 0 <= j <= |p|
      ensures !EditorNumberAt(p + rest, j)
    {
      if j == |p| {
        assert (p + rest)[j] == ' ';
      }
    }
  }

  /** A number token followed by nothing or a blank is matched whole, with its '%'. */
  lemma {:induction false} TokenMatched(n: string, post: string)
    requires NumberToken(n) && (post == [] || post[0] == ' ')
    ensures EditorNumberLen((n + post)[0..]) == EditorNumberLen(n) && NumberEnd(n + post, 0) == |n|
  {
    var m := EditorNumberLen(n);
    var x := n + post;
    assert x[0..] == x;
    assert x == n[..m] + (n[m..] + post);
    EditorNumberOfMatch(n, n[m..] + post);
    if |n| == m + 1 {
      assert x[m] == '%';
    } else if m < |x| {
      assert x[m] == ' ';
    }
  }

  /** A match found after a lead-in of `k` chars ends where it would without the lead-in, shifted by `k`. */
  lemma {:induction false} NumberEndShift(pre: string, x: string)
    ensures NumberEnd(pre + x, |pre|) == |pre| + NumberEnd(x, 0)
  {
    var t := pre + x;
    assert t[|pre|..] == x;
    assert x[0..] == x;
    var e := EditorNumberLen(x);
    if |pre| + e < |t| {
      assert t[|pre| + e] == x[e];
    }
  }

  /** parseText on colour-free text whose first match is at `k` and ends at `e`. */
  lemma {:induction false} ParseTextAt(t: string, k: nat, e: nat)
    requires '§' !in t && FindEditorNumber(t, 0) == Some(k) && NumberEnd(t, k) == e
    ensures ParseText(t) == LoreLine(t, Trim(t[..k]), t[k..e], Trim(t[e..]), [], true)
  {
    StripCodesNoSection(t);
  }

  /** In a joined text the first match starts right after the prefix and its blank, and ends with the number. */
  lemma {:induction false} JoinedMatch(p: string, n: string, post: string, pre: string, t: string)
    requires NumberFree(p) && NumberToken(n) && (post == [] || post[0] == ' ')
    requires pre == (if p != "" then p + " " else "") && t == pre + (n + post)
    ensures FindEditorNumber(t, 0) == Some(|pre|)
    ensures NumberEnd(t, |pre|) == |pre| + |n|
  {
    JoinedNumberEnd(pre, n, post, t);
    JoinedNoEarlierMatch(p, n + post, pre, t);
    FirstEditorNumber(t, 0, |pre|);
  }

  /** After any lead-in, the number token is a match and its end is where the token ends. */
  lemma {:induction false} JoinedNumberEnd(pre: string, n: string, post: string, t: string)
    requires NumberToken(n) && (post == [] || post[0] == ' ')
    requires t == pre + (n + post)
    ensures EditorNumberAt(t, |pre|)
    ensures NumberEnd(t, |pre|) == |pre| + |n|
  {
    var x := n + post;
    TokenMatched(n, post);
    NumberEndShift(pre, x);
    assert t[|pre|..] == x[0..];
    EditorNumberAtMatches(t, |pre|);
  }

  /** A number-free prefix and its blank hold no match. */
  lemma {:induction false} JoinedNoEarlierMatch(p: string, x: string, pre: string, t: string)
    requires NumberFree(p)
    requires pre == (if p != "" then p + " " else "") && t == pre + x
    ensures forall j :: 0 <= j < |pre| ==> !EditorNumberAt(t, j)
  {
    if p != "" {
      assert p + " " + x == p + ([' '] + x);
      NoMatchBeforeBlank(p, [' '] + x);
    }
  }

  /** The search from `from` stops at `k` when a match starts there and at no position before it. */
  lemma {:induction false} FirstEditorNumber(s: string, from: nat, k: nat)
    requires from <= k && EditorNumberAt(s, k)
    requires forall j :: from <= j < k ==> !EditorNumberAt(s, j)
    ensures FindEditorNumber(s, from) == Some(k)
    decreases k - from
  {
    if from < k {
      FirstEditorNumber(s, from + 1, k);
    }
  }

  /** Parsing a joined colour-free text gives its three parts back. */
  lemma {:induction false} ParseJoined(p: string, n: string, s: string)
    requires '§' !in p && '§' !in n && '§' !in s
    requires Trimmed(p) && Trimmed(s) && NumberFree(p) && NumberToken(n)
    ensures ParseText(Joined(p, n, s)).hasNumber
    ensures ParseText(Joined(p, n, s)).prefix == p
    ensures ParseText(Joined(p, n, s)).number == n
    ensures ParseText(Joined(p, n, s)).suffix == s
  {
    var pre := if p != "" then p + " " else "";
    var post := if s != "" then " " + s else "";
    var t := Joined(p, n, s);
    assert t == pre + (n + post);
    JoinedMatch(p, n, post, pre, t);
    NoSectionJoined(p, n, s);
    ParseJoinedAt(p, n, s, pre, post, t);
  }

  /** Once the number is known to be the first match, parsing the joined text splits it back into its parts. */
  lemma {:induction false} ParseJoinedAt(p: string, n: string, s: string, pre: string, post: string, t: string)
    requires '§' !in t && Trimmed(p) && Trimmed(s)
    requires pre == (if p != "" then p + " " else "") && post == (if s != "" then " " + s else "")
    requires t == pre + (n + post)
    requires FindEditorNumber(t, 0) == Some(|pre|) && NumberEnd(t, |pre|) == |pre| + |n|
    ensures ParseText(t).hasNumber && ParseText(t).prefix == p
    ensures ParseText(t).number == n && ParseText(t).suffix == s
  {
    var k, e := |pre|, |pre| + |n|;
    JoinedTrims(p, n, s, pre, post, t);
    assert t[k..e] == n;
    ParseSplitAt(p, n, s, t, k, e);
  }

  /** parseText on colour-free text gives back the parts around its first match. */
  lemma {:induction false} ParseSplitAt(p: string, n: string, s: string, t: string, k: nat, e: nat)
    requires '§' !in t && FindEditorNumber(t, 0) == Some(k) && NumberEnd(t, k) == e
    requires Trim(t[..k]) == p && t[k..e] == n && Trim(t[e..]) == s
    ensures ParseText(t).hasNumber && ParseText(t).prefix == p
    ensures ParseText(t).number == n && ParseText(t).suffix == s
  {
    ParseTextAt(t, k, e);
  }

  /** Joining colour-free parts gives colour-free text. */
  lemma {:induction false} NoSectionJoined(p: string, n: string, s: string)
    requires '§' !in p && '§' !in n && '§' !in s
    ensures '§' !in Joined(p, n, s)
  {
  }

  /** The prefix and the suffix come back from trimming the pieces around the number. */
  lemma {:induction false} JoinedTrims(p: string, n: string, s: string, pre: string, post: string, t: string)
    requires Trimmed(p) && Trimmed(s)
    requires pre == (if p != "" then p + " " else "") && post == (if s != "" then " " + s else "")
    requires t == pre + (n + post)
    ensures Trim(t[..|pre|]) == p
    ensures t[|pre|..|pre| + |n|] == n
    ensures Trim(t[|pre| + |n|..]) == s
  {
    JoinedPieces(pre, n, post);
    PaddedPrefixTrim(p);
    PaddedSuffixTrim(s);
  }

  /** The three pieces of a joined text come back by slicing at their lengths. */
  lemma {:induction false} JoinedPieces(pre: string, n: string, post: string)
    ensures var t := pre + (n + post);
      t[..|pre|] == pre && t[|pre|..|pre| + |n|] == n && t[|pre| + |n|..] == post
  {
  }

  lemma {:induction false} PaddedPrefixTrim(p: string)
    requires Trimmed(p)
    ensures Trim(if p != "" then p + " " else "") == p
  {
    if p != "" {
      TrimPaddedRight(p);
    } else {
      TrimEmptyIsEmpty();
    }
  }

  lemma {:induction false} PaddedSuffixTrim(s: string)
    requires Trimmed(s)
    ensures Trim(if s != "" then " " + s else "") == s
  {
    if s != "" {
      TrimPaddedLeft(s);
    } else {
      TrimEmptyIsEmpty();
    }
  }

  /** Trimming or slicing brings in no char the text lacks. */
  lemma {:induction false} NoSectionInParts(text: string, i: nat, j: nat)
    requires '§' !in text && i <= j <= |text|
    ensures '§' !in text[i..j] && '§' !in Trim(text[..i]) && '§' !in Trim(text[j..])
  {
    var x := text[..i];
    var y := text[j..];
    assert Trim(x) == x[LeadingWhite(x)..VisibleEnd(x, LeadingWhite(x))];
    assert Trim(y) == y[LeadingWhite(y)..VisibleEnd(y, LeadingWhite(y))];
  }

  /**
   * For a line without colour codes, rebuilding it and parsing the result
   * gives back the same prefix, number and suffix.
   */
  lemma {:induction false} RebuildRoundTrip(text: string)
    requires '§' !in text
    ensures var l := ParseText(text); var r := ParseText(BuildText(l));
      r.hasNumber == l.hasNumber && r.prefix == l.prefix && r.number == l.number && r.suffix == l.suffix
  {
    StripCodesNoSection(text);
    if FindEditorNumber(text, 0).None? {
      RoundTripWithoutNumber(text);
    } else {
      RoundTripWithNumber(text, FindEditorNumber(text, 0).value);
    }
  }

  lemma {:induction false} RoundTripWithoutNumber(text: string)
    requires '§' !in text && FindEditorNumber(text, 0).None?
    ensures var l := ParseText(text); var r := ParseText(BuildText(l));
      r.hasNumber == l.hasNumber && r.prefix == l.prefix && r.number == l.number && r.suffix == l.suffix
  {
    StripCodesNoSection(text);
    var l := ParseText(text);
    assert l == LoreLine(text, Trim(text), "", "", [], false);
    assert text[..|text|] == text;
    NoNumberInPrefix(text, |text|);
    NoSectionInParts(text, |text|, |text|);
    assert BuildText(l) == l.prefix;
    ParsePlain(l.prefix);
  }

  lemma {:induction false} RoundTripWithNumber(text: string, q: nat)
    requires '§' !in text && FindEditorNumber(text, 0) == Some(q)
    ensures var l := ParseText(text); var r := ParseText(BuildText(l));
      r.hasNumber == l.hasNumber && r.prefix == l.prefix && r.number == l.number && r.suffix == l.suffix
  {
    StripCodesNoSection(text);
    var e := NumberEnd(text, q);
    var l := ParseText(text);
    assert l == LoreLine(text, Trim(text[..q]), text[q..e], Trim(text[e..]), [], true);
    NoNumberInPrefix(text, q);
    ExtractedToken(text, q);
    NoSectionInParts(text, q, e);
    assert BuildText(l) == Joined(l.prefix, l.number, l.suffix);
    ParseJoined(l.prefix, l.number, l.suffix);
  }

  // ------------------------------------------------------------ isValidNumber

  /** isValidNumber: parseDouble accepts the input, or the input without its one trailing '%'. */
  predicate IsValidNumber(input: string)
  {
    if |input| > 0 && input[|input| - 1] == '%' then ParseDouble(input[..|input| - 1]).Some?
    else ParseDouble(input).Some?
  }

  /** An unsigned [0-9]*\.?[0-9]+ match read on its own is a number parseDouble accepts. */
  lemma {:induction false} BodyParses(b: string)
    requires EditorBodyLen(b) == |b| > 0
    ensures ParseUnsigned(b).Some?
  {
    var d := Digits(b);
    if d + 1 < |b| && b[d] == '.' && IsDigit(b[d + 1]) {
      var d2 := Digits(b[d + 1..]);
      assert b[d + 1 + d2..] == [];
    } else {
      assert b[d..] == [];
    }
  }

  /** A whole [+-]?[0-9]*\.?[0-9]+ match is a number parseDouble accepts. */
  lemma {:induction false} MatchParses(n: string)
    requires EditorNumberLen(n) == |n| > 0
    ensures ParseDouble(n).Some?
  {
    EditorNumberEndsInDigit(n);
    assert !IsWhite(n[0]) by {
      EditorNumberStart(n);
    }
    TrimOfTrimmed(n);
    if IsSign(n[0]) && EditorBodyLen(n[1..]) > 0 {
      BodyParses(n[1..]);
    } else {
      BodyParses(n);
    }
  }

  /** Every number token is accepted by isValidNumber. */
  lemma {:induction false} TokenIsValid(n: string)
    requires NumberToken(n)
    ensures IsValidNumber(n)
  {
    var k := EditorNumberLen(n);
    EditorNumberEndsInDigit(n);
    if |n| == k {
      MatchParses(n);
    } else {
      EditorNumberOfMatch(n, []);
      assert n[..k] + [] == n[..k] == n[..|n| - 1];
      MatchParses(n[..k]);
    }
  }

  /** The number parseText extracts from a line is one the number editor accepts. */
  lemma {:induction false} ParsedNumberIsValid(text: string)
    ensures ParseText(text).hasNumber ==> IsValidNumber(ParseText(text).number)
  {
    var clean := StripCodes(text);
    var found := FindEditorNumber(clean, 0);
    if found.Some? {
      ExtractedToken(clean, found.value);
      TokenIsValid(clean[found.value..NumberEnd(clean, found.value)]);
    }
  }

  // ------------------------------------------------------------ the session state

  datatype EditMode = View | EditText | EditPrefix | EditNumber | EditSuffix

  /** What a LoreEditSession holds besides its items: the lines, the cursor, the mode and the modified flag. */
  datatype Session = Session(lines: seq<LoreLine>, index: int, mode: EditMode, modified: bool)

  /** The session invariant: at least one line, and the cursor on one of them. */
  predicate Valid(st: Session)
  {
    |st.lines| >= 1 && 0 <= st.index < |st.lines|
  }

  /** One parsed line per lore line, in order. */
  function ParsedLines(lore: seq<string>): (r: seq<LoreLine>)
    ensures |r| == |lore|
    ensures forall i :: 0 <= i < |lore| ==> r[i] == ParseText(lore[i])
  {
    if lore == [] then [] else ParsedLines(lore[..|lore| - 1]) + [ParseText(lore[|lore| - 1])]
  }

  /** loadLoreLines: the item's lore parsed, or one empty line when it has no lore. */
  function LoadedLines(lore: seq<string>): (r: seq<LoreLine>)
    ensures |r| >= 1
    ensures lore != [] ==> r == ParsedLines(lore)
    ensures lore == [] ==> r == [ParseText("")]
  {
    if lore == [] then [ParseText("")] else ParsedLines(lore)
  }

  /** A text that is empty once trimmed. */
  predicate Blank(s: string) { Trim(s) == "" }

  /** What one rebuilt line adds to the saved lore: itself, or nothing when it is blank. */
  function Kept(text: string): (r: seq<string>)
  {
    if Blank(text) then [] else [text]
  }

  /** The texts that are not blank, in order. */
  function Visible(texts: seq<string>): (r: seq<string>)
    ensures |r| <= |texts|
    ensures forall i :: 0 <= i < |r| ==> !Blank(r[i])
  {
    if texts == [] then [] else Visible(texts[..|texts| - 1]) + Kept(texts[|texts| - 1])
  }

  /** Every line rebuilt with buildText, in order. */
  function Rebuilt(lines: seq<LoreLine>): (r: seq<string>)
    ensures |r| == |lines| && forall i :: 0 <= i < |lines| ==> r[i] == BuildText(lines[i])
  {
    seq(|lines|, i requires 0 <= i < |lines| => BuildText(lines[i]))
  }

  /** The lore saveLoreToItem writes: each line rebuilt, in order, blank ones dropped. */
  function SavedLore(lines: seq<LoreLine>): seq<string>
  {
    Visible(Rebuilt(lines))
  }

  lemma {:induction false} VisibleStep(texts: seq<string>, i: nat)
    requires i < |texts|
    ensures Visible(texts[..i + 1]) == Visible(texts[..i]) + Kept(texts[i])
  {
    assert texts[..i + 1][..i] == texts[..i];
  }

  /** When no text is blank, all of them are kept, in order. */
  lemma {:induction false} VisibleAll(texts: seq<string>)
    requires forall i :: 0 <= i < |texts| ==> !Blank(texts[i])
    ensures Visible(texts) == texts
  {
    if texts != [] {
      var n := |texts| - 1;
      var init := texts[..n];
      VisibleAll(init);
      assert Kept(texts[n]) == [texts[n]];
      InitAndLast(texts);
    }
  }

  /** A non-empty list is its lines but the last, then the last. */
  lemma {:induction false} InitAndLast(texts: seq<string>)
    requires texts != []
    ensures texts[..|texts| - 1] + [texts[|texts| - 1]] == texts
  {
  }

  /** When no line rebuilds to blank text, every line is saved, in order. */
  lemma {:induction false} SavedLoreAllVisible(lines: seq<LoreLine>)
    requires forall i :: 0 <= i < |lines| ==> !Blank(BuildText(lines[i]))
    ensures SavedLore(lines) == Rebuilt(lines)
  {
    VisibleAll(Rebuilt(lines));
  }

  /** The line an empty text parses to: everything empty, no number. */
  lemma {:induction false} EmptyLine()
    ensures ParseText("") == LoreLine("", "", "", "", "", false)
    ensures Blank(BuildText(ParseText("")))
  {
    assert StripCodes("") == "" && ColorCodes("") == "";
    TrimEmptyIsEmpty();
  }

  /** deleteLine: with more than one line and the cursor on a line, that line goes and the cursor is pulled back onto the list. */
  function Deleted(st: Session): (r: Session)
    ensures Valid(st) ==> Valid(r)
    ensures r.mode == st.mode
    ensures |st.lines| > 1 && 0 <= st.index < |st.lines| ==>
      |r.lines| == |st.lines| - 1 && r.modified &&
      (forall k :: 0 <= k < st.index ==> r.lines[k] == st.lines[k]) &&
      (forall k :: st.index <= k < |r.lines| ==> r.lines[k] == st.lines[k + 1]) &&
      r.index == (if st.index < |r.lines| then st.index else |r.lines| - 1)
    ensures !(|st.lines| > 1 && 0 <= st.index < |st.lines|) ==> r == st
  {
    if |st.lines| > 1 && 0 <= st.index < |st.lines| then
      var lines := st.lines[..st.index] + st.lines[st.index + 1..];
      st.(lines := lines, index := if st.index >= |lines| then |lines| - 1 else st.index, modified := true)
    else st
  }

  /** movePrevious: one line up unless already on the first. */
  function Previous(st: Session): (r: Session)
    ensures Valid(st) ==> Valid(r)
    ensures r.lines == st.lines && r.mode == st.mode && r.modified == st.modified
    ensures r.index == (if st.index > 0 then st.index - 1 else st.index)
  {
    if st.index > 0 then st.(index := st.index - 1) else st
  }

  /** moveNext: one line down unless already on the last; moving back returns to where it started. */
  function Next(st: Session): (r: Session)
    ensures Valid(st) ==> Valid(r)
    ensures r.lines == st.lines && r.mode == st.mode && r.modified == st.modified
    ensures r.index == (if st.index < |st.lines| - 1 then st.index + 1 else st.index)
  {
    if st.index < |st.lines| - 1 then st.(index := st.index + 1) else st
  }

  /** Moving down and back up, or up and back down, returns to the same line. */
  lemma {:induction false} MoveBackAndForth(st: Session)
    requires Valid(st)
    ensures st.index < |st.lines| - 1 ==> Previous(Next(st)) == st
    ensures st.index > 0 ==> Next(Previous(st)) == st
  {
  }

  /** addNewLine: one empty line at the end, the cursor kept. */
  function Appended(st: Session): (r: Session)
    ensures Valid(st) ==> Valid(r)
    ensures r.lines == st.lines + [ParseText("")] && r.index == st.index && r.mode == st.mode && r.modified
  {
    st.(lines := st.lines + [ParseText("")], modified := true)
  }

  /** An added line is empty, so saving right after adding it writes the same lore as before. */
  lemma {:induction false} AppendedSavesSame(st: Session)
    ensures SavedLore(Appended(st).lines) == SavedLore(st.lines)
  {
    EmptyLine();
    var texts := Rebuilt(Appended(st).lines);
    assert texts[..|texts| - 1] == Rebuilt(st.lines);
    assert Kept(texts[|texts| - 1]) == [];
  }

  /** getCurrentLine: the line under the cursor, none when the cursor is off the list. */
  function CurrentLine(st: Session): (r: Option<LoreLine>)
    ensures r.None? <==> !(0 <= st.index < |st.lines|)
    ensures r.Some? ==> r.value in st.lines && r.value == st.lines[st.index]
    ensures Valid(st) ==> r.Some?
  {
    if 0 <= st.index < |st.lines| then Some(st.lines[st.index]) else None
  }

  /** The current line after a chat message in an edit mode; none when a number is asked for and the message is not one. */
  function EditedLine(mode: EditMode, line: LoreLine, message: string): (r: Option<LoreLine>)
    requires mode != View
    ensures r.None? <==> mode == EditNumber && !IsValidNumber(message)
    ensures mode == EditText ==> r == Some(ParseText(Translate(message)))
    ensures mode == EditPrefix ==> r == Some(line.(prefix := message))
    ensures mode == EditNumber && r.Some? ==> r.value == line.(number := message, hasNumber := true)
    ensures mode == EditSuffix ==> r == Some(line.(suffix := message))
  {
    match mode
    case EditText => Some(ParseText(Translate(message)))
    case EditPrefix => Some(line.(prefix := message))
    case EditNumber => if IsValidNumber(message) then Some(line.(number := message, hasNumber := true)) else None
    case EditSuffix => Some(line.(suffix := message))
  }

  /**
   * handleChatInput on a session: whether the message was taken, and the
   * session afterwards. Outside an edit mode, or with the cursor off the
   * list, nothing is taken; an invalid number is taken but changes nothing;
   * any other edit replaces the current line and goes back to viewing.
   */
  function Input(st: Session, message: string): (r: (bool, Session))
    ensures !r.0 <==> st.mode == View || CurrentLine(st).None?
    ensures r.1 != st ==> r.0 && r.1.mode == View && r.1.modified
    ensures |r.1.lines| == |st.lines| && r.1.index == st.index && (Valid(st) ==> Valid(r.1))
    ensures forall k :: 0 <= k < |st.lines| && k != st.index ==> r.1.lines[k] == st.lines[k]
    ensures st.mode == EditNumber && r.0 && r.1 != st ==> IsValidNumber(r.1.lines[st.index].number)
    ensures st.mode != View && CurrentLine(st).Some? && EditedLine(st.mode, st.lines[st.index], message).Some? ==>
      r.0 && r.1.lines[st.index] == EditedLine(st.mode, st.lines[st.index], message).value &&
      r.1.mode == View && r.1.modified
    ensures st.mode == EditNumber && CurrentLine(st).Some? && !IsValidNumber(message) ==> r == (true, st)
  {
    if st.mode == View || CurrentLine(st).None? then (false, st)
    else
      match EditedLine(st.mode, st.lines[st.index], message)
      case None => (true, st)
      case Some(line) => (true, st.(lines := st.lines[st.index := line], mode := View, modified := true))
  }

  // ------------------------------------------------------------ LoreEditSession

  class LoreEditSession {
    const originalItem: Item
    var editingItem: Item
    var loreLines: seq<LoreLine>
    var currentLineIndex: int
    var editMode: EditMode
    var modified: bool

    function State(): Session
      reads this
    {
      Session(loreLines, currentLineIndex, editMode, modified)
    }

    /** A new session on a copy of the item: its lines loaded, the cursor on the first, viewing, unmodified. */
    constructor (item: Item)
      ensures originalItem == item && editingItem == item
      ensures State() == Session(LoadedLines(item.lore), 0, View, false) && Valid(State())
    {
      originalItem := item;
      editingItem := item;
      var lines: seq<LoreLine> := [];
      var i := 0;
      while i < |item.lore|
        invariant 0 <= i <= |item.lore|
        invariant lines == ParsedLines(item.lore[..i])
      {
        assert item.lore[..i + 1][..i] == item.lore[..i];
        lines := lines + [ParseText(item.lore[i])];
        i := i + 1;
      }
      assert item.lore[..|item.lore|] == item.lore;
      if lines == [] {
        lines := [ParseText("")];
      }
      loreLines := lines;
      currentLineIndex := 0;
      editMode := View;
      modified := false;
    }

    /** saveLoreToItem: the item's lore becomes the rebuilt non-blank lines, and the session is marked modified. */
    method SaveLoreToItem()
      modifies this
      ensures editingItem == old(editingItem).(lore := SavedLore(loreLines))
      ensures State() == old(State()).(modified := true)
    {
      var newLore := BuildLore(loreLines);
      editingItem := editingItem.(lore := newLore);
      modified := true;
    }

    /** The loop of saveLoreToItem: rebuild each line and keep the ones that are not blank. */
    static method BuildLore(lines: seq<LoreLine>) returns (newLore: seq<string>)
      ensures newLore == SavedLore(lines)
    {
      ghost var texts := Rebuilt(lines);
      newLore := [];
      var i := 0;
      while i < |lines|
        invariant 0 <= i <= |lines|
        invariant newLore == Visible(texts[..i])
      {
        VisibleStep(texts, i);
        var text := BuildText(lines[i]);
        assert text == texts[i];
        if !Blank(text) {
          newLore := newLore + [text];
        }
        i := i + 1;
      }
      assert texts[..|lines|] == texts;
    }

    /** getCurrentLine. */
    function GetCurrentLine(): (r: Option<LoreLine>)
      reads this
      ensures r == CurrentLine(State())
    {
      if 0 <= currentLineIndex < |loreLines| then Some(loreLines[currentLineIndex]) else None
    }

    method AddNewLine()
      modifies this
      ensures State() == Appended(old(State())) && editingItem == old(editingItem)
    {
      loreLines := loreLines + [ParseText("")];
      modified := true;
    }

    method DeleteLine()
      modifies this
      ensures State() == Deleted(old(State())) && editingItem == old(editingItem)
    {
      if |loreLines| > 1 && 0 <= currentLineIndex < |loreLines| {
        loreLines := loreLines[..currentLineIndex] + loreLines[currentLineIndex + 1..];
        if currentLineIndex >= |loreLines| {
          currentLineIndex := |loreLines| - 1;
        }
        modified := true;
      }
    }

    method MovePrevious()
      modifies this
      ensures State() == Previous(old(State())) && editingItem == old(editingItem)
    {
      if currentLineIndex > 0 {
        currentLineIndex := currentLineIndex - 1;
      }
    }

    method MoveNext()
      modifies this
      ensures State() == Next(old(State())) && editingItem == old(editingItem)
    {
      if currentLineIndex < |loreLines| - 1 {
        currentLineIndex := currentLineIndex + 1;
      }
    }

    /** The part of handleChatInput that works on the session once it is found. */
    method HandleInput(message: string) returns (handled: bool)
      modifies this
      ensures (handled, State()) == Input(old(State()), message) && editingItem == old(editingItem)
    {
      if editMode == View {
        return false;
      }
      var current := GetCurrentLine();
      if current.None? {
        return false;
      }
      var edited := EditLine(editMode, current.value, message);
      if edited.None? {
        return true;
      }
      loreLines := loreLines[currentLineIndex := edited.value];
      editMode := View;
      modified := true;
      handled := true;
    }

    /** The switch on the edit mode: the edited line, or none for a message that is not a valid number. */
    static method EditLine(mode: EditMode, line: LoreLine, message: string) returns (r: Option<LoreLine>)
      requires mode != View
      ensures r == EditedLine(mode, line, message)
    {
      match mode {
        case EditText =>
          r := Some(ParseText(Translate(message)));
        case EditPrefix =>
          r := Some(line.(prefix := message));
        case EditNumber =>
          if IsValidNumber(message) {
            r := Some(line.(number := message, hasNumber := true));
          } else {
            r := None;
          }
        case EditSuffix =>
          r := Some(line.(suffix := message));
      }
    }
  }

  // ------------------------------------------------------------ LoreEditorManager

  class LoreEditorManager {
    var editSessions: map<nat, LoreEditSession>

    constructor ()
      ensures editSessions == map[]
    {
      editSessions := map[];
    }

    /** startEdit: nothing for a missing or AIR item; otherwise a new session, stored under the player. */
    method StartEdit(player: nat, item: Option<Item>) returns (session: Option<LoreEditSession>)
      modifies this
      ensures item.None? || IsAir(item.value) ==> session.None? && editSessions == old(editSessions)
      ensures item.Some? && !IsAir(item.value) ==>
        session.Some? && fresh(session.value) && editSessions == old(editSessions)[player := session.value] &&
        session.value.State() == Session(LoadedLines(item.value.lore), 0, View, false) &&
        session.value.editingItem == item.value
    {
      if item.None? || IsAir(item.value) {
        return None;
      }
      var s := new LoreEditSession(item.value);
      editSessions := editSessions[player := s];
      session := Some(s);
    }

    /** getEditSession. */
    function GetEditSession(player: nat): (r: Option<LoreEditSession>)
      reads this
      ensures r.Some? <==> player in editSessions
      ensures r.Some? ==> r.value == editSessions[player]
    {
      if player in editSessions then Some(editSessions[player]) else None
    }

    /** endEdit (and cancelEdit): the player's session is dropped. */
    method EndEdit(player: nat)
      modifies this
      ensures editSessions == old(editSessions) - {player}
      ensures player !in editSessions
    {
      editSessions := editSessions - {player};
    }

    /** handleChatInput: false without a session; otherwise the session takes the message. */
    method HandleChatInput(player: nat, message: string) returns (handled: bool)
      modifies if player in editSessions then {editSessions[player]} else {}
      ensures player !in editSessions ==> !handled
      ensures player in editSessions ==>
        (handled, editSessions[player].State()) == Input(old(editSessions[player].State()), message)
    {
      if player !in editSessions {
        return false;
      }
      handled := editSessions[player].HandleInput(message);
    }

    /** saveEdit, up to the write into the player's inventory: false without a session, else the session saves. */
    method SaveEdit(player: nat) returns (ok: bool)
      modifies if player in editSessions then {editSessions[player]} else {}
      ensures ok <==> player in editSessions
      ensures ok ==> editSessions[player].editingItem.lore == SavedLore(editSessions[player].loreLines)
      ensures ok ==> editSessions[player].State() == old(editSessions[player].State()).(modified := true)
    {
      if player !in editSessions {
        return false;
      }
      editSessions[player].SaveLoreToItem();
      ok := true;
    }
  }
}
