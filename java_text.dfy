/**
 * The java.lang.String operations the plugin relies on, written out on
 * `seq<char>`: trim, startsWith, contains, toLowerCase (ASCII letters),
 * split(":"), Double.parseDouble on decimal text, and the two number
 * regular expressions the plugin scans lore lines with.
 */
module JavaText {

  datatype Option<T> = None | Some(value: T)

  // ---------------------------------------------------------------- trim

  /** The characters String.trim removes: every char up to U+0020. */
  predicate IsWhite(c: char) { c <= ' ' }

  /** A string String.trim leaves unchanged. */
  predicate Trimmed(s: string)
  {
    s == [] || (!IsWhite(s[0]) && !IsWhite(s[|s| - 1]))
  }

  /** The number of leading chars String.trim drops. */
  function LeadingWhite(s: string): (n: nat)
    ensures n <= |s|
    ensures forall i :: 0 <= i < n ==> IsWhite(s[i])
    ensures n < |s| ==> !IsWhite(s[n])
  {
    if s != [] && IsWhite(s[0]) then 1 + LeadingWhite(s[1..]) else 0
  }

  /** The end of the text String.trim keeps, found by dropping trailing blanks down to `lo`. */
  function VisibleEnd(s: string, lo: nat): (m: nat)
    requires lo <= |s|
    ensures lo <= m <= |s|
    ensures forall i :: m <= i < |s| ==> IsWhite(s[i])
    ensures m > lo ==> !IsWhite(s[m - 1])
    decreases |s|
  {
    if |s| > lo && IsWhite(s[|s| - 1]) then VisibleEnd(s[..|s| - 1], lo) else |s|
  }

  /** String.trim: drops leading and trailing chars up to U+0020. */
  function Trim(s: string): (r: string)
    ensures Trimmed(r) && |r| <= |s|
  {
    var a := LeadingWhite(s);
    s[a..VisibleEnd(s, a)]
  }

  lemma {:induction false} TrimOfTrimmed(s: string)
    requires Trimmed(s)
    ensures Trim(s) == s
  {
    assert LeadingWhite(s) == 0;
    assert VisibleEnd(s, 0) == |s|;
    assert s[0..|s|] == s;
  }

  /** Trimming a trimmed text with a blank appended or prepended gives the text back. */
  lemma {:induction false} TrimPadded(s: string)
    requires Trimmed(s)
    ensures Trim(s + " ") == s && Trim(" " + s) == s
  {
    TrimPaddedRight(s);
    TrimPaddedLeft(s);
  }

  lemma {:induction false} TrimPaddedRight(s: string)
    requires Trimmed(s)
    ensures Trim(s + " ") == s
  {
    var t := s + " ";
    assert t[..|t| - 1] == s;
    if s == [] {
      assert t[1..] == [];
      assert LeadingWhite(t) == 1;
      assert t[1..1] == s;
    } else {
      assert t[0] == s[0];
      assert LeadingWhite(t) == 0;
      assert VisibleEnd(s, 0) == |s|;
      assert VisibleEnd(t, 0) == |s|;
      assert t[0..|s|] == s;
    }
  }

  lemma {:induction false} TrimPaddedLeft(s: string)
    requires Trimmed(s)
    ensures Trim(" " + s) == s
  {
    var t := " " + s;
    assert t[1..] == s;
    assert LeadingWhite(s) == 0;
    assert LeadingWhite(t) == 1;
    if s != [] {
      assert t[|t| - 1] == s[|s| - 1];
    }
    assert VisibleEnd(t, 1) == |t|;
    assert t[1..|t|] == s;
  }

  lemma {:induction false} TrimEmptyIsEmpty()
    ensures Trim("") == ""
  {
  }

  /** A text that starts with a visible char keeps every visible prefix under trim. */
  lemma {:induction false} TrimKeepsVisiblePrefix(s: string, n: nat)
    requires n <= |s| && s != [] && !IsWhite(s[0])
    requires exists k :: n <= k < |s| && !IsWhite(s[k])
    ensures StartsWith(Trim(s), s[..n])
  {
    var k :| n <= k < |s| && !IsWhite(s[k]);
    assert LeadingWhite(s) == 0;
    var m := VisibleEnd(s, 0);
    assert m > k;
    assert Trim(s) == s[0..m];
    assert s[0..m][..n] == s[..n];
  }

  // ------------------------------------------------- prefix and substring

  /** String.startsWith. */
  predicate StartsWith(s: string, p: string)
  {
    |p| <= |s| && s[..|p|] == p
  }

  /** String.contains: `t` occurs somewhere in `s`. */
  predicate Contains(s: string, t: string)
    decreases |s|
  {
    StartsWith(s, t) || (s != [] && Contains(s[1..], t))
  }

  lemma {:induction false} ContainsAt(s: string, t: string, i: nat)
    requires i + |t| <= |s| && s[i..i + |t|] == t
    ensures Contains(s, t)
    decreases i
  {
    if i > 0 {
      assert s[1..][i - 1..i - 1 + |t|] == s[i..i + |t|];
      ContainsAt(s[1..], t, i - 1);
    }
  }

  lemma {:induction false} ContainsSelf(a: string, t: string, b: string)
    ensures Contains(a + t + b, t)
  {
    assert (a + t + b)[|a|..|a| + |t|] == t;
    ContainsAt(a + t + b, t, |a|);
  }

  lemma {:induction false} ContainsWitness(s: string, t: string) returns (i: nat)
    requires Contains(s, t)
    ensures i + |t| <= |s| && s[i..i + |t|] == t
    decreases |s|
  {
    if StartsWith(s, t) {
      i := 0;
    } else {
      var j := ContainsWitness(s[1..], t);
      i := j + 1;
      assert s[i..i + |t|] == s[1..][j..j + |t|];
    }
  }

  /** Every char of a text found in `s` occurs in `s`. */
  lemma {:induction false} ContainsChars(s: string, t: string, c: char)
    requires Contains(s, t) && c in t
    ensures c in s
  {
    var i := ContainsWitness(s, t);
    var k :| 0 <= k < |t| && t[k] == c;
    assert s[i + k] == c;
  }

  // ------------------------------------------------------------ lower case

  /** Character.toLowerCase on the ASCII letters; every other char is kept. */
  function LowerChar(c: char): (r: char)
    ensures 'A' <= c <= 'Z' ==> 'a' <= r <= 'z'
    ensures !('A' <= c <= 'Z') ==> r == c
  {
    if 'A' <= c <= 'Z' then (c as int + 32) as char else c
  }

  /** String.toLowerCase (ASCII letters only). */
  function ToLower(s: string): string
  {
    if s == [] then [] else [LowerChar(s[0])] + ToLower(s[1..])
  }

  /** toLowerCase keeps the length and lowers each character on its own. */
  lemma {:induction false} ToLowerChars(s: string)
    ensures |ToLower(s)| == |s|
    ensures forall i :: 0 <= i < |s| ==> ToLower(s)[i] == LowerChar(s[i])
  {
    if s != [] {
      ToLowerChars(s[1..]);
      assert forall i :: 1 <= i < |s| ==> ToLower(s)[i] == ToLower(s[1..])[i - 1];
    }
  }

  lemma {:induction false} ToLowerIdempotent(s: string)
    ensures ToLower(ToLower(s)) == ToLower(s)
  {
    ToLowerChars(s);
    ToLowerChars(ToLower(s));
    assert forall i :: 0 <= i < |s| ==> LowerChar(LowerChar(s[i])) == LowerChar(s[i]);
  }

  /** Lowering a text with one char in between two lower-case texts lowers only that char. */
  lemma {:induction false} ToLowerOneChar(a: string, c: char, b: string)
    requires forall i :: 0 <= i < |a| ==> !('A' <= a[i] <= 'Z')
    requires forall i :: 0 <= i < |b| ==> !('A' <= b[i] <= 'Z')
    ensures ToLower(a + [c] + b) == a + [LowerChar(c)] + b
  {
    var s := a + [c] + b;
    ToLowerChars(s);
    forall i | 0 <= i < |s|
      ensures ToLower(s)[i] == (a + [LowerChar(c)] + b)[i]
    {
      if i < |a| {
        assert s[i] == a[i];
      } else if i > |a| {
        assert s[i] == b[i - |a| - 1];
      }
    }
  }

  /** A text without upper-case ASCII letters is its own lower case. */
  lemma {:induction false} ToLowerOfLower(s: string)
    requires forall i :: 0 <= i < |s| ==> !('A' <= s[i] <= 'Z')
    ensures ToLower(s) == s
  {
    ToLowerChars(s);
  }

  // --------------------------------------------------------------- split

  /** The pieces of `s` between the ':' separators, before Java drops trailing empty ones. */
  function SplitPieces(s: string): (r: seq<string>)
    ensures |r| >= 1
    ensures forall k :: 0 <= k < |r| ==> ':' !in r[k]
    decreases |s|
  {
    if s == [] then [""]
    else if s[0] == ':' then [""] + SplitPieces(s[1..])
    else
      var rest := SplitPieces(s[1..]);
      [[s[0]] + rest[0]] + rest[1..]
  }

  function DropTrailingEmpty(r: seq<string>): (t: seq<string>)
    ensures |t| <= |r| && t == r[..|t|]
    ensures t == [] || t[|t| - 1] != ""
  {
    if r != [] && r[|r| - 1] == "" then DropTrailingEmpty(r[..|r| - 1]) else r
  }

  /** String.split(":"): a text without ':' is returned whole, otherwise trailing empty pieces are dropped. */
  function Split(s: string): (r: seq<string>)
    ensures ':' !in s ==> r == [s]
  {
    if ':' !in s then [s] else DropTrailingEmpty(SplitPieces(s))
  }

  lemma {:induction false} SplitPiecesNoColon(s: string)
    requires ':' !in s
    ensures SplitPieces(s) == [s]
  {
    if s != [] {
      assert s[0] != ':' && s == [s[0]] + s[1..];
      assert ':' !in s[1..];
      SplitPiecesNoColon(s[1..]);
    }
  }

  /** Splitting `a:b` where `a` has no ':' gives `a` first and a second piece that starts `b`'s text up to its first ':'. */
  lemma {:induction false} SplitAfterFirstColon(a: string, b: string)
    requires ':' !in a && b != [] && b[0] != ':'
    ensures |Split(a + ":" + b)| > 1
    ensures Split(a + ":" + b)[0] == a
    ensures Split(a + ":" + b)[1] == SplitPieces(b)[0]
    ensures Split(a + ":" + b)[1] != ""
  {
    SplitPiecesPrefix(a, b);
    var r := SplitPieces(a + ":" + b);
    assert r == [a] + SplitPieces(b);
    assert SplitPieces(b)[0] != "" by {
      var rest := SplitPieces(b[1..]);
      assert SplitPieces(b) == [[b[0]] + rest[0]] + rest[1..];
    }
    assert (a + ":" + b)[|a|] == ':';
    var t := DropTrailingEmpty(r);
    assert |t| >= 2 by {
      if |t| < 2 {
        DropTrailingEmptyKeeps(r, 1);
      }
    }
  }

  lemma {:induction false} DropTrailingEmptyKeeps(r: seq<string>, k: nat)
    requires k < |r| && r[k] != ""
    ensures |DropTrailingEmpty(r)| > k
  {
    if r != [] && r[|r| - 1] == "" {
      DropTrailingEmptyKeeps(r[..|r| - 1], k);
    }
  }

  lemma {:induction false} SplitPiecesPrefix(a: string, b: string)
    requires ':' !in a
    ensures SplitPieces(a + ":" + b) == [a] + SplitPieces(b)
    decreases |a|
  {
    if a == [] {
      assert (a + ":" + b)[1..] == b;
    } else {
      assert (a + ":" + b)[1..] == a[1..] + ":" + b;
      SplitPiecesPrefix(a[1..], b);
      assert [a[0]] + a[1..] == a;
    }
  }

  // -------------------------------------------------------------- digits

  /** The regular-expression class \d: ASCII digits. */
  predicate IsDigit(c: char) { '0' <= c <= '9' }

  predicate AllDigits(s: string)
  {
    forall i :: 0 <= i < |s| ==> IsDigit(s[i])
  }

  /** The number of leading digits of `s`. */
  function Digits(s: string): (n: nat)
    ensures n <= |s| && AllDigits(s[..n])
    ensures n < |s| ==> !IsDigit(s[n])
  {
    if s != [] && IsDigit(s[0]) then
      var n := 1 + Digits(s[1..]);
      assert s[..n] == [s[0]] + s[1..][..n - 1];
      n
    else 0
  }

  lemma {:induction false} DigitsOfPrefix(s: string, t: string)
    requires AllDigits(s) && (t == [] || !IsDigit(t[0]))
    ensures Digits(s + t) == |s|
  {
    if s != [] {
      assert (s + t)[1..] == s[1..] + t;
      DigitsOfPrefix(s[1..], t);
    }
  }

  function Pow10(n: nat): (r: nat)
    ensures r >= 1
  {
    if n == 0 then 1 else 10 * Pow10(n - 1)
  }

  /** The value of a run of decimal digits. */
  function NatValue(ds: string): nat
    requires AllDigits(ds)
  {
    if ds == [] then 0 else NatValue(ds[..|ds| - 1]) * 10 + (ds[|ds| - 1] as int - '0' as int)
  }

  /** The value of the digits after a decimal point. */
  function FracValue(ds: string): real
    requires AllDigits(ds)
  {
    NatValue(ds) as real / Pow10(|ds|) as real
  }

  // ------------------------------------------------- Double.parseDouble

  predicate IsSign(c: char) { c == '+' || c == '-' }

  predicate IsTypeSuffix(c: char) { c == 'f' || c == 'F' || c == 'd' || c == 'D' }

  /** What may follow the digits: nothing, or one float/double type suffix. */
  predicate IsNumberEnd(s: string)
  {
    s == [] || (|s| == 1 && IsTypeSuffix(s[0]))
  }

  /** An optional exponent and type suffix after the mantissa `m`. */
  function ParseExponent(m: real, s: string): Option<real>
  {
    if IsNumberEnd(s) then Some(m)
    else if s[0] == 'e' || s[0] == 'E' then
      var negative := |s| > 1 && s[1] == '-';
      var body := if |s| > 1 && IsSign(s[1]) then s[2..] else s[1..];
      var e := Digits(body);
      if e == 0 || !IsNumberEnd(body[e..]) then None
      else
        var scale := Pow10(NatValue(body[..e])) as real;
        Some(if negative then m / scale else m * scale)
    else None
  }

  /** Digits with an optional fraction (`12`, `12.`, `12.5`, `.5`), then exponent and suffix. */
  function ParseUnsigned(s: string): Option<real>
  {
    var d1 := Digits(s);
    if d1 < |s| && s[d1] == '.' then
      var d2 := Digits(s[d1 + 1..]);
      if d1 + d2 == 0 then None
      else
        var m := NatValue(s[..d1]) as real + FracValue(s[d1 + 1..][..d2]);
        ParseExponent(m, s[d1 + 1 + d2..])
    else if d1 == 0 then None
    else ParseExponent(NatValue(s[..d1]) as real, s[d1..])
  }

  /**
   * Double.parseDouble on decimal text: the trimmed text is an optional sign,
   * a mantissa, an optional exponent and an optional type suffix; anything
   * else is a NumberFormatException (None).
   */
  function ParseDouble(s: string): Option<real>
  {
    ParseTrimmed(Trim(s))
  }

  /** parseDouble once the surrounding blanks are gone: an optional sign, then the unsigned number. */
  function ParseTrimmed(t: string): Option<real>
  {
    if t != [] && IsSign(t[0]) then
      match ParseUnsigned(t[1..])
      case Some(v) => Some(if t[0] == '-' then -v else v)
      case None => None
    else ParseUnsigned(t)
  }

  /** Nothing parses without a digit in it. */
  lemma {:induction false} ParseTrimmedHasDigit(t: string)
    ensures ParseTrimmed(t).Some? ==> exists c :: c in t && IsDigit(c)
  {
    if ParseTrimmed(t).Some? {
      var u := if t != [] && IsSign(t[0]) then t[1..] else t;
      assert ParseUnsigned(u).Some?;
      var d1 := Digits(u);
      if d1 > 0 {
        assert u[0] in t;
      } else {
        assert u[1] in t;
      }
    }
  }

  /** parseDouble accepts only a text with a digit in it. */
  lemma {:induction false} ParseDoubleHasDigit(s: string)
    ensures ParseDouble(s).Some? ==> exists c :: c in Trim(s) && IsDigit(c)
  {
    ParseTrimmedHasDigit(Trim(s));
  }

  /** Blanks around the text do not change what parseDouble reads. */
  lemma {:induction false} ParseDoubleOfTrim(t: string)
    ensures ParseDouble(Trim(t)) == ParseDouble(t)
  {
    TrimOfTrimmed(Trim(t));
  }

  // ------------------------------------------------- number regular expressions

  /** Length of the match of \d+(?:\.\d+)? at the start of `s` (0: no match). */
  function UnsignedNumberLen(s: string): (n: nat)
    ensures n <= |s|
    ensures n > 0 <==> (s != [] && IsDigit(s[0]))
  {
    var d := Digits(s);
    if d == 0 then 0
    else if d + 1 < |s| && s[d] == '.' && IsDigit(s[d + 1]) then d + 1 + Digits(s[d + 1..])
    else d
  }

  /** Length of the match of [+-]?\d+(?:\.\d+)? at the start of `s` (0: no match). */
  function SignedNumberLen(s: string): (n: nat)
    ensures n <= |s|
    ensures n > 0 <==> (s != [] && (IsDigit(s[0]) || (IsSign(s[0]) && |s| > 1 && IsDigit(s[1]))))
  {
    if s != [] && IsSign(s[0]) && UnsignedNumberLen(s[1..]) > 0 then 1 + UnsignedNumberLen(s[1..])
    else UnsignedNumberLen(s)
  }

  /** A [+-]?\d+(?:\.\d+)? match starts at position `q` of `s`: a digit, or a sign and a digit. */
  predicate NumberAt(s: string, q: nat)
  {
    q < |s| && (IsDigit(s[q]) || (IsSign(s[q]) && q + 1 < |s| && IsDigit(s[q + 1])))
  }

  /** NumberAt is exactly where the number pattern matches. */
  lemma {:induction false} NumberAtMatches(s: string, q: nat)
    ensures NumberAt(s, q) <==> q <= |s| && SignedNumberLen(s[q..]) > 0
  {
    if q < |s| {
      assert s[q..][0] == s[q];
      if q + 1 < |s| {
        assert s[q..][1] == s[q + 1];
      }
    }
  }

  /** Matcher.find for [+-]?\d+(?:\.\d+)? from position `p`: the leftmost start of a match. */
  function FindNumber(s: string, p: nat): (r: Option<nat>)
    ensures r.Some? ==> p <= r.value < |s| && NumberAt(s, r.value)
    ensures r.Some? ==> forall q :: p <= q < r.value ==> !NumberAt(s, q)
    ensures r.None? ==> forall q :: p <= q ==> !NumberAt(s, q)
    decreases |s| - p
  {
    if p >= |s| then None
    else if NumberAt(s, p) then Some(p)
    else FindNumber(s, p + 1)
  }

  /** The text a [+-]?\d+(?:\.\d+)? match covers always parses as a double. */
  lemma {:induction false} SignedNumberParses(s: string)
    requires SignedNumberLen(s) > 0
    ensures Trim(s[..SignedNumberLen(s)]) == s[..SignedNumberLen(s)]
    ensures ParseDouble(s[..SignedNumberLen(s)]).Some?
  {
    var n := SignedNumberLen(s);
    var t := s[..n];
    if IsSign(s[0]) && UnsignedNumberLen(s[1..]) > 0 {
      var u := s[1..];
      var un := UnsignedNumberLen(u);
      assert t[1..] == u[..un];
      UnsignedNumberParses(u);
      UnsignedNumberEndsInDigit(u);
      assert t[|t| - 1] == u[un - 1];
      TrimOfTrimmed(t);
      assert ParseUnsigned(t[1..]).Some?;
    } else {
      UnsignedNumberParses(s);
      UnsignedNumberEndsInDigit(s);
      assert t[|t| - 1] == s[n - 1];
      TrimOfTrimmed(t);
      assert !IsSign(t[0]);
    }
  }

  lemma {:induction false} UnsignedNumberEndsInDigit(s: string)
    requires UnsignedNumberLen(s) > 0
    ensures IsDigit(s[UnsignedNumberLen(s) - 1])
  {
    var d := Digits(s);
    assert IsDigit(s[..d][d - 1]);
    if d + 1 < |s| && s[d] == '.' && IsDigit(s[d + 1]) {
      var d2 := Digits(s[d + 1..]);
      assert s[d + 1..][..d2][d2 - 1] == s[d + d2];
    }
  }

  lemma {:induction false} UnsignedNumberParses(s: string)
    requires UnsignedNumberLen(s) > 0
    ensures ParseUnsigned(s[..UnsignedNumberLen(s)]).Some?
  {
    var d := Digits(s);
    if d + 1 < |s| && s[d] == '.' && IsDigit(s[d + 1]) {
      FractionParses(s);
    } else {
      IntegerParses(s);
    }
  }

  /** Digits, a '.' and digits parse. */
  lemma {:induction false} FractionParses(s: string)
    requires Digits(s) > 0 && Digits(s) + 1 < |s| && s[Digits(s)] == '.' && IsDigit(s[Digits(s) + 1])
    ensures ParseUnsigned(s[..Digits(s) + 1 + Digits(s[Digits(s) + 1..])]).Some?
  {
    var d := Digits(s);
    var d2 := Digits(s[d + 1..]);
    var t := s[..d + 1 + d2];
    assert t == s[..d] + t[d..];
    DigitsOfPrefix(s[..d], t[d..]);
    assert t[d + 1..] == s[d + 1..][..d2];
    DigitsOfPrefix(t[d + 1..], []);
    assert t[d + 1..] + [] == t[d + 1..];
    assert t[d + 1 + d2..] == [];
  }

  /** A run of digits with no fraction after it parses. */
  lemma {:induction false} IntegerParses(s: string)
    requires Digits(s) > 0
    ensures ParseUnsigned(s[..Digits(s)]).Some?
  {
    var t := s[..Digits(s)];
    DigitsOfPrefix(t, []);
    assert t + [] == t;
    assert t[Digits(s)..] == [];
  }

  /** Length of the match of [+-]?\d*\.?\d+ at the start of `s` (0: no match). */
  function EditorBodyLen(s: string): (n: nat)
    ensures n <= |s|
  {
    var d := Digits(s);
    if d + 1 < |s| && s[d] == '.' && IsDigit(s[d + 1]) then d + 1 + Digits(s[d + 1..]) else d
  }

  function EditorNumberLen(s: string): (n: nat)
    ensures n <= |s|
  {
    if s != [] && IsSign(s[0]) && EditorBodyLen(s[1..]) > 0 then 1 + EditorBodyLen(s[1..])
    else EditorBodyLen(s)
  }

  /** A match of [+-]?\d*\.?\d+ can only start with one of the shapes `d`, `.d`, `+d`, `+.d`. */
  lemma {:induction false} EditorNumberStart(s: string)
    ensures EditorNumberLen(s) > 0 <==>
      (|s| > 0 && IsDigit(s[0])) ||
      (|s| > 1 && (IsSign(s[0]) || s[0] == '.') && IsDigit(s[1])) ||
      (|s| > 2 && IsSign(s[0]) && s[1] == '.' && IsDigit(s[2]))
  {
    if s != [] {
      var t := s[1..];
      assert Digits(t) > 0 <==> (t != [] && IsDigit(t[0]));
    }
  }

  /** A [+-]?\d*\.?\d+ match starts at position `q` of `s`: one of the shapes `d`, `.d`, `+d`, `+.d`. */
  predicate EditorNumberAt(s: string, q: nat)
  {
    q < |s| &&
    (IsDigit(s[q]) ||
     (q + 1 < |s| && (IsSign(s[q]) || s[q] == '.') && IsDigit(s[q + 1])) ||
     (q + 2 < |s| && IsSign(s[q]) && s[q + 1] == '.' && IsDigit(s[q + 2])))
  }

  /** EditorNumberAt is exactly where the editor's number pattern matches. */
  lemma {:induction false} EditorNumberAtMatches(s: string, q: nat)
    ensures EditorNumberAt(s, q) <==> q <= |s| && EditorNumberLen(s[q..]) > 0
  {
    if q <= |s| {
      EditorNumberStart(s[q..]);
      if q < |s| {
        assert s[q..][0] == s[q];
      }
      if q + 1 < |s| {
        assert s[q..][1] == s[q + 1];
      }
      if q + 2 < |s| {
        assert s[q..][2] == s[q + 2];
      }
    }
  }

  /** Matcher.find for [+-]?\d*\.?\d+ from position `p`. */
  function FindEditorNumber(s: string, p: nat): (r: Option<nat>)
    ensures r.Some? ==> p <= r.value < |s| && EditorNumberAt(s, r.value)
    ensures r.Some? ==> forall q :: p <= q < r.value ==> !EditorNumberAt(s, q)
    ensures r.None? ==> forall q :: p <= q ==> !EditorNumberAt(s, q)
    decreases |s| - p
  {
    if p >= |s| then None
    else if EditorNumberAt(s, p) then Some(p)
    else FindEditorNumber(s, p + 1)
  }
}
