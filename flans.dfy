/**
 * The gun-lore reader of the FlansModule integration. Unlike the main lore
 * parser, it reads each line with a keyword test and the digits-only number
 * of the line, and it puts the value into the caller's map, overwriting what
 * an earlier line stored under the same key.
 */
module FlansIntegration {
  import opened JavaText
  import opened Bukkit

  // ------------------------------------------------------------ numbers

  /** replaceAll("[^0-9.]", ""): keeps the digits and dots of `s`, in order. */
  function NumberChars(s: string): (r: string)
    ensures |r| <= |s|
    ensures forall k :: 0 <= k < |r| ==> IsDigit(r[k]) || r[k] == '.'
    ensures forall c :: c in r <==> c in s && (IsDigit(c) || c == '.')
    decreases |s|
  {
    if s == [] then []
    else (if IsDigit(s[0]) || s[0] == '.' then [s[0]] else []) + NumberChars(s[1..])
  }

  /** Filtering a text piece by piece gives the filtered pieces joined. */
  lemma {:induction false} NumberCharsAppend(a: string, b: string)
    ensures NumberChars(a + b) == NumberChars(a) + NumberChars(b)
    decreases |a|
  {
    if a == [] {
      assert a + b == b;
    } else {
      assert (a + b)[0] == a[0] && (a + b)[1..] == a[1..] + b;
      NumberCharsAppend(a[1..], b);
    }
  }

  /** The filter keeps a text of digits and dots whole, so applying it twice is applying it once. */
  lemma {:induction false} NumberCharsKeeps(s: string)
    requires forall k :: 0 <= k < |s| ==> IsDigit(s[k]) || s[k] == '.'
    ensures NumberChars(s) == s
    decreases |s|
  {
    if s != [] {
      NumberCharsKeeps(s[1..]);
    }
  }

  /**
   * The number a gun-lore text carries: parseDouble of its digits and dots.
   * Such a text has no blanks and no sign, so parseDouble reads it as an
   * unsigned number (LoreValueParses).
   */
  function LoreValue(s: string): (r: Option<real>)
    ensures r.Some? ==> r.value >= 0.0
  {
    UnsignedNonNegative(NumberChars(s));
    ParseUnsigned(NumberChars(s))
  }

  /** LoreValue is Double.parseDouble(s.replaceAll("[^0-9.]", "")). */
  lemma {:induction false} LoreValueParses(s: string)
    ensures LoreValue(s) == ParseDouble(NumberChars(s))
  {
    NumberTextUnsigned(NumberChars(s));
  }

  /** A text of digits and dots has no blanks and no sign, so parseDouble reads it unsigned. */
  lemma {:induction false} NumberTextUnsigned(t: string)
    requires forall k :: 0 <= k < |t| ==> IsDigit(t[k]) || t[k] == '.'
    ensures ParseDouble(t) == ParseUnsigned(t)
  {
    if t != [] {
      assert !IsWhite(t[0]) && !IsWhite(t[|t| - 1]);
    }
    TrimOfTrimmed(t);
  }

  /** parseDouble without a sign never reads a negative number. */
  lemma {:induction false} UnsignedNonNegative(s: string)
    ensures ParseUnsigned(s).Some? ==> ParseUnsigned(s).value >= 0.0
  {
    var d1 := Digits(s);
    if d1 < |s| && s[d1] == '.' {
      var d2 := Digits(s[d1 + 1..]);
      if d1 + d2 != 0 {
        assert ParseUnsigned(s) == ParseExponent(NatValue(s[..d1]) as real + FracValue(s[d1 + 1..][..d2]), s[d1 + 1 + d2..]);
        FracNonNegative(s[d1 + 1..][..d2]);
        ExponentNonNegative(NatValue(s[..d1]) as real + FracValue(s[d1 + 1..][..d2]), s[d1 + 1 + d2..]);
      }
    } else if d1 != 0 {
      var m := NatValue(s[..d1]) as real;
      ExponentNonNegative(m, s[d1..]);
      assert ParseUnsigned(s) == ParseExponent(m, s[d1..]);
    }
  }

  lemma {:induction false} FracNonNegative(ds: string)
    requires AllDigits(ds)
    ensures FracValue(ds) >= 0.0
  {
    var n, p := NatValue(ds) as real, Pow10(|ds|) as real;
    assert n >= 0.0 && p >= 1.0;
    assert n / p >= 0.0;
  }

  lemma {:induction false} ExponentNonNegative(m: real, s: string)
    requires m >= 0.0
    ensures ParseExponent(m, s).Some? ==> ParseExponent(m, s).value >= 0.0
  {
  }

  // ------------------------------------------------------------ one line

  /** The damage a line sets: its number, when it mentions 伤害 or 攻击 and the number parses. */
  function DamageValue(line: string): (r: Option<real>)
    ensures r.Some? ==> r.value >= 0.0
  {
    if Contains(line, "伤害") || Contains(line, "攻击") then LoreValue(line) else None
  }

  /** The crit chance a line sets: the number of its second ':'-piece, when it names 致命几率: or 暴击率:. */
  function CritValue(line: string): (r: Option<real>)
    ensures r.Some? ==> r.value >= 0.0
  {
    if Contains(line, "致命几率:") || Contains(line, "暴击率:") then
      var parts := Split(line);
      if |parts| > 1 then LoreValue(parts[1]) else None
    else None
  }

  /** The armour penetration a line sets: its number, when it mentions 穿透 and the number parses. */
  function ArmorBreakValue(line: string): (r: Option<real>)
    ensures r.Some? ==> r.value >= 0.0
  {
    if Contains(line, "穿透") then LoreValue(line) else None
  }

  /** Map.put when there is a value to put; nothing otherwise. */
  function Put(m: map<string, real>, key: string, v: Option<real>): (r: map<string, real>)
    ensures m.Keys <= r.Keys <= m.Keys + {key}
    ensures forall k :: k in m && k != key ==> r[k] == m[k]
    ensures v.Some? ==> key in r && r[key] == v.value
    ensures v.None? ==> r == m
  {
    if v.Some? then m[key := v.value] else m
  }

  /**
   * parseAttributeFromLore: the attributes after one lore line is read, with
   * colour codes removed first. Only damage, crit and armorBreak are ever
   * written, every written value is non-negative, and no key is removed.
   */
  function ParsedLore(lore: string, attributes: map<string, real>): (r: map<string, real>)
    ensures attributes.Keys <= r.Keys <= attributes.Keys + {"damage", "crit", "armorBreak"}
    ensures forall k :: k in attributes && k != "damage" && k != "crit" && k != "armorBreak" ==>
      r[k] == attributes[k]
    ensures forall k :: k in r && (k !in attributes || r[k] != attributes[k]) ==> r[k] >= 0.0
  {
    var line := StripCodes(lore);
    Puts(attributes, DamageValue(line), CritValue(line), ArmorBreakValue(line))
  }

  /** The three puts in source order: damage, then crit, then armorBreak, each only when it has a value. */
  function Puts(m: map<string, real>, damage: Option<real>, crit: Option<real>, armorBreak: Option<real>): (r: map<string, real>)
    ensures m.Keys <= r.Keys
    ensures forall k :: k in r ==>
      (k in m || (k == "damage" && damage.Some?) || (k == "crit" && crit.Some?) || (k == "armorBreak" && armorBreak.Some?))
    ensures damage.Some? ==> "damage" in r && r["damage"] == damage.value
    ensures crit.Some? ==> "crit" in r && r["crit"] == crit.value
    ensures armorBreak.Some? ==> "armorBreak" in r && r["armorBreak"] == armorBreak.value
    ensures forall k ::
      (k in m && (k != "damage" || damage.None?) && (k != "crit" || crit.None?) && (k != "armorBreak" || armorBreak.None?)) ==>
      r[k] == m[k]
  {
    Put(Put(Put(m, "damage", damage), "crit", crit), "armorBreak", armorBreak)
  }

  /** Putting the same values a second time changes nothing. */
  lemma {:induction false} PutsAgain(m: map<string, real>, damage: Option<real>, crit: Option<real>, armorBreak: Option<real>)
    ensures Puts(Puts(m, damage, crit, armorBreak), damage, crit, armorBreak) == Puts(m, damage, crit, armorBreak)
  {
    var r := Puts(m, damage, crit, armorBreak);
    var twice := Puts(r, damage, crit, armorBreak);
    assert twice.Keys == r.Keys;
    forall k | k in r
      ensures twice[k] == r[k]
    {
    }
  }

  // ------------------------------------------------------------ properties

  /** A damage line overwrites the damage stored before it rather than adding to it. */
  lemma {:induction false} DamageOverwrites(lore: string, attributes: map<string, real>, v: real)
    requires DamageValue(StripCodes(lore)) == Some(v)
    ensures "damage" in ParsedLore(lore, attributes) && ParsedLore(lore, attributes)["damage"] == v
  {
  }

  /** A line that does not mention 伤害 or 攻击, or whose number does not parse, leaves the damage as it was. */
  lemma {:induction false} DamageKept(lore: string, attributes: map<string, real>)
    requires DamageValue(StripCodes(lore)).None?
    ensures "damage" in ParsedLore(lore, attributes) <==> "damage" in attributes
    ensures "damage" in attributes ==> ParsedLore(lore, attributes)["damage"] == attributes["damage"]
  {
  }

  /** The crit chance changes only through a line naming 致命几率: or 暴击率:. */
  lemma {:induction false} CritOnlyFromMarkers(lore: string, attributes: map<string, real>)
    requires !Contains(StripCodes(lore), "致命几率:") && !Contains(StripCodes(lore), "暴击率:")
    ensures "crit" in ParsedLore(lore, attributes) <==> "crit" in attributes
    ensures "crit" in attributes ==> ParsedLore(lore, attributes)["crit"] == attributes["crit"]
  {
  }

  /** A crit line stores the number between its first and second ':'. */
  lemma {:induction false} CritFromSecondPiece(lore: string, attributes: map<string, real>, v: real)
    requires Contains(StripCodes(lore), "致命几率:") || Contains(StripCodes(lore), "暴击率:")
    requires |Split(StripCodes(lore))| > 1 && LoreValue(Split(StripCodes(lore))[1]) == Some(v)
    ensures ParsedLore(lore, attributes)["crit"] == v
  {
  }

  /** A line mentioning 穿透 with a number sets armorBreak; any other line leaves it as it was. */
  lemma {:induction false} ArmorBreakOnlyFromPenetration(lore: string, attributes: map<string, real>)
    ensures ArmorBreakValue(StripCodes(lore)).Some? ==>
      ParsedLore(lore, attributes)["armorBreak"] == LoreValue(StripCodes(lore)).value
    ensures !Contains(StripCodes(lore), "穿透") ==>
      ("armorBreak" in ParsedLore(lore, attributes) <==> "armorBreak" in attributes) &&
      ("armorBreak" in attributes ==> ParsedLore(lore, attributes)["armorBreak"] == attributes["armorBreak"])
  {
  }

  /** Reading the same line twice leaves the map as reading it once. */
  lemma {:induction false} ParsedLoreIdempotent(lore: string, attributes: map<string, real>)
    ensures ParsedLore(lore, ParsedLore(lore, attributes)) == ParsedLore(lore, attributes)
  {
    var line := StripCodes(lore);
    PutsAgain(attributes, DamageValue(line), CritValue(line), ArmorBreakValue(line));
  }

  /** A lower-case colour code in front of a line changes nothing it sets. */
  lemma {:induction false} ColorCodeIgnored(c: char, lore: string, attributes: map<string, real>)
    requires IsCodeChar(c)
    ensures ParsedLore(['§', c] + lore, attributes) == ParsedLore(lore, attributes)
  {
    assert (['§', c] + lore)[2..] == lore;
  }

  /** `攻击穿透 5` mentions both 攻击 and 穿透, so the one line sets both damage and armorBreak to 5. */
  lemma {:induction false} PenetratingAttackLine(line: string)
    requires line == "攻击穿透 5"
    ensures ParsedLore(line, map[]) == map["damage" := 5.0, "armorBreak" := 5.0]
  {
    PenetratingAttackValue(line);
    PenetratingAttackWords(line);
    PenetratingAttackChars(line);
    NoCritMarker(line);
    PlainLineRead(line, map[], Some(5.0), None, Some(5.0));
  }

  lemma {:induction false} PenetratingAttackValue(line: string)
    requires line == "攻击穿透 5"
    ensures LoreValue(line) == Some(5.0)
  {
    FiveReads("攻击穿透 ");
    assert "攻击穿透 " + "5" == line;
  }

  lemma {:induction false} PenetratingAttackWords(line: string)
    requires line == "攻击穿透 5"
    ensures Contains(line, "攻击") && Contains(line, "穿透")
  {
    assert line[0..2] == "攻击";
    ContainsAt(line, "攻击", 0);
    assert line[2..4] == "穿透";
    ContainsAt(line, "穿透", 2);
  }

  lemma {:induction false} PenetratingAttackChars(line: string)
    requires line == "攻击穿透 5"
    ensures '率' !in line && '§' !in line
  {
  }

  /** Both crit markers end in 率:, so a line without 率 sets no crit chance. */
  lemma {:induction false} NoCritMarker(line: string)
    requires '率' !in line
    ensures CritValue(line) == None
  {
    NotContains(line, "致命几率:", '率');
    NotContains(line, "暴击率:", '率');
  }

  /** A line naming damage and penetration stores one and the same number under both keys. */
  lemma {:induction false} DamageAndArmorBreakAgree(lore: string, attributes: map<string, real>)
    requires Contains(StripCodes(lore), "伤害") || Contains(StripCodes(lore), "攻击")
    requires Contains(StripCodes(lore), "穿透") && LoreValue(StripCodes(lore)).Some?
    ensures ParsedLore(lore, attributes)["damage"] == LoreValue(StripCodes(lore)).value
    ensures ParsedLore(lore, attributes)["armorBreak"] == LoreValue(StripCodes(lore)).value
  {
  }

  /**
   * A char that is neither a digit nor a dot, such as a '-' or '+' sign, is
   * dropped before parsing: `伤害: -5` stores 5, not -5.
   */
  lemma {:induction false} NonNumberCharIgnored(a: string, c: char, b: string)
    requires !IsDigit(c) && c != '.'
    ensures LoreValue(a + [c] + b) == LoreValue(a + b)
  {
    NumberCharsAppend(a + [c], b);
    NumberCharsAppend(a, [c]);
    NumberCharsAppend(a, b);
    assert NumberChars([c]) == [] by {
      assert [c][1..] == [];
    }
    assert NumberChars(a) + [] == NumberChars(a);
  }

  /**
   * The digits of two numbers on one line run together: with only a
   * separator between them, `5 x 3` reads as 53.
   */
  lemma {:induction false} NumbersRunTogether(x: string, sep: string, y: string)
    requires AllDigits(x) && AllDigits(y) && x + y != []
    requires forall k :: 0 <= k < |sep| ==> !IsDigit(sep[k]) && sep[k] != '.'
    ensures LoreValue(x + sep + y) == Some(NatValue(x + y) as real)
  {
    NumberCharsAppend(x + sep, y);
    NumberCharsAppend(x, sep);
    NumberCharsNone(sep);
    assert AllDigits(x + y) by {
      forall k | 0 <= k < |x + y|
        ensures IsDigit((x + y)[k])
      {
        if k >= |x| {
          assert (x + y)[k] == y[k - |x|];
        }
      }
    }
    assert NumberChars(x) + [] == x && NumberChars(y) == y by {
      NumberCharsKeeps(x);
      NumberCharsKeeps(y);
    }
    DigitsRead(x + y);
  }

  /** A line without '§' is read as it stands, one put per key that has a value. */
  lemma {:induction false} PlainLineRead(line: string, attributes: map<string, real>, damage: Option<real>, crit: Option<real>, armorBreak: Option<real>)
    requires '§' !in line
    requires DamageValue(line) == damage && CritValue(line) == crit && ArmorBreakValue(line) == armorBreak
    ensures ParsedLore(line, attributes) == Put(Put(Put(attributes, "damage", damage), "crit", crit), "armorBreak", armorBreak)
  {
    StripCodesNoSection(line);
  }

  /** `prefix` has no digit or dot, so only the "5" after it is read, as 5. */
  lemma {:induction false} FiveReads(prefix: string)
    requires forall k :: 0 <= k < |prefix| ==> !IsDigit(prefix[k]) && prefix[k] != '.'
    ensures LoreValue(prefix + "5") == Some(5.0)
  {
    NumberCharsAppend(prefix, "5");
    NumberCharsNone(prefix);
    assert NumberChars(prefix + "5") == "5";
    DigitsRead("5");
  }

  /** A text with no digit and no dot filters to nothing. */
  lemma {:induction false} NumberCharsNone(s: string)
    requires forall k :: 0 <= k < |s| ==> !IsDigit(s[k]) && s[k] != '.'
    ensures NumberChars(s) == []
  {
    if s != [] {
      NumberCharsNone(s[1..]);
    }
  }

  /** A run of digits alone parses as its value. */
  lemma {:induction false} DigitsRead(ds: string)
    requires ds != [] && AllDigits(ds)
    ensures ParseUnsigned(ds) == Some(NatValue(ds) as real)
  {
    DigitsOfPrefix(ds, []);
    assert ds + [] == ds;
    assert ds[..|ds|] == ds && ds[|ds|..] == [];
  }

  /** A text lacking one of the chars of `t` does not contain `t`. */
  lemma {:induction false} NotContains(s: string, t: string, c: char)
    requires c in t && c !in s
    ensures !Contains(s, t)
  {
    if Contains(s, t) {
      ContainsChars(s, t, c);
    }
  }

  // ------------------------------------------------------------ the caller's map

  /** The map a gun's lore is read into; parseAttributeFromLore puts into it line by line. */
  class GunAttributes {
    var attributes: map<string, real>

    constructor()
      ensures attributes == map[]
    {
      attributes := map[];
    }

    /** Double.parseDouble(text.replaceAll("[^0-9.]", "")), None for a NumberFormatException. */
    static method ParseNumber(text: string) returns (v: Option<real>)
      ensures v == LoreValue(text)
    {
      v := ParseDouble(NumberChars(text));
      LoreValueParses(text);
    }

    /** parseAttributeFromLore(lore, attributes): the three keyword tests in order, each a put when its number parses. */
    method ParseAttributeFromLore(lore: string)
      modifies this
      ensures attributes == ParsedLore(lore, old(attributes))
    {
      var line := StripCodes(lore);
      var m := PutDamage(line, attributes);
      m := PutCrit(line, m);
      m := PutArmorBreak(line, m);
      attributes := m;
    }

    /** The 伤害/攻击 test: the line's number replaces the damage. */
    static method PutDamage(line: string, m: map<string, real>) returns (r: map<string, real>)
      ensures r == Put(m, "damage", DamageValue(line))
    {
      r := m;
      if Contains(line, "伤害") || Contains(line, "攻击") {
        var damage := ParseNumber(line);
        if damage.Some? {
          r := r["damage" := damage.value];
        }
      }
    }

    /** The 致命几率:/暴击率: test: the number of the second ':'-piece replaces the crit chance. */
    static method PutCrit(line: string, m: map<string, real>) returns (r: map<string, real>)
      ensures r == Put(m, "crit", CritValue(line))
    {
      r := m;
      if Contains(line, "致命几率:") || Contains(line, "暴击率:") {
        var parts := Split(line);
        if |parts| > 1 {
          var crit := ParseNumber(parts[1]);
          if crit.Some? {
            r := r["crit" := crit.value];
          }
        }
      }
    }

    /** The 穿透 test: the line's number replaces the armour penetration. */
    static method PutArmorBreak(line: string, m: map<string, real>) returns (r: map<string, real>)
      ensures r == Put(m, "armorBreak", ArmorBreakValue(line))
    {
      r := m;
      if Contains(line, "穿透") {
        var armor := ParseNumber(line);
        if armor.Some? {
          r := r["armorBreak" := armor.value];
        }
      }
    }
  }
}
