/**
 * The Bukkit values the plugin works on: an item stack reduced to its
 * material name and lore lines, and the ChatColor text operations
 * (stripColor, translateAlternateColorCodes) plus the plugin's own
 * lower-case colour-code pattern §[0-9a-fk-or].
 */
module Bukkit {
  import opened JavaText

  /**
   * An item stack: its material name and its lore lines. An item without
   * meta or without lore has the empty lore (Bukkit's hasLore is false for
   * both); a missing item is `None` in an `Option<Item>`.
   */
  datatype Item = Item(material: string, lore: seq<string>)

  predicate IsAir(item: Item) { item.material == "AIR" }

  /** ItemMeta.hasLore: the item carries at least one lore line. */
  predicate HasLore(item: Item) { item.lore != [] }

  /** The chars the pattern §[0-9a-fk-or] accepts after '§'. */
  predicate IsCodeChar(c: char)
  {
    ('0' <= c <= '9') || ('a' <= c <= 'f') || ('k' <= c <= 'o') || c == 'r'
  }

  /** The chars ChatColor accepts after '§' or '&', in either case. */
  predicate IsAnyCaseCodeChar(c: char) { IsCodeChar(LowerChar(c)) }

  /** ChatColor.stripColor: removes '§' with a following colour/format char of either case. */
  function StripColor(s: string): (r: string)
    ensures |r| <= |s|
    decreases |s|
  {
    if |s| >= 2 && s[0] == '§' && IsAnyCaseCodeChar(s[1]) then StripColor(s[2..])
    else if s == [] then []
    else [s[0]] + StripColor(s[1..])
  }

  /** replaceAll("§[0-9a-fk-or]", ""): removes lower-case colour codes only. */
  function StripCodes(s: string): (r: string)
    ensures |r| <= |s|
    decreases |s|
  {
    if |s| >= 2 && s[0] == '§' && IsCodeChar(s[1]) then StripCodes(s[2..])
    else if s == [] then []
    else [s[0]] + StripCodes(s[1..])
  }

  /** The §[0-9a-fk-or] matches of `s`, in order, joined together. */
  function ColorCodes(s: string): (r: string)
    decreases |s|
  {
    if |s| >= 2 && s[0] == '§' && IsCodeChar(s[1]) then s[..2] + ColorCodes(s[2..])
    else if s == [] then []
    else ColorCodes(s[1..])
  }

  /** ChatColor.translateAlternateColorCodes('&', s): '&' before a code char becomes '§' and the char its lower case. */
  function Translate(s: string): (r: string)
    ensures |r| == |s|
    decreases |s|
  {
    if |s| >= 2 && s[0] == '&' && IsAnyCaseCodeChar(s[1]) then ['§', LowerChar(s[1])] + Translate(s[2..])
    else if s == [] then []
    else [s[0]] + Translate(s[1..])
  }

  /** ChatColor.GRAY and friends as text: '§' followed by the code char. */
  function Color(c: char): string { ['§', c] }

  // ------------------------------------------------------------ lemmas

  /** Text without '§' passes through stripColor unchanged, whatever follows it. */
  lemma {:induction false} StripColorPlain(a: string, b: string)
    requires '§' !in a
    ensures StripColor(a + b) == a + StripColor(b)
  {
    if a == [] {
      assert a + b == b;
    } else {
      assert (a + b)[0] == a[0] && (a + b)[1..] == a[1..] + b;
      StripColorPlain(a[1..], b);
      assert a == [a[0]] + a[1..];
    }
  }

  lemma {:induction false} StripColorCode(c: char, b: string)
    requires IsAnyCaseCodeChar(c)
    ensures StripColor(Color(c) + b) == StripColor(b)
  {
    assert (Color(c) + b)[2..] == b;
  }

  lemma {:induction false} StripColorNoSection(s: string)
    requires '§' !in s
    ensures StripColor(s) == s
  {
    StripColorPlain(s, []);
    assert s + [] == s;
  }

  lemma {:induction false} StripCodesPlain(a: string, b: string)
    requires '§' !in a
    ensures StripCodes(a + b) == a + StripCodes(b)
  {
    if a == [] {
      assert a + b == b;
    } else {
      assert (a + b)[0] == a[0] && (a + b)[1..] == a[1..] + b;
      StripCodesPlain(a[1..], b);
      assert a == [a[0]] + a[1..];
    }
  }

  lemma {:induction false} StripCodesNoSection(s: string)
    requires '§' !in s
    ensures StripCodes(s) == s && ColorCodes(s) == []
  {
    StripCodesPlain(s, []);
    assert s + [] == s;
    if s != [] {
      assert '§' !in s[1..];
      StripCodesNoSection(s[1..]);
    }
  }

  lemma {:induction false} StripCodesCode(c: char, b: string)
    requires IsCodeChar(c)
    ensures StripCodes(Color(c) + b) == StripCodes(b)
  {
    assert (Color(c) + b)[2..] == b;
  }

  /** Translating text without '&' changes nothing. */
  lemma {:induction false} TranslatePlain(a: string, b: string)
    requires '&' !in a
    ensures Translate(a + b) == a + Translate(b)
  {
    if a == [] {
      assert a + b == b;
    } else {
      assert (a + b)[0] == a[0] && (a + b)[1..] == a[1..] + b;
      TranslatePlain(a[1..], b);
      assert a == [a[0]] + a[1..];
    }
  }

  lemma {:induction false} TranslateCode(c: char, b: string)
    requires IsAnyCaseCodeChar(c)
    ensures Translate(['&', c] + b) == Color(LowerChar(c)) + Translate(b)
  {
    assert (['&', c] + b)[2..] == b;
  }

  /** stripColor never produces a char the input lacks. */
  lemma {:induction false} StripColorChars(s: string, x: char)
    requires x in StripColor(s)
    ensures x in s
    decreases |s|
  {
    if |s| >= 2 && s[0] == '§' && IsAnyCaseCodeChar(s[1]) {
      StripColorChars(s[2..], x);
    } else if s != [] {
      if x != s[0] {
        StripColorChars(s[1..], x);
      }
    }
  }
}
