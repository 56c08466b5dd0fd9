/**
 * String helpers (util.ts): `asciify`, which rewrites Icelandic letters as
 * ASCII by a sequence of `replaceAll` calls, one per table entry, and
 * `capFirst`, which capitalises the first character.
 *
 * Case mapping is restricted to the ASCII letters and the ten Icelandic
 * letter pairs of the table; every other character is its own upper and
 * lower case here.
 */
module Util {
  import opened Common

  /** The `icechar2ascii` table, in declaration order (util.ts:9-30). */
  const IceToAscii: seq<(char, string)> := [
    ('ð', "d"), ('Ð', "D"), ('á', "a"), ('Á', "A"), ('ú', "u"),
    ('Ú', "U"), ('í', "i"), ('Í', "I"), ('é', "e"), ('É', "E"),
    ('þ', "th"), ('Þ', "TH"), ('ó', "o"), ('Ó', "O"), ('ý', "y"),
    ('Ý', "Y"), ('ö', "o"), ('Ö', "O"), ('æ', "ae"), ('Æ', "AE")
  ]

  predicate IsAscii(c: char) { c as int < 128 }

  /**
   * The ASCII text of an Icelandic letter, or `None` for any other
   * character. This is `IceToAscii` read as a lookup (`LookupIceToAscii`
   * proves the two agree); written as a `match` so that a fact about one
   * character is a single case for the verifier rather than a search of
   * the table.
   */
  function AsciiOf(c: char): Option<string> {
    match c
    case 'ð' => Some("d")  case 'Ð' => Some("D")  case 'á' => Some("a")  case 'Á' => Some("A")
    case 'ú' => Some("u")  case 'Ú' => Some("U")  case 'í' => Some("i")  case 'Í' => Some("I")
    case 'é' => Some("e")  case 'É' => Some("E")  case 'þ' => Some("th") case 'Þ' => Some("TH")
    case 'ó' => Some("o")  case 'Ó' => Some("O")  case 'ý' => Some("y")  case 'Ý' => Some("Y")
    case 'ö' => Some("o")  case 'Ö' => Some("O")  case 'æ' => Some("ae") case 'Æ' => Some("AE")
    case _ => None
  }

  /** True when `c` is one of the table's keys. */
  predicate IsIcelandic(c: char) { AsciiOf(c).Some? }

  /** What `c` becomes: its ASCII text, or itself. */
  function AsciiText(c: char): string {
    match AsciiOf(c)
    case Some(v) => v
    case None => [c]
  }

  /** The meaning of `asciify`: each Icelandic letter replaced by its ASCII text, in one pass. */
  function Asciified(s: string): string {
    if s == [] then [] else AsciiText(s[0]) + Asciified(s[1..])
  }

  /**
   * Every key of a replacement table is a non-ASCII character and every
   * replacement text is plain ASCII, so no replacement can create a key.
   */
  ghost predicate AsciiTargets(table: seq<(char, string)>) {
    forall i :: 0 <= i < |table| ==>
      !IsAscii(table[i].0) && forall j :: 0 <= j < |table[i].1| ==> IsAscii(table[i].1[j])
  }

  /** `s.replaceAll(key, value)` for a one-character pattern `key`. */
  function ReplaceAll(s: string, key: char, value: string): string {
    if s == [] then []
    else (if s[0] == key then value else [s[0]]) + ReplaceAll(s[1..], key, value)
  }

  /** The text that replaces `c` under `table`: its first entry's value, or `c` itself. */
  function Subst(table: seq<(char, string)>, c: char): string {
    match Lookup(table, c)
    case Some(v) => v
    case None => [c]
  }

  /** Every character of `s` rewritten by `table` at once, in order. */
  function Translate(table: seq<(char, string)>, s: string): string {
    if s == [] then [] else Subst(table, s[0]) + Translate(table, s[1..])
  }

  /** Position of each key in `IceToAscii` (20 for a non-key), the witness `IceToAsciiCoversLetters` uses. */
  function KeyIndex(c: char): nat {
    match c
    case 'ð' => 0  case 'Ð' => 1  case 'á' => 2  case 'Á' => 3
    case 'ú' => 4  case 'Ú' => 5  case 'í' => 6  case 'Í' => 7
    case 'é' => 8  case 'É' => 9  case 'þ' => 10 case 'Þ' => 11
    case 'ó' => 12 case 'Ó' => 13 case 'ý' => 14 case 'Ý' => 15
    case 'ö' => 16 case 'Ö' => 17 case 'æ' => 18 case 'Æ' => 19
    case _ => 20
  }

  lemma IceToAsciiEntriesAgree()
    ensures forall i :: 0 <= i < |IceToAscii| ==> AsciiOf(IceToAscii[i].0) == Some(IceToAscii[i].1)
  {
  }

  lemma IceToAsciiCoversLetters(c: char)
    requires IsIcelandic(c)
    ensures KeyIndex(c) < |IceToAscii| && IceToAscii[KeyIndex(c)].0 == c
  {
  }

  /** Looking a character up in the table agrees with `AsciiOf`. */
  lemma LookupIceToAscii(c: char)
    ensures Lookup(IceToAscii, c) == AsciiOf(c)
  {
    IceToAsciiEntriesAgree();
    var r := Lookup(IceToAscii, c);
    if IsIcelandic(c) {
      IceToAsciiCoversLetters(c);
    }
    if r.Some? {
      LookupFound(IceToAscii, c);
      var i :| 0 <= i < |IceToAscii| && IceToAscii[i] == (c, r.value);
    }
  }

  /** Rewriting with the whole table is `Asciified`. */
  lemma {:induction false} TranslateIceToAscii(s: string)
    ensures Translate(IceToAscii, s) == Asciified(s)
  {
    if s != [] {
      LookupIceToAscii(s[0]);
      TranslateIceToAscii(s[1..]);
    }
  }

  lemma IceToAsciiHasAsciiTargets()
    ensures AsciiTargets(IceToAscii)
  {
  }

  lemma {:induction false} ReplaceAllConcat(a: string, b: string, key: char, value: string)
    ensures ReplaceAll(a + b, key, value) == ReplaceAll(a, key, value) + ReplaceAll(b, key, value)
  {
    if a == [] {
      assert a + b == b;
    } else {
      assert (a + b)[1..] == a[1..] + b;
      ReplaceAllConcat(a[1..], b, key, value);
    }
  }

  /** Replacing a character that does not occur changes nothing. */
  lemma {:induction false} ReplaceAllAbsent(s: string, key: char, value: string)
    requires forall j :: 0 <= j < |s| ==> s[j] != key
    ensures ReplaceAll(s, key, value) == s
  {
    if s != [] {
      ReplaceAllAbsent(s[1..], key, value);
    }
  }

  /** The per-character step of `ReplaceAllExtends`. */
  lemma ReplaceAllSubst(table: seq<(char, string)>, key: char, value: string, c: char)
    requires AsciiTargets(table) && !IsAscii(key)
    ensures ReplaceAll(Subst(table, c), key, value) == Subst(table + [(key, value)], c)
  {
    LookupConcat(table, [(key, value)]);
    match Lookup(table, c)
    case Some(v) =>
      LookupFound(table, c);
      var i :| 0 <= i < |table| && table[i] == (c, v);
      assert forall j :: 0 <= j < |v| ==> IsAscii(v[j]);
      ReplaceAllAbsent(v, key, value);
    case None =>
      assert ReplaceAll([c], key, value) == (if c == key then value else [c]) + ReplaceAll([], key, value);
  }

  /**
   * One more `replaceAll` over text already rewritten by `table` is the
   * same as rewriting with the table extended by that entry, provided the
   * new key is not ASCII and the table only produces ASCII.
   */
  lemma {:induction false} ReplaceAllExtends(table: seq<(char, string)>, key: char, value: string, s: string)
    requires AsciiTargets(table) && !IsAscii(key)
    ensures ReplaceAll(Translate(table, s), key, value) == Translate(table + [(key, value)], s)
  {
    if s != [] {
      ReplaceAllConcat(Subst(table, s[0]), Translate(table, s[1..]), key, value);
      ReplaceAllSubst(table, key, value, s[0]);
      ReplaceAllExtends(table, key, value, s[1..]);
    }
  }

  lemma {:induction false} TranslateEmptyTable(s: string)
    ensures Translate([], s) == s
  {
    if s != [] {
      TranslateEmptyTable(s[1..]);
    }
  }

  lemma AsciiTargetsStep(table: seq<(char, string)>, i: nat)
    requires AsciiTargets(table) && i < |table|
    ensures AsciiTargets(table[..i]) && !IsAscii(table[i].0)
    ensures table[..i + 1] == table[..i] + [table[i]]
  {
    assert forall k :: 0 <= k < i ==> table[..i][k] == table[k];
  }

  /** `asciify` as written: one `replaceAll` per table entry, in table order (util.ts:8-35). */
  method Asciify(s: string) returns (r: string)
    ensures r == Asciified(s)
  {
    IceToAsciiHasAsciiTargets();
    TranslateEmptyTable(s);
    r := s;
    var i := 0;
    while i < |IceToAscii|
      invariant 0 <= i <= |IceToAscii|
      invariant r == Translate(IceToAscii[..i], s)
    {
      var (key, value) := IceToAscii[i];
      AsciiTargetsStep(IceToAscii, i);
      ReplaceAllExtends(IceToAscii[..i], key, value, s);
      r := ReplaceAll(r, key, value);
      i := i + 1;
    }
    assert IceToAscii[..i] == IceToAscii;
    TranslateIceToAscii(s);
  }

  /** Rewriting works character by character, so it distributes over concatenation. */
  lemma {:induction false} AsciifiedConcat(a: string, b: string)
    ensures Asciified(a + b) == Asciified(a) + Asciified(b)
  {
    if a == [] {
      assert a + b == b;
    } else {
      assert (a + b)[1..] == a[1..] + b;
      AsciifiedConcat(a[1..], b);
    }
  }

  /** Each character becomes at least one character. */
  lemma {:induction false} AsciifiedLength(s: string)
    ensures |Asciified(s)| >= |s|
  {
    if s != [] {
      AsciifiedLength(s[1..]);
    }
  }

  lemma AsciifiedLetter(i: nat)
    requires i < |IceToAscii|
    ensures Asciified([IceToAscii[i].0]) == IceToAscii[i].1
  {
    IceToAsciiEntriesAgree();
  }

  /** No character of the result is a table key (util.ts:5-6, 31-33). */
  lemma {:induction false} AsciifiedHasNoIcelandic(s: string)
    ensures forall j :: 0 <= j < |Asciified(s)| ==> !IsIcelandic(Asciified(s)[j])
  {
    if s != [] {
      AsciifiedHasNoIcelandic(s[1..]);
      var head := AsciiText(s[0]);
      assert forall j :: 0 <= j < |head| ==> !IsIcelandic(head[j]);
      var r := Asciified(s);
      assert r == head + Asciified(s[1..]);
      forall j | 0 <= j < |r|
        ensures !IsIcelandic(r[j])
      {
        if j >= |head| {
          assert r[j] == Asciified(s[1..])[j - |head|];
        }
      }
    }
  }

  /** A string without Icelandic letters comes back unchanged (util.ts:31-33). */
  lemma {:induction false} AsciifiedKeepsOtherText(s: string)
    requires forall j :: 0 <= j < |s| ==> !IsIcelandic(s[j])
    ensures Asciified(s) == s
  {
    if s != [] {
      AsciifiedKeepsOtherText(s[1..]);
    }
  }

  /** `asciify` is idempotent: its output has nothing left to replace. */
  lemma AsciifiedIdempotent(s: string)
    ensures Asciified(Asciified(s)) == Asciified(s)
  {
    AsciifiedHasNoIcelandic(s);
    AsciifiedKeepsOtherText(Asciified(s));
  }

  lemma AsciifiedGudrun()
    ensures Asciified("Guðrún") == "Gudrun"
  {
    assert "Guðrún" == ['G', 'u', 'ð', 'r', 'ú', 'n'];
  }

  // ---- case mapping -------------------------------------------------------

  /** `toLowerCase` on one character, restricted to ASCII and the Icelandic pairs. */
  function LowerChar(c: char): char {
    if 'A' <= c <= 'Z' then (c as int + 32) as char
    else match c
      case 'Ð' => 'ð'  case 'Á' => 'á'  case 'Ú' => 'ú'  case 'Í' => 'í'  case 'É' => 'é'
      case 'Þ' => 'þ'  case 'Ó' => 'ó'  case 'Ý' => 'ý'  case 'Ö' => 'ö'  case 'Æ' => 'æ'
      case _ => c
  }

  /** `toUpperCase` on one character, restricted to ASCII and the Icelandic pairs. */
  function UpperChar(c: char): char {
    if 'a' <= c <= 'z' then (c as int - 32) as char
    else match c
      case 'ð' => 'Ð'  case 'á' => 'Á'  case 'ú' => 'Ú'  case 'í' => 'Í'  case 'é' => 'É'
      case 'þ' => 'Þ'  case 'ó' => 'Ó'  case 'ý' => 'Ý'  case 'ö' => 'Ö'  case 'æ' => 'Æ'
      case _ => c
  }

  /** `toLowerCase` on a string. */
  function Lower(s: string): (r: string)
    ensures |r| == |s|
  {
    if s == [] then [] else [LowerChar(s[0])] + Lower(s[1..])
  }

  lemma {:induction false} LowerConcat(a: string, b: string)
    ensures Lower(a + b) == Lower(a) + Lower(b)
  {
    if a == [] {
      assert a + b == b;
    } else {
      assert (a + b)[1..] == a[1..] + b;
      LowerConcat(a[1..], b);
    }
  }

  /** Lower-casing twice is lower-casing once. */
  lemma {:induction false} LowerIdempotent(s: string)
    ensures Lower(Lower(s)) == Lower(s)
  {
    if s != [] {
      LowerIdempotent(s[1..]);
    }
  }

  lemma AsciiTextLowerChar(c: char)
    ensures AsciiText(LowerChar(c)) == Lower(AsciiText(c))
  {
    if 'A' <= c <= 'Z' {
      assert AsciiText(c) == [c];
      assert Lower([c]) == [LowerChar(c)];
    } else if IsIcelandic(c) {
      IcelandicLowerChar(c);
    } else {
      assert LowerChar(c) == c;
      assert Lower([c]) == [c];
    }
  }

  lemma IcelandicLowerChar(c: char)
    requires IsIcelandic(c)
    ensures AsciiText(LowerChar(c)) == Lower(AsciiText(c))
  {
    var t := AsciiText(c);
    assert |t| == 1 || |t| == 2;
    if |t| == 1 {
      assert Lower(t) == [LowerChar(t[0])];
    } else {
      assert Lower(t) == [LowerChar(t[0]), LowerChar(t[1])];
    }
  }

  /**
   * Lower-casing and `asciify` commute: the web player lower-cases first
   * (audio.web.ts:142), the native player asciifies first
   * (audio.native.ts:80, 89, 102), and both name the same voice file.
   */
  lemma {:induction false} AsciifiedLowerCommute(s: string)
    ensures Asciified(Lower(s)) == Lower(Asciified(s))
  {
    if s != [] {
      AsciifiedLowerCommute(s[1..]);
      AsciiTextLowerChar(s[0]);
      LowerConcat(AsciiText(s[0]), Asciified(s[1..]));
    }
  }

  /** `capFirst`: the first character upper-cased, the rest unchanged. */
  function CapFirst(s: string): (r: string)
    ensures |r| == |s|
    ensures s != [] ==> r[0] == UpperChar(s[0]) && r[1..] == s[1..]
  {
    if s == [] then s else [UpperChar(s[0])] + s[1..]
  }

  /** The tested cases of `capFirst`. */
  lemma CapFirstExamples()
    ensures CapFirst("abcd") == "Abcd"
    ensures CapFirst("") == ""
    ensures CapFirst("g") == "G"
    ensures CapFirst("12") == "12"
  {
  }

  /** Capitalising twice is capitalising once. */
  lemma CapFirstIdempotent(s: string)
    ensures CapFirst(CapFirst(s)) == CapFirst(s)
  {
  }
}
