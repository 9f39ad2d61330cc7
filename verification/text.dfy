/**
 * The JavaScript string primitives the client relies on: number-to-text
 * conversion, `padStart`, `toLowerCase`/`toUpperCase` on the Latin letters,
 * the UTF-16 length `s.length`,
 * `includes`, `startsWith`, `split` on one character and `join`.
 */
module Text {

  predicate IsDigit(c: char) {
    '0' <= c <= '9'
  }

  predicate AllDigits(s: string) {
    forall i :: 0 <= i < |s| ==> IsDigit(s[i])
  }

  function DigitChar(d: nat): (c: char)
    requires d < 10
    ensures IsDigit(c) && c as int - '0' as int == d
  {
    ('0' as int + d) as char
  }

  function DigitValue(c: char): (d: nat)
    requires IsDigit(c)
    ensures d < 10
  {
    c as int - '0' as int
  }

  /** `n.toString()` for a non-negative integer: decimal, no leading zeros. */
  function NatToString(n: nat): (s: string)
    ensures 1 <= |s| && AllDigits(s)
    ensures |s| > 1 ==> s[0] != '0'
    decreases n
  {
    if n < 10 then [DigitChar(n)] else NatToString(n / 10) + [DigitChar(n % 10)]
  }

  /** The value of a string of decimal digits. */
  function ParseDigits(s: string): nat
    requires AllDigits(s)
  {
    if s == [] then 0 else ParseDigits(s[..|s| - 1]) * 10 + DigitValue(s[|s| - 1])
  }

  /** Reading back the decimal text of a number gives the number. */
  lemma {:induction false} ParseNatToString(n: nat)
    ensures ParseDigits(NatToString(n)) == n
    decreases n
  {
    var s := NatToString(n);
    if n >= 10 {
      ParseNatToString(n / 10);
      assert s[..|s| - 1] == NatToString(n / 10);
    }
  }

  /** How many characters `n.toString()` has for the ranges the date format needs. */
  lemma {:induction false} NatToStringLength(n: nat)
    ensures n < 10 ==> |NatToString(n)| == 1
    ensures 10 <= n < 100 ==> |NatToString(n)| == 2
    ensures 1000 <= n < 10000 ==> |NatToString(n)| == 4
    decreases n
  {
    if n >= 10 {
      NatToStringLength(n / 10);
      if n >= 1000 {
        NatToStringLength(n / 100);
        NatToStringLength(n / 1000);
      }
    }
  }

  /** `i.toString()` for any integer: a minus sign before negative values. */
  function IntToString(i: int): (s: string)
    ensures i >= 0 ==> s == NatToString(i)
    ensures i < 0 ==> s == "-" + NatToString(-i)
  {
    if i < 0 then "-" + NatToString(-i) else NatToString(i)
  }

  /** `s.padStart(2, "0")`. */
  function PadStart2(s: string): (r: string)
    ensures |s| >= 2 ==> r == s
    ensures |s| < 2 ==> |r| == 2 && r[2 - |s|..] == s
    ensures forall i :: 0 <= i < 2 - |s| ==> r[i] == '0'
  {
    if |s| >= 2 then s else if |s| == 1 then "0" + s else "00"
  }

  /** `n.toString().padStart(2, "0")`, the date component format. */
  function Pad2(n: nat): (r: string)
    ensures AllDigits(r) && |r| >= 2
    ensures n < 100 ==> |r| == 2
  {
    NatToStringLength(n);
    PadStart2(NatToString(n))
  }

  /** Padding with zeros does not change the value read back. */
  lemma ParsePad2(n: nat)
    requires n < 100
    ensures ParseDigits(Pad2(n)) == n
  {
    ParseNatToString(n);
    NatToStringLength(n);
    var s := NatToString(n);
    if n < 10 {
      assert Pad2(n) == "0" + s;
      assert ("0" + s)[..1] == "0";
    }
  }

  /**
   * The one-to-one lower-case mapping of Basic Latin, Latin-1 and Latin
   * Extended-A: A-Z, À-Þ except ×, the even (or odd) capitals of the
   * Latin Extended-A pairs, and Ÿ. Every other character is kept.
   */
  function LowerChar(c: char): (d: char)
    ensures 'A' <= c <= 'Z' ==> 'a' <= d <= 'z' && d as int == c as int + 32
    ensures d != c ==> UpperChar(d) == c
    ensures c as int < 0x41 || 0x17F < c as int ==> d == c
  {
    var n := c as int;
    if 'A' <= c <= 'Z' || ('À' <= c <= 'Þ' && c != '×') then (n + 32) as char
    else if c == 'Ÿ' then 'ÿ'
    else if (0x100 <= n <= 0x12F || 0x132 <= n <= 0x137 || 0x14A <= n <= 0x177) && n % 2 == 0 then (n + 1) as char
    else if (0x139 <= n <= 0x148 || 0x179 <= n <= 0x17E) && n % 2 == 1 then (n + 1) as char
    else c
  }

  /**
   * The one-to-one upper-case mapping of the same blocks: a-z, à-þ except ÷,
   * ÿ, the small letters of the Latin Extended-A pairs, and µ, ı and ſ, whose
   * capitals are Μ, I and S. Every other character is kept.
   */
  function UpperChar(c: char): (d: char)
    ensures 'a' <= c <= 'z' ==> 'A' <= d <= 'Z' && d as int == c as int - 32
    ensures c as int < 0x61 || 0x17F < c as int ==> d == c
  {
    var n := c as int;
    if 'a' <= c <= 'z' || ('à' <= c <= 'þ' && c != '÷') then (n - 32) as char
    else if c == 'ÿ' then 'Ÿ'
    else if c == 'µ' then '\U{039C}'
    else if c == 'ı' then 'I'
    else if c == 'ſ' then 'S'
    else if (0x101 <= n <= 0x12F || 0x133 <= n <= 0x137 || 0x14B <= n <= 0x177) && n % 2 == 1 then (n - 1) as char
    else if (0x13A <= n <= 0x148 || 0x17A <= n <= 0x17E) && n % 2 == 0 then (n - 1) as char
    else c
  }

  /** A character's lower case: İ becomes i followed by a combining dot above, the rest follows LowerChar. */
  function LowerText(c: char): (r: string)
    ensures c != 'İ' ==> r == [LowerChar(c)]
    ensures c == 'İ' ==> r == "i\U{0307}"
  {
    if c == 'İ' then "i\U{0307}" else [LowerChar(c)]
  }

  /** A character's upper case: ß becomes SS and ŉ becomes ʼN, the rest follows UpperChar. */
  function UpperText(c: char): (r: string)
    ensures c != 'ß' && c != 'ŉ' ==> r == [UpperChar(c)]
    ensures c == 'ß' ==> r == "SS"
    ensures c == 'ŉ' ==> r == "\U{02BC}N"
  {
    if c == 'ß' then "SS" else if c == 'ŉ' then "\U{02BC}N" else [UpperChar(c)]
  }

  /**
   * `s.toLowerCase()` over the blocks LowerChar covers: character by
   * character, one character each except İ, which becomes two.
   */
  function ToLower(s: string): (r: string)
    ensures |s| <= |r| <= 2 * |s|
    ensures 'İ' !in s ==> |r| == |s| && forall i :: 0 <= i < |s| ==> r[i] == LowerChar(s[i])
  {
    if s == [] then [] else LowerText(s[0]) + ToLower(s[1..])
  }

  /**
   * `s.toUpperCase()` over the blocks UpperChar covers: character by
   * character, one character each except ß and ŉ, which become two.
   */
  function ToUpper(s: string): (r: string)
    ensures |s| <= |r| <= 2 * |s|
    ensures 'ß' !in s && 'ŉ' !in s ==> |r| == |s| && forall i :: 0 <= i < |s| ==> r[i] == UpperChar(s[i])
  {
    if s == [] then [] else UpperText(s[0]) + ToUpper(s[1..])
  }

  /** Lower-casing works piece by piece: it distributes over concatenation. */
  lemma {:induction false} ToLowerAppend(a: string, b: string)
    ensures ToLower(a + b) == ToLower(a) + ToLower(b)
  {
    if a == [] {
      assert a + b == b;
    } else {
      assert (a + b)[0] == a[0] && (a + b)[1..] == a[1..] + b;
      ToLowerAppend(a[1..], b);
    }
  }

  /** Upper-casing works piece by piece: it distributes over concatenation. */
  lemma {:induction false} ToUpperAppend(a: string, b: string)
    ensures ToUpper(a + b) == ToUpper(a) + ToUpper(b)
  {
    if a == [] {
      assert a + b == b;
    } else {
      assert (a + b)[0] == a[0] && (a + b)[1..] == a[1..] + b;
      ToUpperAppend(a[1..], b);
    }
  }

  /** Lower-casing is idempotent: a lower-cased text is its own lower case. */
  lemma {:induction false} ToLowerIdempotent(s: string)
    ensures ToLower(ToLower(s)) == ToLower(s)
  {
    if s != [] {
      ToLowerIdempotent(s[1..]);
      ToLowerAppend(LowerText(s[0]), ToLower(s[1..]));
      LowerTextIdempotent(s[0]);
    }
  }

  /** The lower case of one character is its own lower case. */
  lemma LowerTextIdempotent(c: char)
    ensures ToLower(LowerText(c)) == LowerText(c)
  {
    if c == 'İ' {
      var t := LowerText(c);
      assert t[0] == 'i' && t[1..] == "\U{0307}";
      assert ToLower(t[1..]) == [LowerChar('\U{0307}')] + ToLower([]);
    } else {
      var d := LowerChar(c);
      assert d != 'İ';
      assert [d][1..] == [];
      assert ToLower([d]) == [LowerChar(d)] + ToLower([]);
    }
  }

  /** The French capitals with accents are lowered to their small letters, and ß is raised to SS. */
  lemma AccentedLetters()
    ensures LowerChar('É') == 'é' && LowerChar('À') == 'à' && LowerChar('Ç') == 'ç'
    ensures UpperChar('é') == 'É' && UpperChar('è') == 'È' && UpperChar('ç') == 'Ç'
    ensures UpperText('ß') == "SS"
  {
  }

  /** The number of UTF-16 code units of one character: two above U+FFFF. */
  function Utf16Units(c: char): (n: nat)
    ensures n == 1 <==> c as int <= 0xFFFF
    ensures n == 2 <==> c as int > 0xFFFF
  {
    if c as int > 0xFFFF then 2 else 1
  }

  /**
   * `s.length` in JavaScript, which also bounds a schema's `min` and a
   * regular expression's `.` without the `u` flag: the number of UTF-16 code
   * units, so a character above U+FFFF counts twice.
   */
  function Utf16Length(s: string): (n: nat)
    ensures |s| <= n <= 2 * |s|
    ensures n == |s| <==> forall i :: 0 <= i < |s| ==> s[i] as int <= 0xFFFF
  {
    if s == [] then 0 else Utf16Units(s[0]) + Utf16Length(s[1..])
  }

  /** Code-unit lengths add up over concatenation. */
  lemma {:induction false} Utf16LengthAppend(a: string, b: string)
    ensures Utf16Length(a + b) == Utf16Length(a) + Utf16Length(b)
  {
    if a == [] {
      assert a + b == b;
    } else {
      assert (a + b)[0] == a[0] && (a + b)[1..] == a[1..] + b;
      Utf16LengthAppend(a[1..], b);
    }
  }

  /** `s.startsWith(prefix)`. */
  predicate StartsWith(s: string, prefix: string) {
    |prefix| <= |s| && s[..|prefix|] == prefix
  }

  /** `s.slice(0, n)` for n >= 0. */
  function Take(s: string, n: nat): (r: string)
    ensures |r| == if n <= |s| then n else |s|
    ensures r == s[..|r|]
  {
    if n <= |s| then s[..n] else s
  }

  /** `hay.includes(needle)`: the needle occurs at some position. */
  predicate Includes(hay: string, needle: string)
    decreases |hay|
  {
    StartsWith(hay, needle) || (hay != [] && Includes(hay[1..], needle))
  }

  /** The needle occurs in the haystack starting at position i. */
  predicate OccursAt(hay: string, needle: string, i: nat) {
    i + |needle| <= |hay| && hay[i..i + |needle|] == needle
  }

  /** `includes` holds exactly when the needle occurs at some position. */
  lemma {:induction false} IncludesAt(hay: string, needle: string)
    ensures Includes(hay, needle) <==> exists i: nat :: OccursAt(hay, needle, i)
    decreases |hay|
  {
    if StartsWith(hay, needle) {
      assert OccursAt(hay, needle, 0);
    } else if hay == [] {
    } else {
      IncludesAt(hay[1..], needle);
      if exists i: nat :: OccursAt(hay, needle, i) {
        var i: nat :| OccursAt(hay, needle, i);
        assert i != 0;
        assert hay[1..][i - 1..i - 1 + |needle|] == hay[i..i + |needle|];
        assert OccursAt(hay[1..], needle, i - 1);
      }
      if Includes(hay[1..], needle) {
        var j: nat :| OccursAt(hay[1..], needle, j);
        assert hay[1..][j..j + |needle|] == hay[j + 1..j + 1 + |needle|];
        assert OccursAt(hay, needle, j + 1);
      }
    }
  }

  /** Every string includes the empty string. */
  lemma IncludesEmpty(hay: string)
    ensures Includes(hay, "")
  {
    assert StartsWith(hay, "");
  }

  /** `s.split(sep)` for a one-character separator; never empty. */
  function Split(s: string, sep: char): (parts: seq<string>)
    ensures |parts| >= 1
  {
    if s == [] then [""]
    else if s[0] == sep then [""] + Split(s[1..], sep)
    else
      var rest := Split(s[1..], sep);
      [[s[0]] + rest[0]] + rest[1..]
  }

  /** `parts.join(sep)`. */
  function Join(parts: seq<string>, sep: string): string {
    if |parts| == 0 then ""
    else if |parts| == 1 then parts[0]
    else parts[0] + sep + Join(parts[1..], sep)
  }

  /** No piece produced by `split` contains the separator. */
  lemma {:induction false} SplitPiecesAvoidSeparator(s: string, sep: char)
    ensures forall k :: 0 <= k < |Split(s, sep)| ==> sep !in Split(s, sep)[k]
  {
    if s != [] {
      SplitPiecesAvoidSeparator(s[1..], sep);
    }
  }

  /** Joining the pieces of a split with the same separator gives back the string. */
  lemma {:induction false} JoinSplit(s: string, sep: char)
    ensures Join(Split(s, sep), [sep]) == s
  {
    if s != [] {
      var rest := Split(s[1..], sep);
      JoinSplit(s[1..], sep);
      if s[0] != sep {
        if |rest| > 1 {
          assert Join(rest, [sep]) == rest[0] + [sep] + Join(rest[1..], [sep]);
          assert [[s[0]] + rest[0]] + rest[1..] == [[s[0]] + rest[0]] + rest[1..];
          calc {
            Join([[s[0]] + rest[0]] + rest[1..], [sep]);
            ([s[0]] + rest[0]) + [sep] + Join(rest[1..], [sep]);
            { assert ([[s[0]] + rest[0]] + rest[1..])[1..] == rest[1..]; }
            [s[0]] + Join(rest, [sep]);
          }
        }
        assert s == [s[0]] + s[1..];
      } else {
        assert s == [sep] + s[1..];
      }
    }
  }

  /** A string without the separator splits into itself alone. */
  lemma {:induction false} SplitNoSeparator(w: string, sep: char)
    requires sep !in w
    ensures Split(w, sep) == [w]
  {
    if w != [] {
      SplitNoSeparator(w[1..], sep);
      assert w == [w[0]] + w[1..];
    }
  }

  /** A leading word without the separator becomes the first piece; the rest splits on its own. */
  lemma {:induction false} SplitAfterWord(w: string, t: string, sep: char)
    requires sep !in w
    ensures Split(w + [sep] + t, sep) == [w] + Split(t, sep)
  {
    var s := w + [sep] + t;
    if w == [] {
      assert s == [sep] + t;
      assert s[1..] == t;
    } else {
      assert s[0] == w[0];
      assert s[1..] == w[1..] + [sep] + t;
      SplitAfterWord(w[1..], t, sep);
      assert w == [w[0]] + w[1..];
    }
  }

  /** Joining two non-empty lists puts one separator between their joins: the order of the parts is kept. */
  lemma {:induction false} JoinAppend(a: seq<string>, b: seq<string>, sep: string)
    requires a != [] && b != []
    ensures Join(a + b, sep) == Join(a, sep) + sep + Join(b, sep)
  {
    if |a| == 1 {
      assert (a + b)[1..] == b;
    } else {
      assert (a + b)[1..] == a[1..] + b;
      JoinAppend(a[1..], b, sep);
    }
  }
}
