/**
 * The JavaScript string operations the repository relies on, stated over
 * `seq<char>`: truthiness and `||`-defaulting of a possibly absent string,
 * `charAt(0)`, `split(sep)`, `join(sep)` and the decimal rendering of an
 * integer by `toString()`.
 */
module JsText {
  import opened Wrappers

  /** A JSON string field is truthy when it is present and not empty. */
  predicate Truthy(v: Option<string>) {
    v.Some? && v.value != ""
  }

  /** `v || d` for a string field: `""`, `null` and `undefined` give `d`. */
  function Or(v: Option<string>, d: string): string {
    if Truthy(v) then v.value else d
  }

  /** `out` is the upstream value when that is truthy, and `d` otherwise. */
  predicate Defaults(out: string, upstream: Option<string>, d: string) {
    (Truthy(upstream) ==> out == upstream.value) && (!Truthy(upstream) ==> out == d)
  }

  /** `Defaults` states of a value exactly that it is `v || d`. */
  lemma DefaultsIsOr(out: string, v: Option<string>, d: string)
    ensures Defaults(out, v, d) <==> out == Or(v, d)
  {
  }

  /** `s.charAt(0)`: the first character, or `""` for the empty string. */
  function CharAt0(s: string): (c: string)
    ensures |c| <= 1
    ensures c == "" <==> s == ""
    ensures c != "" ==> c[0] == s[0]
  {
    if s == [] then "" else s[..1]
  }

  /**
   * `s.split(sep)` for a one-character separator: the maximal pieces
   * between separators, empty pieces included. The first piece is the text
   * before the first separator.
   */
  function Split(s: string, sep: char): (parts: seq<string>)
    ensures |parts| >= 1
    ensures forall k :: 0 <= k < |parts| ==> sep !in parts[k]
    ensures parts[0] <= s
    ensures sep in s ==> |parts[0]| < |s| && s[|parts[0]|] == sep
    decreases |s|
  {
    if s == [] then [""]
    else
      var tail := Split(s[1..], sep);
      if s[0] == sep then [""] + tail
      else
        assert sep in s ==> sep in s[1..];
        [[s[0]] + tail[0]] + tail[1..]
  }

  /** `parts.join(sep)`: the first piece, then the separator before each further piece. */
  function Join(parts: seq<string>, sep: string): (r: string)
    ensures |parts| == 0 ==> r == ""
    ensures |parts| == 1 ==> r == parts[0]
    ensures |parts| >= 2 ==> parts[0] + sep <= r
    decreases |parts|
  {
    if |parts| == 0 then ""
    else if |parts| == 1 then parts[0]
    else parts[0] + sep + Join(parts[1..], sep)
  }

  /** Joining the pieces of a split with the separator gives back the original string. */
  lemma {:induction false} JoinSplit(s: string, sep: char)
    ensures Join(Split(s, sep), [sep]) == s
    decreases |s|
  {
    if s != [] {
      var tail := Split(s[1..], sep);
      JoinSplit(s[1..], sep);
      if s[0] == sep {
        assert ([""] + tail)[1..] == tail;
        assert s == [sep] + s[1..];
      } else {
        var parts := [[s[0]] + tail[0]] + tail[1..];
        if |tail| == 1 {
          assert s == [s[0]] + s[1..];
        } else {
          assert parts[1..] == tail[1..];
          assert Join(tail, [sep]) == tail[0] + [sep] + Join(tail[1..], [sep]);
          assert s == [s[0]] + s[1..];
        }
      }
    }
  }

  /** A string splits into more than one piece exactly when it holds the separator. */
  lemma {:induction false} SplitCount(s: string, sep: char)
    ensures sep !in s <==> Split(s, sep) == [s]
    ensures sep in s <==> |Split(s, sep)| >= 2
    decreases |s|
  {
    if s != [] {
      SplitCount(s[1..], sep);
      if s[0] != sep {
        assert s == [s[0]] + s[1..];
        assert sep in s <==> sep in s[1..];
      }
    }
  }

  /** Splitting a word, a separator and a rest gives the word and then the pieces of the rest. */
  lemma {:induction false} SplitAfterWord(word: string, sep: char, rest: string)
    requires sep !in word
    ensures Split(word + [sep] + rest, sep) == [word] + Split(rest, sep)
    decreases |word|
  {
    var s := word + [sep] + rest;
    if word != [] {
      SplitAfterWord(word[1..], sep, rest);
      assert s[1..] == word[1..] + [sep] + rest;
      assert [word[0]] + word[1..] == word;
    } else {
      assert s[1..] == rest;
    }
  }

  /** A join of two or more pieces holds the separator character. */
  lemma JoinHoldsSeparator(parts: seq<string>, sep: char)
    requires |parts| >= 2
    ensures sep in Join(parts, [sep])
  {
    assert (parts[0] + [sep])[|parts[0]|] == sep;
  }

  /**
   * The text before the first space, `name.split(" ")[0]`: a space-free
   * prefix of the name that is the whole name or is followed by a space.
   */
  function FirstWord(name: string): (w: string)
    ensures ' ' !in w
    ensures w <= name
    ensures ' ' in name ==> |w| < |name| && name[|w|] == ' '
    ensures ' ' !in name ==> w == name
  {
    SplitCount(name, ' ');
    Split(name, ' ')[0]
  }

  /**
   * The text after the first space, `name.split(" ").slice(1).join(" ")`:
   * with the first word and a space before it, it gives back the name; a
   * name without a space has an empty rest.
   */
  function RestWords(name: string): (r: string)
    ensures ' ' in name ==> FirstWord(name) + " " + r == name
    ensures ' ' !in name ==> r == ""
  {
    var parts := Split(name, ' ');
    JoinSplit(name, ' ');
    SplitCount(name, ' ');
    assert ' ' in name ==> Join(parts, " ") == parts[0] + " " + Join(parts[1..], " ");
    assert ' ' !in name ==> parts[1..] == [];
    Join(parts[1..], " ")
  }

  /**
   * The second piece of a space split, `name.split(" ")[1]`: undefined
   * exactly when the name holds no space, never holding a space itself, and
   * equal to the whole rest of the name exactly when the name splits into
   * two pieces (one space). In general it is the first word of the rest:
   * the text between the first and the second space, later pieces dropped.
   */
  function SecondWord(name: string): (r: Option<string>)
    ensures r.None? <==> ' ' !in name
    ensures r.Some? ==> ' ' !in r.value
    ensures ' ' in name ==> r == Some(FirstWord(RestWords(name)))
    ensures r == Some(RestWords(name)) <==> |Split(name, ' ')| == 2
  {
    var parts := Split(name, ' ');
    SplitCount(name, ' ');
    assert ' ' in name ==> parts[1] == FirstWord(RestWords(name)) by {
      if ' ' in name {
        var rest := RestWords(name);
        assert FirstWord(name) + [' '] + rest == name;
        SplitAfterWord(FirstWord(name), ' ', rest);
        assert parts == [FirstWord(name)] + Split(rest, ' ');
      }
    }
    assert |parts| >= 3 ==> ' ' in Join(parts[1..], " ") by {
      if |parts| >= 3 { JoinHoldsSeparator(parts[1..], ' '); }
    }
    assert |parts| == 2 ==> parts[1..] == [parts[1]];
    if |parts| >= 2 then Some(parts[1]) else None
  }

  /** A two-word name splits into its words under both splits. */
  lemma TwoWords(first: string, last: string)
    requires ' ' !in first && ' ' !in last
    ensures Split(first + " " + last, ' ') == [first, last]
    ensures FirstWord(first + " " + last) == first
    ensures RestWords(first + " " + last) == last
    ensures SecondWord(first + " " + last) == Some(last)
  {
    SplitAfterWord(first, ' ', last);
    SplitCount(last, ' ');
    assert Split(first + " " + last, ' ')[1..] == [last];
  }

  /** A name of three words has the middle word, not the last, as its second piece. */
  lemma ThreeWords(first: string, mid: string, last: string)
    requires ' ' !in first && ' ' !in mid && ' ' !in last
    ensures SecondWord(first + " " + mid + " " + last) == Some(mid)
  {
    var name := first + " " + mid + " " + last;
    assert name == first + [' '] + (mid + " " + last);
    SplitAfterWord(first, ' ', mid + " " + last);
    TwoWords(mid, last);
    assert Split(name, ' ') == [first, mid, last];
    assert FirstWord(name) == first;
    assert RestWords(name) == mid + " " + last;
  }

  /** The decimal digit character for `d`. */
  function DigitChar(d: nat): char
    requires d < 10
  {
    (48 + d) as char
  }

  /** The value of a decimal digit character. */
  function DigitValue(c: char): Option<nat> {
    if '0' <= c <= '9' then Some(c as int - 48) else None
  }

  predicate Digits(s: string) {
    forall k :: 0 <= k < |s| ==> '0' <= s[k] <= '9'
  }

  /** A numeral as `toString` writes a non-negative integer: digits, no leading zero. */
  predicate CanonicalNat(s: string) {
    |s| >= 1 && Digits(s) && (|s| >= 2 ==> s[0] != '0')
  }

  /** A numeral as `toString` writes an integer: a canonical one, or a minus sign before a non-zero one. */
  predicate CanonicalInt(s: string) {
    CanonicalNat(s) || (|s| >= 2 && s[0] == '-' && CanonicalNat(s[1..]) && s[1..] != "0")
  }

  /** `n.toString()` for a non-negative integer: its decimal digits, no leading zero. */
  function NatToDecimal(n: nat): (s: string)
    ensures CanonicalNat(s)
    ensures n >= 1 ==> s[0] != '0'
    decreases n
  {
    if n < 10 then [DigitChar(n)] else NatToDecimal(n / 10) + [DigitChar(n % 10)]
  }

  /** `n.toString()` for an integer: a minus sign before the digits of a negative one. */
  function IntToDecimal(n: int): (s: string)
    ensures CanonicalInt(s)
    ensures (s[0] == '-') <==> n < 0
  {
    if n < 0 then "-" + NatToDecimal(-n) else NatToDecimal(n)
  }

  /** Reads a non-empty run of decimal digits. */
  function ParseNat(s: string): Option<nat>
    decreases |s|
  {
    if s == [] then None
    else
      var last := DigitValue(s[|s| - 1]);
      if last.None? then None
      else if |s| == 1 then last
      else
        match ParseNat(s[..|s| - 1])
        case None => None
        case Some(high) => Some(high * 10 + last.value)
  }

  /** Reads an optionally negative decimal integer. */
  function ParseInt(s: string): Option<int> {
    if |s| >= 1 && s[0] == '-' then
      match ParseNat(s[1..])
      case None => None
      case Some(v) => Some(0 - v)
    else
      match ParseNat(s)
      case None => None
      case Some(v) => Some(v)
  }

  lemma {:induction false} ParseNatOfDecimal(n: nat)
    ensures ParseNat(NatToDecimal(n)) == Some(n)
    decreases n
  {
    var s := NatToDecimal(n);
    if n >= 10 {
      ParseNatOfDecimal(n / 10);
      assert s[..|s| - 1] == NatToDecimal(n / 10);
    }
  }

  /** The decimal rendering of an integer reads back as that integer, so it is injective. */
  lemma ParseIntOfDecimal(n: int)
    ensures ParseInt(IntToDecimal(n)) == Some(n)
  {
    var s := IntToDecimal(n);
    if n < 0 {
      ParseNatOfDecimal(-n);
      assert s[0] == '-' && s[1..] == NatToDecimal(-n);
    } else {
      ParseNatOfDecimal(n);
      assert '0' <= s[0] <= '9';
    }
  }

  /** A numeral that starts with a non-zero digit reads as a positive number. */
  lemma {:induction false} ParseNatPositive(s: string)
    requires |s| >= 1 && Digits(s) && s[0] != '0'
    ensures ParseNat(s).Some? && ParseNat(s).value >= 1
    decreases |s|
  {
    if |s| >= 2 {
      ParseNatPositive(s[..|s| - 1]);
    }
  }

  /** A canonical numeral is the rendering of the number it reads as. */
  lemma {:induction false} CanonicalNatIsRendering(s: string)
    requires CanonicalNat(s)
    ensures ParseNat(s).Some? && s == NatToDecimal(ParseNat(s).value)
    decreases |s|
  {
    var d := DigitValue(s[|s| - 1]).value;
    assert DigitChar(d) == s[|s| - 1];
    if |s| == 1 {
    } else {
      var high := s[..|s| - 1];
      ParseNatPositive(high);
      CanonicalNatIsRendering(high);
      var h := ParseNat(high).value;
      var n := h * 10 + d;
      assert n / 10 == h && n % 10 == d;
      assert s == high + [s[|s| - 1]];
    }
  }

  /**
   * The rendering is the only canonical numeral that reads as the integer:
   * so `toString` is pinned down by being canonical and reading back.
   */
  lemma DecimalIsUnique(s: string, n: int)
    requires CanonicalInt(s) && ParseInt(s) == Some(n)
    ensures s == IntToDecimal(n)
  {
    if CanonicalNat(s) {
      CanonicalNatIsRendering(s);
    } else {
      var digits := s[1..];
      CanonicalNatIsRendering(digits);
      assert ParseNat(digits).value != 0;
      assert s == "-" + digits;
    }
  }
}
