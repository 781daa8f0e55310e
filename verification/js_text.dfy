/** The fragment of JavaScript string and number semantics the profile
    manager relies on: `String.prototype.split` with a one-character
    separator, `Number(text)`, `parseInt(text)`, and the rendering of a
    number inside a template literal. */
module JsText {
  import opened Wrappers

  /** A JavaScript number obtained from text: either `NaN` or an integer. */
  datatype JsNumber = NaN | Num(value: int)

  predicate IsDigit(c: char) {
    '0' <= c <= '9'
  }

  predicate AllDigits(s: string) {
    forall i :: 0 <= i < |s| ==> IsDigit(s[i])
  }

  /** Decimal text in canonical form: non-empty digits, no leading zero
      unless the number is zero itself. */
  predicate Canonical(s: string) {
    |s| > 0 && AllDigits(s) && (s[0] == '0' ==> |s| == 1)
  }

  function DigitValue(c: char): (d: nat)
    requires IsDigit(c)
    ensures d < 10
  {
    (c as int) - ('0' as int)
  }

  function DigitChar(d: nat): (c: char)
    requires d < 10
    ensures IsDigit(c) && DigitValue(c) == d
  {
    ('0' as int + d) as char
  }

  /** The value of a string of decimal digits, most significant first. */
  function DigitsValue(s: string): nat
    requires AllDigits(s)
  {
    if |s| == 0 then 0 else 10 * DigitsValue(s[..|s| - 1]) + DigitValue(s[|s| - 1])
  }

  /** The canonical decimal text of a natural number. */
  function Decimal(n: nat): (r: string)
    ensures Canonical(r)
  {
    if n < 10 then [DigitChar(n)] else Decimal(n / 10) + [DigitChar(n % 10)]
  }

  // ---------------------------------------------------------------------
  // Number(text), parseInt(text) and `${number}`
  // ---------------------------------------------------------------------

  /** `Number(s)`: the empty string is 0, an optionally signed run of
      decimal digits is its value, anything else is NaN. */
  function ToNumber(s: string): (r: JsNumber)
    ensures s == "" ==> r == Num(0)
    ensures |s| > 0 && 'a' <= s[0] <= 'z' ==> r == NaN
    ensures r.Num? && r.value < 0 ==> s[0] == '-'
  {
    if |s| == 0 then Num(0)
    else if (s[0] == '+' || s[0] == '-') && |s| > 1 && AllDigits(s[1..]) then
      Num(if s[0] == '-' then -(DigitsValue(s[1..]) as int) else DigitsValue(s[1..]))
    else if AllDigits(s) then Num(DigitsValue(s))
    else NaN
  }

  /** `Number(x)` where `x` may be `undefined` (which converts to NaN). */
  function ToNumberOpt(x: Option<string>): JsNumber {
    match x
    case None => NaN
    case Some(s) => ToNumber(s)
  }

  /** The longest prefix of `s` made of decimal digits. */
  function DigitPrefix(s: string): (r: string)
    ensures r <= s && AllDigits(r)
    ensures |r| < |s| ==> !IsDigit(s[|r|])
  {
    if |s| == 0 || !IsDigit(s[0]) then "" else [s[0]] + DigitPrefix(s[1..])
  }

  /** `parseInt(s)`: an optional sign, then the longest run of decimal
      digits; trailing text is ignored, and no digits at all gives NaN. */
  function ParseInt(s: string): (r: JsNumber)
    ensures |s| > 0 && IsDigit(s[0]) ==> r.Num? && r.value >= 0
    ensures |s| > 0 && 'a' <= s[0] <= 'z' ==> r == NaN
    ensures s == "" ==> r == NaN
  {
    var negative := |s| > 0 && s[0] == '-';
    var body := if |s| > 0 && (s[0] == '-' || s[0] == '+') then s[1..] else s;
    var digits := DigitPrefix(body);
    if |digits| == 0 then NaN
    else Num(if negative then -(DigitsValue(digits) as int) else DigitsValue(digits))
  }

  /** `parseInt(x)` where `x` may be `undefined` (which parses as NaN). */
  function ParseIntOpt(x: Option<string>): JsNumber {
    match x
    case None => NaN
    case Some(s) => ParseInt(s)
  }

  /** A number rendered by a template literal: `${n}`. */
  function ToText(n: JsNumber): (r: string)
    ensures r == "NaN" <==> n.NaN?
    ensures n.Num? && n.value >= 0 ==> Canonical(r)
    ensures n.Num? && n.value < 0 ==> |r| > 1 && r[0] == '-' && Canonical(r[1..])
  {
    match n
    case NaN => "NaN"
    case Num(v) =>
      var r := if v < 0 then "-" + Decimal(-v) else Decimal(v);
      assert r[0] == '-' || IsDigit(r[0]);
      assert r != "NaN" by { assert "NaN"[0] == 'N'; }
      r
  }

  /** A possibly `undefined` string rendered by a template literal. */
  function Render(x: Option<string>): string {
    match x
    case None => "undefined"
    case Some(s) => s
  }

  /** `n > bound` in JavaScript: every comparison with NaN is false. */
  predicate GreaterThan(n: JsNumber, bound: int) {
    n.Num? && n.value > bound
  }

  // ---------------------------------------------------------------------
  // String.prototype.split with a one-character separator
  // ---------------------------------------------------------------------

  /** `s.split(sep)`: the maximal separator-free pieces of `s`, in order;
      never empty (the empty string splits into one empty piece). */
  function Split(s: string, sep: char): (parts: seq<string>)
    ensures |parts| > 0
  {
    if |s| == 0 then [""] else PushChar(s[0], Split(s[1..], sep), sep)
  }

  /** The split of `[c] + t` from the split of `t`: a separator starts a
      new empty piece, any other character joins the first piece. */
  function PushChar(c: char, parts: seq<string>, sep: char): (r: seq<string>)
    requires |parts| > 0
    ensures |r| > 0
  {
    if c == sep then [""] + parts else [[c] + parts[0]] + parts[1..]
  }

  lemma PushCharAppend(c: char, x: seq<string>, y: seq<string>, sep: char)
    requires |x| > 0
    ensures PushChar(c, x + y, sep) == PushChar(c, x, sep) + y
  {
    if c != sep {
      assert (x + y)[0] == x[0];
      assert (x + y)[1..] == x[1..] + y;
    }
  }

  /** `parts.join(sep)`. */
  function Join(parts: seq<string>, sep: char): string {
    if |parts| == 0 then ""
    else if |parts| == 1 then parts[0]
    else parts[0] + [sep] + Join(parts[1..], sep)
  }

  /** Array-destructuring element `i`: `undefined` past the end. */
  function Field(parts: seq<string>, i: nat): Option<string> {
    if i < |parts| then Some(parts[i]) else None
  }

  // ---------------------------------------------------------------------
  // Lemmas
  // ---------------------------------------------------------------------

  /** Joining the pieces of a split gives back the original text. */
  lemma {:induction false} JoinSplit(s: string, sep: char)
    ensures Join(Split(s, sep), sep) == s
  {
    if |s| > 0 {
      var rest := Split(s[1..], sep);
      JoinSplit(s[1..], sep);
      if s[0] == sep {
        assert ([""] + rest)[1..] == rest;
      } else {
        var parts := Split(s, sep);
        assert parts == [[s[0]] + rest[0]] + rest[1..];
        if |rest| == 1 {
          assert Join(rest, sep) == rest[0];
        } else {
          assert Join(rest, sep) == rest[0] + [sep] + Join(rest[1..], sep);
          assert parts[1..] == rest[1..];
        }
        assert s == [s[0]] + s[1..];
      }
    }
  }

  /** No piece of a split holds the separator. */
  lemma {:induction false} SplitPiecesFree(s: string, sep: char)
    ensures forall i :: 0 <= i < |Split(s, sep)| ==> sep !in Split(s, sep)[i]
  {
    if |s| > 0 {
      SplitPiecesFree(s[1..], sep);
      var rest := Split(s[1..], sep);
      if s[0] != sep {
        assert sep !in [s[0]] + rest[0];
      }
    }
  }

  /** A text without the separator is a single piece. */
  lemma {:induction false} SplitNoSeparator(s: string, sep: char)
    requires sep !in s
    ensures Split(s, sep) == [s]
  {
    if |s| > 0 {
      SplitNoSeparator(s[1..], sep);
      assert [s[0]] + s[1..] == s;
    }
  }

  /** Splitting at a separator occurrence splits the two sides apart. */
  lemma {:induction false} SplitAppend(a: string, b: string, sep: char)
    ensures Split(a + [sep] + b, sep) == Split(a, sep) + Split(b, sep)
  {
    var s := a + [sep] + b;
    if |a| == 0 {
      assert s[1..] == b;
    } else {
      assert s[0] == a[0];
      assert s[1..] == a[1..] + [sep] + b;
      SplitAppend(a[1..], b, sep);
      PushCharAppend(a[0], Split(a[1..], sep), Split(b, sep), sep);
    }
  }

  /** Splitting undoes joining, for separator-free pieces. */
  lemma {:induction false} SplitJoin(parts: seq<string>, sep: char)
    requires |parts| > 0
    requires forall i :: 0 <= i < |parts| ==> sep !in parts[i]
    ensures Split(Join(parts, sep), sep) == parts
  {
    if |parts| == 1 {
      SplitNoSeparator(parts[0], sep);
    } else {
      SplitNoSeparator(parts[0], sep);
      SplitJoin(parts[1..], sep);
      SplitAppend(parts[0], Join(parts[1..], sep), sep);
      assert [parts[0]] + parts[1..] == parts;
    }
  }

  /** A split of `w` joined to `h` by the separator, when `w` holds no
      separator, has `w` first and `h`'s pieces after it. */
  lemma SplitFirst(w: string, h: string, sep: char)
    requires sep !in w
    ensures Split(w + [sep] + h, sep) == [w] + Split(h, sep)
  {
    SplitAppend(w, h, sep);
    SplitNoSeparator(w, sep);
  }

  lemma {:induction false} LeadingDigitBound(s: string)
    requires |s| > 0 && AllDigits(s)
    ensures DigitsValue(s) >= DigitValue(s[0])
  {
    if |s| > 1 {
      LeadingDigitBound(s[..|s| - 1]);
    }
  }

  /** Reading back the decimal text of `n` gives `n`. */
  lemma {:induction false} DecimalValue(n: nat)
    ensures DigitsValue(Decimal(n)) == n
  {
    if n >= 10 {
      var d := Decimal(n / 10);
      DecimalValue(n / 10);
      var s := d + [DigitChar(n % 10)];
      assert s[..|s| - 1] == d;
    }
  }

  /** Writing out the value of canonical decimal text gives that text. */
  lemma {:induction false} ValueDecimal(s: string)
    requires Canonical(s)
    ensures Decimal(DigitsValue(s)) == s
  {
    if |s| == 1 {
      assert [s[0]] == s;
    } else {
      var p := s[..|s| - 1];
      assert p[0] == s[0];
      LeadingDigitBound(p);
      ValueDecimal(p);
      var v := DigitsValue(s);
      assert v / 10 == DigitsValue(p) && v % 10 == DigitValue(s[|s| - 1]);
      assert p + [s[|s| - 1]] == s;
    }
  }

  /** `${Number(s)}` gives back `s` for canonical decimal text. */
  lemma NumberTextRoundTrip(s: string)
    requires Canonical(s)
    ensures ToNumber(s) == Num(DigitsValue(s))
    ensures ToText(ToNumber(s)) == s
  {
    ValueDecimal(s);
  }

  /** `Number(`${n}`)` gives back every integer `n`. */
  lemma TextNumberRoundTrip(v: int)
    ensures ToNumber(ToText(Num(v))) == Num(v)
  {
    if v < 0 {
      var t := "-" + Decimal(-v);
      assert t[1..] == Decimal(-v);
      DecimalValue(-v);
    } else {
      DecimalValue(v);
    }
  }

  /** On plain digits `parseInt` and `Number` agree. */
  lemma {:induction false} ParseIntDigits(s: string)
    requires |s| > 0 && AllDigits(s)
    ensures ParseInt(s) == ToNumber(s) == Num(DigitsValue(s))
  {
    DigitPrefixAll(s);
  }

  /** Wherever `Number` reads an integer from non-empty text, `parseInt`
      reads the same one. */
  lemma NumberAgreesWithParseInt(s: string)
    requires s != "" && ToNumber(s).Num?
    ensures ParseInt(s) == ToNumber(s)
  {
    if (s[0] == '+' || s[0] == '-') && |s| > 1 && AllDigits(s[1..]) {
      DigitPrefixAll(s[1..]);
    } else {
      DigitPrefixAll(s);
    }
  }

  /** `parseInt` stops at the first character that is not a digit: text
      after a leading digit run never changes its result. */
  lemma ParseIntIgnoresTail(a: string, t: string)
    requires |a| > 0 && AllDigits(a)
    requires t == "" || !IsDigit(t[0])
    ensures ParseInt(a + t) == Num(DigitsValue(a))
  {
    DigitPrefixStops(a, t);
  }

  lemma {:induction false} DigitPrefixStops(a: string, t: string)
    requires AllDigits(a)
    requires t == "" || !IsDigit(t[0])
    ensures DigitPrefix(a + t) == a
  {
    if |a| == 0 {
      assert a + t == t;
    } else {
      DigitPrefixStops(a[1..], t);
      assert (a + t)[1..] == a[1..] + t;
      assert [a[0]] + a[1..] == a;
    }
  }

  lemma {:induction false} DigitPrefixAll(s: string)
    requires AllDigits(s)
    ensures DigitPrefix(s) == s
  {
    if |s| > 0 {
      DigitPrefixAll(s[1..]);
      assert [s[0]] + s[1..] == s;
    }
  }
}
