/** The JavaScript string built-ins the editor's logic relies on, on strings
    as sequences of Unicode scalar values: `trim`, the regular-expression
    class `\s`, `split`/`join` on one separator character, `parseInt` with the
    default radix, and upper-casing the first character. */
module Text {
  import opened Wrappers

  /** LineTerminator code points of ECMAScript (also what `.` refuses to match). */
  predicate IsLineTerminator(c: char) {
    c == '\n' || c == '\r' || c == '\U{2028}' || c == '\U{2029}'
  }

  /** WhiteSpace or LineTerminator: the set `trim` strips and `\s` matches. */
  predicate IsWhiteSpace(c: char) {
    || IsLineTerminator(c)
    || c == '\t' || c == '\U{000B}' || c == '\U{000C}' || c == ' '
    || c == '\U{00A0}' || c == '\U{FEFF}' || c == '\U{1680}'
    || ('\U{2000}' <= c <= '\U{200A}')
    || c == '\U{202F}' || c == '\U{205F}' || c == '\U{3000}'
  }

  predicate AllWhite(s: string) {
    forall i :: 0 <= i < |s| ==> IsWhiteSpace(s[i])
  }

  /** `s.trimStart()`: the longest suffix of `s` that does not begin with white space. */
  function TrimStart(s: string): string {
    if |s| > 0 && IsWhiteSpace(s[0]) then TrimStart(s[1..]) else s
  }

  /** What `trimStart` returns: a suffix, what it drops is white space, and it
      does not begin with white space. */
  lemma {:induction false} TrimStartSpec(s: string)
    ensures var r := TrimStart(s);
      && |r| <= |s| && r == s[|s| - |r|..]
      && AllWhite(s[..|s| - |r|])
      && (r == [] || !IsWhiteSpace(r[0]))
  {
    if |s| > 0 && IsWhiteSpace(s[0]) {
      TrimStartSpec(s[1..]);
      var r := TrimStart(s);
      assert s[|s| - |r|..] == s[1..][|s| - 1 - |r|..];
      forall i | 0 <= i < |s| - |r| ensures IsWhiteSpace(s[i]) {
        if i > 0 {
          assert s[i] == s[1..][..|s| - 1 - |r|][i - 1];
        }
      }
    } else {
      assert s[0..] == s;
    }
  }

  /** `s.trimEnd()`: the longest prefix of `s` that does not end with white space. */
  function TrimEnd(s: string): string {
    if |s| > 0 && IsWhiteSpace(s[|s| - 1]) then TrimEnd(s[..|s| - 1]) else s
  }

  /** What `trimEnd` returns: a prefix, what it drops is white space, and it
      does not end with white space. */
  lemma {:induction false} TrimEndSpec(s: string)
    ensures var r := TrimEnd(s);
      && |r| <= |s| && r == s[..|r|]
      && AllWhite(s[|r|..])
      && (r == [] || !IsWhiteSpace(r[|r| - 1]))
  {
    if |s| > 0 && IsWhiteSpace(s[|s| - 1]) {
      var init := s[..|s| - 1];
      TrimEndSpec(init);
      var r := TrimEnd(s);
      assert r == init[..|r|];
      forall i | |r| <= i < |s| ensures IsWhiteSpace(s[i]) {
        if i < |s| - 1 {
          assert s[i] == init[|r|..][i - |r|];
        }
      }
    } else {
      assert s[..|s|] == s;
    }
  }

  /** `s.trim()`. */
  function Trim(s: string): string {
    TrimEnd(TrimStart(s))
  }

  /** `s.trim() === ''`. */
  predicate IsBlank(s: string) {
    Trim(s) == ""
  }

  /** A string is blank exactly when every character of it is white space;
      in particular "" is blank and a string of spaces is blank. */
  lemma BlankIffAllWhite(s: string)
    ensures IsBlank(s) <==> AllWhite(s)
  {
    TrimStartSpec(s);
    var t := TrimStart(s);
    TrimEndSpec(t);
    var r := TrimEnd(t);
    assert s[..|s|] == s;
    if t != [] {
      assert t[0] == s[|s| - |t|];
    }
    if |r| < |t| {
      assert t[|r|..][0] == t[|r|];
    }
  }

  lemma {:induction false} TrimStartAppend(a: string, w: string)
    requires !AllWhite(a)
    ensures TrimStart(a + w) == TrimStart(a) + w
    decreases |a|
  {
    assert |a| > 0;
    if IsWhiteSpace(a[0]) {
      assert (a + w)[1..] == a[1..] + w;
      assert !AllWhite(a[1..]) by {
        var i :| 0 <= i < |a| && !IsWhiteSpace(a[i]);
        assert a[1..][i - 1] == a[i];
      }
      TrimStartAppend(a[1..], w);
    }
  }

  lemma {:induction false} TrimEndAppendWhite(a: string, w: string)
    requires AllWhite(w)
    ensures TrimEnd(a + w) == TrimEnd(a)
    decreases |w|
  {
    if |w| > 0 {
      assert (a + w)[..|a + w| - 1] == a + w[..|w| - 1];
      TrimEndAppendWhite(a, w[..|w| - 1]);
    } else {
      assert a + w == a;
    }
  }

  /** Trailing white space does not change what `trim` returns. */
  lemma TrimAppendWhite(a: string, w: string)
    requires AllWhite(w)
    ensures Trim(a + w) == Trim(a)
  {
    if AllWhite(a) {
      assert AllWhite(a + w);
      BlankIffAllWhite(a + w);
      BlankIffAllWhite(a);
    } else {
      TrimStartAppend(a, w);
      TrimEndAppendWhite(TrimStart(a), w);
    }
  }

  /** Index of the first occurrence of `c` in `s` (`s.indexOf(c)`, absent for -1). */
  function IndexOf(s: string, c: char): (r: Option<nat>)
    ensures r.None? <==> c !in s
    ensures r.Some? ==> r.value < |s| && s[r.value] == c && c !in s[..r.value]
  {
    if |s| == 0 then None
    else if s[0] == c then Some(0)
    else match IndexOf(s[1..], c)
      case None => None
      case Some(i) => Some(i + 1)
  }

  /** `s.split(sep)` for a one-character separator: the pieces between separators, in order. */
  function Split(s: string, sep: char): (parts: seq<string>)
    ensures |parts| >= 1
    ensures forall k :: 0 <= k < |parts| ==> sep !in parts[k]
    decreases |s|
  {
    match IndexOf(s, sep)
    case None => [s]
    case Some(i) => [s[..i]] + Split(s[i + 1..], sep)
  }

  /** `parts.join(sep)`. */
  function Join(parts: seq<string>, sep: char): string {
    if |parts| == 0 then ""
    else if |parts| == 1 then parts[0]
    else parts[0] + [sep] + Join(parts[1..], sep)
  }

  /** Joining the pieces of a split with the same separator gives the string back. */
  lemma {:induction false} JoinSplit(s: string, sep: char)
    ensures Join(Split(s, sep), sep) == s
    decreases |s|
  {
    match IndexOf(s, sep)
    case None =>
    case Some(i) =>
      var rest := Split(s[i + 1..], sep);
      JoinSplit(s[i + 1..], sep);
      assert Split(s, sep)[1..] == rest;
      calc {
        Join(Split(s, sep), sep);
        s[..i] + [sep] + Join(rest, sep);
        s[..i] + [sep] + s[i + 1..];
        { assert s[i] == sep; }
        s;
      }
  }

  /** Splitting at the first separator: `split` yields at least two pieces
      exactly when `sep` occurs, the first piece is the text before its first
      occurrence, and the remaining pieces rejoined are the text after it. */
  lemma SplitAtFirst(s: string, sep: char)
    ensures |Split(s, sep)| >= 2 <==> sep in s
    ensures sep in s ==>
      var i := IndexOf(s, sep).value;
      Split(s, sep)[0] == s[..i] && Join(Split(s, sep)[1..], sep) == s[i + 1..]
  {
    if sep in s {
      var i := IndexOf(s, sep).value;
      assert Split(s, sep)[1..] == Split(s[i + 1..], sep);
      JoinSplit(s[i + 1..], sep);
    }
  }

  /** The first occurrence of `sep` in `a + [sep] + b` is at `|a|` when `a` has none. */
  lemma IndexOfAfterPrefix(a: string, sep: char, b: string)
    requires sep !in a
    ensures IndexOf(a + [sep] + b, sep) == Some(|a|)
  {
    var s := a + [sep] + b;
    assert s[|a|] == sep;
  }

  /** `c.toUpperCase()` for the ASCII letters; other characters are left as they are. */
  function ToUpper(c: char): char {
    if 'a' <= c <= 'z' then (c as int - 32) as char else c
  }

  /** `s.charAt(0).toUpperCase() + s.slice(1)`. */
  function UpperFirst(s: string): (r: string)
    ensures |r| == |s|
  {
    if s == "" then "" else [ToUpper(s[0])] + s[1..]
  }

  predicate IsDigit(c: char) {
    '0' <= c <= '9'
  }

  predicate AllDigits(s: string) {
    forall i :: 0 <= i < |s| ==> IsDigit(s[i])
  }

  /** Length of the run of decimal digits that starts `s`. */
  function DigitRun(s: string): (n: nat)
    ensures n <= |s| && AllDigits(s[..n])
    ensures n < |s| ==> !IsDigit(s[n])
  {
    if |s| > 0 && IsDigit(s[0]) then 1 + DigitRun(s[1..]) else 0
  }

  /** The value of a string of decimal digits, most significant first. */
  function DigitsValue(ds: string): nat
    requires AllDigits(ds)
  {
    if ds == [] then 0 else DigitsValue(ds[..|ds| - 1]) * 10 + (ds[|ds| - 1] as int - '0' as int)
  }

  /** `parseInt(s)` with the default radix: leading white space is skipped, one
      optional sign is read, then the longest run of decimal digits; no digit
      gives NaN, shown here as None. */
  function ParseInt(s: string): Option<int> {
    var t := TrimStart(s);
    var negative := |t| > 0 && t[0] == '-';
    var u := if |t| > 0 && (t[0] == '-' || t[0] == '+') then t[1..] else t;
    var n := DigitRun(u);
    var magnitude: int := if n == 0 then 0 else DigitsValue(u[..n]);
    if n == 0 then None
    else if negative then Some(-magnitude)
    else Some(magnitude)
  }

  function DigitChar(d: nat): char
    requires d < 10
  {
    ('0' as int + d) as char
  }

  /** Decimal text of a natural number, without leading zeros. */
  function ShowNat(n: nat): (r: string)
    ensures |r| > 0 && AllDigits(r)
  {
    if n < 10 then [DigitChar(n)] else ShowNat(n / 10) + [DigitChar(n % 10)]
  }

  /** Decimal text of an integer, as a number field holds it. */
  function ShowInt(n: int): string {
    if n < 0 then "-" + ShowNat(-n) else ShowNat(n)
  }

  lemma {:induction false} DigitsValueShowNat(n: nat)
    ensures DigitsValue(ShowNat(n)) == n
  {
    if n >= 10 {
      var s := ShowNat(n);
      assert s[..|s| - 1] == ShowNat(n / 10);
      DigitsValueShowNat(n / 10);
    }
  }

  lemma {:induction false} DigitRunAll(s: string)
    requires AllDigits(s)
    ensures DigitRun(s) == |s|
    decreases |s|
  {
    if |s| > 0 {
      DigitRunAll(s[1..]);
    }
  }

  /** `parseInt` reads back the decimal text of every integer. */
  lemma ParseShowInt(n: int)
    ensures ParseInt(ShowInt(n)) == Some(n)
  {
    var s := ShowInt(n);
    var m: nat := if n < 0 then -n else n;
    var digits := ShowNat(m);
    assert !IsWhiteSpace(s[0]);
    assert TrimStart(s) == s;
    var u := if n < 0 then s[1..] else s;
    assert u == digits;
    DigitRunAll(digits);
    assert u[..|u|] == digits;
    DigitsValueShowNat(m);
  }
}
