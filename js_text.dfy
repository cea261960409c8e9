/**
 * The JavaScript string primitives the formatter relies on, stated exactly.
 *
 * A JavaScript string is a sequence of UTF-16 code units; here a `string` is a
 * `seq<char>` in which each `char` stands for one code unit, so `|s|` is the
 * JavaScript `s.length`.
 */
module JsText {

  // ---------------------------------------------------------------------------
  // trim()
  // ---------------------------------------------------------------------------

  /**
   * The code units `String.prototype.trim` removes: ECMAScript's WhiteSpace
   * (tab, vertical tab, form feed, no-break space, byte order mark and the
   * Unicode space separators) and LineTerminator (LF, CR, LS, PS).
   */
  predicate IsJsWhitespace(c: char) {
    c == '\t' || c == '\n' || c == '\U{B}' || c == '\U{C}' || c == '\r' || c == ' '
    || c == '\U{A0}' || c == '\U{1680}' || ('\U{2000}' <= c <= '\U{200A}')
    || c == '\U{2028}' || c == '\U{2029}' || c == '\U{202F}' || c == '\U{205F}'
    || c == '\U{3000}' || c == '\U{FEFF}'
  }

  /** Every code unit of `s` is whitespace (this includes the empty string). */
  predicate IsBlank(s: string) {
    forall i :: 0 <= i < |s| ==> IsJsWhitespace(s[i])
  }

  /** `s` with its leading whitespace removed. */
  function TrimStart(s: string): (r: string)
    ensures |r| <= |s| && r == s[|s| - |r|..]
    ensures IsBlank(s[..|s| - |r|])
    ensures r == [] || !IsJsWhitespace(r[0])
  {
    if s != [] && IsJsWhitespace(s[0]) then TrimStart(s[1..]) else s
  }

  /** `s` with its trailing whitespace removed. */
  function TrimEnd(s: string): (r: string)
    ensures |r| <= |s| && r == s[..|r|]
    ensures IsBlank(s[|r|..])
    ensures r == [] || !IsJsWhitespace(r[|r| - 1])
  {
    if s != [] && IsJsWhitespace(s[|s| - 1]) then TrimEnd(s[..|s| - 1]) else s
  }

  /**
   * `s.trim()`: `s` without its leading and trailing whitespace. What remains
   * neither starts nor ends with whitespace.
   */
  function Trim(s: string): (r: string)
    ensures |r| <= |s|
    ensures r != [] ==> !IsJsWhitespace(r[0]) && !IsJsWhitespace(r[|r| - 1])
  {
    TrimEnd(TrimStart(s))
  }

  /**
   * `Trim` keeps an infix of `s` and cuts off nothing but whitespace on
   * either side.
   */
  lemma TrimIsInfix(s: string)
    ensures var r := Trim(s);
            exists a :: 0 <= a <= |s| - |r| && r == s[a..a + |r|]
                        && IsBlank(s[..a]) && IsBlank(s[a + |r|..])
  {
    var t := TrimStart(s);
    var r := TrimEnd(t);
    var a := |s| - |t|;
    assert r == s[a..a + |r|];
    assert s[a + |r|..] == t[|r|..];
  }

  /** Removing leading whitespace from a blank string leaves nothing. */
  lemma {:induction false} TrimStartOfBlank(s: string)
    requires IsBlank(s)
    ensures TrimStart(s) == []
  {
    if s != [] {
      assert IsBlank(s[1..]) by {
        forall i | 0 <= i < |s[1..]| ensures IsJsWhitespace(s[1..][i]) {
          assert s[1..][i] == s[i + 1];
        }
      }
      TrimStartOfBlank(s[1..]);
    }
  }

  /** `s.trim()` is empty exactly when `s` is blank. */
  lemma TrimEmptyIffBlank(s: string)
    ensures Trim(s) == [] <==> IsBlank(s)
  {
    var t := TrimStart(s);
    var r := TrimEnd(t);
    var a := |s| - |t|;
    if r == [] {
      // a blank `t` would have to be empty, since it starts with non-whitespace
      assert t[|r|..] == t;
      assert t == [];
      assert s[..a] == s;
    }
    if IsBlank(s) {
      TrimStartOfBlank(s);
    }
  }

  // ---------------------------------------------------------------------------
  // indexOf / includes
  // ---------------------------------------------------------------------------

  /** `sub` occurs in `s` starting at index `i`. */
  predicate OccursAt(s: string, sub: string, i: nat) {
    i + |sub| <= |s| && s[i..i + |sub|] == sub
  }

  /** `sub` occurs somewhere in `s`. */
  ghost predicate Contains(s: string, sub: string) {
    exists i: nat :: OccursAt(s, sub, i)
  }

  /**
   * `s.indexOf(sub, from)`: the first index at or after `from` where `sub`
   * occurs, or -1 when it occurs nowhere from there on.
   */
  function IndexOf(s: string, sub: string, from: nat): (r: int)
    requires from <= |s|
    ensures r == -1 || (from <= r && OccursAt(s, sub, r))
    ensures r == -1 <==> forall i: nat :: from <= i ==> !OccursAt(s, sub, i)
    ensures r >= 0 ==> forall i: nat :: from <= i < r ==> !OccursAt(s, sub, i)
    decreases |s| - from
  {
    if OccursAt(s, sub, from) then from
    else if from == |s| then -1
    else IndexOf(s, sub, from + 1)
  }

  /** `s.includes(sub)`. */
  function Includes(s: string, sub: string): (r: bool)
    ensures r <==> Contains(s, sub)
  {
    IndexOf(s, sub, 0) >= 0
  }

  // ---------------------------------------------------------------------------
  // split / join
  // ---------------------------------------------------------------------------

  /** `pieces.join(sep)`: the pieces with `sep` between neighbours; `""` for none. */
  function Join(pieces: seq<string>, sep: string): string {
    if |pieces| == 0 then ""
    else if |pieces| == 1 then pieces[0]
    else pieces[0] + sep + Join(pieces[1..], sep)
  }

  /**
   * The greedy left-to-right reading of `s` against `sep`: no occurrence of
   * `sep` starts inside a piece that is followed by a separator (such an
   * occurrence would lie in `piece + sep` minus its last code unit), and the
   * last piece has no occurrence at all.
   */
  ghost predicate LeftmostPieces(pieces: seq<string>, sep: string)
    requires sep != []
  {
    && (forall k :: 0 <= k < |pieces| - 1 ==> !Contains(pieces[k] + sep[..|sep| - 1], sep))
    && (|pieces| > 0 ==> !Contains(pieces[|pieces| - 1], sep))
  }

  /**
   * `s.split(sep)` for a non-empty separator: cut `s` at the first occurrence
   * of `sep`, skip the separator, and go on after it. There is always at least
   * one piece and joining the pieces with `sep` gives back `s`.
   */
  function Split(s: string, sep: string): (r: seq<string>)
    requires sep != []
    ensures |r| >= 1
    ensures Join(r, sep) == s
    decreases |s|
  {
    var i := IndexOf(s, sep, 0);
    if i < 0 then [s]
    else
      var rest := Split(s[i + |sep|..], sep);
      var r := [s[..i]] + rest;
      assert r[1..] == rest;
      assert s == s[..i] + sep + s[i + |sep|..];
      r
  }

  /** An occurrence inside a prefix of `s` is an occurrence in `s`. */
  lemma OccursInPrefix(s: string, n: nat, sub: string, j: nat)
    requires n <= |s| && OccursAt(s[..n], sub, j)
    ensures OccursAt(s, sub, j)
  {
    assert s[..n][j..j + |sub|] == s[j..j + |sub|];
  }

  /** An occurrence in `s` that ends by `n` is an occurrence in `s[..n]`. */
  lemma OccursInTake(s: string, n: nat, sub: string, j: nat)
    requires n <= |s| && OccursAt(s, sub, j) && j + |sub| <= n
    ensures OccursAt(s[..n], sub, j)
  {
    assert s[..n][j..j + |sub|] == s[j..j + |sub|];
  }

  /** The pieces of `Split` are the greedy leftmost ones. */
  lemma {:induction false} SplitIsLeftmost(s: string, sep: string)
    requires sep != []
    ensures LeftmostPieces(Split(s, sep), sep)
    decreases |s|
  {
    var i := IndexOf(s, sep, 0);
    var r := Split(s, sep);
    if i < 0 {
      assert r == [s];
    } else {
      var rest := Split(s[i + |sep|..], sep);
      SplitIsLeftmost(s[i + |sep|..], sep);
      assert r == [s[..i]] + rest;
      var head := s[..i] + sep[..|sep| - 1];
      assert head == s[..i + |sep| - 1];
      if Contains(head, sep) {
        var j: nat :| OccursAt(head, sep, j);
        OccursInPrefix(s, i + |sep| - 1, sep, j);
        assert false;
      }
      forall k | 0 <= k < |r| - 1
        ensures !Contains(r[k] + sep[..|sep| - 1], sep)
      {
        if k > 0 { assert r[k] == rest[k - 1]; }
      }
      assert r[|r| - 1] == rest[|rest| - 1];
    }
  }

  /**
   * When no occurrence of `sep` starts inside `a`, splitting `a + sep + b`
   * cuts right after `a` and goes on with `b`.
   */
  lemma SplitAfterFirst(a: string, sep: string, b: string)
    requires sep != []
    requires !Contains(a + sep[..|sep| - 1], sep)
    ensures Split(a + sep + b, sep) == [a] + Split(b, sep)
  {
    var s := a + sep + b;
    assert s[|a|..|a| + |sep|] == sep;
    assert OccursAt(s, sep, |a|);
    var i := IndexOf(s, sep, 0);
    assert i >= 0;
    assert a + sep[..|sep| - 1] == s[..|a| + |sep| - 1];
    if i < |a| {
      OccursInTake(s, |a| + |sep| - 1, sep, i);
    }
    assert i == |a|;
    assert s[..i] == a && s[i + |sep|..] == b;
  }

  /**
   * `Split` is the only way to read `s` as pieces joined by `sep` in greedy
   * leftmost fashion: any such reading is `Split(s, sep)`.
   */
  lemma {:induction false} SplitUnique(s: string, sep: string, pieces: seq<string>)
    requires sep != [] && |pieces| >= 1
    requires Join(pieces, sep) == s
    requires LeftmostPieces(pieces, sep)
    ensures pieces == Split(s, sep)
    decreases |pieces|
  {
    if |pieces| == 1 {
      assert s == pieces[0] && !Contains(s, sep);
    } else {
      var tail := Join(pieces[1..], sep);
      assert LeftmostPieces(pieces[1..], sep) by {
        forall k | 0 <= k < |pieces[1..]| - 1
          ensures !Contains(pieces[1..][k] + sep[..|sep| - 1], sep)
        {
          assert pieces[1..][k] == pieces[k + 1];
        }
      }
      SplitUnique(tail, sep, pieces[1..]);
      SplitAfterFirst(pieces[0], sep, tail);
      assert pieces == [pieces[0]] + pieces[1..];
    }
  }

  /** The parts of a concatenation of five strings sit at their offsets. */
  lemma ConcatParts(a: string, b: string, c: string, d: string, e: string)
    ensures var s := a + b + c + d + e;
            && |s| == |a| + |b| + |c| + |d| + |e|
            && s[..|a|] == a
            && s[|a|..|a| + |b|] == b
            && s[|a| + |b| + |c|..|s| - |e|] == d
  {
    var s := a + b + c + d + e;
    assert s == a + (b + (c + (d + e)));
    assert s[..|a|] == a;
    assert s[|a|..|a| + |b|] == b;
    assert s == (a + b + c) + d + e;
  }

  // ---------------------------------------------------------------------------
  // Number to decimal string
  // ---------------------------------------------------------------------------

  /** The code unit of the decimal digit `d`. */
  function DigitChar(d: nat): (c: char)
    requires d < 10
    ensures '0' <= c <= '9'
  {
    (('0' as int) + d) as char
  }

  /** The value of a decimal digit code unit. */
  function DigitValue(c: char): (d: nat)
    requires '0' <= c <= '9'
    ensures d < 10 && DigitChar(d) == c
  {
    (c as int) - ('0' as int)
  }

  predicate IsDigits(s: string) {
    forall i :: 0 <= i < |s| ==> '0' <= s[i] <= '9'
  }

  /**
   * How a JavaScript template literal renders a non-negative integer: its
   * decimal digits, at least one, with no leading zero.
   */
  function DecimalString(n: nat): (r: string)
    ensures |r| >= 1 && IsDigits(r)
    ensures r[0] == '0' ==> n == 0
  {
    if n < 10 then [DigitChar(n)] else DecimalString(n / 10) + [DigitChar(n % 10)]
  }

  /** The number a string of decimal digits denotes. */
  function ParseDecimal(s: string): nat
    requires IsDigits(s)
  {
    if s == [] then 0 else 10 * ParseDecimal(s[..|s| - 1]) + DigitValue(s[|s| - 1])
  }

  /** Reading back the decimal rendering of `n` gives `n`. */
  lemma {:induction false} ParseDecimalString(n: nat)
    ensures ParseDecimal(DecimalString(n)) == n
  {
    var r := DecimalString(n);
    if n < 10 {
      assert r[..0] == [];
    } else {
      ParseDecimalString(n / 10);
      assert r[..|r| - 1] == DecimalString(n / 10);
    }
  }

  /** Different numbers render differently. */
  lemma DecimalStringInjective(m: nat, n: nat)
    requires DecimalString(m) == DecimalString(n)
    ensures m == n
  {
    ParseDecimalString(m);
    ParseDecimalString(n);
  }
}
