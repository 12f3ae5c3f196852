/**
 * The few JavaScript and SQLite string primitives the request pipeline relies on:
 * `String.prototype.trim`, SQLite's `trim(X)`, `toLowerCase` (ASCII letters only),
 * `includes`, `startsWith` and the decimal rendering of a status code in a
 * template literal.
 */
module Text {

  /** ECMAScript WhiteSpace and LineTerminator code points: what `String.prototype.trim` removes. */
  predicate JsBlank(c: char) {
    || '\t' <= c <= '\r'          // tab, line feed, vertical tab, form feed, carriage return
    || c == ' ' || c == '\U{00A0}' || c == '\U{1680}'
    || '\U{2000}' <= c <= '\U{200A}'
    || c == '\U{2028}' || c == '\U{2029}' || c == '\U{202F}' || c == '\U{205F}'
    || c == '\U{3000}' || c == '\U{FEFF}'
  }

  /** What SQLite's one-argument `trim(X)` removes: U+0020 only. */
  predicate SqlBlank(c: char) {
    c == ' '
  }

  predicate AllBlank(blank: char -> bool, s: string) {
    forall i | 0 <= i < |s| :: blank(s[i])
  }

  /** True when `s` neither starts nor ends with a blank. */
  predicate Tight(blank: char -> bool, s: string) {
    s == [] || (!blank(s[0]) && !blank(s[|s| - 1]))
  }

  /** Drops the leading blanks: what remains is a suffix of `s` that does not start with a blank. */
  function TrimStart(blank: char -> bool, s: string): (r: string)
    ensures |r| <= |s| && r == s[|s| - |r|..]
    ensures AllBlank(blank, s[..|s| - |r|])
    ensures r == [] || !blank(r[0])
  {
    if s != [] && blank(s[0]) then TrimStart(blank, s[1..]) else s
  }

  /** Drops the trailing blanks: what remains is a prefix of `s` that does not end with a blank. */
  function TrimEnd(blank: char -> bool, s: string): (r: string)
    ensures |r| <= |s| && r == s[..|r|]
    ensures AllBlank(blank, s[|r|..])
    ensures r == [] || !blank(r[|r| - 1])
  {
    if s != [] && blank(s[|s| - 1]) then TrimEnd(blank, s[..|s| - 1]) else s
  }

  /** Number of blanks `Trim` removes from the front of `s`. */
  function LeadingBlanks(blank: char -> bool, s: string): nat {
    |s| - |TrimStart(blank, s)|
  }

  /**
   * `s` with its blank prefix and blank suffix removed: the result is the slice of `s`
   * between two runs of blanks, and it starts and ends with a non-blank.
   */
  function Trim(blank: char -> bool, s: string): (r: string)
    ensures LeadingBlanks(blank, s) + |r| <= |s|
    ensures r == s[LeadingBlanks(blank, s)..LeadingBlanks(blank, s) + |r|]
    ensures AllBlank(blank, s[..LeadingBlanks(blank, s)])
    ensures AllBlank(blank, s[LeadingBlanks(blank, s) + |r|..])
    ensures Tight(blank, r)
  {
    var t := TrimStart(blank, s);
    var r := TrimEnd(blank, t);
    TrimSlices(s, t, r, |s| - |t|);
    r
  }

  lemma TrimSlices(s: string, t: string, r: string, k: nat)
    requires k <= |s| && t == s[k..] && |r| <= |t| && r == t[..|r|]
    ensures k + |r| <= |s| && r == s[k..k + |r|] && t[|r|..] == s[k + |r|..]
  {
  }

  /** A string without blank ends is left alone by `Trim`. */
  lemma TrimTight(blank: char -> bool, s: string)
    requires Tight(blank, s)
    ensures Trim(blank, s) == s
  {
  }

  /** Trimming twice is trimming once. */
  lemma TrimIdempotent(blank: char -> bool, s: string)
    ensures Trim(blank, Trim(blank, s)) == Trim(blank, s)
  {
    TrimTight(blank, Trim(blank, s));
  }

  lemma {:induction false} TrimStartPadded(blank: char -> bool, pre: string, u: string)
    requires AllBlank(blank, pre) && (u == [] || !blank(u[0]))
    ensures TrimStart(blank, pre + u) == u
  {
    if pre != [] {
      assert (pre + u)[1..] == pre[1..] + u;
      TrimStartPadded(blank, pre[1..], u);
    } else {
      assert pre + u == u;
    }
  }

  lemma {:induction false} TrimEndPadded(blank: char -> bool, u: string, post: string)
    requires AllBlank(blank, post) && (u == [] || !blank(u[|u| - 1]))
    ensures TrimEnd(blank, u + post) == u
  {
    if post != [] {
      assert (u + post)[..|u + post| - 1] == u + post[..|post| - 1];
      TrimEndPadded(blank, u, post[..|post| - 1]);
    } else {
      assert u + post == u;
    }
  }

  /** Surrounding blanks of any length are removed and nothing else is. */
  lemma TrimPadded(blank: char -> bool, pre: string, s: string, post: string)
    requires AllBlank(blank, pre) && AllBlank(blank, post) && Tight(blank, s)
    ensures Trim(blank, pre + s + post) == s
  {
    if s == [] {
      assert AllBlank(blank, pre + s + post);
      TrimEmptyIff(blank, pre + s + post);
    } else {
      assert pre + s + post == pre + (s + post);
      TrimStartPadded(blank, pre, s + post);
      TrimEndPadded(blank, s, post);
    }
  }

  /** A trim yields the empty string exactly when every character is blank. */
  lemma TrimEmptyIff(blank: char -> bool, s: string)
    ensures Trim(blank, s) == [] <==> AllBlank(blank, s)
  {
    var k := LeadingBlanks(blank, s);
    if Trim(blank, s) == [] {
      assert k == |s|;
      forall i | 0 <= i < |s| ensures blank(s[i]) {
        assert s[..k][i] == s[i];
      }
    } else {
      var r := Trim(blank, s);
      assert s[k] == r[0];
    }
  }

  /**
   * A string that is non-empty after the JavaScript trim passes SQLite's
   * `length(trim(x)) >= 1` check: the first character left is not even a space.
   */
  lemma JsTrimmedIsSqlTight(s: string)
    requires Trim(JsBlank, s) != []
    ensures Trim(SqlBlank, Trim(JsBlank, s)) == Trim(JsBlank, s)
    ensures |Trim(SqlBlank, Trim(JsBlank, s))| >= 1
    ensures !AllBlank(SqlBlank, Trim(JsBlank, s))
  {
    var r := Trim(JsBlank, s);
    assert !SqlBlank(r[0]) && !SqlBlank(r[|r| - 1]);
    TrimTight(SqlBlank, r);
  }

  /**
   * A JavaScript string's `length`: UTF-16 code units, so a character outside
   * the Basic Multilingual Plane counts twice.
   */
  function Utf16Length(s: string): (n: nat)
    ensures |s| <= n <= 2 * |s|
    ensures n == 0 <==> s == []
  {
    if s == [] then 0 else (if s[0] as int > 0xFFFF then 2 else 1) + Utf16Length(s[1..])
  }

  /** Within the Basic Multilingual Plane the UTF-16 length is the number of characters. */
  lemma {:induction false} BmpUtf16Length(s: string)
    requires forall i | 0 <= i < |s| :: s[i] as int <= 0xFFFF
    ensures Utf16Length(s) == |s|
  {
    if s != [] {
      assert forall i | 0 <= i < |s[1..]| :: s[1..][i] == s[i + 1];
      BmpUtf16Length(s[1..]);
    }
  }

  /** Three emoji are three characters but six UTF-16 code units. */
  lemma EmojiCountTwice()
    ensures |"\U{1F600}\U{1F600}\U{1F600}"| == 3
    ensures Utf16Length("\U{1F600}\U{1F600}\U{1F600}") == 6
  {
    var e := "\U{1F600}\U{1F600}\U{1F600}";
    assert e[1..][1..][1..] == [];
  }

  /** ASCII lower-casing of one character. */
  function LowerChar(c: char): char {
    if 'A' <= c <= 'Z' then (c as int + 32) as char else c
  }

  /** `toLowerCase`, restricted to ASCII letters. */
  function ToLower(s: string): (r: string)
    ensures |r| == |s|
  {
    seq(|s|, i requires 0 <= i < |s| => LowerChar(s[i]))
  }

  /** Lower-casing is idempotent, so a lower-cased message is its own lower case. */
  lemma ToLowerIdempotent(s: string)
    ensures ToLower(ToLower(s)) == ToLower(s)
  {
  }

  /** `t` sits in `s` at offset `i`. */
  predicate OccursAt(s: string, t: string, i: int) {
    0 <= i && i + |t| <= |s| && s[i..i + |t|] == t
  }

  /** `s.includes(t)`. */
  predicate Contains(s: string, t: string) {
    exists i | 0 <= i <= |s| - |t| :: OccursAt(s, t, i)
  }

  /** `s.startsWith(p)`. */
  predicate StartsWith(s: string, p: string) {
    |p| <= |s| && s[..|p|] == p
  }

  /** Every character of a contained string occurs in the containing one. */
  lemma ContainedCharOccurs(s: string, t: string, c: char)
    requires Contains(s, t) && c in t
    ensures c in s
  {
    var i :| 0 <= i <= |s| - |t| && OccursAt(s, t, i);
    var k :| 0 <= k < |t| && t[k] == c;
    assert s[i..i + |t|][k] == s[i + k];
  }

  /** A string that lacks one character of `t` does not contain `t`. */
  lemma MissingCharNotContained(s: string, t: string, c: char)
    requires c in t && c !in s
    ensures !Contains(s, t)
  {
    if Contains(s, t) {
      ContainedCharOccurs(s, t, c);
    }
  }

  /** The same, naming the position in `t` of the missing character. */
  lemma AbsentAt(s: string, t: string, j: nat)
    requires j < |t| && t[j] !in s
    ensures !Contains(s, t)
  {
    MissingCharNotContained(s, t, t[j]);
  }

  /** A string contains itself. */
  lemma ContainsItself(s: string)
    ensures Contains(s, s)
  {
    assert s[0..|s|] == s;
    assert OccursAt(s, s, 0);
  }

  /** A string contains each piece it is built from. */
  lemma ContainsPiece(a: string, t: string, b: string)
    ensures Contains(a + t + b, t)
  {
    assert (a + t + b)[|a|..|a| + |t|] == t;
    assert OccursAt(a + t + b, t, |a|);
  }

  /** A string without upper-case letters is its own lower case. */
  lemma ToLowerOfLower(s: string)
    requires forall k | 0 <= k < |s| :: !('A' <= s[k] <= 'Z')
    ensures ToLower(s) == s
  {
  }

  /** Lower-casing a concatenation lower-cases each part. */
  lemma ToLowerAppend(a: string, b: string)
    ensures ToLower(a + b) == ToLower(a) + ToLower(b)
  {
  }

  function DigitChar(d: int): char
    requires 0 <= d < 10
  {
    ('0' as int + d) as char
  }

  /** The decimal rendering of a number, as a template literal prints it. */
  function Decimal(n: nat): (r: string)
    ensures r != []
    ensures forall i | 0 <= i < |r| :: '0' <= r[i] <= '9'
    ensures |r| > 1 ==> r[0] != '0'
  {
    if n < 10 then [DigitChar(n)] else Decimal(n / 10) + [DigitChar(n % 10)]
  }

  /** Reads a string of decimal digits back as a number. */
  function DecimalValue(s: string): nat
    requires forall i | 0 <= i < |s| :: '0' <= s[i] <= '9'
  {
    if s == [] then 0 else 10 * DecimalValue(s[..|s| - 1]) + (s[|s| - 1] as int - '0' as int)
  }

  /** The rendering loses nothing: reading it back gives the number. */
  lemma {:induction false} DecimalRoundTrip(n: nat)
    ensures DecimalValue(Decimal(n)) == n
  {
    if n >= 10 {
      var r := Decimal(n);
      assert r[..|r| - 1] == Decimal(n / 10);
      DecimalRoundTrip(n / 10);
    }
  }
}
