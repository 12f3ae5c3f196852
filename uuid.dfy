/**
 * `isUuidV4` from lib/http.ts: the anchored, case-insensitive pattern
 * `^[0-9a-f]{8}-[0-9a-f]{4}-4[0-9a-f]{3}-[89ab][0-9a-f]{3}-[0-9a-f]{12}$`,
 * the version-4 layout of section 5.4 of RFC 9562.
 */
module Uuid {
  import opened Text

  /** One position of a fixed-length pattern. */
  datatype Atom = HexDigit | Exactly(c: char) | OneOf(cs: set<char>)

  /**
   * One atom against one character under the `i` flag. Pattern characters are
   * lower case, so folding the ASCII letters of the input is exact here: no
   * non-ASCII character folds onto an ASCII one.
   */
  predicate AtomMatches(a: Atom, c: char) {
    var f := LowerChar(c);
    match a
    case HexDigit => '0' <= f <= '9' || 'a' <= f <= 'f'
    case Exactly(p) => f == p
    case OneOf(cs) => f in cs
  }

  function Repeat(a: Atom, n: nat): seq<Atom> {
    seq(n, _ => a)
  }

  /** The pattern of lib/http.ts:4, written atom by atom. */
  const V4Pattern: seq<Atom> :=
    Repeat(HexDigit, 8) + [Exactly('-')] +
    Repeat(HexDigit, 4) + [Exactly('-')] +
    [Exactly('4')] + Repeat(HexDigit, 3) + [Exactly('-')] +
    [OneOf({'8', '9', 'a', 'b'})] + Repeat(HexDigit, 3) + [Exactly('-')] +
    Repeat(HexDigit, 12)

  /** Anchored match of a pattern without alternation: one atom per character, both ends pinned. */
  predicate Matches(p: seq<Atom>, s: string) {
    if p == [] then s == [] else s != [] && AtomMatches(p[0], s[0]) && Matches(p[1..], s[1..])
  }

  /** isUuidV4. */
  predicate IsUuidV4(s: string) {
    Matches(V4Pattern, s)
  }

  predicate IsHexDigit(c: char) {
    '0' <= c <= '9' || 'a' <= c <= 'f' || 'A' <= c <= 'F'
  }

  /** What the layout demands at position `i`: hyphens, the version nibble, the variant nibble, hex digits. */
  predicate PositionOk(i: int, c: char) {
    if i == 8 || i == 13 || i == 18 || i == 23 then c == '-'
    else if i == 14 then c == '4'
    else if i == 19 then c in {'8', '9', 'a', 'b', 'A', 'B'}
    else IsHexDigit(c)
  }

  /** The positional description of a version-4 UUID string. */
  predicate V4Layout(s: string) {
    |s| == 36 && forall i | 0 <= i < 36 :: PositionOk(i, s[i])
  }

  /** An anchored match is a position-by-position match of equal lengths. */
  lemma {:induction false} MatchesPointwise(p: seq<Atom>, s: string)
    ensures Matches(p, s) <==> |p| == |s| && forall i | 0 <= i < |p| :: AtomMatches(p[i], s[i])
  {
    if p != [] && s != [] {
      MatchesPointwise(p[1..], s[1..]);
      if |p| == |s| && AtomMatches(p[0], s[0]) && Matches(p[1..], s[1..]) {
        forall i | 0 <= i < |p| ensures AtomMatches(p[i], s[i]) {
          if i > 0 {
            assert p[1..][i - 1] == p[i] && s[1..][i - 1] == s[i];
          }
        }
      }
      if |p| == |s| && (forall i | 0 <= i < |p| :: AtomMatches(p[i], s[i])) {
        forall i | 0 <= i < |p| - 1 ensures AtomMatches(p[1..][i], s[1..][i]) {
          assert AtomMatches(p[i + 1], s[i + 1]);
        }
      }
    }
  }

  /** The atom the pattern holds at each of its 36 positions. */
  lemma V4PatternAt(i: int)
    requires 0 <= i < 36
    ensures |V4Pattern| == 36
    ensures V4Pattern[i] ==
      if i == 8 || i == 13 || i == 18 || i == 23 then Exactly('-')
      else if i == 14 then Exactly('4')
      else if i == 19 then OneOf({'8', '9', 'a', 'b'})
      else HexDigit
  {
  }

  lemma AtomAtPosition(i: int, c: char)
    requires 0 <= i < 36
    ensures AtomMatches(V4Pattern[i], c) <==> PositionOk(i, c)
  {
    V4PatternAt(i);
  }

  /**
   * isUuidV4 accepts exactly the strings of length 36 with hyphens at 8, 13, 18
   * and 23, `4` at 14, one of 8, 9, a, b (either case) at 19 and hex digits of
   * either case everywhere else.
   */
  lemma IsUuidV4Iff(s: string)
    ensures IsUuidV4(s) <==> V4Layout(s)
  {
    MatchesPointwise(V4Pattern, s);
    V4PatternAt(0);
    forall i, c | 0 <= i < 36 ensures AtomMatches(V4Pattern[i], c) <==> PositionOk(i, c) {
      AtomAtPosition(i, c);
    }
  }

  predicate AllHex(s: string) {
    forall i | 0 <= i < |s| :: IsHexDigit(s[i])
  }

  /** The 8-4-4-4-12 grouping: five hex groups, the version digit and the variant digit. */
  lemma {:induction false} GroupsFormV4(a: string, b: string, c: string, v: char, d: string, e: string)
    requires |a| == 8 && |b| == 4 && |c| == 3 && |d| == 3 && |e| == 12
    requires AllHex(a) && AllHex(b) && AllHex(c) && AllHex(d) && AllHex(e)
    requires v in {'8', '9', 'a', 'b', 'A', 'B'}
    ensures IsUuidV4(a + "-" + b + "-4" + c + "-" + [v] + d + "-" + e)
  {
    var s := a + "-" + b + "-4" + c + "-" + [v] + d + "-" + e;
    forall i | 0 <= i < 36 ensures PositionOk(i, s[i]) {
      if i < 8 { assert s[i] == a[i]; }
      else if 8 < i < 13 { assert s[i] == b[i - 9]; }
      else if 14 < i < 18 { assert s[i] == c[i - 15]; }
      else if 19 < i < 23 { assert s[i] == d[i - 20]; }
      else if 23 < i { assert s[i] == e[i - 24]; }
    }
    IsUuidV4Iff(s);
  }

  /** The first seeded product id is a version-4 UUID. */
  lemma SeedIdAccepted()
    ensures IsUuidV4("3fa85f64-5717-4562-b3fc-2c963f66afa6")
  {
    GroupsFormV4("3fa85f64", "5717", "562", 'b', "3fc", "2c963f66afa6");
    assert "3fa85f64" + "-" + "5717" + "-4" + "562" + "-" + ['b'] + "3fc" + "-" + "2c963f66afa6"
      == "3fa85f64-5717-4562-b3fc-2c963f66afa6";
  }

  /** The last seeded product id has version nibble 1, so it is rejected. */
  lemma VersionOneIdRejected()
    ensures !IsUuidV4("123e4567-e89b-12d3-a456-426614174000")
  {
    var s := "123e4567-e89b-12d3-a456-426614174000";
    assert s[14] == '1';
    WrongVersionRejected(s);
  }

  /** A string whose version position does not hold `4` is rejected, whatever the rest. */
  lemma WrongVersionRejected(s: string)
    requires |s| > 14 && s[14] != '4'
    ensures !IsUuidV4(s)
  {
    IsUuidV4Iff(s);
    assert !PositionOk(14, s[14]);
  }

  /** Upper-case hex digits pass, as the `i` flag allows. */
  lemma UpperCaseAccepted()
    ensures IsUuidV4("3FA85F64-5717-4562-B3FC-2C963F66AFA6")
  {
    GroupsFormV4("3FA85F64", "5717", "562", 'B', "3FC", "2C963F66AFA6");
    assert "3FA85F64" + "-" + "5717" + "-4" + "562" + "-" + ['B'] + "3FC" + "-" + "2C963F66AFA6"
      == "3FA85F64-5717-4562-B3FC-2C963F66AFA6";
  }

  /** Every version-4 UUID string is non-empty and free of whitespace at its ends. */
  lemma UuidIsTight(s: string)
    requires IsUuidV4(s)
    ensures |s| == 36 && Tight(JsBlank, s)
  {
    IsUuidV4Iff(s);
    assert PositionOk(0, s[0]) && PositionOk(35, s[35]);
  }
}
