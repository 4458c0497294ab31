/** internal/toolcall/toolcalls_json_repair.go: doubling the backslashes that do not start an escape. */
module JsonRepair {
  import opened Text

  predicate IsHex(c: char) {
    '0' <= c <= '9' || 'a' <= c <= 'f' || 'A' <= c <= 'F'
  }

  /** The characters that may follow a backslash alone (section 7 of RFC 8259). */
  predicate IsShort(c: char) {
    c == '"' || c == '\\' || c == '/' || c == 'b' || c == 'f' || c == 'n' || c == 'r' || c == 't'
  }

  /** An escape of section 7 of RFC 8259. */
  predicate IsEscape(e: string) {
    || (|e| == 2 && e[0] == '\\' && IsShort(e[1]))
    || (|e| == 6 && e[0] == '\\' && e[1] == 'u' && IsHex(e[2]) && IsHex(e[3]) && IsHex(e[4]) && IsHex(e[5]))
  }

  /** A unit of the text: an escape, or a single character. */
  function UnitLength(s: string): (n: nat)
    requires s != ""
    ensures 0 < n <= |s|
  {
    if |s| >= 2 && IsEscape(s[..2]) then 2 else if |s| >= 6 && IsEscape(s[..6]) then 6 else 1
  }

  function Units(s: string): seq<string> {
    if s == "" then [] else [s[..UnitLength(s)]] + Units(s[UnitLength(s)..])
  }

  const BACKSLASH := "\\"

  /** Every backslash belongs to an escape. */
  predicate WellEscaped(s: string) {
    BACKSLASH !in Units(s)
  }

  /** Every stray backslash becomes an escaped one; every other unit stays. */
  function Mended(units: seq<string>): seq<string> {
    if units == [] then [] else [if units[0] == BACKSLASH then BACKSLASH + BACKSLASH else units[0]] + Mended(units[1..])
  }

  function Repaired(s: string): string {
    ConcatFront(Mended(Units(s)))
  }

  lemma UnitIs(s: string)
    requires s != ""
    ensures var n := UnitLength(s); if n > 1 then s[0] == '\\' && IsEscape(s[..n]) else s[..n] == [s[0]]
  {
  }

  lemma RepairedStep(s: string)
    requires s != ""
    ensures Repaired(s) == (if s[..UnitLength(s)] == BACKSLASH then BACKSLASH + BACKSLASH else s[..UnitLength(s)])
                           + Repaired(s[UnitLength(s)..])
  {
    var n := UnitLength(s);
    assert Units(s) == [s[..n]] + Units(s[n..]);
    assert Units(s)[1..] == Units(s[n..]);
    var u := if s[..n] == BACKSLASH then BACKSLASH + BACKSLASH else s[..n];
    assert Mended(Units(s)) == [u] + Mended(Units(s[n..]));
    assert ([u] + Mended(Units(s[n..])))[1..] == Mended(Units(s[n..]));
  }

  /** repairInvalidJSONBackslashes, after its test that there is a backslash at all: a walk over the runes
      with a jumping index. */
  method RepairRunes(s: string) returns (out: string)
    ensures out == Repaired(s)
  {
    hide Repaired, UnitLength;
    out := "";
    var i := 0;
    assert s[0..] == s;
    while i < |s|
      invariant i <= |s| && out + Repaired(s[i..]) == Repaired(s)
    {
      StepAt(s, i);
      ghost var before := out;
      if s[i] == '\\' {
        if i + 1 < |s| && IsShort(s[i + 1]) {
          out := out + [s[i], s[i + 1]];
          assert before + ([s[i], s[i + 1]] + Repaired(s[i + 2..])) == out + Repaired(s[i + 2..]);
          i := i + 2;
          continue;
        }
        if i + 1 < |s| && s[i + 1] == 'u' && i + 5 < |s| {
          var isHex := AllHex(s, i + 2);
          if isHex {
            var unit := ['\\', 'u', s[i + 2], s[i + 3], s[i + 4], s[i + 5]];
            out := out + unit;
            assert before + (unit + Repaired(s[i + 6..])) == out + Repaired(s[i + 6..]);
            i := i + 6;
            continue;
          }
        }
        out := out + (BACKSLASH + BACKSLASH);
        assert before + (BACKSLASH + BACKSLASH + Repaired(s[i + 1..])) == out + Repaired(s[i + 1..]);
      } else {
        out := out + [s[i]];
        assert before + ([s[i]] + Repaired(s[i + 1..])) == out + Repaired(s[i + 1..]);
      }
      i := i + 1;
    }
    assert s[i..] == "";
    NothingToRepair();
  }

  method AllHex(s: string, from: nat) returns (r: bool)
    requires from + 4 <= |s|
    ensures r <==> IsHex(s[from]) && IsHex(s[from + 1]) && IsHex(s[from + 2]) && IsHex(s[from + 3])
  {
    for j := 0 to 4
      invariant forall k :: from <= k < from + j ==> IsHex(s[k])
    {
      if !IsHex(s[from + j]) {
        return false;
      }
    }
    return true;
  }

  lemma NothingToRepair()
    ensures Repaired("") == ""
  {
  }

  /** One step of the walk. */
  lemma StepAt(s: string, i: nat)
    requires i < |s|
    ensures Repaired(s[i..]) ==
      if s[i] == '\\' && i + 1 < |s| && IsShort(s[i + 1]) then [s[i], s[i + 1]] + Repaired(s[i + 2..])
      else if s[i] == '\\' && i + 5 < |s| && s[i + 1] == 'u'
              && IsHex(s[i + 2]) && IsHex(s[i + 3]) && IsHex(s[i + 4]) && IsHex(s[i + 5])
      then ['\\', 'u', s[i + 2], s[i + 3], s[i + 4], s[i + 5]] + Repaired(s[i + 6..])
      else if s[i] == '\\' then BACKSLASH + BACKSLASH + Repaired(s[i + 1..])
      else [s[i]] + Repaired(s[i + 1..])
  {
    hide Repaired, UnitLength;
    RepairedStep(s[i..]);
    UnitHere(s, i);
    var n := UnitLength(s[i..]);
    assert s[i..][n..] == s[i + n..];
  }

  /** The unit at position i, read off the text itself. */
  lemma UnitHere(s: string, i: nat)
    requires i < |s|
    ensures var n := UnitLength(s[i..]);
      var unit := s[i..][..n];
      if s[i] == '\\' && i + 1 < |s| && IsShort(s[i + 1]) then n == 2 && unit == [s[i], s[i + 1]] && unit != BACKSLASH
      else if s[i] == '\\' && i + 5 < |s| && s[i + 1] == 'u'
              && IsHex(s[i + 2]) && IsHex(s[i + 3]) && IsHex(s[i + 4]) && IsHex(s[i + 5])
      then n == 6 && unit == ['\\', 'u', s[i + 2], s[i + 3], s[i + 4], s[i + 5]] && unit != BACKSLASH
      else n == 1 && unit == [s[i]] && (unit == BACKSLASH <==> s[i] == '\\')
  {
    var rest := s[i..];
    assert rest[0] == s[i];
    if |rest| >= 2 {
      assert rest[..2] == [s[i], s[i + 1]];
    }
    if |rest| >= 6 {
      assert rest[..6] == [s[i], s[i + 1], s[i + 2], s[i + 3], s[i + 4], s[i + 5]];
    }
  }

  /** repairInvalidJSONBackslashes */
  method Repair(s: string) returns (out: string)
    ensures out == Repaired(s)
  {
    if '\\' !in s {
      NoBackslash(s);
      RepairedIsIdentity(s);
      return s;
    }
    out := RepairRunes(s);
  }

  // ---- what the repair achieves

  lemma {:induction false} NoBackslash(s: string)
    requires '\\' !in s
    ensures WellEscaped(s)
  {
    if s != "" {
      UnitIs(s);
      assert '\\' !in s[UnitLength(s)..];
      NoBackslash(s[UnitLength(s)..]);
    }
  }

  /** A text that consists of escapes and of characters other than backslashes. */
  predicate IsUnits(units: seq<string>) {
    forall i :: 0 <= i < |units| ==> IsEscape(units[i]) || (|units[i]| == 1 && units[i] != BACKSLASH)
  }

  /** Units can be read off their concatenation again. */
  lemma {:induction false} UnitsOfJoined(units: seq<string>)
    requires IsUnits(units)
    ensures Units(ConcatFront(units)) == units
  {
    if units != [] {
      UnitsOfJoined(units[1..]);
      FirstUnit(units[0], ConcatFront(units[1..]));
      var s := units[0] + ConcatFront(units[1..]);
      assert s[..|units[0]|] == units[0] && s[|units[0]|..] == ConcatFront(units[1..]);
    }
  }

  lemma FirstUnit(unit: string, rest: string)
    requires IsEscape(unit) || (|unit| == 1 && unit != BACKSLASH)
    ensures UnitLength(unit + rest) == |unit|
  {
    var s := unit + rest;
    if |unit| == 1 {
      assert s[0] != '\\';
    } else {
      assert s[..|unit|] == unit;
      if |unit| == 6 {
        assert s[1] == 'u';
      }
    }
  }

  lemma UnitsStep(s: string)
    requires s != ""
    ensures Units(s) == [s[..UnitLength(s)]] + Units(s[UnitLength(s)..]) && s == s[..UnitLength(s)] + s[UnitLength(s)..]
  {
  }

  lemma JoinedStep(unit: string, units: seq<string>)
    ensures ConcatFront([unit] + units) == unit + ConcatFront(units)
  {
    assert ([unit] + units)[1..] == units;
  }

  lemma {:induction false} UnitsJoin(s: string)
    ensures ConcatFront(Units(s)) == s
    ensures forall i :: 0 <= i < |Units(s)| ==> IsEscape(Units(s)[i]) || |Units(s)[i]| == 1
    decreases |s|
  {
    if s != "" {
      UnitIs(s);
      UnitsStep(s);
      hide UnitLength, Units, ConcatFront, IsEscape;
      UnitsJoin(s[UnitLength(s)..]);
      JoinedStep(s[..UnitLength(s)], Units(s[UnitLength(s)..]));
    }
  }

  lemma {:induction false} MendedIs(units: seq<string>)
    requires forall i :: 0 <= i < |units| ==> IsEscape(units[i]) || |units[i]| == 1
    ensures IsUnits(Mended(units))
    ensures Mended(units) == units <==> BACKSLASH !in units
    ensures |Mended(units)| == |units|
  {
    if units != [] {
      MendedIs(units[1..]);
      assert units == [units[0]] + units[1..];
      assert IsEscape(BACKSLASH + BACKSLASH);
    }
  }

  /** The output consists of the units of the input in order, each stray backslash now an escape; so it
      holds no escape that RFC 8259 does not allow. */
  lemma OnlyAllowedEscapes(s: string)
    ensures Units(Repaired(s)) == Mended(Units(s)) && WellEscaped(Repaired(s))
  {
    UnitsJoin(s);
    MendedIs(Units(s));
    UnitsOfJoined(Mended(Units(s)));
  }

  /** A text is left alone exactly when it is well escaped. */
  lemma RepairedIsIdentity(s: string)
    ensures Repaired(s) == s <==> WellEscaped(s)
  {
    OnlyAllowedEscapes(s);
    UnitsJoin(s);
    MendedIs(Units(s));
  }

  lemma RepairIdempotent(s: string)
    ensures Repaired(Repaired(s)) == Repaired(s)
  {
    OnlyAllowedEscapes(s);
    RepairedIsIdentity(Repaired(s));
  }

  function Strays(units: seq<string>): nat {
    if units == [] then 0 else (if units[0] == BACKSLASH then 1 else 0) + Strays(units[1..])
  }

  lemma {:induction false} MendedLength(units: seq<string>)
    ensures |ConcatFront(Mended(units))| == |ConcatFront(units)| + Strays(units)
    ensures Strays(units) <= |ConcatFront(units)|
  {
    if units != [] {
      MendedLength(units[1..]);
      assert Mended(units)[1..] == Mended(units[1..]);
    }
  }

  /** The text grows by one character for each stray backslash, and so at most doubles. */
  lemma LengthAtMostDoubles(s: string)
    ensures |Repaired(s)| == |s| + Strays(Units(s)) <= 2 * |s|
  {
    UnitsJoin(s);
    MendedLength(Units(s));
  }

  // ---- single escapes

  /** The escapes of JSON stay as they are. */
  lemma EscapesStay(c: char)
    requires c in "\"\\/bfnrt"
    ensures Repaired(['\\', c]) == ['\\', c]
  {
    ShortOnly(c);
    var s := ['\\', c];
    StepAt(s, 0);
    NothingToRepair();
    hide Repaired, IsShort;
    assert s[0..] == s && s[2..] == "" && [s[0], s[1]] + "" == s;
  }

  lemma ShortOnly(c: char)
    ensures IsShort(c) <==> c in "\"\\/bfnrt"
  {
    var all := "\"\\/bfnrt";
    assert all[0] == '"' && all[1] == '\\' && all[2] == '/' && all[3] == 'b';
    assert all[4] == 'f' && all[5] == 'n' && all[6] == 'r' && all[7] == 't';
  }

  lemma HexOnly(c: char)
    ensures IsHex(c) <==> LowerChar(c) in "0123456789abcdef"
  {
    var all := "0123456789abcdef";
    assert forall k :: 0 <= k < 10 ==> all[k] == '0' + k as char;
    assert all[10] == 'a' && all[11] == 'b' && all[12] == 'c' && all[13] == 'd' && all[14] == 'e' && all[15] == 'f';
  }

  /** So does a code point of four hexadecimal digits, of either case. */
  lemma CodePointStays(a: char, b: char, c: char, d: char)
    requires LowerChar(a) in "0123456789abcdef" && LowerChar(b) in "0123456789abcdef"
    requires LowerChar(c) in "0123456789abcdef" && LowerChar(d) in "0123456789abcdef"
    ensures Repaired(['\\', 'u', a, b, c, d]) == ['\\', 'u', a, b, c, d]
  {
    HexOnly(a);
    HexOnly(b);
    HexOnly(c);
    HexOnly(d);
    var s := ['\\', 'u', a, b, c, d];
    StepAt(s, 0);
    NothingToRepair();
    hide Repaired, IsHex;
    assert s[0..] == s && s[6..] == "" && s + "" == s;
  }

  /** A backslash before any other character is doubled, and the character stays. */
  lemma StrayIsDoubled(c: char)
    requires c !in "\"\\/bfnrt"
    ensures Repaired(['\\', c]) == ['\\', '\\', c]
  {
    ShortOnly(c);
    var s := ['\\', c];
    StepAt(s, 0);
    StepAt(s, 1);
    NothingToRepair();
    hide Repaired, IsShort;
    assert c != '\\' by { Backslashed(c); }
    assert s[0..] == s && s[2..] == "" && [c] + "" == [c];
  }

  lemma Backslashed(c: char)
    requires c !in "\"\\/bfnrt"
    ensures c != '\\'
  {
    assert "\"\\/bfnrt"[1] == '\\';
  }
}
