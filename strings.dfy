/**
 * The JavaScript string and number conversions the components rely on:
 * `toLowerCase`/`toUpperCase` (ASCII letters only), `includes`, `split`/`join`,
 * `trim`, removing quote characters, `Number.parseInt`, `Number(...)`,
 * number-to-string rendering, and the client-side `max(...ids) + 1` id generation.
 */
module Strings {
  import opened Wrappers

  // ---------------------------------------------------------------- case

  function LowerChar(c: char): char {
    if 'A' <= c <= 'Z' then (c as int + 32) as char else c
  }

  function UpperChar(c: char): char {
    if 'a' <= c <= 'z' then (c as int - 32) as char else c
  }

  /** `s.toLowerCase()` on ASCII letters. */
  function Lower(s: string): (r: string)
    ensures |r| == |s|
    ensures forall i :: 0 <= i < |s| ==> r[i] == LowerChar(s[i])
  {
    seq(|s|, i requires 0 <= i < |s| => LowerChar(s[i]))
  }

  /** `s.toUpperCase()` on ASCII letters. */
  function Upper(s: string): (r: string)
    ensures |r| == |s|
    ensures forall i :: 0 <= i < |s| ==> r[i] == UpperChar(s[i])
  {
    seq(|s|, i requires 0 <= i < |s| => UpperChar(s[i]))
  }

  /** Upper-casing first makes no difference to the lower-cased text. */
  lemma LowerOfUpper(s: string)
    ensures Lower(Upper(s)) == Lower(s)
  {
    forall i | 0 <= i < |s| ensures Lower(Upper(s))[i] == Lower(s)[i] {
      var c := s[i];
      assert Upper(s)[i] == UpperChar(c);
    }
  }

  // ---------------------------------------------------------------- search

  /** q occurs in s starting at position i. */
  predicate OccursAt(s: string, q: string, i: int) {
    0 <= i <= |s| - |q| && s[i..i + |q|] == q
  }

  /** `s.includes(q)`: q occurs in s at some position; never longer than s, and every prefix occurs. */
  predicate Contains(s: string, q: string)
    ensures Contains(s, q) ==> |q| <= |s|
    ensures q <= s ==> Contains(s, q)
  {
    assert q <= s ==> OccursAt(s, q, 0);
    exists i :: 0 <= i <= |s| - |q| && OccursAt(s, q, i)
  }

  /** An occurrence of q in s is an occurrence of the lowered q in the lowered s. */
  lemma LowerKeepsOccurrence(s: string, q: string, i: int)
    requires OccursAt(s, q, i)
    ensures OccursAt(Lower(s), Lower(q), i)
  {
    forall k | 0 <= k < |q| ensures Lower(s)[i..i + |q|][k] == Lower(q)[k] {
      assert s[i + k] == q[k];
    }
  }

  /**
   * `s.toLowerCase().includes(q.toLowerCase())`: the empty query matches every text, and an exact
   * occurrence is also one that ignores case.
   */
  predicate ContainsIgnoringCase(s: string, q: string)
    ensures q == "" ==> ContainsIgnoringCase(s, q)
    ensures Contains(s, q) ==> ContainsIgnoringCase(s, q)
  {
    ContainsLowered(s, q);
    Contains(Lower(s), Lower(q))
  }

  /** The lowered text includes the lowered query when the query is empty or the text includes it. */
  lemma ContainsLowered(s: string, q: string)
    ensures q == "" || Contains(s, q) ==> Contains(Lower(s), Lower(q))
  {
    assert Lower("") == "";
    assert OccursAt(Lower(s), Lower(""), 0);
    if Contains(s, q) {
      var i :| 0 <= i <= |s| - |q| && OccursAt(s, q, i);
      LowerKeepsOccurrence(s, q, i);
    }
  }

  /** Every string includes the empty string, so an empty search matches everything. */
  lemma ContainsEmpty(s: string)
    ensures Contains(s, "")
  {
    assert OccursAt(s, "", 0);
  }

  // ---------------------------------------------------------------- split and join

  /** `parts.join(sep)` for a one-character separator. */
  function Join(parts: seq<string>, sep: char): string
    decreases |parts|
  {
    if |parts| == 0 then ""
    else if |parts| == 1 then parts[0]
    else parts[0] + [sep] + Join(parts[1..], sep)
  }

  lemma {:induction false} JoinConsHead(c: char, parts: seq<string>, sep: char)
    requires |parts| >= 1
    ensures Join([[c] + parts[0]] + parts[1..], sep) == [c] + Join(parts, sep)
  {
    var q := [[c] + parts[0]] + parts[1..];
    assert q[1..] == parts[1..];
  }

  /** `s.split(sep)` for a one-character separator: never empty, and no piece holds the separator. */
  function Split(s: string, sep: char): (r: seq<string>)
    ensures |r| >= 1
    ensures forall i :: 0 <= i < |r| ==> sep !in r[i]
    decreases |s|
  {
    if |s| == 0 then [""]
    else
      var rest := Split(s[1..], sep);
      if s[0] == sep then [""] + rest
      else [[s[0]] + rest[0]] + rest[1..]
  }

  /** Joining the pieces of a split, with the same separator, gives back the text. */
  lemma {:induction false} JoinSplit(s: string, sep: char)
    ensures Join(Split(s, sep), sep) == s
    decreases |s|
  {
    if |s| > 0 {
      var rest := Split(s[1..], sep);
      JoinSplit(s[1..], sep);
      assert s == [s[0]] + s[1..];
      if s[0] == sep {
        assert ([""] + rest)[1..] == rest;
      } else {
        JoinConsHead(s[0], rest, sep);
      }
    }
  }

  lemma {:induction false} SplitPrefix(a: string, t: string, sep: char)
    requires sep !in a
    ensures Split(a + t, sep) == [a + Split(t, sep)[0]] + Split(t, sep)[1..]
    decreases |a|
  {
    if |a| > 0 {
      var u, parts := a + t, Split(t, sep);
      assert u[0] == a[0] && u[0] != sep;
      assert u[1..] == a[1..] + t;
      SplitPrefix(a[1..], t, sep);
      var tail := Split(u[1..], sep);
      assert tail == [a[1..] + parts[0]] + parts[1..];
      SplitConsOther(u, sep);
      ConsHeadPiece(a, parts, tail);
    } else {
      var parts := Split(t, sep);
      assert a + t == t;
      assert a + parts[0] == parts[0];
      assert parts == [parts[0]] + parts[1..];
    }
  }

  /** A text that does not start with the separator adds its first character to the first piece. */
  lemma SplitConsOther(u: string, sep: char)
    requires |u| > 0 && u[0] != sep
    ensures Split(u, sep) == [[u[0]] + Split(u[1..], sep)[0]] + Split(u[1..], sep)[1..]
  {
  }

  lemma ConsHeadPiece(a: string, parts: seq<string>, tail: seq<string>)
    requires |a| > 0 && |parts| > 0
    requires tail == [a[1..] + parts[0]] + parts[1..]
    ensures [[a[0]] + tail[0]] + tail[1..] == [a + parts[0]] + parts[1..]
  {
    assert [a[0]] + (a[1..] + parts[0]) == a + parts[0];
    assert tail[1..] == parts[1..];
  }

  /** Splitting gives a single piece, the text itself, exactly when the separator does not occur. */
  lemma SplitSingle(s: string, sep: char)
    ensures |Split(s, sep)| == 1 <==> sep !in s
    ensures sep !in s ==> Split(s, sep) == [s]
  {
    if sep !in s {
      SplitPrefix(s, "", sep);
      assert s + "" == s;
    }
  }

  /** Splitting undoes joining when no piece contains the separator. */
  lemma {:induction false} SplitJoin(parts: seq<string>, sep: char)
    requires |parts| >= 1
    requires forall i :: 0 <= i < |parts| ==> sep !in parts[i]
    ensures Split(Join(parts, sep), sep) == parts
    decreases |parts|
  {
    if |parts| == 1 {
      SplitPrefix(parts[0], "", sep);
      assert parts[0] + "" == parts[0];
    } else {
      var tail := Join(parts[1..], sep);
      SplitJoin(parts[1..], sep);
      assert Split([sep] + tail, sep) == [""] + Split(tail, sep) by {
        assert ([sep] + tail)[1..] == tail;
      }
      assert Join(parts, sep) == parts[0] + ([sep] + tail);
      SplitPrefix(parts[0], [sep] + tail, sep);
      assert parts[0] + "" == parts[0];
      assert parts == [parts[0]] + parts[1..];
    }
  }

  /** Joining one more piece adds a separator and that piece at the end. */
  lemma {:induction false} JoinAppend(parts: seq<string>, x: string, sep: char)
    requires |parts| >= 1
    ensures Join(parts + [x], sep) == Join(parts, sep) + [sep] + x
    decreases |parts|
  {
    var q := parts + [x];
    if |parts| > 1 {
      assert q[1..] == parts[1..] + [x];
      JoinAppend(parts[1..], x, sep);
    } else {
      assert q == [parts[0], x] && q[1..] == [x];
    }
  }

  /** A last piece without the separator, added after one, is split off as the last piece. */
  lemma SplitAppendLast(a: string, x: string, sep: char)
    requires sep !in x
    ensures Split(a + [sep] + x, sep) == Split(a, sep) + [x]
  {
    var parts := Split(a, sep) + [x];
    JoinSplit(a, sep);
    JoinAppend(Split(a, sep), x, sep);
    SplitJoin(parts, sep);
  }

  // ---------------------------------------------------------------- trimming and quotes

  predicate IsSpace(c: char) {
    c == ' ' || c == '\t' || c == '\n' || c == '\r'
  }

  function TrimStart(s: string): (r: string)
    ensures |r| <= |s| && r == s[|s| - |r|..]
    ensures |r| > 0 ==> !IsSpace(r[0])
    ensures forall i :: 0 <= i < |s| - |r| ==> IsSpace(s[i])
    decreases |s|
  {
    if |s| > 0 && IsSpace(s[0]) then TrimStart(s[1..]) else s
  }

  function TrimEnd(s: string): (r: string)
    ensures |r| <= |s| && r == s[..|r|]
    ensures |r| > 0 ==> !IsSpace(r[|r| - 1])
    ensures forall i :: |r| <= i < |s| ==> IsSpace(s[i])
    decreases |s|
  {
    if |s| > 0 && IsSpace(s[|s| - 1]) then TrimEnd(s[..|s| - 1]) else s
  }

  /** `s.trim()`: blank exactly when every character of s is white space. */
  function Trim(s: string): (r: string)
    ensures r == "" <==> forall i :: 0 <= i < |s| ==> IsSpace(s[i])
  {
    var t := TrimStart(s);
    TrimEnd(t)
  }

  /** A text that neither starts nor ends with white space is its own trim. */
  lemma TrimUnchanged(s: string)
    requires |s| > 0 && !IsSpace(s[0]) && !IsSpace(s[|s| - 1])
    ensures Trim(s) == s
  {
    assert TrimStart(s) == s;
    assert TrimEnd(s) == s;
  }

  /** `s.replace(/"/g, "")`. */
  function RemoveQuotes(s: string): (r: string)
    ensures '"' !in r
    ensures forall c :: c in r <==> c in s && c != '"'
    decreases |s|
  {
    if |s| == 0 then "" else (if s[0] == '"' then "" else [s[0]]) + RemoveQuotes(s[1..])
  }

  /** `v.replace(/"/g, "").trim()`, applied to every CSV cell. */
  function CleanCell(v: string): string {
    Trim(RemoveQuotes(v))
  }

  // ---------------------------------------------------------------- numbers and text

  predicate IsDigit(c: char) {
    '0' <= c <= '9'
  }

  predicate AllDigits(s: string) {
    forall i :: 0 <= i < |s| ==> IsDigit(s[i])
  }

  function DigitChar(d: nat): char
    requires d < 10
  {
    ('0' as int + d) as char
  }

  function DigitsValue(s: string): nat
    requires AllDigits(s)
    decreases |s|
  {
    if |s| == 0 then 0 else DigitsValue(s[..|s| - 1]) * 10 + (s[|s| - 1] as int - '0' as int)
  }

  /** Decimal rendering of a natural number (`n.toString()`). */
  function NatToString(n: nat): (r: string)
    ensures |r| >= 1 && AllDigits(r)
    decreases n
  {
    if n < 10 then [DigitChar(n)] else NatToString(n / 10) + [DigitChar(n % 10)]
  }

  /** `i.toString()` for an integer. */
  function IntToString(i: int): string {
    if i < 0 then "-" + NatToString(-i) else NatToString(i)
  }

  /** Reading back the decimal rendering of n gives n. */
  lemma {:induction false} DigitsOfNat(n: nat)
    ensures DigitsValue(NatToString(n)) == n
    decreases n
  {
    var r := NatToString(n);
    if n >= 10 {
      DigitsOfNat(n / 10);
      assert r[..|r| - 1] == NatToString(n / 10);
    }
  }

  /** Distinct numbers render as distinct strings. */
  lemma NatToStringInjective(a: nat, b: nat)
    ensures NatToString(a) == NatToString(b) <==> a == b
  {
    DigitsOfNat(a);
    DigitsOfNat(b);
  }

  /** The longest prefix of s made of decimal digits. */
  function DigitPrefix(s: string): (r: string)
    ensures r <= s && AllDigits(r)
    ensures |r| < |s| ==> !IsDigit(s[|r|])
    decreases |s|
  {
    if |s| > 0 && IsDigit(s[0]) then [s[0]] + DigitPrefix(s[1..]) else ""
  }

  lemma {:induction false} DigitPrefixOfDigits(s: string)
    requires AllDigits(s)
    ensures DigitPrefix(s) == s
    decreases |s|
  {
    if |s| > 0 {
      DigitPrefixOfDigits(s[1..]);
      assert s == [s[0]] + s[1..];
    }
  }

  /**
   * `Number.parseInt(s)`: leading white space, an optional sign, then the longest run of decimal
   * digits; None is NaN (no digit at that position). A "0x" hexadecimal prefix is not modelled.
   */
  function ParseInt(s: string): (r: Option<int>)
    ensures TrimStart(s) == "" ==> r.None?
    ensures var t := TrimStart(s); |t| > 0 && IsDigit(t[0]) ==> r.Some? && r.value >= 0
    ensures var t := TrimStart(s); |t| > 0 && !IsDigit(t[0]) && t[0] != '-' && t[0] != '+' ==> r.None?
  {
    ParseSigned(TrimStart(s))
  }

  /** A trimmed text: an optional sign, then the digit run. */
  function ParseSigned(t: string): (r: Option<int>)
    ensures |t| > 0 && IsDigit(t[0]) ==> r.Some? && r.value >= 0
    ensures |t| == 0 || (!IsDigit(t[0]) && t[0] != '-' && t[0] != '+') ==> r.None?
  {
    if |t| > 0 && (t[0] == '-' || t[0] == '+') then
      var v := ParseDigits(t[1..]);
      if v.Some? && t[0] == '-' then Some(-v.value) else v
    else ParseDigits(t)
  }

  /** The value of the leading digit run, None when there is none. */
  function ParseDigits(t: string): (r: Option<int>)
    ensures r.None? <==> |t| == 0 || !IsDigit(t[0])
    ensures r.Some? ==> r.value >= 0
  {
    var d := DigitPrefix(t);
    if |d| == 0 then None else Some(DigitsValue(d))
  }

  /**
   * `Number(s)`: a blank string is 0; otherwise, after trimming, an optional sign followed by
   * digits only; anything else is NaN (None). Decimal points, exponents and hexadecimal are not modelled.
   */
  function NumberOf(s: string): (r: Option<int>)
    ensures Trim(s) == "" ==> r == Some(0)
    ensures Trim(s) != "" && AllDigits(Trim(s)) ==> r.Some? && r.value >= 0
    ensures var t := Trim(s); t != "" && !IsDigit(t[0]) && t[0] != '-' && t[0] != '+' ==> r.None?
  {
    var t := Trim(s);
    if t == "" then Some(0)
    else if (t[0] == '-' || t[0] == '+') && |t| > 1 && AllDigits(t[1..]) then
      var v: int := DigitsValue(t[1..]);
      Some(if t[0] == '-' then -v else v)
    else if AllDigits(t) then Some(DigitsValue(t))
    else None
  }

  lemma ParseIntOfNat(n: nat)
    ensures ParseInt(NatToString(n)) == Some(n)
  {
    var r := NatToString(n);
    ParseIntOfNatThen(n, "", r);
  }

  lemma NumberOfNat(n: nat)
    ensures NumberOf(NatToString(n)) == Some(n)
  {
    var r := NatToString(n);
    assert IsDigit(r[0]) && IsDigit(r[|r| - 1]);
    TrimUnchanged(r);
    DigitsOfNat(n);
  }

  /** The digit run of digits followed by a non-digit is those digits. */
  lemma {:induction false} DigitPrefixStops(d: string, rest: string)
    requires AllDigits(d)
    requires |rest| == 0 || !IsDigit(rest[0])
    ensures DigitPrefix(d + rest) == d
    decreases |d|
  {
    if |d| > 0 {
      DigitPrefixStops(d[1..], rest);
      assert (d + rest)[1..] == d[1..] + rest;
    } else {
      assert d + rest == rest;
    }
  }

  /** `parseInt` reads back an integer's rendering followed by text that starts with no digit. */
  lemma ParseIntOfIntThen(i: int, rest: string)
    requires |rest| == 0 || !IsDigit(rest[0])
    ensures ParseInt(IntToString(i) + rest) == Some(i)
  {
    var s := IntToString(i) + rest;
    if i < 0 {
      assert s == "-" + NatToString(-i) + rest;
      ParseIntOfNegativeThen(-i, rest, s);
    } else {
      assert s == NatToString(i) + rest;
      ParseIntOfNatThen(i, rest, s);
    }
  }

  /** The digit run of a number's rendering, followed by a non-digit, is that number. */
  lemma ParseDigitsThen(n: nat, rest: string, t: string)
    requires |rest| == 0 || !IsDigit(rest[0])
    requires t == NatToString(n) + rest
    ensures ParseDigits(t) == Some(n)
  {
    DigitPrefixStops(NatToString(n), rest);
    DigitsOfNat(n);
  }

  lemma ParseIntOfNatThen(n: nat, rest: string, s: string)
    requires |rest| == 0 || !IsDigit(rest[0])
    requires s == NatToString(n) + rest
    ensures ParseInt(s) == Some(n)
  {
    var d := NatToString(n);
    assert s[0] == d[0];
    NoSpaceFirstTrimmed(s);
    ParseDigitsThen(n, rest, s);
  }

  lemma ParseIntOfNegativeThen(n: nat, rest: string, s: string)
    requires |rest| == 0 || !IsDigit(rest[0])
    requires s == "-" + NatToString(n) + rest
    ensures ParseInt(s) == Some(-(n as int))
  {
    NoSpaceFirstTrimmed(s);
    var t := s[1..];
    assert t == NatToString(n) + rest;
    ParseDigitsThen(n, rest, t);
  }

  /** A string that does not start with white space is its own TrimStart. */
  lemma NoSpaceFirstTrimmed(s: string)
    requires |s| > 0 && !IsSpace(s[0])
    ensures TrimStart(s) == s
  {
  }

  // ---------------------------------------------------------------- id generation
  //
  // A component converts its ids with `parseInt` (ParseInt) or with `Number` (NumberOf) before
  // taking the maximum; the lemmas below hold for any such conversion.

  /** No id converts to NaN, so `Math.max` yields a number. */
  predicate AllNumeric(parse: string -> Option<int>, ids: seq<string>) {
    forall i :: 0 <= i < |ids| ==> parse(ids[i]).Some?
  }

  /** The conversion reads every decimal rendering back as its number. */
  ghost predicate ReadsBackNats(parse: string -> Option<int>) {
    forall n: nat :: parse(NatToString(n)) == Some(n)
  }

  lemma ParseIntReadsBack()
    ensures ReadsBackNats(ParseInt)
  {
    forall n: nat ensures ParseInt(NatToString(n)) == Some(n) {
      ParseIntOfNat(n);
    }
  }

  lemma NumberOfReadsBack()
    ensures ReadsBackNats(NumberOf)
  {
    forall n: nat ensures NumberOf(NatToString(n)) == Some(n) {
      NumberOfNat(n);
    }
  }

  /** `Math.max(...ids.map(parse), 0)` when no id is NaN. */
  function MaxId(parse: string -> Option<int>, ids: seq<string>): (m: nat)
    requires AllNumeric(parse, ids)
    ensures forall i :: 0 <= i < |ids| ==> parse(ids[i]).value <= m
    ensures m == 0 || exists i :: 0 <= i < |ids| && parse(ids[i]).value == m
    decreases |ids|
  {
    if |ids| == 0 then 0
    else
      var rest := MaxId(parse, ids[1..]);
      var v := parse(ids[0]).value;
      assert forall i :: 1 <= i < |ids| ==> ids[i] == ids[1..][i - 1];
      if v > rest then v else rest
  }

  /**
   * `(Math.max(...ids.map(parse), 0) + offset + 1).toString()`. A NaN among the ids makes the
   * maximum NaN and the rendered id the text "NaN".
   */
  function IdAfter(parse: string -> Option<int>, ids: seq<string>, offset: nat): string {
    IdFrom(MaxOrNaN(parse, ids), offset)
  }

  /** `Math.max(...ids.map(parse), 0)`, None standing for NaN. */
  function MaxOrNaN(parse: string -> Option<int>, ids: seq<string>): (m: Option<nat>)
    ensures m.Some? <==> AllNumeric(parse, ids)
    ensures m.Some? ==> m.value == MaxId(parse, ids)
  {
    if AllNumeric(parse, ids) then Some(MaxId(parse, ids)) else None
  }

  /** `(max + offset + 1).toString()`, "NaN" when the maximum is NaN. */
  function IdFrom(m: Option<nat>, offset: nat): string {
    if m.Some? then NatToString(m.value + offset + 1) else "NaN"
  }

  /** `(Math.max(...ids.map(parse), 0) + 1).toString()`. */
  function NextId(parse: string -> Option<int>, ids: seq<string>): (r: string)
    ensures !AllNumeric(parse, ids) ==> r == "NaN"
    ensures AllNumeric(parse, ids) ==> r == NatToString(MaxId(parse, ids) + 1)
  {
    if AllNumeric(parse, ids) then
      IdAfterNumeric(parse, ids, 0);
      IdAfter(parse, ids, 0)
    else IdAfter(parse, ids, 0)
  }

  /** With no NaN among the ids, the generated id is the decimal text of max + offset + 1. */
  lemma IdAfterNumeric(parse: string -> Option<int>, ids: seq<string>, offset: nat)
    requires AllNumeric(parse, ids)
    ensures IdAfter(parse, ids, offset) == NatToString(MaxId(parse, ids) + offset + 1)
  {
    assert MaxOrNaN(parse, ids) == Some(MaxId(parse, ids));
  }

  /** A generated id is none of the existing ids, and reads back as a number above all of them. */
  lemma IdAfterFresh(parse: string -> Option<int>, ids: seq<string>, offset: nat)
    requires AllNumeric(parse, ids) && ReadsBackNats(parse)
    ensures IdAfter(parse, ids, offset) !in ids
    ensures parse(IdAfter(parse, ids, offset)) == Some(MaxId(parse, ids) + offset + 1)
  {
    var m := MaxId(parse, ids);
    var id := NatToString(m + offset + 1);
    IdAfterNumeric(parse, ids, offset);
    assert parse(id) == Some(m + offset + 1);
    forall i | 0 <= i < |ids| ensures ids[i] != id {
      assert parse(ids[i]).value <= m;
    }
  }

  /** Ids generated with different offsets differ. */
  lemma IdAfterDistinct(parse: string -> Option<int>, ids: seq<string>, j: nat, k: nat)
    requires AllNumeric(parse, ids) && j != k
    ensures IdAfter(parse, ids, j) != IdAfter(parse, ids, k)
  {
    var m := MaxId(parse, ids);
    IdAfterNumeric(parse, ids, j);
    IdAfterNumeric(parse, ids, k);
    NatToStringInjective(m + j + 1, m + k + 1);
  }

  /** A NaN id poisons the maximum: the generated id is "NaN". */
  lemma NextIdNaN(parse: string -> Option<int>, ids: seq<string>)
    requires !AllNumeric(parse, ids)
    ensures NextId(parse, ids) == "NaN"
  {
  }
}
