/**
 The identifiers the program gives its output records,
 `"{fid}|{lo}-{hi}|{strand}"` (glimmerize.py:94, 97, 107), with the strand
 symbol taken from `" +-"[strand]`, and a reader that recovers the four fields
 from an identifier.
 */
module Identifiers {
  import opened Wrappers
  import opened Decimal
  import PySeq

  /** A feature's strand as a Python `int`: 1 forward, -1 reverse, 0 unknown. */
  type StrandSign = k: int | -1 <= k <= 1

  /** `" +-"[strand]`, where the negative index -1 selects the last character. */
  function StrandSymbol(strand: StrandSign): (c: char)
    ensures c == (if strand == 1 then '+' else if strand == -1 then '-' else ' ')
  {
    PySeq.Index(" +-", strand)
  }

  /** `f"{lo}-{hi}"` */
  function RangeText(lo: int, hi: int): string
  {
    IntText(lo) + "-" + IntText(hi)
  }

  /** `f"{fid}|{lo}-{hi}|{sym}"` */
  function RecordId(fid: string, lo: int, hi: int, sym: char): string
  {
    fid + "|" + RangeText(lo, hi) + "|" + [sym]
  }

  datatype IdFields = IdFields(fid: string, lo: int, hi: int, sym: char)

  /** The last position of `c` in `s`. */
  function LastIndexOf(s: string, c: char): (r: Option<nat>)
    ensures r.Some? ==> r.value < |s| && s[r.value] == c && c !in s[r.value + 1..]
    ensures r.None? ==> c !in s
  {
    if s == [] then None
    else if s[|s| - 1] == c then Some(|s| - 1)
    else
      var r := LastIndexOf(s[..|s| - 1], c);
      assert s == s[..|s| - 1] + [s[|s| - 1]];
      if r.Some? then
        assert s[r.value + 1..] == s[..|s| - 1][r.value + 1..] + [s[|s| - 1]];
        r
      else r
  }

  /** The first position of `c` in `s`. */
  function FirstIndexOf(s: string, c: char): (r: Option<nat>)
    ensures r.Some? ==> r.value < |s| && s[r.value] == c && c !in s[..r.value]
    ensures r.None? ==> c !in s
  {
    if s == [] then None
    else if s[0] == c then Some(0)
    else
      var r := FirstIndexOf(s[1..], c);
      assert s == [s[0]] + s[1..];
      if r.Some? then
        assert s[..r.value + 1] == [s[0]] + s[1..][..r.value];
        Some(r.value + 1)
      else r
  }

  /** Reads `"{lo}-{hi}"`; the first number may carry a sign, so the separator is the first `-` after it. */
  function ParseRange(t: string): Option<(int, int)>
  {
    var neg := |t| > 0 && t[0] == '-';
    var u := if neg then t[1..] else t;
    match FirstIndexOf(u, '-')
    case None => None
    case Some(q) =>
      var a := u[..q];
      match ParseInt(u[q + 1..])
      case None => None
      case Some(hi) =>
        if a != [] && AllDigits(a) then
          Some((if neg then -(ParseNat(a) as int) else ParseNat(a), hi))
        else None
  }

  /**
   Reads `"{fid}|{lo}-{hi}|{sym}"` from the right: the symbol is the last
   character, and the range is what lies between the last two bars, so the
   `fid` itself may contain bars.
   */
  function ParseId(s: string): Option<IdFields>
  {
    if |s| < 2 || s[|s| - 2] != '|' then None
    else
      var body := s[..|s| - 2];
      match LastIndexOf(body, '|')
      case None => None
      case Some(p) =>
        match ParseRange(body[p + 1..])
        case None => None
        case Some(range) => Some(IdFields(body[..p], range.0, range.1, s[|s| - 1]))
  }

  lemma NoMarksInDigits(s: string)
    requires AllDigits(s)
    ensures '-' !in s && '|' !in s
  {
  }

  lemma NoBarInIntText(i: int)
    ensures '|' !in IntText(i)
  {
    var d := NatText(if i < 0 then -i else i);
    NatTextDigits(if i < 0 then -i else i);
    NoMarksInDigits(d);
    assert IntText(i) == (if i < 0 then "-" else "") + d;
  }

  lemma {:induction false} FirstDashAfterDigits(d: string, rest: string)
    requires AllDigits(d)
    ensures FirstIndexOf(d + "-" + rest, '-') == Some(|d|)
  {
    var u := d + "-" + rest;
    var q := FirstIndexOf(u, '-');
    NoMarksInDigits(d);
    assert u[|d|] == '-';
  }

  lemma {:induction false} LastBarBeforeRange(fid: string, range: string)
    requires '|' !in range
    ensures LastIndexOf(fid + "|" + range, '|') == Some(|fid|)
  {
    var body := fid + "|" + range;
    var p := LastIndexOf(body, '|');
    assert body[|fid|] == '|';
  }

  /** A range whose low number is written as an optional sign and digits splits at the dash after them. */
  lemma {:induction false} ParseRangeSplit(neg: bool, d: string, rest: string)
    requires d != [] && AllDigits(d)
    ensures ParseRange((if neg then "-" else "") + d + "-" + rest)
      == match ParseInt(rest) case None => None
         case Some(hi) => Some((if neg then -(ParseNat(d) as int) else ParseNat(d), hi))
  {
    var t := (if neg then "-" else "") + d + "-" + rest;
    var u := d + "-" + rest;
    if neg {
      assert t == "-" + u;
      assert t[1..] == u;
    } else {
      assert t == u;
    }
    FirstDashAfterDigits(d, rest);
    assert u[..|d|] == d;
    assert u[|d| + 1..] == rest;
  }

  /** The range text of an identifier reads back as the two numbers written. */
  lemma ParseRangeText(lo: int, hi: int)
    ensures ParseRange(RangeText(lo, hi)) == Some((lo, hi))
  {
    var d := NatText(if lo < 0 then -lo else lo);
    assert IntText(lo) == (if lo < 0 then "-" else "") + d;
    NatTextDigits(if lo < 0 then -lo else lo);
    ParseRangeSplit(lo < 0, d, IntText(hi));
    ParseNatText(if lo < 0 then -lo else lo);
    ParseIntText(hi);
  }

  lemma NoBarInRange(lo: int, hi: int)
    ensures '|' !in RangeText(lo, hi)
  {
    NoBarInIntText(lo);
    NoBarInIntText(hi);
  }

  /** An identifier splits into its body, the final bar and the strand symbol. */
  lemma {:induction false} ParseIdSplit(body: string, sym: char)
    ensures ParseId(body + "|" + [sym]) ==
      match LastIndexOf(body, '|')
      case None => None
      case Some(p) =>
        match ParseRange(body[p + 1..])
        case None => None
        case Some(range) => Some(IdFields(body[..p], range.0, range.1, sym))
  {
    var s := body + "|" + [sym];
    assert s[..|s| - 2] == body && s[|s| - 2] == '|' && s[|s| - 1] == sym;
  }

  lemma {:induction false} ParseIdParts(fid: string, range: string, sym: char)
    requires '|' !in range
    ensures ParseId(fid + "|" + range + "|" + [sym]) ==
      match ParseRange(range) case None => None case Some(r) => Some(IdFields(fid, r.0, r.1, sym))
  {
    var body := fid + "|" + range;
    LastBarBeforeRange(fid, range);
    assert body[..|fid|] == fid;
    assert body[|fid| + 1..] == range;
    ParseIdSplit(body, sym);
  }


  /** An identifier reads back as the four fields it was written from, whatever `fid` holds. */
  lemma {:induction false} ParseRecordId(fid: string, lo: int, hi: int, sym: char)
    ensures ParseId(RecordId(fid, lo, hi, sym)) == Some(IdFields(fid, lo, hi, sym))
  {
    NoBarInRange(lo, hi);
    ParseRangeText(lo, hi);
    ParseIdParts(fid, RangeText(lo, hi), sym);
    assert ParseRange(RangeText(lo, hi)) == Some((lo, hi));
  }

  /** Two identifiers are equal only when all four fields are. */
  lemma RecordIdInjective(f1: string, lo1: int, hi1: int, c1: char, f2: string, lo2: int, hi2: int, c2: char)
    requires RecordId(f1, lo1, hi1, c1) == RecordId(f2, lo2, hi2, c2)
    ensures f1 == f2 && lo1 == lo2 && hi1 == hi2 && c1 == c2
  {
    ParseRecordId(f1, lo1, hi1, c1);
    ParseRecordId(f2, lo2, hi2, c2);
  }

}
