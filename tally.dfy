/**
 The start-codon tally: the program's `OrderedDict` from codon to count
 (glimmerize.py:75), its increment (glimmerize.py:92), written here as a
 function returning the updated entries, and the
 normalisation written to the start-use table (glimmerize.py:114-115).
 */
module Tally {
  import opened Wrappers

  /** An ordered mapping, as the list of its `(key, value)` entries in insertion order. */
  type Entries = seq<(string, int)>

  /** The three start codons, in the order the table's columns follow. */
  const StartCodons: seq<string> := ["ATG", "GTG", "TTG"]

  /** `OrderedDict((("ATG", 0), ("GTG", 0), ("TTG", 0)))` */
  const Initial: Entries := [("ATG", 0), ("GTG", 0), ("TTG", 0)]

  /** The tally starts with the three start codons, in order, each counted zero times. */
  lemma InitialTally()
    ensures Keys(Initial) == StartCodons && Counts(Initial) && Total(Initial) == 0
    ensures StartUse(Initial) == None
  {
    assert Initial[1..][1..][1..] == [];
  }

  function Keys(e: Entries): (r: seq<string>)
    ensures |r| == |e| && forall k :: 0 <= k < |e| ==> r[k] == e[k].0
  {
    if e == [] then [] else [e[0].0] + Keys(e[1..])
  }

  /** The position of `key` among the entries, as `key in codons` finds it. */
  function Find(e: Entries, key: string): (r: Option<nat>)
    ensures r.Some? ==> r.value < |e| && e[r.value].0 == key
    ensures r.None? <==> key !in Keys(e)
  {
    if e == [] then None
    else if e[0].0 == key then Some(0)
    else
      var r := Find(e[1..], key);
      assert Keys(e) == [e[0].0] + Keys(e[1..]);
      if r.Some? then Some(r.value + 1) else None
  }

  /** `codons[key] += 1` for a key that is present; the order of the keys does not change. */
  function Increment(e: Entries, key: string): (r: Entries)
    requires key in Keys(e)
    ensures Keys(r) == Keys(e)
  {
    var i := Find(e, key).value;
    e[i := (key, e[i].1 + 1)]
  }

  /** `sum(codons.values())` */
  function Total(e: Entries): int
  {
    if e == [] then 0 else e[0].1 + Total(e[1..])
  }

  /** Every count is a count: never negative. */
  predicate Counts(e: Entries)
  {
    forall k :: 0 <= k < |e| ==> 0 <= e[k].1
  }

  /** Replacing one value changes the total by the difference. */
  lemma {:induction false} TotalUpdate(e: Entries, i: nat, v: (string, int))
    requires i < |e|
    ensures Total(e[i := v]) == Total(e) - e[i].1 + v.1
    decreases |e|
  {
    if i > 0 {
      TotalUpdate(e[1..], i - 1, v);
      assert e[i := v][1..] == e[1..][i - 1 := v];
    }
  }

  /** An increment adds exactly one to the total, to the entry of `key` alone. */
  lemma IncrementOne(e: Entries, key: string)
    requires key in Keys(e)
    ensures Total(Increment(e, key)) == Total(e) + 1
    ensures Find(e, key).Some?
    ensures forall k :: 0 <= k < |e| ==>
      Increment(e, key)[k].1 == e[k].1 + (if k == Find(e, key).value then 1 else 0)
  {
    var i := Find(e, key).value;
    var r := Increment(e, key);
    assert r == e[i := (key, e[i].1 + 1)];
    TotalUpdate(e, i, (key, e[i].1 + 1));
  }

  /** The sum of a list of ratios. */
  function Sum(rs: seq<real>): real
  {
    if rs == [] then 0.0 else rs[0] + Sum(rs[1..])
  }

  /** Each count divided by `total`, in entry order. */
  function Ratios(e: Entries, total: real): (r: seq<real>)
    requires total != 0.0
    ensures |r| == |e| && forall k :: 0 <= k < |e| ==> r[k] == e[k].1 as real / total
  {
    if e == [] then [] else [e[0].1 as real / total] + Ratios(e[1..], total)
  }

  /**
   The start-use line: each count over the total, in key order; `None` when
   the total is zero, where the program's division raises `ZeroDivisionError`.
   */
  function StartUse(e: Entries): Option<seq<real>>
  {
    var total := Total(e);
    if total == 0 then None else Some(Ratios(e, total as real))
  }

  lemma {:induction false} SumRatios(e: Entries, total: real)
    requires total != 0.0
    ensures Sum(Ratios(e, total)) == Total(e) as real / total
  {
    if e != [] {
      SumRatios(e[1..], total);
      assert Ratios(e, total)[1..] == Ratios(e[1..], total);
      assert e[0].1 as real / total + Total(e[1..]) as real / total == (e[0].1 + Total(e[1..])) as real / total;
    }
  }

  lemma RatioBounds(a: real, t: real)
    requires 0.0 < t && 0.0 <= a <= t
    ensures 0.0 <= a / t <= 1.0
  {
    assert (a / t) * t == a;
  }

  lemma RatioOfSelf(t: real)
    requires t != 0.0
    ensures t / t == 1.0
  {
    var q := t / t;
    assert q * t == t;
    assert (q - 1.0) * t == 0.0;
  }

  lemma {:induction false} TotalBounds(e: Entries, k: nat)
    requires Counts(e) && k < |e|
    ensures 0 <= e[k].1 <= Total(e)
  {
    if k > 0 {
      TotalBounds(e[1..], k - 1);
    } else if e[1..] != [] {
      TotalBounds(e[1..], 0);
    }
  }

  /**
   Whenever some codon was counted, the start-use ratios keep the entry order,
   lie in `[0, 1]` and add up to exactly 1; when none was, there is no line.
   */
  lemma StartUseNormalised(e: Entries)
    requires Counts(e)
    ensures StartUse(e).None? <==> Total(e) == 0
    ensures StartUse(e).Some? ==> |StartUse(e).value| == |e| && Sum(StartUse(e).value) == 1.0
    ensures StartUse(e).Some? ==> forall k :: 0 <= k < |e| ==>
      StartUse(e).value[k] == e[k].1 as real / Total(e) as real && 0.0 <= StartUse(e).value[k] <= 1.0
  {
    var total := Total(e);
    if total != 0 {
      SumRatios(e, total as real);
      RatioOfSelf(total as real);
      forall k | 0 <= k < |e|
        ensures 0.0 <= e[k].1 as real / total as real <= 1.0
      {
        TotalBounds(e, k);
        RatioBounds(e[k].1 as real, total as real);
      }
    }
  }

}
