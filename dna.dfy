/**
 Extraction of a feature's bases from its record, which the program delegates
 to Biopython (`feature.extract(record)`, glimmerize.py:85). Only a single
 contiguous location is modelled: the bases `[start, end)`, reverse
 complemented on the reverse strand. A location that points into another
 record cannot be extracted, which the program sees as a `ValueError`.
 */
module Dna {
  import opened Wrappers
  import opened PySeq
  import opened Identifiers

  /** A feature location: 0-based, end-exclusive offsets and a strand. */
  datatype Location = Location(start: nat, end: nat, strand: StrandSign, remote: bool)

  /** The IUPAC complement of one base; case is kept, anything else is left as it is. */
  function Complement(c: char): char
  {
    match c
    case 'A' => 'T' case 'T' => 'A' case 'C' => 'G' case 'G' => 'C'
    case 'M' => 'K' case 'K' => 'M' case 'R' => 'Y' case 'Y' => 'R'
    case 'V' => 'B' case 'B' => 'V' case 'H' => 'D' case 'D' => 'H'
    case 'a' => 't' case 't' => 'a' case 'c' => 'g' case 'g' => 'c'
    case 'm' => 'k' case 'k' => 'm' case 'r' => 'y' case 'y' => 'r'
    case 'v' => 'b' case 'b' => 'v' case 'h' => 'd' case 'd' => 'h'
    case _ => c
  }

  /** The bases of the opposite strand, read in its own 5' to 3' direction. */
  function ReverseComplement(s: string): (r: string)
    ensures |r| == |s|
  {
    if s == [] then [] else ReverseComplement(s[1..]) + [Complement(s[0])]
  }

  /** Base `k` of the opposite strand pairs with base `n - 1 - k` of this one. */
  lemma {:induction false} ReverseComplementElements(s: string)
    ensures forall k :: 0 <= k < |s| ==> ReverseComplement(s)[k] == Complement(s[|s| - 1 - k])
  {
    if s != [] {
      ReverseComplementElements(s[1..]);
      var r, t := ReverseComplement(s), ReverseComplement(s[1..]);
      assert r == t + [Complement(s[0])];
      forall k | 0 <= k < |s|
        ensures r[k] == Complement(s[|s| - 1 - k])
      {
        if k < |s| - 1 {
          assert r[k] == t[k];
          assert s[1..][|s| - 2 - k] == s[|s| - 1 - k];
        }
      }
    }
  }

  lemma ComplementTwice(c: char)
    ensures Complement(Complement(c)) == c
  {
  }

  /** Reading the opposite strand of the opposite strand gives the original bases. */
  lemma ReverseComplementTwice(s: string)
    ensures ReverseComplement(ReverseComplement(s)) == s
  {
    var r := ReverseComplement(ReverseComplement(s));
    ReverseComplementElements(s);
    ReverseComplementElements(ReverseComplement(s));
    forall k | 0 <= k < |s|
      ensures r[k] == s[k]
    {
      ComplementTwice(s[k]);
    }
  }

  /** `feature.extract(record)` for a contiguous location; `None` stands for the `ValueError`. */
  function Extract(s: string, loc: Location): Option<string>
  {
    if loc.remote then None
    else
      var bases := Slice(s, loc.start, loc.end);
      Some(if loc.strand == -1 then ReverseComplement(bases) else bases)
  }

  /** Dropping the last `trim` bases of the opposite strand drops the first `trim` of this one. */
  lemma {:induction false} ReverseComplementDrop(w: string, trim: nat)
    requires trim <= |w|
    ensures ReverseComplement(w)[..|w| - trim] == ReverseComplement(w[trim..])
  {
    var r, b := ReverseComplement(w), ReverseComplement(w[trim..]);
    ReverseComplementElements(w);
    ReverseComplementElements(w[trim..]);
    var a := r[..|w| - trim];
    forall k | 0 <= k < |a|
      ensures a[k] == b[k]
    {
      assert a[k] == r[k] == Complement(w[|w| - 1 - k]);
      assert w[trim..][|w| - trim - 1 - k] == w[|w| - 1 - k];
    }
  }

  /**
   A location inside the record extracts exactly its `end - start` bases, in
   reading order on the forward and unknown strands and as the reverse
   complement on the reverse strand.
   */
  lemma ExtractWithin(s: string, loc: Location)
    requires !loc.remote && loc.start <= loc.end <= |s|
    ensures Extract(s, loc).Some?
    ensures |Extract(s, loc).value| == loc.end - loc.start
    ensures loc.strand != -1 ==> Extract(s, loc).value == s[loc.start..loc.end]
    ensures loc.strand == -1 ==> Extract(s, loc).value == ReverseComplement(s[loc.start..loc.end])
  {
    SliceWithin(s, loc.start, loc.end);
  }

}
