/**
 The feature loop of `main` (glimmerize.py:75-109): for every CDS feature, in
 input order and numbered from 1, read the start codon of the trimmed coding
 region; keep the feature only when that codon is ATG, GTG or TTG, in which
 case count the codon, emit a training record and, when the window before the
 feature is not empty, an upstream record.
 */
module Glimmerize {
  import opened Wrappers
  import opened PySeq
  import opened Circular
  import opened Decimal
  import opened Identifiers
  import opened Dna
  import opened Tally

  /** A parsed genome record: its bases and its `topology` annotation, when it has one. */
  datatype Record = Record(sequence: string, topology: Option<string>)

  /** Qualifiers as the GenBank parser gives them: each key holds a non-empty list of values. */
  type Qualifiers = q: map<string, seq<string>> | forall key :: key in q ==> q[key] != []
    witness map[]

  /** A CDS feature: where it lies and its qualifiers. */
  datatype Feature = Feature(location: Location, qualifiers: Qualifiers)

  /** The options the loop reads: `--nups`, `--trim`, `--key-id`, `--key-description`. */
  datatype Config = Config(nups: int, trim: int, keyId: string, keyDesc: string)

  /** An output record: its bases, its identifier and its description. */
  datatype SeqRecord = SeqRecord(sequence: string, id: string, description: string)

  /** What one feature contributes: nothing, or a counted codon, a training record and perhaps an upstream record. */
  datatype Outcome =
    | Rejected
    | Accepted(codon: string, training: SeqRecord, upstream: Option<SeqRecord>)

  /** `feature.extract(record)[:-trim]`, or `None` where the extraction raises `ValueError`. */
  function Trimmed(rec: Record, feat: Feature, trim: int): Option<string>
  {
    match Extract(rec.sequence, feat.location)
    case None => None
    case Some(bases) => Some(Slice(bases, 0, -trim))
  }

  /** `str(trecord.seq[:3])`, and `""` when the extraction raised. */
  function StartCodonOf(rec: Record, feat: Feature, trim: int): string
  {
    match Trimmed(rec, feat, trim)
    case None => ""
    case Some(trimmed) => Slice(trimmed, 0, 3)
  }

  /** `qualifiers.get(key, [default])[0]` */
  function FirstValue(q: Qualifiers, key: string, default: string): string
  {
    if key in q then q[key][0] else default
  }

  /** The feature's name: its first `key_id` value, or `cds-{idx}`. */
  function FeatureId(feat: Feature, idx: nat, keyId: string): string
  {
    FirstValue(feat.qualifiers, keyId, "cds-" + IntText(idx))
  }

  /** `record.annotations.get("topology", "linear")` */
  function Topology(rec: Record): string
  {
    match rec.topology
    case None => "linear"
    case Some(t) => t
  }

  /** `record[uidx:start]` on a linear record and `cslice(record, uidx, start)` on any other, with `uidx = start - nups`. */
  function UpstreamWindow(rec: Record, start: int, nups: int): string
  {
    var uidx := start - nups;
    if Topology(rec) == "linear" then Slice(rec.sequence, uidx, start)
    else Cslice(rec.sequence, uidx, start)
  }

  /** The training record of a kept feature whose trimmed region is `trimmed` (glimmerize.py:94-98). */
  function TrainingRecord(feat: Feature, idx: nat, cfg: Config, trimmed: string): SeqRecord
  {
    var loc := feat.location;
    var fid := FeatureId(feat, idx, cfg.keyId);
    SeqRecord(trimmed, RecordId(fid, loc.start + 1, loc.end - cfg.trim, StrandSymbol(loc.strand)),
              FirstValue(feat.qualifiers, cfg.keyDesc, ""))
  }

  /** The upstream record of a kept feature, when its window is not empty (glimmerize.py:106-109). */
  function UpstreamRecord(feat: Feature, idx: nat, cfg: Config, window: string): Option<SeqRecord>
  {
    var loc := feat.location;
    var fid := FeatureId(feat, idx, cfg.keyId);
    if |window| > 0 then
      Some(SeqRecord(window, RecordId(fid, loc.start + 1 - cfg.nups, loc.start, StrandSymbol(loc.strand)),
                     FirstValue(feat.qualifiers, cfg.keyDesc, "")))
    else None
  }

  /** What the loop body does with the feature numbered `idx` (glimmerize.py:82-109). */
  function Classify(rec: Record, feat: Feature, idx: nat, cfg: Config): Outcome
  {
    var codon := StartCodonOf(rec, feat, cfg.trim);
    if codon !in StartCodons then Rejected
    else
      var trimmed := Trimmed(rec, feat, cfg.trim);
      assert trimmed.Some?;
      var window := UpstreamWindow(rec, feat.location.start, cfg.nups);
      Accepted(codon, TrainingRecord(feat, idx, cfg, trimmed.value), UpstreamRecord(feat, idx, cfg, window))
  }

  /** The outcome of every feature, numbered from 1 as `enumerate(..., start=1)` does. */
  function Outcomes(cfg: Config, items: seq<(Record, Feature)>): (outs: seq<Outcome>)
    ensures |outs| == |items|
    ensures forall k :: 0 <= k < |items| ==> outs[k] == Classify(items[k].0, items[k].1, k + 1, cfg)
  {
    if items == [] then []
    else
      var n := |items| - 1;
      Outcomes(cfg, items[..n]) + [Classify(items[n].0, items[n].1, n + 1, cfg)]
  }

  /** The training records, in order. */
  function TrainingOf(outs: seq<Outcome>): seq<SeqRecord>
  {
    if outs == [] then []
    else
      var o := outs[|outs| - 1];
      TrainingOf(outs[..|outs| - 1]) + (if o.Accepted? then [o.training] else [])
  }

  /** The upstream records, in order. */
  function UpstreamOf(outs: seq<Outcome>): seq<SeqRecord>
  {
    if outs == [] then []
    else
      var o := outs[|outs| - 1];
      UpstreamOf(outs[..|outs| - 1]) + (if o.Accepted? && o.upstream.Some? then [o.upstream.value] else [])
  }

  /** How many accepted features start with `codon`. */
  function Count(outs: seq<Outcome>, codon: string): nat
  {
    if outs == [] then 0
    else
      var o := outs[|outs| - 1];
      Count(outs[..|outs| - 1], codon) + (if o.Accepted? && o.codon == codon then 1 else 0)
  }

  /** The tally as the three counts, in the order ATG, GTG, TTG. */
  function TallyOf(outs: seq<Outcome>): Entries
  {
    [("ATG", Count(outs, "ATG")), ("GTG", Count(outs, "GTG")), ("TTG", Count(outs, "TTG"))]
  }

  /** Every counted codon is one of the three start codons. */
  predicate Sound(outs: seq<Outcome>)
  {
    forall k :: 0 <= k < |outs| ==> outs[k].Accepted? ==> outs[k].codon in StartCodons
  }

  /**
   The upstream record `u` belongs to the training record `t`: they share the
   description, the feature name and the strand symbol, and `u`'s range, `nups`
   long, ends just before `t`'s begins.
   */
  ghost predicate BelongsTo(u: SeqRecord, t: SeqRecord, nups: int)
  {
    && u.description == t.description
    && exists fid, lo, hi, sym :: t.id == RecordId(fid, lo, hi, sym) && u.id == RecordId(fid, lo - nups, lo - 1, sym)
  }

  /** For each upstream record, the position of the training record of the same feature. */
  function Sources(outs: seq<Outcome>): (src: seq<nat>)
    ensures |src| == |UpstreamOf(outs)|
    ensures forall k :: 0 <= k < |src| ==> src[k] < |TrainingOf(outs)|
    ensures forall k1, k2 :: 0 <= k1 < k2 < |src| ==> src[k1] < src[k2]
  {
    if outs == [] then []
    else
      var n := |outs| - 1;
      var o := outs[n];
      Sources(outs[..n]) + (if o.Accepted? && o.upstream.Some? then [|TrainingOf(outs[..n])|] else [])
  }

  // ---------------------------------------------------------------------------
  // One feature

  /**
   A feature is kept exactly when the first three bases of its trimmed region
   are ATG, GTG or TTG (glimmerize.py:84-90). So it is dropped when the
   extraction fails, when the trimmed region is shorter than three bases, and
   whenever `trim` is 0, since `[:-0]` is empty.
   */
  lemma AcceptanceRule(rec: Record, feat: Feature, idx: nat, cfg: Config)
    ensures Classify(rec, feat, idx, cfg).Accepted? <==> StartCodonOf(rec, feat, cfg.trim) in StartCodons
    ensures Classify(rec, feat, idx, cfg).Accepted? ==>
      Classify(rec, feat, idx, cfg).codon == StartCodonOf(rec, feat, cfg.trim)
    ensures feat.location.remote ==> Classify(rec, feat, idx, cfg) == Rejected
    ensures cfg.trim == 0 ==> Classify(rec, feat, idx, cfg) == Rejected
    ensures Trimmed(rec, feat, cfg.trim).Some? && |Trimmed(rec, feat, cfg.trim).value| < 3 ==>
      Classify(rec, feat, idx, cfg) == Rejected
  {
    var trimmed := Trimmed(rec, feat, cfg.trim);
    if trimmed.Some? {
      var bases := Extract(rec.sequence, feat.location).value;
      DropLast(bases, cfg.trim);
    }
  }

  /**
   A kept feature's training record holds the trimmed region, which starts
   with the counted codon; its identifier is `{fid}|{start+1}-{end-trim}|{sym}`
   whatever the strand, with `fid` the first `key_id` value or `cds-{idx}`; its
   description is the first `key_desc` value or `""` (glimmerize.py:94-98).
   */
  lemma TrainingRecordFields(rec: Record, feat: Feature, idx: nat, cfg: Config)
    requires Classify(rec, feat, idx, cfg).Accepted?
    ensures var o := Classify(rec, feat, idx, cfg);
      && o.training.sequence == Trimmed(rec, feat, cfg.trim).value
      && |o.training.sequence| >= 3 && o.training.sequence[..3] == o.codon
    ensures var loc, q := feat.location, feat.qualifiers;
      var fid := if cfg.keyId in q then q[cfg.keyId][0] else "cds-" + IntText(idx);
      Classify(rec, feat, idx, cfg).training.id
        == RecordId(fid, loc.start + 1, loc.end - cfg.trim, StrandSymbol(loc.strand))
    ensures Classify(rec, feat, idx, cfg).training.description
      == if cfg.keyDesc in feat.qualifiers then feat.qualifiers[cfg.keyDesc][0] else ""
  {
    AcceptedParts(rec, feat, idx, cfg);
    var t := Trimmed(rec, feat, cfg.trim).value;
    var o := Classify(rec, feat, idx, cfg);
    assert o.codon == Slice(t, 0, 3);
    assert Slice(t, 0, 3) == t[..3];
    TrainingId(feat, idx, cfg, t);
  }

  /** A training record is named after the feature, the 1-based start and the trimmed end. */
  lemma TrainingId(feat: Feature, idx: nat, cfg: Config, trimmed: string)
    ensures var loc := feat.location;
      TrainingRecord(feat, idx, cfg, trimmed).id
        == RecordId(FeatureId(feat, idx, cfg.keyId), loc.start + 1, loc.end - cfg.trim, StrandSymbol(loc.strand))
  {
  }

  /**
   For a location inside its record and `0 < trim <= end - start`, the
   trimmed region is the location's bases without the last `trim` of them in
   reading order: on the forward strand the bases `[start, end - trim)`, on the
   reverse strand the reverse complement of `[start + trim, end)`, although the
   identifier names `start+1` to `end-trim` on both strands.
   */
  lemma TrimmedWithin(rec: Record, feat: Feature, trim: int)
    requires var loc := feat.location; !loc.remote && loc.start <= loc.end <= |rec.sequence|
    requires 0 < trim <= feat.location.end - feat.location.start
    ensures Trimmed(rec, feat, trim).Some?
    ensures var loc, s := feat.location, rec.sequence;
      Trimmed(rec, feat, trim).value
        == if loc.strand == -1 then ReverseComplement(s[loc.start + trim..loc.end]) else s[loc.start..loc.end - trim]
  {
    var loc, s := feat.location, rec.sequence;
    ExtractWithin(s, loc);
    var bases := Extract(s, loc).value;
    assert Trimmed(rec, feat, trim) == Some(Slice(bases, 0, -trim));
    if loc.strand == -1 {
      TrimmedReverse(s, loc.start, loc.end, trim);
    } else {
      DropLast(s[loc.start..loc.end], trim);
    }
  }

  /** On the reverse strand, trimming the end of the extracted bases drops the first `trim` forward bases. */
  lemma TrimmedReverse(s: string, start: nat, end: nat, trim: int)
    requires start <= end <= |s| && 0 < trim <= end - start
    ensures Slice(ReverseComplement(s[start..end]), 0, -trim) == ReverseComplement(s[start + trim..end])
  {
    var whole := s[start..end];
    DropLast(ReverseComplement(whole), trim);
    ReverseComplementDrop(whole, trim);
    assert whole[trim..] == s[start + trim..end];
  }

  /**
   On a linear record the window is a Python slice that does not wrap but
   counts a negative start from the end (glimmerize.py:104): `nups` bases when
   the feature starts at least `nups` bases in, nothing when it starts closer
   to the origin and `nups` fits in the record, and the bases from
   `n + start - nups` (at least 0) up to `start` when `nups` exceeds the record.
   */
  lemma LinearWindow(rec: Record, start: nat, nups: int)
    requires Topology(rec) == "linear" && start <= |rec.sequence|
    ensures 0 <= nups <= start ==> UpstreamWindow(rec, start, nups) == rec.sequence[start - nups..start]
    ensures start < nups <= |rec.sequence| ==> UpstreamWindow(rec, start, nups) == []
    ensures |rec.sequence| < nups ==>
      UpstreamWindow(rec, start, nups) == rec.sequence[Max(|rec.sequence| + start - nups, 0)..start]
    ensures nups < 0 ==> UpstreamWindow(rec, start, nups) == []
  {
    var s, n := rec.sequence, |rec.sequence|;
    if 0 <= nups <= start {
      SliceWithin(s, start - nups, start);
    } else if n < nups {
      var lo := Max(n + start - nups, 0);
      assert Bound(start - nups, n) == lo;
      assert UpstreamWindow(rec, start, nups) == Slice(s, start - nups, start);
      assert Slice(s, start - nups, start) == s[lo..start];
    } else if nups < 0 {
      SliceWithin(s, start - nups, start);
    }
  }

  /**
   On a circular record the window always holds `min(nups, n)` bases
   (glimmerize.py:104): element `k` is base `(start - nups + k) mod n` when
   `nups` fits in the record, and one full turn ending at `start` otherwise.
   */
  lemma CircularWindow(rec: Record, start: nat, nups: nat)
    requires Topology(rec) != "linear" && start <= |rec.sequence|
    ensures |UpstreamWindow(rec, start, nups)| == Min(nups, |rec.sequence|)
    ensures nups <= |rec.sequence| ==> forall k :: 0 <= k < nups ==>
      UpstreamWindow(rec, start, nups)[k] == rec.sequence[Turn(start - nups + k, |rec.sequence|)]
    ensures |rec.sequence| < nups ==>
      UpstreamWindow(rec, start, nups) == rec.sequence[start..] + rec.sequence[..start]
  {
    assert UpstreamWindow(rec, start, nups) == Cslice(rec.sequence, start - nups, start);
    CsliceEnding(rec.sequence, start - nups, start);
  }

  /** A kept feature's outcome is made of its codon, its training record and its upstream record. */
  lemma AcceptedParts(rec: Record, feat: Feature, idx: nat, cfg: Config)
    requires Classify(rec, feat, idx, cfg).Accepted?
    ensures Trimmed(rec, feat, cfg.trim).Some?
    ensures Classify(rec, feat, idx, cfg)
      == Accepted(StartCodonOf(rec, feat, cfg.trim),
                  TrainingRecord(feat, idx, cfg, Trimmed(rec, feat, cfg.trim).value),
                  UpstreamRecord(feat, idx, cfg, UpstreamWindow(rec, feat.location.start, cfg.nups)))
  {
  }

  /**
   A kept feature yields an upstream record exactly when its window is not
   empty; the record holds the window, is named
   `{fid}|{start+1-nups}-{start}|{sym}` and carries the training record's
   description (glimmerize.py:102-109).
   */
  lemma UpstreamRecordFields(feat: Feature, idx: nat, cfg: Config, window: string, trimmed: string)
    ensures UpstreamRecord(feat, idx, cfg, window).Some? <==> |window| > 0
    ensures var u, loc := UpstreamRecord(feat, idx, cfg, window), feat.location;
      u.Some? ==>
        && u.value.sequence == window
        && u.value.description == TrainingRecord(feat, idx, cfg, trimmed).description
        && u.value.id == RecordId(FeatureId(feat, idx, cfg.keyId), loc.start + 1 - cfg.nups, loc.start, StrandSymbol(loc.strand))
  {
    var loc := feat.location;
    var fid := FeatureId(feat, idx, cfg.keyId);
    var u := UpstreamRecord(feat, idx, cfg, window);
    if u.Some? {
      assert u.value.id == RecordId(fid, loc.start + 1 - cfg.nups, loc.start, StrandSymbol(loc.strand));
    }
  }

  /** Two records whose identifiers are written from one name, strand and adjacent ranges belong together. */
  lemma IdsBelong(u: SeqRecord, t: SeqRecord, fid: string, lo: int, hi: int, sym: char, nups: int)
    requires t.id == RecordId(fid, lo, hi, sym) && u.id == RecordId(fid, lo - nups, lo - 1, sym)
    requires u.description == t.description
    ensures BelongsTo(u, t, nups)
  {
  }

  /** An upstream record is named after the feature and the `nups` positions before its start. */
  lemma UpstreamId(feat: Feature, idx: nat, cfg: Config, window: string)
    requires |window| > 0
    ensures var loc := feat.location;
      UpstreamRecord(feat, idx, cfg, window).value.id
        == RecordId(FeatureId(feat, idx, cfg.keyId), loc.start + 1 - cfg.nups, loc.start, StrandSymbol(loc.strand))
  {
  }

  /** The upstream record of a kept feature belongs to its training record. */
  lemma UpstreamBelongs(feat: Feature, idx: nat, cfg: Config, window: string, trimmed: string)
    ensures var u := UpstreamRecord(feat, idx, cfg, window);
      u.Some? ==> BelongsTo(u.value, TrainingRecord(feat, idx, cfg, trimmed), cfg.nups)
  {
    if |window| > 0 {
      var u, t := UpstreamRecord(feat, idx, cfg, window).value, TrainingRecord(feat, idx, cfg, trimmed);
      var loc := feat.location;
      var fid, sym := FeatureId(feat, idx, cfg.keyId), StrandSymbol(loc.strand);
      TrainingId(feat, idx, cfg, trimmed);
      UpstreamId(feat, idx, cfg, window);
      IdsBelong(u, t, fid, loc.start + 1, loc.end - cfg.trim, sym, cfg.nups);
    }
  }

  /** With `nups == 0` a feature inside its record never yields an upstream record. */
  lemma NoWindowWithoutNups(rec: Record, feat: Feature, idx: nat, cfg: Config)
    requires cfg.nups == 0 && feat.location.start <= |rec.sequence|
    ensures Classify(rec, feat, idx, cfg).Accepted? ==> Classify(rec, feat, idx, cfg).upstream == None
  {
    var start := feat.location.start;
    SliceWithin(rec.sequence, start, start);
    CsliceDirect(rec.sequence, start, start);
  }

  // ---------------------------------------------------------------------------
  // The whole loop

  lemma {:induction false} OutcomesSound(cfg: Config, items: seq<(Record, Feature)>)
    ensures Sound(Outcomes(cfg, items))
  {
    var outs := Outcomes(cfg, items);
    forall k | 0 <= k < |outs| && outs[k].Accepted?
      ensures outs[k].codon in StartCodons
    {
      AcceptanceRule(items[k].0, items[k].1, k + 1, cfg);
    }
  }

  /** Counting one more kept feature is the dictionary's increment of its codon (`codons[codon] += 1`). */
  lemma TallyStep(outs: seq<Outcome>, o: Outcome)
    ensures Keys(TallyOf(outs)) == StartCodons
    ensures o.Accepted? && o.codon in StartCodons ==> TallyOf(outs + [o]) == Increment(TallyOf(outs), o.codon)
    ensures !o.Accepted? ==> TallyOf(outs + [o]) == TallyOf(outs)
  {
    assert (outs + [o])[..|outs|] == outs;
    assert Keys(TallyOf(outs)) == StartCodons;
  }

  /** One more feature adds its outcome at the end. */
  lemma OutcomesStep(cfg: Config, items: seq<(Record, Feature)>, k: nat)
    requires k < |items|
    ensures Outcomes(cfg, items[..k + 1]) == Outcomes(cfg, items[..k]) + [Classify(items[k].0, items[k].1, k + 1, cfg)]
  {
    assert items[..k + 1][..k] == items[..k];
  }

  /** One more outcome adds its training record and its upstream record, when it has them. */
  lemma RecordsStep(outs: seq<Outcome>, o: Outcome)
    ensures TrainingOf(outs + [o]) == TrainingOf(outs) + (if o.Accepted? then [o.training] else [])
    ensures UpstreamOf(outs + [o]) == UpstreamOf(outs) + (if o.Accepted? && o.upstream.Some? then [o.upstream.value] else [])
  {
    assert (outs + [o])[..|outs|] == outs;
  }

  lemma TallyTotal(outs: seq<Outcome>)
    ensures Total(TallyOf(outs)) == Count(outs, "ATG") + Count(outs, "GTG") + Count(outs, "TTG")
  {
    var e := TallyOf(outs);
    assert Total(e[1..][1..][1..]) == 0;
    assert Total(e[1..][1..]) == e[2].1;
    assert Total(e[1..]) == e[1].1 + e[2].1;
  }

  /** Each kept feature adds one to exactly one of the three counts. */
  lemma {:induction false} CountsAddUp(outs: seq<Outcome>)
    requires Sound(outs)
    ensures Count(outs, "ATG") + Count(outs, "GTG") + Count(outs, "TTG") == |TrainingOf(outs)|
    ensures |UpstreamOf(outs)| <= |TrainingOf(outs)|
  {
    if outs != [] {
      var n := |outs| - 1;
      var o, prev := outs[n], outs[..n];
      assert forall k :: 0 <= k < n ==> prev[k] == outs[k];
      CountsAddUp(prev);
      if o.Accepted? {
        assert o.codon in StartCodons;
        assert "ATG"[0] != "GTG"[0] && "GTG"[0] != "TTG"[0] && "ATG"[0] != "TTG"[0];
      }
    }
  }

  /**
   At every point of the loop the three counts add up to the number of
   training records, and there are never more upstream records than training
   records (glimmerize.py:75, 90-109).
   */
  lemma TallyMatchesTraining(outs: seq<Outcome>)
    requires Sound(outs)
    ensures Keys(TallyOf(outs)) == StartCodons && Counts(TallyOf(outs))
    ensures Total(TallyOf(outs)) == |TrainingOf(outs)|
    ensures |UpstreamOf(outs)| <= |TrainingOf(outs)|
  {
    CountsAddUp(outs);
    TallyTotal(outs);
  }

  /** A kept outcome's upstream record, when there is one, belongs to its training record. */
  ghost predicate Coherent(o: Outcome, nups: int)
  {
    o.Accepted? && o.upstream.Some? ==> BelongsTo(o.upstream.value, o.training, nups)
  }

  /** Every outcome of `outs` is coherent. */
  ghost predicate AllCoherent(outs: seq<Outcome>, nups: int)
  {
    forall k :: 0 <= k < |outs| ==> Coherent(outs[k], nups)
  }

  lemma ClassifyCoherent(rec: Record, feat: Feature, idx: nat, cfg: Config)
    ensures Coherent(Classify(rec, feat, idx, cfg), cfg.nups)
  {
    if Classify(rec, feat, idx, cfg).Accepted? {
      AcceptedParts(rec, feat, idx, cfg);
      UpstreamBelongs(feat, idx, cfg, UpstreamWindow(rec, feat.location.start, cfg.nups), Trimmed(rec, feat, cfg.trim).value);
    }
  }

  lemma {:induction false} CoherentSources(outs: seq<Outcome>, nups: int)
    requires AllCoherent(outs, nups)
    ensures forall k :: 0 <= k < |Sources(outs)| ==>
      BelongsTo(UpstreamOf(outs)[k], TrainingOf(outs)[Sources(outs)[k]], nups)
  {
    if outs != [] {
      var n := |outs| - 1;
      var o, prev := outs[n], outs[..n];
      CoherentSources(prev, nups);
      var ups, trs, src := UpstreamOf(prev), TrainingOf(prev), Sources(prev);
      assert forall k :: 0 <= k < |prev| ==> prev[k] == outs[k];
      if o.Accepted? {
        assert TrainingOf(outs) == trs + [o.training];
        if o.upstream.Some? {
          assert Coherent(o, nups);
          assert UpstreamOf(outs) == ups + [o.upstream.value];
          assert Sources(outs) == src + [|trs|];
        }
      }
    }
  }

  /**
   Upstream records come in the order of the training records they belong to:
   the `k`-th upstream record belongs to the training record at `Sources[k]`,
   and those positions increase.
   */
  lemma UpstreamFollowsTraining(cfg: Config, items: seq<(Record, Feature)>)
    ensures var outs := Outcomes(cfg, items);
      forall k :: 0 <= k < |Sources(outs)| ==>
        BelongsTo(UpstreamOf(outs)[k], TrainingOf(outs)[Sources(outs)[k]], cfg.nups)
  {
    OutcomesCoherent(cfg, items);
    CoherentSources(Outcomes(cfg, items), cfg.nups);
  }

  lemma OutcomesCoherent(cfg: Config, items: seq<(Record, Feature)>)
    ensures AllCoherent(Outcomes(cfg, items), cfg.nups)
  {
    var outs := Outcomes(cfg, items);
    forall k | 0 <= k < |outs|
      ensures Coherent(outs[k], cfg.nups)
    {
      ClassifyCoherent(items[k].0, items[k].1, k + 1, cfg);
    }
  }

  /** With `nups == 0` no upstream record is written, as long as every feature lies inside its record. */
  lemma {:induction false} NoUpstreamWithoutNups(cfg: Config, items: seq<(Record, Feature)>)
    requires cfg.nups == 0
    requires forall k :: 0 <= k < |items| ==> items[k].1.location.start <= |items[k].0.sequence|
    ensures UpstreamOf(Outcomes(cfg, items)) == []
  {
    if items != [] {
      var n := |items| - 1;
      NoUpstreamWithoutNups(cfg, items[..n]);
      NoWindowWithoutNups(items[n].0, items[n].1, n + 1, cfg);
      assert Outcomes(cfg, items)[..n] == Outcomes(cfg, items[..n]);
    }
  }

  /** The start-use table can be written exactly when some feature was kept; otherwise the division fails. */
  lemma StartUseNeedsTraining(cfg: Config, items: seq<(Record, Feature)>)
    ensures var outs := Outcomes(cfg, items);
      StartUse(TallyOf(outs)).None? <==> TrainingOf(outs) == []
  {
    var outs := Outcomes(cfg, items);
    OutcomesSound(cfg, items);
    TallyMatchesTraining(outs);
    StartUseNormalised(TallyOf(outs));
  }

  // ---------------------------------------------------------------------------
  // The loop as the program runs it

  /**
   Lines 84-98 of the loop body: extract and trim the feature, keep it when it
   starts with a start codon, count that codon and build the training record.
   The program's `codons[codon] += 1` on its local dictionary becomes a new
   value for the tally; nothing else refers to that dictionary.
   */
  method CountStart(codons: Entries, training: seq<SeqRecord>, rec: Record, feat: Feature, idx: nat, cfg: Config)
    returns (codons': Entries, training': seq<SeqRecord>, kept: bool)
    requires Keys(codons) == StartCodons
    ensures Keys(codons') == StartCodons
    ensures var codon := StartCodonOf(rec, feat, cfg.trim);
      && kept == (codon in StartCodons)
      && (kept ==> Trimmed(rec, feat, cfg.trim).Some?)
      && codons' == (if kept then Increment(codons, codon) else codons)
      && training' == training + (if kept then [TrainingRecord(feat, idx, cfg, Trimmed(rec, feat, cfg.trim).value)] else [])
  {
    codons', training' := codons, training;
    var trecord: string := [];
    var codon: string;
    var extracted := Extract(rec.sequence, feat.location);
    if extracted.Some? {
      trecord := Slice(extracted.value, 0, -cfg.trim);
      codon := Slice(trecord, 0, 3);
    } else {
      codon := "";
    }
    assert Trimmed(rec, feat, cfg.trim) == if extracted.Some? then Some(trecord) else None;
    assert codon == StartCodonOf(rec, feat, cfg.trim);
    var slot := Find(codons, codon);
    kept := slot.Some?;
    if kept {
      var i := slot.value;
      codons' := codons[i := (codon, codons[i].1 + 1)];
      assert codons' == Increment(codons, codon);
      var loc := feat.location;
      var fid := FeatureId(feat, idx, cfg.keyId);
      training' := training + [SeqRecord(trecord, RecordId(fid, loc.start + 1, loc.end - cfg.trim, StrandSymbol(loc.strand)),
                                         FirstValue(feat.qualifiers, cfg.keyDesc, ""))];
    }
  }

  /**
   Lines 100-109 of the loop body: cut the window of `nups` bases before the
   feature and append it as an upstream record unless it is empty.
   */
  method AddUpstream(upstream: seq<SeqRecord>, rec: Record, feat: Feature, idx: nat, cfg: Config)
    returns (upstream': seq<SeqRecord>)
    ensures var u := UpstreamRecord(feat, idx, cfg, UpstreamWindow(rec, feat.location.start, cfg.nups));
      upstream' == upstream + (if u.Some? then [u.value] else [])
  {
    upstream' := upstream;
    var loc := feat.location;
    var start := loc.start;
    var uidx := start - cfg.nups;
    var urecord: string;
    if Topology(rec) == "linear" {
      urecord := Slice(rec.sequence, uidx, start);
    } else {
      urecord := Cslice(rec.sequence, uidx, start);
    }
    if |urecord| > 0 {
      var fid := FeatureId(feat, idx, cfg.keyId);
      upstream' := upstream + [SeqRecord(urecord, RecordId(fid, start + 1 - cfg.nups, start, StrandSymbol(loc.strand)),
                                         FirstValue(feat.qualifiers, cfg.keyDesc, ""))];
    }
  }

  /** The whole loop body for the feature numbered `idx` (glimmerize.py:82-109). */
  method ProcessFeature(codons: Entries, training: seq<SeqRecord>, upstream: seq<SeqRecord>,
                        rec: Record, feat: Feature, idx: nat, cfg: Config)
    returns (codons': Entries, training': seq<SeqRecord>, upstream': seq<SeqRecord>)
    requires Keys(codons) == StartCodons
    ensures Keys(codons') == StartCodons
    ensures var o := Classify(rec, feat, idx, cfg);
      && codons' == (if o.Accepted? then Increment(codons, o.codon) else codons)
      && training' == training + (if o.Accepted? then [o.training] else [])
      && upstream' == upstream + (if o.Accepted? && o.upstream.Some? then [o.upstream.value] else [])
  {
    var kept;
    codons', training', kept := CountStart(codons, training, rec, feat, idx, cfg);
    upstream' := upstream;
    if kept {
      upstream' := AddUpstream(upstream, rec, feat, idx, cfg);
      AcceptedParts(rec, feat, idx, cfg);
    }
  }

  /**
   The loop of `main` over every CDS feature (glimmerize.py:75-109): the tally,
   the training records and the upstream records it leaves, with the tally
   keys in the order ATG, GTG, TTG, the counts adding up to the number of
   training records, and no more upstream than training records.
   */
  method ExtractTrainingData(cfg: Config, items: seq<(Record, Feature)>)
    returns (codons: Entries, training: seq<SeqRecord>, upstream: seq<SeqRecord>)
    ensures codons == TallyOf(Outcomes(cfg, items))
    ensures training == TrainingOf(Outcomes(cfg, items))
    ensures upstream == UpstreamOf(Outcomes(cfg, items))
    ensures Keys(codons) == StartCodons && Counts(codons)
    ensures Total(codons) == |training| && |upstream| <= |training|
  {
    codons, training, upstream := Initial, [], [];
    var k := 0;
    while k < |items|
      invariant 0 <= k <= |items|
      invariant codons == TallyOf(Outcomes(cfg, items[..k]))
      invariant training == TrainingOf(Outcomes(cfg, items[..k]))
      invariant upstream == UpstreamOf(Outcomes(cfg, items[..k]))
    {
      var (rec, feat) := items[k];
      ghost var outs, o := Outcomes(cfg, items[..k]), Classify(rec, feat, k + 1, cfg);
      OutcomesStep(cfg, items, k);
      TallyStep(outs, o);
      RecordsStep(outs, o);
      assert o.Accepted? ==> o.codon in StartCodons;
      codons, training, upstream := ProcessFeature(codons, training, upstream, rec, feat, k + 1, cfg);
      k := k + 1;
    }
    assert items[..k] == items;
    OutcomesSound(cfg, items);
    TallyMatchesTraining(Outcomes(cfg, items));
  }

}
