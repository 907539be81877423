# glimmerize — a verified model of the training-data extraction loop

`glimmerize.py` reads annotated genome records and, for every CDS feature,
cuts out the trimmed coding region and the window of `nups` bases before it.
It keeps only features whose trimmed region starts with ATG, GTG or TTG,
counts those start codons, and produces three outputs:

- a training FASTA with the coding regions;
- an upstream FASTA with the windows;
- a start-use table with the codon frequencies.

This project models, in Dafny:

- the circular slice `cslice` (glimmerize.py:18-24), as the function
  `Circular.Cslice` with lemmas about each of its three branches;
- the body of the feature loop of `main` (glimmerize.py:75-109):
  - on values, as `Glimmerize.Classify` (one feature) and
    `Glimmerize.Outcomes`, `TrainingOf`, `UpstreamOf` and `TallyOf` (the whole
    input);
  - step by step, as the methods `CountStart`, `AddUpstream`,
    `ProcessFeature` and `ExtractTrainingData`, whose `while` loop carries the
    tally and the two record lists as local variables. The program mutates its
    local `OrderedDict` and lists in place; here each update gives the local
    a new value (the incremented tally, the list with one more record).
    Nothing else refers to those locals in the program, so no aliasing is
    lost. The methods' postconditions tie them to the value-level model;
- the pieces of Python and Biopython that the loop relies on:
  - Python slicing with negative indices and clamping (`PySeq`), including
    `[:-0]` being empty and `" +-"[-1]` being `'-'`;
  - contiguous-location extraction with the IUPAC reverse complement (`Dna`);
  - decimal formatting of integers (`Decimal`);
  - the record identifier `{fid}|{lo}-{hi}|{sym}` (`Identifiers`). The
    program never reads an identifier back. The reader `ParseId` and the
    lemmas about its steps (`LastIndexOf`, `FirstIndexOf`, `ParseRangeSplit`,
    `ParseIdSplit`, `ParseIdParts` and the like) exist only to prove that
    the identifiers it writes determine their four fields
    (`ParseRecordId`, `RecordIdInjective`);
  - the ordered three-entry codon tally and its normalisation (`Tally`).

Modules, one per file: `Wrappers` (wrappers.dfy), `PySeq` (pyslice.dfy),
`Circular` (cslice.dfy), `Decimal` (decimal.dfy), `Identifiers` (ids.dfy),
`Dna` (dna.dfy), `Tally` (tally.dfy), `Glimmerize` (glimmerize.dfy).

Some of the code's behaviour differs from what a reader of the tool would
expect. The model keeps the behaviour of the code:

- On a linear record the upstream window is the Python slice
  `record[start - nups:start]`, not a window clamped to
  `[max(i, 0), min(j, n))`. A negative start counts from the end, so the
  window is empty whenever `start < nups <= n` (`Glimmerize.LinearWindow`).
- `trim == 0` does not keep the whole region: `[:-0]` is empty, so every
  feature is rejected (`Glimmerize.AcceptanceRule`).
- When no codon was counted, the program writes both FASTA files
  (glimmerize.py:111-112) before it divides by the zero total (glimmerize.py:115)
  and stops with an uncaught `ZeroDivisionError`. The condition is given by
  `Glimmerize.StartUseNeedsTraining`.
- A feature with strand 0 gets a space as its strand symbol, since the code
  indexes `" +-"` with the strand (`Identifiers.StrandSymbol`).
- On strand -1 the trimmed bases are the reverse complement of
  `s[start+trim:end]`, yet the identifier names `start+1` to `end-trim`
  (`Glimmerize.TrimmedWithin`). The upstream window is still the
  forward-strand `s[start-nups:start]`, which lies on the gene's 3' side,
  not before its start codon (`Glimmerize.UpstreamWindow`).
- The program defines an extension-to-format table (glimmerize.py:12-15) but
  never uses it: the input is always parsed as GenBank (glimmerize.py:28).
  Parsing is not part of this model.

## Model

| member | source | states |
|---|---|---|
| PySeq.Bound | glimmerize.py:20-24 | Python's rule for placing one slice bound, never past the length. `BoundCases` gives its four cases. |
| PySeq.BoundCases | glimmerize.py:20-24 | A slice bound inside `[0, n]` stays put, a larger one becomes `n`, and a negative one counts from the end, stopping at 0. |
| PySeq.Slice | glimmerize.py:24 | `s[a:b]` has `max(hi - lo, 0)` elements for the normalised bounds `lo` and `hi`. |
| PySeq.SliceElements | glimmerize.py:24 | Element `k` of `s[a:b]` is element `lo + k` of `s`. |
| PySeq.From | glimmerize.py:20 | `s[a:]`, the slice up to the length. `Slice`, `SliceElements` and `SliceWithin` carry its properties. |
| PySeq.Upto | glimmerize.py:20 | `s[:b]`, the slice from 0. `Slice`, `SliceElements` and `SliceWithin` carry its properties. |
| PySeq.Index | glimmerize.py:94 | `s[k]` with a negative `k` counting from the end. `StrandSymbol` states what it gives for `" +-"`. |
| PySeq.SliceWithin | glimmerize.py:24 | With bounds inside the sequence, a Python slice is the plain subsequence, and it is empty when the start is not before the stop. |
| PySeq.DropLast | glimmerize.py:85 | `s[:-t]` drops the last `t` elements for `0 < t <= n`. It is empty for `t == 0` and for `t > n`, and it keeps the first `-t` elements for a negative `t`. |
| Circular.Cslice | glimmerize.py:18-24 | `cslice(s, i, j)` with every slice under Python's rules. Its contract is carried by `CsliceDirect`, `CsliceBackward`, `CsliceForward` (one per branch), `CsliceOverWide` (the clamp), `CsliceEnding` and `CsliceNoRepeat`. |
| Circular.CsliceDirect | glimmerize.py:23-24 | For `0 <= i` and `j <= n`, `cslice(s, i, j)` is `s[i:j]`, which is empty when `i >= j`. |
| Circular.CsliceBackward | glimmerize.py:19-20 | For `i < 0 <= j <= n` the result is `s[max(n + i, j):] + s[:j]`. It holds `min(j - i, n)` elements. When `j - i <= n`, element `k` is base `i + k` taken around the circle. |
| Circular.CsliceForward | glimmerize.py:21-22 | For `0 <= i <= n < j` the result is `s[i:] + s[:min(i, j - n)]`. It holds `min(j - i, n)` elements. When `j - i <= n`, element `k` is base `i + k` taken around the circle. |
| Circular.TurnIsMod | glimmerize.py:19-22 | Bringing an offset back by one turn of the circle is reduction modulo `n`, for every offset a window reaches. |
| Circular.CsliceOverWide | glimmerize.py:19-22 | A wrapped request wider than the circle is clamped to one full turn: a rotation of the sequence with the same multiset of bases. |
| Circular.OverWideOrigins | glimmerize.py:19-22 | Element `k` of a clamped full turn is base `WrapStart + k` taken around the circle. |
| Circular.CsliceEnding | glimmerize.py:18-24 | A window ending at `j` inside the sequence holds `min(j - i, n)` elements. It is read around the circle from `i`, or is the full rotation starting at `j` when the request is wider than the circle. |
| Circular.CsliceOrigins | glimmerize.py:18-24 | Every element of a wrapped window is the base at an origin inside `[0, n)`. |
| Circular.OriginsDistinct | glimmerize.py:18-24 | Different elements of a wrapped window have different origins. |
| Circular.CsliceNoRepeat | glimmerize.py:18-24 | A wrapped window never takes the same base twice. |
| Decimal.DigitChar | glimmerize.py:97 | The character written for digit `d` is a digit whose value is `d`. |
| Decimal.NatText | glimmerize.py:97 | The decimal text of a natural number is non-empty, starts with a digit and has no leading zero. |
| Decimal.NatTextDigits | glimmerize.py:97 | The decimal text of a natural number consists of digits only. |
| Decimal.IntText | glimmerize.py:97 | The text of an integer is non-empty and starts with `-` exactly when the integer is negative. |
| Decimal.ParseNatText | glimmerize.py:97 | Reading back the text of a natural number gives that number. |
| Decimal.ParseIntText | glimmerize.py:97 | Reading back the text of an integer gives that integer. |
| Identifiers.StrandSymbol | glimmerize.py:94 | `" +-"[strand]` is `'+'` for 1, `'-'` for -1 and `' '` for 0. |
| Identifiers.RecordId | glimmerize.py:97 | The f-string `f"{fid}\|{lo}-{hi}\|{sym}"` of lines 97 and 107. `ParseRecordId` and `RecordIdInjective` show that it determines its four fields. |
| Identifiers.NoBarInIntText | glimmerize.py:97 | The text of an integer contains no bar. |
| Identifiers.ParseRangeText | glimmerize.py:97 | `f"{lo}-{hi}"` reads back as `(lo, hi)`. |
| Identifiers.NoBarInRange | glimmerize.py:97 | `f"{lo}-{hi}"` contains no bar. |
| Identifiers.ParseRecordId | glimmerize.py:97 | `f"{fid}\|{lo}-{hi}\|{sym}"` reads back as its four fields, whatever `fid` holds. |
| Identifiers.RecordIdInjective | glimmerize.py:107 | Two identifiers are equal only when name, range and strand symbol all are. |
| Dna.Complement | glimmerize.py:85 | The IUPAC base complement that extraction applies on strand -1. `ComplementTwice` and `ReverseComplementElements` carry its properties. |
| Dna.ReverseComplement | glimmerize.py:85 | The opposite strand has as many bases as the region. |
| Dna.ReverseComplementElements | glimmerize.py:85 | Base `k` of the opposite strand is the complement of base `n - 1 - k`. |
| Dna.ComplementTwice | glimmerize.py:85 | Complementing a base twice gives the base back. |
| Dna.ReverseComplementTwice | glimmerize.py:85 | Taking the opposite strand twice gives the region back. |
| Dna.ReverseComplementDrop | glimmerize.py:85 | Dropping the last `t` bases of the opposite strand is the opposite strand of the region without its first `t` bases. |
| Dna.Extract | glimmerize.py:85 | `feature.extract(record)` for a contiguous location: nothing (the `ValueError`) exactly for a location in another record. `ExtractWithin` gives its bases on both strands. |
| Dna.ExtractWithin | glimmerize.py:85 | A contiguous location inside its record extracts `end - start` bases: `s[start:end]` on the forward strand and its reverse complement on strand -1. |
| Tally.InitialTally | glimmerize.py:75 | The tally starts with keys ATG, GTG, TTG in that order, every count 0, and no start-use line. |
| Tally.Keys | glimmerize.py:75 | The keys are the entries' keys, in entry order. |
| Tally.Find | glimmerize.py:90 | `codon in codons` finds the entry holding `codon`, and finds none exactly when the key is absent. |
| Tally.Increment | glimmerize.py:92 | `codons[codon] += 1` keeps the keys and their order. |
| Tally.Total | glimmerize.py:114 | `sum(codons.values())`. `TotalUpdate`, `TotalBounds`, `IncrementOne` and `Glimmerize.TallyTotal` carry its properties. |
| Tally.TotalUpdate | glimmerize.py:114 | Replacing one count changes the sum by the difference. |
| Tally.IncrementOne | glimmerize.py:92 | An increment raises the total by one, adding one to the incremented key's count and nothing to the others. |
| Tally.Ratios | glimmerize.py:115 | Entry `k` of the ratios is count `k` over the total. |
| Tally.SumRatios | glimmerize.py:114-115 | The ratios add up to the sum of the counts over the total. |
| Tally.StartUse | glimmerize.py:114-115 | The start-use line: each count over the total, or nothing where the division raises. `StartUseNormalised` states its properties. |
| Tally.TotalBounds | glimmerize.py:114 | Each count lies between 0 and the total. |
| Tally.StartUseNormalised | glimmerize.py:114-115 | The start-use line is missing exactly when the total is 0, where the division raises. Otherwise it follows key order, each ratio lies in `[0, 1]`, and the ratios add up to 1. |
| Glimmerize.Trimmed | glimmerize.py:85 | `feature.extract(record)[:-trim]`, or nothing where extraction raises. `TrimmedWithin` and `AcceptanceRule` state what it holds. |
| Glimmerize.StartCodonOf | glimmerize.py:84-88 | `str(trecord.seq[:3])`, or `""` when extraction raised. `AcceptanceRule` and `TrainingRecordFields` state its role. |
| Glimmerize.FirstValue | glimmerize.py:96-98 | `qualifiers.get(key, [default])[0]`. `TrainingRecordFields` states it for the name and the description. |
| Glimmerize.FeatureId | glimmerize.py:96 | The first `key_id` value, or `cds-{idx}`. Stated in `TrainingRecordFields`. |
| Glimmerize.Topology | glimmerize.py:103 | The record's topology, `"linear"` when it has none. Used by `LinearWindow` and `CircularWindow`. |
| Glimmerize.UpstreamWindow | glimmerize.py:102-104 | `record[uidx:start]` on a linear record and `cslice(record, uidx, start)` on any other. `LinearWindow` and `CircularWindow` state its contents. |
| Glimmerize.TrainingRecord | glimmerize.py:94-98 | The training record of a kept feature. `TrainingRecordFields` states its fields. |
| Glimmerize.UpstreamRecord | glimmerize.py:106-108 | The upstream record of a non-empty window. `UpstreamRecordFields` and `UpstreamBelongs` state its fields. |
| Glimmerize.Classify | glimmerize.py:84-109 | What one loop iteration does with a feature. `AcceptanceRule`, `TrainingRecordFields`, `ClassifyCoherent` and `ProcessFeature` state it. |
| Glimmerize.Outcomes | glimmerize.py:81 | Feature `k` of the input, numbered `k + 1` across all records, has the outcome that `Classify` gives it. |
| Glimmerize.TrainingOf | glimmerize.py:100 | The `training` list after the loop, one record per kept feature in input order. `ExtractTrainingData`, `TallyMatchesTraining` and `UpstreamFollowsTraining` carry its properties. |
| Glimmerize.UpstreamOf | glimmerize.py:106-109 | The `upstream` list after the loop, one record per kept feature with a non-empty window. `ExtractTrainingData`, `TallyMatchesTraining`, `UpstreamFollowsTraining` and `NoUpstreamWithoutNups` carry its properties. |
| Glimmerize.Count | glimmerize.py:92 | How many kept features start with a given codon. `CountsAddUp` and `TallyTotal` carry its properties. |
| Glimmerize.TallyOf | glimmerize.py:75-92 | The `codons` dictionary after the loop. `ExtractTrainingData`, `TallyStep` and `TallyMatchesTraining` carry its properties. |
| Glimmerize.Sources | glimmerize.py:100-109 | Each upstream record has a position among the training records, and those positions strictly increase. |
| Glimmerize.AcceptanceRule | glimmerize.py:84-90 | A feature is kept exactly when the first three bases of its trimmed region are a start codon, and that codon is counted. A feature is dropped when extraction raises, when `trim == 0`, and when the trimmed region is shorter than three bases. |
| Glimmerize.TrainingRecordFields | glimmerize.py:94-98 | A kept feature's training record holds the trimmed region, which begins with the counted codon. Its id is `{fid}\|{start+1}-{end-trim}\|{sym}`, where `fid` is the first `key_id` value or `cds-{idx}`. Its description is the first `key_desc` value or `""`. |
| Glimmerize.TrimmedWithin | glimmerize.py:85 | Inside the record with `0 < trim <= end - start`, the trimmed region is `s[start:end-trim]` on the forward strand. On the reverse strand it is the reverse complement of `s[start+trim:end]`. |
| Glimmerize.TrimmedReverse | glimmerize.py:85 | Trimming the end of a reverse-strand region drops its first `trim` forward bases. |
| Glimmerize.LinearWindow | glimmerize.py:102-104 | On a linear record the window is `s[start-nups:start]` when `nups <= start`. It is empty when `start < nups <= n` or `nups < 0`, and it is `s[max(n+start-nups, 0):start]` when `nups > n`. |
| Glimmerize.CircularWindow | glimmerize.py:102-104 | On any other record the window holds `min(nups, n)` bases. It is read around the circle from `start - nups` when `nups <= n`, and it is the full rotation starting at `start` otherwise. |
| Glimmerize.UpstreamRecordFields | glimmerize.py:106-108 | An upstream record exists exactly when the window is non-empty. It holds the window, is named `{fid}\|{start+1-nups}-{start}\|{sym}` and carries the training record's description. |
| Glimmerize.UpstreamBelongs | glimmerize.py:97-108 | A kept feature's upstream record belongs to its training record: same name, strand and description, and its range ends just before the training range starts. |
| Glimmerize.NoWindowWithoutNups | glimmerize.py:102-106 | With `nups == 0`, a kept feature inside its record gets no upstream record. |
| Glimmerize.OutcomesSound | glimmerize.py:90 | Every counted codon is ATG, GTG or TTG. |
| Glimmerize.TallyStep | glimmerize.py:92 | Counting one more kept feature is the dictionary's increment of its codon (`codons[codon] += 1`). A dropped feature leaves the tally unchanged. |
| Glimmerize.TallyTotal | glimmerize.py:114 | The tally's total is the sum of the three counts. |
| Glimmerize.CountsAddUp | glimmerize.py:90-109 | The three counts add up to the number of training records, and there are no more upstream than training records. |
| Glimmerize.TallyMatchesTraining | glimmerize.py:75-109 | The tally keeps keys ATG, GTG, TTG in order, with non-negative counts summing to the number of training records. The upstream records are never more than the training records. |
| Glimmerize.ClassifyCoherent | glimmerize.py:94-109 | A kept feature's upstream record belongs to its training record. |
| Glimmerize.OutcomesCoherent | glimmerize.py:81-109 | Every outcome of the loop is coherent. |
| Glimmerize.CoherentSources | glimmerize.py:100-109 | For coherent outcomes, the `k`-th upstream record belongs to the training record at `Sources[k]`. |
| Glimmerize.UpstreamFollowsTraining | glimmerize.py:100-109 | Upstream records follow the order of the training records they belong to. |
| Glimmerize.NoUpstreamWithoutNups | glimmerize.py:102-109 | With `nups == 0` and every feature inside its record, no upstream record is written. |
| Glimmerize.StartUseNeedsTraining | glimmerize.py:111-115 | The start-use line can be written exactly when some training record was produced. Otherwise the division fails. |
| Glimmerize.CountStart | glimmerize.py:84-100 | Keeps the feature exactly when its start codon is a start codon. It then returns the tally with that codon incremented and the list with the training record appended; otherwise the tally and the list are unchanged. |
| Glimmerize.AddUpstream | glimmerize.py:102-109 | Appends the upstream record of the window exactly when the window is non-empty. |
| Glimmerize.ProcessFeature | glimmerize.py:82-109 | One loop iteration changes the tally and both lists as the feature's outcome says, and leaves them unchanged for a dropped feature. |
| Glimmerize.ExtractTrainingData | glimmerize.py:75-109 | The loop leaves the tally, training and upstream lists of the value-level model. The keys are ATG, GTG, TTG in order, the counts sum to the number of training records, and there are no more upstream than training records. |

## Left out

- Parsing the input (glimmerize.py:27-31): the GenBank reader is a foreign library call. The model takes the CDS features as a sequence of (record, feature) pairs in file order.
- Compound and joined locations in `feature.extract` (glimmerize.py:85): only a contiguous location is modelled. A location that refers to another record stands for the `ValueError` that extraction raises.
- Bases outside the DNA alphabet: `Dna.Complement` leaves `U`/`u` (and any other non-IUPAC letter) unchanged, while Biopython complements `U` like `T` in recent releases and switches to the RNA table in older ones, where only a mix of `U` and `T` fails. A location with strand `None`, where `" +-"[None]` raises `TypeError`, is not modelled either: the strand is one of -1, 0 and 1.
- The qualifier lists are taken to be non-empty (a type invariant), as the GenBank parser produces them. An empty list, where `[0]` would raise `IndexError`, is not modelled.
- Argument parsing and the prefix default (glimmerize.py:34-63), directory creation and path suffixes (glimmerize.py:69-70): command-line and filesystem plumbing.
- Writing the FASTA files and the CSV (glimmerize.py:111-113): I/O. The model hands back the three results instead.
- The `0.3f` formatting of the ratios (glimmerize.py:115): floating-point text. The ratios are exact reals, and a zero total gives no line, where the program raises `ZeroDivisionError`.
- The `SIGPIPE` handler (glimmerize.py:121) and the unused extension table (glimmerize.py:12-15).
- Fuzzy feature positions: the model's location bounds are plain numbers. Biopython's `BeforePosition` and `AfterPosition` print as `<N` and `>N` inside the ids of lines 97 and 107, so a partial CDS such as `<k..m` gets an id with `<` in the program but plain digits in the model.
- Records without sequence data: every modelled record has its bases. In the program `str(trecord.seq[:3])` on such a record raises `UndefinedSequenceError`, a `ValueError`, and the feature is rejected (glimmerize.py:86-88).
- Update in place: the program's `codons[codon] += 1` and `list.append` (glimmerize.py:92, 100, 109) are modelled as new values for the loop's local variables. The dictionary and lists are local to `main` and nothing aliases them, so only the form differs.
- Record metadata that Biopython copies when slicing (annotations, sub-features): records are modelled as bases, id and description only.
- Glimmerize.NoUpstreamWithoutNups: requires every feature to start inside its record, because a circular record with `start > n` can still yield a window.
- Glimmerize.TrimmedWithin: covers only a location inside its record with `0 < trim <= end - start`. `Glimmerize.AcceptanceRule` and `PySeq.DropLast` cover the other trims.
- Glimmerize.LinearWindow and Glimmerize.CircularWindow: cover a feature start inside its record, which is every location the parser produces.
