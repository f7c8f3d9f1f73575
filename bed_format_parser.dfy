/** The BED track parser of the deprecated ruler (`BedFormatParser`): keeps
    the lines of one chromosome, names each extra column after the BED
    column order (chrom, chromStart, chromEnd, name, score, strand,
    thickStart, thickEnd, itemRgb, blockCount, blockSizes, blockStarts, as
    the UCSC Genome Browser describes the format), fixes the column count
    from the first matching line and tracks the largest score. */
module BedFormat {
  import opened Wrappers
  import opened JsText
  import opened JsNumber

  /** The column names, in BED column order. */
  const TrackNames: seq<string> := [
    "chromosome", "start", "end", "name", "score", "strand",
    "thickStart", "thickEnd", "itemRgb", "blockCount", "blockSize", "blockStarts"
  ]

  /** The number of column names. */
  const NamedColumns: nat := 12

  /** The key a column is stored under. `Named(k)` stands for the name
      `TrackNames[k]` and `Undefined` for the string "undefined", the key
      the source ends up with past the last named column; `KeyNamesDistinct`
      shows that two keys are equal exactly when their strings are. */
  datatype FieldKey = Named(column: nat) | Undefined

  function KeyName(key: FieldKey): string {
    match key
    case Named(k) => if k < |TrackNames| then TrackNames[k] else "undefined"
    case Undefined => "undefined"
  }

  /** The key column `k` is stored under. */
  function FieldName(k: nat): FieldKey {
    if k < NamedColumns then Named(k) else Undefined
  }

  /** The score column. */
  const ScoreColumn: nat := 4

  /** The parser's input: one text, split at line feeds, or a list of lines. */
  datatype Content = Text(text: string) | Lines(lines: seq<string>)

  function ContentLines(c: Content): seq<string> {
    match c
    case Text(text) => SplitLines(text)
    case Lines(lines) => lines
  }

  /** A parsed track: chromosome, start, end, and the further columns by name. */
  datatype Track = Track(chromosome: string, start: Number, end: Number, fields: map<FieldKey, string>)

  /** `+items[i]`, which is NaN past the end of the tokens. */
  function TokenNumber(items: seq<string>, i: nat): Number {
    if i < |items| then ToNumber(items[i]) else NaN
  }

  /** The tokens after the first three. */
  function ExtraTokens(items: seq<string>): seq<string> {
    if |items| > 3 then items[3..] else []
  }

  /** The fields set by storing `extra[j]` under `FieldName(3 + j)`, in order. */
  function ExtraFields(extra: seq<string>): map<FieldKey, string>
    decreases |extra|
  {
    if extra == [] then map[]
    else ExtraFields(extra[..|extra| - 1])[FieldName(3 + |extra| - 1) := extra[|extra| - 1]]
  }

  /** The track of a matching line's tokens. */
  function TrackOf(items: seq<string>): Track
    requires |items| >= 1
  {
    Track(items[0], TokenNumber(items, 1), TokenNumber(items, 2), ExtraFields(ExtraTokens(items)))
  }

  /** The column count of a line: 3 plus its extra tokens. */
  function FieldCountOf(items: seq<string>): (n: nat)
    ensures n >= 3
    ensures n == 3 + |ExtraTokens(items)|
  {
    if |items| > 3 then |items| else 3
  }

  /** The named columns come out under their own keys, a column past the
      last name under `Undefined` (the last such column wins), and nothing
      else is stored; in particular chromosome, start and end never are. */
  lemma {:induction false} ExtraFieldsLookup(extra: seq<string>)
    ensures forall k :: 3 <= k < NamedColumns && k < 3 + |extra| ==>
              Named(k) in ExtraFields(extra) && ExtraFields(extra)[Named(k)] == extra[k - 3]
    ensures Undefined in ExtraFields(extra) <==> 3 + |extra| > NamedColumns
    ensures 3 + |extra| > NamedColumns ==> ExtraFields(extra)[Undefined] == extra[|extra| - 1]
    ensures forall key <- ExtraFields(extra) ::
              key == Undefined || (key.Named? && 3 <= key.column < NamedColumns && key.column < 3 + |extra|)
    decreases |extra|
  {
    if extra != [] {
      var init := extra[..|extra| - 1];
      ExtraFieldsLookup(init);
      assert ExtraFields(extra) == ExtraFields(init)[FieldName(3 + |init|) := extra[|init|]];
      forall k | 3 <= k < NamedColumns && k < 3 + |extra|
        ensures Named(k) in ExtraFields(extra) && ExtraFields(extra)[Named(k)] == extra[k - 3]
      {
        if k < 3 + |init| {
          assert init[k - 3] == extra[k - 3];
        }
      }
    }
  }

  /** The column names are pairwise distinct and differ from "undefined". */
  lemma NamesDistinct()
    ensures |TrackNames| == NamedColumns
    ensures forall i, j :: 0 <= i < j < |TrackNames| ==> TrackNames[i] != TrackNames[j]
    ensures forall i :: 0 <= i < |TrackNames| ==> TrackNames[i] != "undefined"
  {
  }

  /** Keys stand for their strings: two keys of columns are equal exactly
      when the names they stand for are. */
  lemma KeyNamesDistinct(j: nat, k: nat)
    ensures FieldName(j) == FieldName(k) <==> KeyName(FieldName(j)) == KeyName(FieldName(k))
  {
    NamesDistinct();
  }

  /** The score of a track when its score column is truthy (non-empty). */
  function ScoreOf(t: Track): Option<Number> {
    var key := Named(ScoreColumn);
    if key in t.fields && t.fields[key] != "" then Some(ToNumber(t.fields[key])) else None
  }

  /** The truthy scores of a run of tracks, in order. */
  function Scores(ts: seq<Track>): (ss: seq<Option<Number>>)
    ensures |ss| == |ts|
    ensures forall i :: 0 <= i < |ts| ==> ss[i] == ScoreOf(ts[i])
    decreases |ts|
  {
    if ts == [] then [] else Scores(ts[..|ts| - 1]) + [ScoreOf(ts[|ts| - 1])]
  }

  /** `Math.max` from 0 over the present scores. */
  function MaxOf(scores: seq<Option<Number>>): Number
    decreases |scores|
  {
    if scores == [] then Finite(0.0)
    else
      var m := MaxOf(scores[..|scores| - 1]);
      match scores[|scores| - 1]
      case None => m
      case Some(s) => Max(m, s)
  }

  /** `maxScore` after a run of tracks. */
  function MaxScore(ts: seq<Track>): Number {
    MaxOf(Scores(ts))
  }

  lemma LeTransitive(a: Number, b: Number, c: Number)
    requires Le(a, b) && Le(b, c)
    ensures Le(a, c)
  {
  }

  /** The maximum is NaN exactly when some present score is NaN. */
  lemma {:induction false} MaxOfNaN(scores: seq<Option<Number>>)
    ensures MaxOf(scores) == NaN <==> exists i :: 0 <= i < |scores| && scores[i] == Some(NaN)
    decreases |scores|
  {
    if scores != [] {
      var init := scores[..|scores| - 1];
      MaxOfNaN(init);
      if MaxOf(init) == NaN {
        var i :| 0 <= i < |init| && init[i] == Some(NaN);
        assert scores[i] == Some(NaN);
      } else if MaxOf(scores) != NaN {
        forall i | 0 <= i < |scores|
          ensures scores[i] != Some(NaN)
        {
          if i < |init| {
            assert scores[i] == init[i];
          }
        }
      }
    }
  }

  /** Unless it is NaN, the maximum is at least 0 and every present score. */
  lemma {:induction false} MaxOfUpperBound(scores: seq<Option<Number>>)
    ensures MaxOf(scores) != NaN ==>
              && Le(Finite(0.0), MaxOf(scores))
              && forall i :: 0 <= i < |scores| && scores[i].Some? ==> Le(scores[i].value, MaxOf(scores))
    decreases |scores|
  {
    if scores != [] && MaxOf(scores) != NaN {
      var init := scores[..|scores| - 1];
      MaxOfUpperBound(init);
      var m := MaxOf(init);
      var r := MaxOf(scores);
      assert m != NaN && Le(m, r);
      LeTransitive(Finite(0.0), m, r);
      forall i | 0 <= i < |scores| && scores[i].Some?
        ensures Le(scores[i].value, r)
      {
        if i < |init| {
          assert scores[i] == init[i];
          LeTransitive(scores[i].value, m, r);
        }
      }
    }
  }

  /** The maximum is 0 or one of the present scores. */
  lemma {:induction false} MaxOfAttained(scores: seq<Option<Number>>)
    ensures MaxOf(scores) == Finite(0.0) || exists i :: 0 <= i < |scores| && scores[i] == Some(MaxOf(scores))
    decreases |scores|
  {
    if scores != [] {
      var init := scores[..|scores| - 1];
      MaxOfAttained(init);
      var m := MaxOf(init);
      var r := MaxOf(scores);
      if scores[|scores| - 1] != Some(r) {
        assert r == m;
        if m != Finite(0.0) {
          var i :| 0 <= i < |init| && init[i] == Some(m);
          assert scores[i] == init[i];
        }
      }
    }
  }

  /** `maxScore` is NaN exactly when some truthy score does not convert to a
      number; otherwise it is at least 0 and at least every truthy score; and
      it is 0 or one of the scores. */
  lemma MaxScoreBounds(ts: seq<Track>)
    ensures MaxScore(ts) == NaN <==> exists i :: 0 <= i < |ts| && ScoreOf(ts[i]) == Some(NaN)
    ensures MaxScore(ts) != NaN ==>
              && Le(Finite(0.0), MaxScore(ts))
              && forall i :: 0 <= i < |ts| && ScoreOf(ts[i]).Some? ==> Le(ScoreOf(ts[i]).value, MaxScore(ts))
    ensures MaxScore(ts) == Finite(0.0) || exists i :: 0 <= i < |ts| && ScoreOf(ts[i]) == Some(MaxScore(ts))
  {
    var ss := Scores(ts);
    MaxOfNaN(ss);
    MaxOfUpperBound(ss);
    MaxOfAttained(ss);
  }

  /** The tokens of the lines whose first token is the chromosome, in order. */
  function MatchedItems(lines: seq<string>, chromosome: string): (ms: seq<seq<string>>)
    ensures |ms| <= |lines|
    ensures forall m <- ms :: |m| >= 1 && m[0] == chromosome
    decreases |lines|
  {
    if lines == [] then []
    else
      var init := MatchedItems(lines[..|lines| - 1], chromosome);
      var items := SplitOnWhiteSpace(lines[|lines| - 1]);
      if items[0] == chromosome then init + [items] else init
  }

  /** Filtering keeps input order: the matches of two runs of lines are the
      matches of the first followed by those of the second. */
  lemma {:induction false} MatchedItemsAppend(a: seq<string>, b: seq<string>, chromosome: string)
    ensures MatchedItems(a + b, chromosome) == MatchedItems(a, chromosome) + MatchedItems(b, chromosome)
    decreases |b|
  {
    if b != [] {
      var b' := b[..|b| - 1];
      assert (a + b)[..|a + b| - 1] == a + b';
      MatchedItemsAppend(a, b', chromosome);
    } else {
      assert a + b == a;
    }
  }

  /** A single line is kept exactly when its first token is the chromosome. */
  lemma MatchedItemsOfLine(line: string, chromosome: string)
    ensures MatchedItems([line], chromosome)
            == if SplitOnWhiteSpace(line)[0] == chromosome then [SplitOnWhiteSpace(line)] else []
  {
    assert [line][..0] == [];
  }

  /** The tracks of matched token lists, in order. */
  function TracksOf(ms: seq<seq<string>>): (ts: seq<Track>)
    requires forall m <- ms :: |m| >= 1
    ensures |ts| == |ms|
    ensures forall i :: 0 <= i < |ms| ==> ts[i] == TrackOf(ms[i])
    decreases |ms|
  {
    if ms == [] then [] else TracksOf(ms[..|ms| - 1]) + [TrackOf(ms[|ms| - 1])]
  }

  /** The parse of a run of lines, as the parser computes it: the matched
      tracks, the column count of the first match and the largest score. */
  function MatchedTracks(lines: seq<string>, chromosome: string): (ts: seq<Track>)
    ensures forall t <- ts :: t.chromosome == chromosome
  {
    TracksOf(MatchedItems(lines, chromosome))
  }

  /** One more line extends the matches of the lines before it exactly
      when its first token is the chromosome. */
  lemma MatchedItemsStep(lines: seq<string>, i: nat, chromosome: string)
    requires i < |lines|
    ensures var items := SplitOnWhiteSpace(lines[i]);
            MatchedItems(lines[..i + 1], chromosome)
            == MatchedItems(lines[..i], chromosome) + (if items[0] == chromosome then [items] else [])
  {
    assert lines[..i + 1][..i] == lines[..i];
  }

  /** A further match appends its track. */
  lemma TracksOfAppend(ms: seq<seq<string>>, m: seq<string>)
    requires forall x <- ms :: |x| >= 1
    requires |m| >= 1
    ensures TracksOf(ms + [m]) == TracksOf(ms) + [TrackOf(m)]
  {
    assert (ms + [m])[..|ms|] == ms;
  }

  /** A further track enters the maximum only when its score is truthy. */
  lemma MaxScoreAppend(ts: seq<Track>, t: Track)
    ensures MaxScore(ts + [t])
            == if ScoreOf(t).Some? then Max(MaxScore(ts), ScoreOf(t).value) else MaxScore(ts)
  {
    assert Scores(ts + [t]) == Scores(ts) + [ScoreOf(t)];
    assert (Scores(ts) + [ScoreOf(t)])[..|ts|] == Scores(ts);
  }

  /** The column count of the first matching line, if any. */
  function FirstFieldCount(lines: seq<string>, chromosome: string): Option<nat> {
    var ms := MatchedItems(lines, chromosome);
    if ms == [] then None else Some(FieldCountOf(ms[0]))
  }

  /** Parsing one matching line's tokens: the chromosome and the numbers of
      tokens 1 and 2, then each further token stored under its column name;
      the column index ends at the column count, never below 3. */
  method ParseTrack(items: seq<string>) returns (track: Track, index: nat)
    requires |items| >= 1
    ensures track == TrackOf(items)
    ensures index == FieldCountOf(items) && index >= 3
  {
    track := Track(items[0], TokenNumber(items, 1), TokenNumber(items, 2), map[]);
    index := 3;
    var extra := ExtraTokens(items);
    var j := 0;
    while j < |extra|
      invariant 0 <= j <= |extra|
      invariant index == 3 + j
      invariant track == Track(items[0], TokenNumber(items, 1), TokenNumber(items, 2), ExtraFields(extra[..j]))
    {
      assert extra[..j + 1][..j] == extra[..j];
      track := track.(fields := track.fields[FieldName(index) := extra[j]]);
      index := index + 1;
      j := j + 1;
    }
    assert extra[..j] == extra;
  }

  /** The state of the parse loop after `lines`, started from the column
      count `initialCount`: a holder exists (`created`) exactly when some
      line matched, and then holds the matched tracks; `maxScore` is the
      largest truthy score; the column count is the first match's unless
      one was fixed before. */
  ghost predicate Scanned(lines: seq<string>, chromosome: string, initialCount: int,
                          created: bool, tracks: seq<Track>, maxScore: Number, fieldCount: int)
  {
    var ms := MatchedItems(lines, chromosome);
    && (created <==> ms != [])
    && (created ==> tracks == TracksOf(ms))
    && maxScore == MaxScore(TracksOf(ms))
    && fieldCount == if initialCount == -1 && ms != [] then FieldCountOf(ms[0]) else initialCount
  }

  /** One more line leaves the state alone unless its first token is the
      chromosome; a matching line appends its track, creating the holder
      if need be, lets a truthy score into the maximum and fixes the column
      count if it is still -1. */
  lemma ScannedStep(lines: seq<string>, i: nat, chromosome: string, initialCount: int,
                    created: bool, tracks: seq<Track>, maxScore: Number, fieldCount: int)
    requires i < |lines|
    requires Scanned(lines[..i], chromosome, initialCount, created, tracks, maxScore, fieldCount)
    ensures var items := SplitOnWhiteSpace(lines[i]);
            if items[0] != chromosome then
              Scanned(lines[..i + 1], chromosome, initialCount, created, tracks, maxScore, fieldCount)
            else
              var t := TrackOf(items);
              Scanned(lines[..i + 1], chromosome, initialCount, true,
                      (if created then tracks else []) + [t],
                      if ScoreOf(t).Some? then Max(maxScore, ScoreOf(t).value) else maxScore,
                      if fieldCount == -1 then FieldCountOf(items) else fieldCount)
  {
    var items := SplitOnWhiteSpace(lines[i]);
    MatchedItemsStep(lines, i, chromosome);
    if items[0] == chromosome {
      ScannedTake(lines[..i], items, chromosome, initialCount, created, tracks, maxScore, fieldCount);
    }
  }

  /** The matching-line case of `ScannedStep`, for the matches `ms + [items]`. */
  lemma ScannedTake(before: seq<string>, items: seq<string>, chromosome: string, initialCount: int,
                    created: bool, tracks: seq<Track>, maxScore: Number, fieldCount: int)
    requires |items| >= 1
    requires Scanned(before, chromosome, initialCount, created, tracks, maxScore, fieldCount)
    ensures var ms := MatchedItems(before, chromosome);
            var t := TrackOf(items);
            && (if created then tracks else []) + [t] == TracksOf(ms + [items])
            && (if ScoreOf(t).Some? then Max(maxScore, ScoreOf(t).value) else maxScore)
               == MaxScore(TracksOf(ms + [items]))
            && (if fieldCount == -1 then FieldCountOf(items) else fieldCount)
               == if initialCount == -1 then FieldCountOf((ms + [items])[0]) else initialCount
  {
    var ms := MatchedItems(before, chromosome);
    TracksOfAppend(ms, items);
    MaxScoreAppend(TracksOf(ms), TrackOf(items));
    assert (ms + [items])[0] == if ms == [] then items else ms[0];
  }

  /** The result of a parse: the tracks, the column count and the largest score. */
  class TracksHolder {
    var tracks: seq<Track>
    const fieldCount: int
    const maxScore: Number

    constructor (fieldCount: int, maxScore: Number)
      ensures tracks == [] && this.fieldCount == fieldCount && this.maxScore == maxScore
    {
      tracks := [];
      this.fieldCount := fieldCount;
      this.maxScore := maxScore;
    }

    method Push(ts: seq<Track>)
      modifies this
      ensures tracks == old(tracks) + ts
    {
      tracks := tracks + ts;
    }
  }

  class BedFormatParser {
    const content: Content
    const chromosome: string
    /** -1 until a parse meets its first matching line. */
    var fieldCount: int

    constructor (content: Content, chromosome: string)
      ensures this.content == content && this.chromosome == chromosome && fieldCount == -1
    {
      this.content := content;
      this.chromosome := chromosome;
      fieldCount := -1;
    }

    /** The work on one matching line: its track is parsed, the first
        matching line fixes the column count, a truthy score enters the
        maximum, and the track joins the holder, which the first matching
        line creates. */
    method Absorb(items: seq<string>, holder: TracksHolder?, maxScore: Number)
      returns (holder': TracksHolder, maxScore': Number)
      requires |items| >= 1
      modifies this, holder
      ensures fieldCount == if old(fieldCount) == -1 then FieldCountOf(items) else old(fieldCount)
      ensures holder != null ==> holder' == holder && holder'.tracks == old(holder.tracks) + [TrackOf(items)]
      ensures holder == null ==> fresh(holder') && holder'.tracks == [TrackOf(items)]
      ensures maxScore' == if ScoreOf(TrackOf(items)).Some?
                           then Max(maxScore, ScoreOf(TrackOf(items)).value) else maxScore
    {
      var track, index := ParseTrack(items);
      if fieldCount == -1 {
        fieldCount := index;
      }
      maxScore' := maxScore;
      var key := Named(ScoreColumn);
      if key in track.fields && track.fields[key] != "" {
        maxScore' := Max(maxScore, ToNumber(track.fields[key]));
      }
      if holder == null {
        holder' := new TracksHolder(fieldCount, Finite(-1.0));
      } else {
        holder' := holder;
      }
      holder'.Push([track]);
    }

    /** `Scanned` for this parser's chromosome and column count, with the
        holder's tracks. */
    ghost predicate ScannedBy(lines: seq<string>, initialCount: int, holder: TracksHolder?, maxScore: Number)
      reads this, holder
    {
      Scanned(lines, chromosome, initialCount, holder != null,
              if holder == null then [] else holder.tracks, maxScore, fieldCount)
    }

    /** One turn of the loop: line `i` is split into tokens and absorbed
        when its first token is the chromosome. */
    method ScanLine(lines: seq<string>, i: nat, ghost initialCount: int, holder: TracksHolder?, maxScore: Number)
      returns (holder': TracksHolder?, maxScore': Number)
      requires i < |lines|
      requires ScannedBy(lines[..i], initialCount, holder, maxScore)
      modifies this, holder
      ensures ScannedBy(lines[..i + 1], initialCount, holder', maxScore')
      ensures holder != null ==> holder' == holder
      ensures holder == null && holder' != null ==> fresh(holder')
    {
      var items := SplitOnWhiteSpace(lines[i]);
      ScannedStep(lines, i, chromosome, initialCount, holder != null,
                  if holder == null then [] else holder.tracks, maxScore, fieldCount);
      if items[0] != chromosome {
        return holder, maxScore;
      }
      holder', maxScore' := Absorb(items, holder, maxScore);
    }

    /** The loop over the lines. */
    method Scan(lines: seq<string>) returns (holder: TracksHolder?, maxScore: Number)
      modifies this
      ensures ScannedBy(lines, old(fieldCount), holder, maxScore)
      ensures holder != null ==> fresh(holder)
    {
      holder := null;
      maxScore := Finite(0.0);
      var i := 0;
      while i < |lines|
        invariant 0 <= i <= |lines|
        invariant ScannedBy(lines[..i], old(fieldCount), holder, maxScore)
        invariant holder != null ==> fresh(holder)
      {
        holder, maxScore := ScanLine(lines, i, old(fieldCount), holder, maxScore);
        i := i + 1;
      }
      assert lines[..i] == lines;
    }

    /** Parses the content. Fails when no line matches the chromosome;
        otherwise returns a new holder with the matched tracks in input
        order, the parser's column count and the largest score. The column
        count is fixed by the first matching line the parser ever sees. */
    method Parse() returns (r: Result<TracksHolder, string>)
      modifies this
      ensures var lines := ContentLines(content);
              r.Failure? <==> MatchedItems(lines, chromosome) == []
      ensures r.Failure? ==> r.error == "Invalid empty .bed-file!" && fieldCount == old(fieldCount)
      ensures r.Success? ==>
                var lines := ContentLines(content);
                && fresh(r.value)
                && r.value.tracks == MatchedTracks(lines, chromosome)
                && r.value.maxScore == MaxScore(MatchedTracks(lines, chromosome))
                && r.value.fieldCount == fieldCount
                && fieldCount == if old(fieldCount) == -1 then FirstFieldCount(lines, chromosome).value
                                 else old(fieldCount)
    {
      var holder, maxScore := Scan(ContentLines(content));
      if holder == null {
        return Failure("Invalid empty .bed-file!");
      }
      var found := holder.tracks;
      var result := new TracksHolder(fieldCount, maxScore);
      result.Push(found);
      return Success(result);
    }
  }
}
