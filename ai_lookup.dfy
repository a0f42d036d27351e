/**
 * AI prediction lookup (src/utils/aiLookup.ts): one CSV row per image, parsed
 * into a prediction, kept in a load-once cache, and found by image id.
 *
 * `parseFloat` and `parseInt` are not modelled; they are given as functions
 * from a column's text to a number or NaN. A column past the end of the row
 * is `undefined`, which both parse to NaN.
 */
module Lookup {
  import opened Wrappers
  import opened Numbers
  import opened Strings
  import opened Geometry
  import opened StudyTypes

  /** The two number parsers the row parser relies on. */
  datatype NumberParsers = NumberParsers(parseFloat: string -> Num, parseInt: string -> Option<int>)

  /** A parsed row. The box is normalised to the image size and may hold NaN. */
  datatype AIPrediction = AIPrediction(
    id: string,
    imageName: string,
    phase: string,
    diagnosis: Diagnosis,
    confidence: Num,
    box: Option<NumBox>,
    heatmapPath: string,
    originalImageName: string,
    groundTruthRaw: int,
    groundTruthBinary: int,
    predictionRaw: int,
    aiConfidence: Num)

  /** Number of columns the row guard asks for. */
  const MIN_COLUMNS: nat := 18

  /** `parseFloat(parts[i])`, NaN when column `i` does not exist. */
  function FloatColumn(parts: seq<string>, i: nat, p: NumberParsers): (r: Num)
    ensures i >= |parts| ==> r.NaN?
    ensures i < |parts| ==> r == p.parseFloat(parts[i])
  {
    if i < |parts| then p.parseFloat(parts[i]) else NaN
  }

  /** `parseInt(parts[i])` with NaN replaced by -1. */
  function IntColumnOr(parts: seq<string>, i: nat, p: NumberParsers): (r: int)
    ensures i < |parts| && p.parseInt(parts[i]).Some? ==> r == p.parseInt(parts[i]).value
    ensures !(i < |parts| && p.parseInt(parts[i]).Some?) ==> r == -1
  {
    if i < |parts| then p.parseInt(parts[i]).GetOr(-1) else -1
  }

  /**
   * `parseCSVLine`: null for a row of fewer than 18 columns; otherwise the
   * prediction read from columns 0, 4, 5, 6, 9 and 15-18. The guard admits a
   * row of exactly 18 columns although column 18 is then missing.
   */
  function ParseCSVLine(line: string, p: NumberParsers): (r: Option<AIPrediction>)
    ensures r.None? <==> |Split(line, ',')| < MIN_COLUMNS
    ensures r.Some? ==>
              var parts := Split(line, ',');
              var q := r.value;
              && q.id == parts[0] == q.originalImageName
              && q.imageName == "/dataset/no_map/" + parts[0]
              && q.heatmapPath == "/dataset/map/" + parts[0]
              && q.phase == "phase1"
              && (q.diagnosis == Igen <==> p.parseInt(parts[9]) == Some(1))
              && q.confidence == q.aiConfidence == p.parseFloat(parts[4])
              && q.groundTruthRaw == IntColumnOr(parts, 5, p)
              && q.groundTruthBinary == IntColumnOr(parts, 6, p)
              && q.predictionRaw == IntColumnOr(parts, 9, p)
    ensures r.Some? ==>
              var parts := Split(line, ',');
              var xmin, ymin := p.parseFloat(parts[15]), p.parseFloat(parts[16]);
              var xmax, ymax := p.parseFloat(parts[17]), FloatColumn(parts, 18, p);
              && (r.value.box.Some? <==> Positive(xmax) || Positive(ymax))
              && (r.value.box.Some? ==>
                    var b := r.value.box.value;
                    b.x == xmin && b.y == ymin && b.width == Sub(xmax, xmin) && b.height == Sub(ymax, ymin))
  {
    var parts := Split(line, ',');
    if |parts| < MIN_COLUMNS then None
    else
      var imageId := parts[0];
      var probability := p.parseFloat(parts[4]);
      var prediction := p.parseInt(parts[9]);
      var xmin := p.parseFloat(parts[15]);
      var ymin := p.parseFloat(parts[16]);
      var xmax := p.parseFloat(parts[17]);
      var ymax := FloatColumn(parts, 18, p);
      var hasBox := Positive(xmax) || Positive(ymax);
      Some(AIPrediction(
        imageId,
        "/dataset/no_map/" + imageId,
        "phase1",
        if prediction == Some(1) then Igen else Nem,
        probability,
        if hasBox then Some(NumBox(xmin, ymin, Sub(xmax, xmin), Sub(ymax, ymin))) else None,
        "/dataset/map/" + imageId,
        parts[0],
        IntColumnOr(parts, 5, p),
        IntColumnOr(parts, 6, p),
        IntColumnOr(parts, 9, p),
        probability))
  }

  /**
   * A row of exactly 18 columns has no `ymax`: its box, when the `xmax` test
   * lets one through, has a NaN height, so it is no usable box.
   */
  lemma EighteenColumnsLoseHeight(line: string, p: NumberParsers)
    requires |Split(line, ',')| == MIN_COLUMNS
    ensures ParseCSVLine(line, p).Some?
    ensures ParseCSVLine(line, p).value.box.Some? <==> Positive(p.parseFloat(Split(line, ',')[17]))
    ensures ParseCSVLine(line, p).value.box.Some? ==>
              ParseCSVLine(line, p).value.box.value.height.NaN?
              && ParseCSVLine(line, p).value.box.value.ToBox().None?
  {
  }

  /**
   * Columns written out with commas between them are read back: the id is the
   * first column and the confidence the fifth.
   */
  lemma ParseJoinedColumns(columns: seq<string>, p: NumberParsers)
    requires |columns| >= MIN_COLUMNS
    requires forall i :: 0 <= i < |columns| ==> ',' !in columns[i]
    ensures ParseCSVLine(Join(columns, ','), p).Some?
    ensures ParseCSVLine(Join(columns, ','), p).value.id == columns[0]
    ensures ParseCSVLine(Join(columns, ','), p).value.confidence == p.parseFloat(columns[4])
    ensures |columns| > 18 ==>
              (ParseCSVLine(Join(columns, ','), p).value.box.Some?
               <==> Positive(p.parseFloat(columns[17])) || Positive(p.parseFloat(columns[18])))
  {
    SplitJoin(columns, ',');
  }

  /** The rows that parse, in order: `lines.map(parseCSVLine).filter(p => p !== null)`. */
  function ParseAll(lines: seq<string>, p: NumberParsers): (r: seq<AIPrediction>)
    ensures |r| <= |lines|
    ensures forall q :: q in r <==> exists l :: l in lines && ParseCSVLine(l, p) == Some(q)
  {
    if lines == [] then []
    else
      var rest := ParseAll(lines[1..], p);
      assert forall l :: l in lines <==> l == lines[0] || l in lines[1..];
      match ParseCSVLine(lines[0], p)
      case None => rest
      case Some(q) => [q] + rest
  }

  /** A line on its own contributes its prediction when it parses, and nothing otherwise. */
  lemma ParseAllSingle(line: string, p: NumberParsers)
    ensures ParseAll([line], p) == if ParseCSVLine(line, p).Some? then [ParseCSVLine(line, p).value] else []
  {
    assert [line][1..] == [];
  }

  /** Parsing keeps the order of the lines: the rows of `a` come before those of `b`. */
  lemma {:induction false} ParseAllAppend(a: seq<string>, b: seq<string>, p: NumberParsers)
    ensures ParseAll(a + b, p) == ParseAll(a, p) + ParseAll(b, p)
  {
    if a != [] {
      assert (a + b)[0] == a[0];
      assert (a + b)[1..] == a[1..] + b;
      ParseAllAppend(a[1..], b, p);
    } else {
      assert a + b == b;
    }
  }

  /** `find` over two parts: the first part's match wins, otherwise the second part is searched. */
  lemma {:induction false} FindByIdAppend(a: seq<AIPrediction>, b: seq<AIPrediction>, target: string)
    ensures FindById(a + b, target) == if FindById(a, target).Some? then FindById(a, target) else FindById(b, target)
  {
    if a != [] {
      assert (a + b)[0] == a[0];
      assert (a + b)[1..] == a[1..] + b;
      FindByIdAppend(a[1..], b, target);
    } else {
      assert a + b == b;
    }
  }

  /**
   * The lookup answers with the first line of the file that parses to a
   * prediction with the id: later lines with the same id are never seen.
   */
  lemma FirstLineWins(before: seq<string>, line: string, after: seq<string>, p: NumberParsers, target: string)
    requires ParseCSVLine(line, p).Some? && ParseCSVLine(line, p).value.id == target
    requires forall l :: l in before && ParseCSVLine(l, p).Some? ==> ParseCSVLine(l, p).value.id != target
    ensures FindById(ParseAll(before + [line] + after, p), target) == ParseCSVLine(line, p)
  {
    ParseAllAppend(before + [line], after, p);
    ParseAllAppend(before, [line], p);
    ParseAllSingle(line, p);
    var pb := ParseAll(before, p);
    assert FindById(pb, target).None? by {
      forall i | 0 <= i < |pb|
        ensures pb[i].id != target
      {
        assert pb[i] in pb;
      }
    }
    FindByIdAppend(pb + [ParseCSVLine(line, p).value], ParseAll(after, p), target);
    FindByIdAppend(pb, [ParseCSVLine(line, p).value], target);
  }

  /** `cachedPredictions.find(p => p.id === targetId)`: the first match, or null. */
  function FindById(predictions: seq<AIPrediction>, target: string): (r: Option<AIPrediction>)
    ensures r.None? <==> forall i :: 0 <= i < |predictions| ==> predictions[i].id != target
    ensures r.Some? ==> exists i :: 0 <= i < |predictions| && predictions[i] == r.value
                                  && r.value.id == target
                                  && forall j :: 0 <= j < i ==> predictions[j].id != target
  {
    if predictions == [] then None
    else if predictions[0].id == target then Some(predictions[0])
    else
      var r := FindById(predictions[1..], target);
      assert r.Some? ==> exists i :: 0 <= i < |predictions[1..]| && predictions[1..][i] == r.value
                                   && forall j :: 0 <= j < i ==> predictions[1..][j].id != target;
      assert forall i :: 1 <= i < |predictions| ==> predictions[i] == predictions[1..][i - 1];
      r
  }

  /** The id a 1-based image number is looked up under: `${index}.png`. */
  function TargetId(index: int): (id: string)
    ensures |id| > 4 && id[|id| - 4..] == ".png"
  {
    IntToString(index) + ".png"
  }

  /** Different image numbers are looked up under different ids. */
  lemma TargetIdInjective(a: int, b: int)
    requires TargetId(a) == TargetId(b)
    ensures a == b
  {
    SuffixCancel(IntToString(a), IntToString(b), ".png");
    IntToStringInjective(a, b);
  }

  /**
   * The loaded flag and the cached rows after `loadPredictions`: unchanged
   * once loaded or when the fetch failed, otherwise the rows after the header.
   */
  function AfterLoad(isLoaded: bool, cached: seq<AIPrediction>, fetched: Option<string>, p: NumberParsers)
    : (r: (bool, seq<AIPrediction>))
    ensures isLoaded ==> r == (true, cached)
    ensures !isLoaded && fetched.None? ==> r == (false, cached)
    ensures !isLoaded && fetched.Some? ==> r == (true, ParseAll(Split(fetched.value, '\n')[1..], p))
  {
    if isLoaded || fetched.None? then (isLoaded, cached)
    else (true, ParseAll(Split(fetched.value, '\n')[1..], p))
  }

  /** The module-level cache of parsed rows and its loaded flag. */
  class PredictionCache {
    var cached: seq<AIPrediction>
    var isLoaded: bool

    constructor ()
      ensures cached == [] && !isLoaded
    {
      cached := [];
      isLoaded := false;
    }

    /**
     * `loadPredictions`: nothing once loaded. Otherwise `fetched` is the CSV
     * text, or `None` when the fetch failed; on success every row after the
     * header is parsed and the cache is marked loaded, on failure nothing
     * changes.
     */
    method LoadPredictions(fetched: Option<string>, p: NumberParsers)
      modifies this
      ensures old(isLoaded) ==> isLoaded && cached == old(cached)
      ensures !old(isLoaded) && fetched.None? ==> !isLoaded && cached == old(cached)
      ensures !old(isLoaded) && fetched.Some? ==>
                isLoaded && cached == ParseAll(Split(fetched.value, '\n')[1..], p)
      ensures (isLoaded, cached) == AfterLoad(old(isLoaded), old(cached), fetched, p)
    {
      if isLoaded {
        return;
      }
      if fetched.Some? {
        var lines := Split(fetched.value, '\n');
        cached := ParseAll(lines[1..], p);
        isLoaded := true;
      }
    }

    /**
     * `getAIPrediction`: load (if needed), then the first cached prediction
     * whose id is `${index}.png`, or null.
     */
    method GetAIPrediction(index: int, fetched: Option<string>, p: NumberParsers) returns (r: Option<AIPrediction>)
      modifies this
      ensures (isLoaded, cached) == AfterLoad(old(isLoaded), old(cached), fetched, p)
      ensures r.Some? ==> r.value in cached && r.value.id == TargetId(index)
      ensures r.None? <==> forall q :: q in cached ==> q.id != TargetId(index)
      ensures r == FindById(cached, TargetId(index))
    {
      LoadPredictions(fetched, p);
      r := FindById(cached, TargetId(index));
    }
  }
}
