/** `DataCollector`: every generated document is kept as a JSON record in one of two
    directories, one for SOPs and one for batch records; feedback is written into the
    record later, and the records with feedback are drawn out for training and counted
    for statistics. A directory is the map from each file name in it to the record
    that file holds. */
module Collector {
  import opened Wrappers
  import opened Text
  import opened Clock
  import opened Paths
  import opened Json

  /** `data["feedback"]` once feedback has been given. */
  datatype Feedback = Feedback(score: real, text: Option<string>, timestamp: string)

  /** One saved document: the JSON object `save_document` writes. */
  datatype Record = Record(
    timestamp: string, input: Dict, generatedContent: string, metadata: Dict,
    feedback: Option<Feedback>, feedbackTimestamp: Option<string>)

  /** The two directories. */
  datatype Partition = Sops | BatchRecords

  /** Where a document path leads: a directory and a file name in it. */
  datatype Location = Location(partition: Partition, name: string)

  /** One entry of `get_training_data`. */
  datatype Example = Example(input: Dict, output: string, feedbackScore: real, feedbackText: Option<string>, kind: string)

  /** The per-type counters of `get_statistics`. */
  datatype Counts = Counts(total: nat, withFeedback: nat)

  /** What `get_statistics` returns. */
  datatype Statistics = Statistics(
    totalDocuments: nat, documentsWithFeedback: nat, averageFeedbackScore: real,
    sops: Counts, batchRecords: Counts)

  datatype CollectorError = FileNotFound(path: string)

  // ----- saving -----

  /** `doc_type.lower() == "sop"`: the record goes to the SOP directory. */
  predicate IsSop(docType: string)
  {
    Lower(docType) == "sop"
  }

  /** `f"{timestamp}_{doc_type.lower()}.json"`. */
  function FileKey(now: DateTime, docType: string): (r: string)
    requires now.Valid()
    ensures IsJsonName(r) && Stamp(now) <= r
  {
    Stamp(now) + "_" + Lower(docType) + ".json"
  }

  /** The record `save_document` writes; metadata that is missing or empty becomes `{}`. */
  function NewRecord(input: Dict, content: string, metadata: Option<Dict>, now: DateTime): (r: Record)
    requires now.Valid()
    ensures r.feedback.None? && r.feedbackTimestamp.None?
    ensures r.timestamp == Stamp(now) && r.input == input && r.generatedContent == content
  {
    Record(Stamp(now), input, content, metadata.GetOr(map[]), None, None)
  }

  /** Two saves use the same file exactly when they happen in the same second and
      their types agree once lower-cased, so the second one replaces the first. */
  lemma FileKeyCollision(a: DateTime, t1: string, b: DateTime, t2: string)
    requires a.Valid() && b.Valid()
    ensures FileKey(a, t1) == FileKey(b, t2) <==> a == b && Lower(t1) == Lower(t2)
  {
    var k1, k2 := FileKey(a, t1), FileKey(b, t2);
    if k1 == k2 {
      assert k1[..15] == Stamp(a) && k2[..15] == Stamp(b);
      StampInjective(a, b);
      assert k1[16..|k1| - 5] == Lower(t1);
      assert k2[16..|k2| - 5] == Lower(t2);
    }
  }

  // ----- feedback -----

  /** The record after `add_feedback`: only `feedback` changes, to the new score,
      text and timestamp; the top-level `feedback_timestamp` is left as it was. */
  function WithFeedback(r: Record, score: real, text: Option<string>, now: DateTime): (u: Record)
    requires now.Valid()
    ensures u.feedback == Some(Feedback(score, text, Stamp(now)))
    ensures u.(feedback := r.feedback) == r
  {
    r.(feedback := Some(Feedback(score, text, Stamp(now))))
  }

  // ----- drawing training examples -----

  /** `filename.endswith('.json')`. */
  predicate IsJsonName(name: string)
  {
    5 <= |name| && name[|name| - 5..] == ".json"
  }

  /** `data.get('feedback')`, and `feedback_score >= min_feedback_score` when a minimum is given. */
  predicate Qualifies(r: Record, minScore: Option<real>)
  {
    r.feedback.Some? && (minScore.None? || r.feedback.value.score >= minScore.value)
  }

  /** The `type` of an example: its directory's, whatever its input says. */
  function TypeName(p: Partition): string
  {
    if p == Sops then "sop" else "batch_record"
  }

  function ExampleOf(r: Record, p: Partition): Example
    requires r.feedback.Some?
  {
    Example(r.input, r.generatedContent, r.feedback.value.score, r.feedback.value.text, TypeName(p))
  }

  /** What one file of a directory adds to the training data. */
  function Draw(records: map<string, Record>, name: string, p: Partition, minScore: Option<real>): seq<Example>
    requires name in records
  {
    if IsJsonName(name) && Qualifies(records[name], minScore) then [ExampleOf(records[name], p)] else []
  }

  /** The examples drawn from a directory whose files are listed as `names`. */
  function Drawn(records: map<string, Record>, names: seq<string>, p: Partition, minScore: Option<real>): (r: seq<Example>)
    requires forall i :: 0 <= i < |names| ==> names[i] in records
    ensures |r| <= |names|
    ensures forall k :: 0 <= k < |r| ==> r[k].kind == TypeName(p)
    decreases |names|
  {
    if names == [] then []
    else Drawn(records, names[..|names| - 1], p, minScore) + Draw(records, names[|names| - 1], p, minScore)
  }

  /** `os.listdir`: every file of the directory, each exactly once, in some order. */
  ghost predicate Lists(names: seq<string>, records: map<string, Record>)
  {
    && (forall i :: 0 <= i < |names| ==> names[i] in records)
    && (forall n :: n in records ==> n in names)
    && (forall i, j :: 0 <= i < j < |names| ==> names[i] != names[j])
  }

  /** An example is drawn exactly when it comes from a listed `.json` file whose record
      qualifies. */
  lemma {:induction false} DrawnExactly(records: map<string, Record>, names: seq<string>, p: Partition,
                                        minScore: Option<real>, x: Example)
    requires forall i :: 0 <= i < |names| ==> names[i] in records
    ensures x in Drawn(records, names, p, minScore) <==>
      exists i :: 0 <= i < |names| && IsJsonName(names[i]) && Qualifies(records[names[i]], minScore)
                  && x == ExampleOf(records[names[i]], p)
    decreases |names|
  {
    if names != [] {
      var init := names[..|names| - 1];
      DrawnExactly(records, init, p, minScore, x);
      if exists i :: 0 <= i < |init| && IsJsonName(init[i]) && Qualifies(records[init[i]], minScore)
                     && x == ExampleOf(records[init[i]], p) {
        var i :| 0 <= i < |init| && IsJsonName(init[i]) && Qualifies(records[init[i]], minScore)
                 && x == ExampleOf(records[init[i]], p);
        assert names[i] == init[i];
      }
      if exists i :: 0 <= i < |names| && IsJsonName(names[i]) && Qualifies(records[names[i]], minScore)
                     && x == ExampleOf(records[names[i]], p) {
        var i :| 0 <= i < |names| && IsJsonName(names[i]) && Qualifies(records[names[i]], minScore)
                 && x == ExampleOf(records[names[i]], p);
        if i < |init| {
          assert init[i] == names[i];
        }
      }
    }
  }

  /** Every qualifying `.json` record of a listed directory is drawn. */
  lemma DrawnFromEveryQualifying(records: map<string, Record>, names: seq<string>, p: Partition,
                                 minScore: Option<real>, n: string)
    requires Lists(names, records)
    ensures n in records && IsJsonName(n) && Qualifies(records[n], minScore)
            ==> ExampleOf(records[n], p) in Drawn(records, names, p, minScore)
  {
    if n in records && IsJsonName(n) && Qualifies(records[n], minScore) {
      var i :| 0 <= i < |names| && names[i] == n;
      DrawnExactly(records, names, p, minScore, ExampleOf(records[n], p));
    }
  }

  /** Raising the minimum never draws more. */
  lemma {:induction false} DrawnMonotone(records: map<string, Record>, names: seq<string>, p: Partition,
                                         lo: real, hi: real)
    requires forall i :: 0 <= i < |names| ==> names[i] in records
    requires lo <= hi
    ensures |Drawn(records, names, p, Some(hi))| <= |Drawn(records, names, p, Some(lo))|
            <= |Drawn(records, names, p, None)|
    decreases |names|
  {
    if names != [] {
      DrawnMonotone(records, names[..|names| - 1], p, lo, hi);
    }
  }

  // ----- statistics -----

  /** The counters of one directory: its `.json` files and those among them with feedback. */
  function Tally(records: map<string, Record>, names: seq<string>): (c: Counts)
    requires forall i :: 0 <= i < |names| ==> names[i] in records
    ensures c.withFeedback <= c.total <= |names|
    decreases |names|
  {
    if names == [] then Counts(0, 0)
    else
      var c := Tally(records, names[..|names| - 1]);
      var last := names[|names| - 1];
      if !IsJsonName(last) then c
      else if records[last].feedback.Some? then Counts(c.total + 1, c.withFeedback + 1)
      else Counts(c.total + 1, c.withFeedback)
  }

  /** The feedback scores of one directory, in listing order. */
  function Scores(records: map<string, Record>, names: seq<string>): (r: seq<real>)
    requires forall i :: 0 <= i < |names| ==> names[i] in records
    decreases |names|
  {
    if names == [] then []
    else
      var last := names[|names| - 1];
      Scores(records, names[..|names| - 1])
      + (if IsJsonName(last) && records[last].feedback.Some? then [records[last].feedback.value.score] else [])
  }

  function Sum(xs: seq<real>): real
    decreases |xs|
  {
    if xs == [] then 0.0 else Sum(xs[..|xs| - 1]) + xs[|xs| - 1]
  }

  /** `sum(feedback_scores) / len(feedback_scores)`, or 0 when there are none. */
  function Average(xs: seq<real>): real
  {
    if xs == [] then 0.0 else Sum(xs) / (|xs| as real)
  }

  /** What `get_statistics` reports for the two directories listed as `sopNames` and `batchNames`. */
  function StatisticsOf(sops: map<string, Record>, sopNames: seq<string>,
                        batch: map<string, Record>, batchNames: seq<string>): Statistics
    requires forall i :: 0 <= i < |sopNames| ==> sopNames[i] in sops
    requires forall i :: 0 <= i < |batchNames| ==> batchNames[i] in batch
  {
    var s, b := Tally(sops, sopNames), Tally(batch, batchNames);
    Statistics(s.total + b.total, s.withFeedback + b.withFeedback,
               Average(Scores(sops, sopNames) + Scores(batch, batchNames)), s, b)
  }

  /** One score per record with feedback. */
  lemma {:induction false} ScoresCounted(records: map<string, Record>, names: seq<string>)
    requires forall i :: 0 <= i < |names| ==> names[i] in records
    ensures |Scores(records, names)| == Tally(records, names).withFeedback
    decreases |names|
  {
    if names != [] {
      ScoresCounted(records, names[..|names| - 1]);
    }
  }

  /** The documents counted as having feedback are the ones `get_training_data()` returns. */
  lemma {:induction false} FeedbackCountIsTrainingSize(records: map<string, Record>, names: seq<string>, p: Partition)
    requires forall i :: 0 <= i < |names| ==> names[i] in records
    ensures |Drawn(records, names, p, None)| == Tally(records, names).withFeedback
    decreases |names|
  {
    if names != [] {
      FeedbackCountIsTrainingSize(records, names[..|names| - 1], p);
    }
  }


  lemma {:induction false} SumBounds(xs: seq<real>, lo: real, hi: real)
    requires forall i :: 0 <= i < |xs| ==> lo <= xs[i] <= hi
    ensures (|xs| as real) * lo <= Sum(xs) <= (|xs| as real) * hi
    decreases |xs|
  {
    if xs != [] {
      SumBounds(xs[..|xs| - 1], lo, hi);
    }
  }

  /** The average lies between the lowest and the highest score. */
  lemma AverageBounds(xs: seq<real>, lo: real, hi: real)
    requires xs != []
    requires forall i :: 0 <= i < |xs| ==> lo <= xs[i] <= hi
    ensures lo <= Average(xs) <= hi
  {
    SumBounds(xs, lo, hi);
    var n := |xs| as real;
    assert Sum(xs) / n >= lo by {
      assert Sum(xs) >= n * lo;
    }
    assert Sum(xs) / n <= hi by {
      assert Sum(xs) <= n * hi;
    }
  }

  /** The overall counters are the sums of the per-type ones, no type reports more
      documents with feedback than documents, the number with feedback is the number
      of training examples drawn without a minimum, and the average weighs every score once. */
  lemma StatisticsConsistent(sops: map<string, Record>, sopNames: seq<string>,
                             batch: map<string, Record>, batchNames: seq<string>)
    requires forall i :: 0 <= i < |sopNames| ==> sopNames[i] in sops
    requires forall i :: 0 <= i < |batchNames| ==> batchNames[i] in batch
    ensures var st := StatisticsOf(sops, sopNames, batch, batchNames);
      && st.totalDocuments == st.sops.total + st.batchRecords.total
      && st.documentsWithFeedback == st.sops.withFeedback + st.batchRecords.withFeedback
      && st.sops.withFeedback <= st.sops.total && st.batchRecords.withFeedback <= st.batchRecords.total
      && st.documentsWithFeedback
         == |Drawn(sops, sopNames, Sops, None) + Drawn(batch, batchNames, BatchRecords, None)|
  {
    FeedbackCountIsTrainingSize(sops, sopNames, Sops);
    FeedbackCountIsTrainingSize(batch, batchNames, BatchRecords);
  }

  /** The reported average is taken over one score per document with feedback. */
  lemma AverageOverFedScores(sops: map<string, Record>, sopNames: seq<string>,
                             batch: map<string, Record>, batchNames: seq<string>)
    requires forall i :: 0 <= i < |sopNames| ==> sopNames[i] in sops
    requires forall i :: 0 <= i < |batchNames| ==> batchNames[i] in batch
    ensures var st := StatisticsOf(sops, sopNames, batch, batchNames);
      var xs := Scores(sops, sopNames) + Scores(batch, batchNames);
      |xs| == st.documentsWithFeedback && st.averageFeedbackScore == Average(xs)
  {
    ScoresCounted(sops, sopNames);
    ScoresCounted(batch, batchNames);
  }

  /** Every listed `.json` record with feedback has a score between `lo` and `hi`. */
  ghost predicate ScoredWithin(records: map<string, Record>, names: seq<string>, lo: real, hi: real)
    requires forall i :: 0 <= i < |names| ==> names[i] in records
  {
    forall i :: 0 <= i < |names| && IsJsonName(names[i]) && records[names[i]].feedback.Some? ==>
      lo <= records[names[i]].feedback.value.score <= hi
  }

  /** The scores of a directory lie within any bounds its records' scores keep to. */
  lemma {:induction false} ScoresWithin(records: map<string, Record>, names: seq<string>, lo: real, hi: real)
    requires forall i :: 0 <= i < |names| ==> names[i] in records
    requires ScoredWithin(records, names, lo, hi)
    ensures forall k :: 0 <= k < |Scores(records, names)| ==> lo <= Scores(records, names)[k] <= hi
    decreases |names|
  {
    if names != [] {
      var init := names[..|names| - 1];
      assert ScoredWithin(records, init, lo, hi) by {
        forall i | 0 <= i < |init| ensures init[i] == names[i] {
        }
      }
      ScoresWithin(records, init, lo, hi);
    }
  }

  /** The reported average score is 0 when no document has feedback, and otherwise lies
      between any lower and upper bound of the scores given as feedback. */
  lemma StatisticsAverageBounds(sops: map<string, Record>, sopNames: seq<string>,
                                batch: map<string, Record>, batchNames: seq<string>, lo: real, hi: real)
    requires forall i :: 0 <= i < |sopNames| ==> sopNames[i] in sops
    requires forall i :: 0 <= i < |batchNames| ==> batchNames[i] in batch
    requires ScoredWithin(sops, sopNames, lo, hi) && ScoredWithin(batch, batchNames, lo, hi)
    ensures var st := StatisticsOf(sops, sopNames, batch, batchNames);
      && (st.documentsWithFeedback == 0 ==> st.averageFeedbackScore == 0.0)
      && (st.documentsWithFeedback > 0 ==> lo <= st.averageFeedbackScore <= hi)
  {
    AverageOverFedScores(sops, sopNames, batch, batchNames);
    var xs, ys := Scores(sops, sopNames), Scores(batch, batchNames);
    ScoresWithin(sops, sopNames, lo, hi);
    ScoresWithin(batch, batchNames, lo, hi);
    if xs + ys != [] {
      assert forall k :: 0 <= k < |xs + ys| ==> lo <= (xs + ys)[k] <= hi by {
        forall k | 0 <= k < |xs + ys| ensures lo <= (xs + ys)[k] <= hi {
          if k < |xs| {
            assert (xs + ys)[k] == xs[k];
          } else {
            assert (xs + ys)[k] == ys[k - |xs|];
          }
        }
      }
      AverageBounds(xs + ys, lo, hi);
    }
  }

  class DataCollector {
    const dataDir: string
    const sopDir: string
    const batchRecordDir: string
    /** The files of the SOP directory. */
    var sops: map<string, Record>
    /** The files of the batch-record directory. */
    var batchRecords: map<string, Record>

    /** The directories hold plain file names. */
    ghost predicate Valid()
      reads this
    {
      (forall n :: n in sops ==> '/' !in n) && (forall n :: n in batchRecords ==> '/' !in n)
    }

    /** `DataCollector(data_dir)`, over directories that already hold the given files
        (none when they are created). */
    constructor (dataDir: string, existingSops: map<string, Record>, existingBatchRecords: map<string, Record>)
      requires forall n :: n in existingSops ==> '/' !in n
      requires forall n :: n in existingBatchRecords ==> '/' !in n
      ensures Valid()
      ensures this.dataDir == dataDir
      ensures sopDir == JoinPath(dataDir, "sops") && batchRecordDir == JoinPath(dataDir, "batch_records")
      ensures sops == existingSops && batchRecords == existingBatchRecords
    {
      this.dataDir := dataDir;
      sopDir := JoinPath(dataDir, "sops");
      batchRecordDir := JoinPath(dataDir, "batch_records");
      sops := existingSops;
      batchRecords := existingBatchRecords;
    }

    /** The directory a document type is saved in. */
    function DirFor(docType: string): string
    {
      if IsSop(docType) then sopDir else batchRecordDir
    }

    /** The file `os.path.exists(doc_path)` finds, if any. */
    function Locate(path: string): (r: Option<Location>)
      reads this
      ensures r.Some? && r.value.partition == Sops ==> r.value.name in sops && JoinPath(sopDir, r.value.name) == path
      ensures r.Some? && r.value.partition == BatchRecords ==>
        r.value.name in batchRecords && JoinPath(batchRecordDir, r.value.name) == path
    {
      var name := Basename(path);
      if name in sops && JoinPath(sopDir, name) == path then Some(Location(Sops, name))
      else if name in batchRecords && JoinPath(batchRecordDir, name) == path then Some(Location(BatchRecords, name))
      else None
    }

    /** A path is found exactly when it names a file of one of the two directories. */
    lemma LocateExactly(path: string)
      requires Valid()
      ensures Locate(path).None? <==>
        (forall n :: n in sops ==> JoinPath(sopDir, n) != path)
        && (forall n :: n in batchRecords ==> JoinPath(batchRecordDir, n) != path)
    {
      forall n | n in sops && JoinPath(sopDir, n) == path
        ensures Locate(path).Some?
      {
        BasenameOfJoin(sopDir, n);
      }
      forall n | n in batchRecords && JoinPath(batchRecordDir, n) == path
        ensures Locate(path).Some?
      {
        BasenameOfJoin(batchRecordDir, n);
      }
    }

    /** `save_document`: writes the new record under the SOP directory when the type
        is `sop` in any case, under the batch-record directory otherwise, and returns
        its path. A type holding `/` names a directory that does not exist, so the
        write fails and nothing changes. */
    method SaveDocument(input: Dict, content: string, docType: string, metadata: Option<Dict>, now: DateTime)
      returns (r: Result<string, CollectorError>)
      requires Valid() && now.Valid()
      modifies this
      ensures Valid()
      ensures var name := FileKey(now, docType);
        if '/' in docType then
          && r == Err(FileNotFound(JoinPath(DirFor(docType), name)))
          && sops == old(sops) && batchRecords == old(batchRecords)
        else
          && r == Ok(JoinPath(DirFor(docType), name))
          && (if IsSop(docType) then
                sops == old(sops)[name := NewRecord(input, content, metadata, now)] && batchRecords == old(batchRecords)
              else
                batchRecords == old(batchRecords)[name := NewRecord(input, content, metadata, now)] && sops == old(sops))
    {
      var data := NewRecord(input, content, metadata, now);
      var saveDir := if Lower(docType) == "sop" then sopDir else batchRecordDir;
      var filename := Stamp(now) + "_" + Lower(docType) + ".json";
      var filepath := JoinPath(saveDir, filename);
      if '/' in docType {
        return Err(FileNotFound(filepath));
      }
      assert '/' !in Lower(docType);
      assert '/' !in filename;
      if Lower(docType) == "sop" {
        sops := sops[filename := data];
      } else {
        batchRecords := batchRecords[filename := data];
      }
      return Ok(filepath);
    }

    /** `add_feedback`: a path that names no record raises `FileNotFoundError` and
        changes nothing; otherwise that record's feedback is replaced and every other
        field and every other record is left as it was. */
    method AddFeedback(path: string, score: real, text: Option<string>, now: DateTime)
      returns (r: Result<(), CollectorError>)
      requires Valid() && now.Valid()
      modifies this
      ensures Valid()
      ensures r.Err? <==> old(Locate(path)).None?
      ensures match old(Locate(path))
        case None =>
          r == Err(FileNotFound(path)) && sops == old(sops) && batchRecords == old(batchRecords)
        case Some(Location(Sops, n)) =>
          sops == old(sops)[n := WithFeedback(old(sops)[n], score, text, now)] && batchRecords == old(batchRecords)
        case Some(Location(BatchRecords, n)) =>
          batchRecords == old(batchRecords)[n := WithFeedback(old(batchRecords)[n], score, text, now)]
          && sops == old(sops)
    {
      var found := Locate(path);
      if found.None? {
        return Err(FileNotFound(path));
      }
      var data;
      var n := found.value.name;
      if found.value.partition == Sops {
        data := sops[n];
      } else {
        data := batchRecords[n];
      }
      data := data.(feedback := Some(Feedback(score, text, Stamp(now))));
      if found.value.partition == Sops {
        sops := sops[n := data];
      } else {
        batchRecords := batchRecords[n := data];
      }
      return Ok(());
    }

    /** `get_training_data`: the qualifying records of the SOP directory, then those of
        the batch-record directory, each directory read in its listing order. */
    method GetTrainingData(minScore: Option<real>, sopNames: seq<string>, batchNames: seq<string>)
      returns (trainingData: seq<Example>)
      requires Lists(sopNames, sops) && Lists(batchNames, batchRecords)
      ensures trainingData == Drawn(sops, sopNames, Sops, minScore) + Drawn(batchRecords, batchNames, BatchRecords, minScore)
    {
      trainingData := ProcessDirectory(sops, sopNames, Sops, minScore, []);
      trainingData := ProcessDirectory(batchRecords, batchNames, BatchRecords, minScore, trainingData);
    }

    /** `get_statistics`: counts the `.json` files of each directory and those with
        feedback, and averages the feedback scores. */
    method GetStatistics(sopNames: seq<string>, batchNames: seq<string>) returns (stats: Statistics)
      requires Lists(sopNames, sops) && Lists(batchNames, batchRecords)
      ensures stats == StatisticsOf(sops, sopNames, batchRecords, batchNames)
    {
      var sopCounts, sopScores := CountDirectory(sops, sopNames);
      var batchCounts, batchScores := CountDirectory(batchRecords, batchNames);
      var feedbackScores := sopScores + batchScores;
      var average := 0.0;
      if feedbackScores != [] {
        average := Sum(feedbackScores) / (|feedbackScores| as real);
      }
      stats := Statistics(sopCounts.total + batchCounts.total, sopCounts.withFeedback + batchCounts.withFeedback,
                          average, sopCounts, batchCounts);
    }
  }

  /** Drawing from one more file appends what that file gives. */
  lemma DrawnSnoc(records: map<string, Record>, names: seq<string>, i: nat, p: Partition, minScore: Option<real>)
    requires i < |names|
    requires forall k :: 0 <= k < |names| ==> names[k] in records
    ensures Drawn(records, names[..i + 1], p, minScore)
         == Drawn(records, names[..i], p, minScore) + Draw(records, names[i], p, minScore)
  {
    assert names[..i + 1][..i] == names[..i];
  }

  /** The inner `process_directory` of `get_training_data`: appends what one directory gives. */
  method ProcessDirectory(records: map<string, Record>, names: seq<string>, p: Partition,
                          minScore: Option<real>, before: seq<Example>)
    returns (after: seq<Example>)
    requires forall i :: 0 <= i < |names| ==> names[i] in records
    ensures after == before + Drawn(records, names, p, minScore)
  {
    after := before;
    var i := 0;
    while i < |names|
      invariant 0 <= i <= |names|
      invariant after == before + Drawn(records, names[..i], p, minScore)
    {
      var filename := names[i];
      ghost var drawn := Drawn(records, names[..i], p, minScore);
      ghost var step := Draw(records, filename, p, minScore);
      DrawnSnoc(records, names, i, p, minScore);
      if IsJsonName(filename) {
        var data := records[filename];
        if data.feedback.Some? {
          var feedbackScore := data.feedback.value.score;
          if minScore.None? || feedbackScore >= minScore.value {
            after := after + [Example(data.input, data.generatedContent, feedbackScore, data.feedback.value.text,
                                      TypeName(p))];
          }
        }
      }
      assert after == before + drawn + step;
      AppendAssoc(before, drawn, step);
      i := i + 1;
    }
    assert names[..|names|] == names;
  }

  /** The inner `process_directory` of `get_statistics`, for one directory. */
  method CountDirectory(records: map<string, Record>, names: seq<string>) returns (counts: Counts, scores: seq<real>)
    requires forall i :: 0 <= i < |names| ==> names[i] in records
    ensures counts == Tally(records, names) && scores == Scores(records, names)
  {
    counts, scores := Counts(0, 0), [];
    var i := 0;
    while i < |names|
      invariant 0 <= i <= |names|
      invariant counts == Tally(records, names[..i]) && scores == Scores(records, names[..i])
    {
      var filename := names[i];
      assert names[..i + 1][..i] == names[..i];
      if IsJsonName(filename) {
        var data := records[filename];
        counts := counts.(total := counts.total + 1);
        if data.feedback.Some? {
          counts := counts.(withFeedback := counts.withFeedback + 1);
          scores := scores + [data.feedback.value.score];
        }
      }
      i := i + 1;
    }
    assert names[..|names|] == names;
  }
}
