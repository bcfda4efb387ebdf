/**
  The whole of smartlog.py's data path, from raw lines to the figures it
  reports: extraction, the Category column, the five top sources, the
  number of rows and the numbers of ERROR, WARNING and CRITICAL rows.
*/
module Summary {
  import opened Options
  import opened SyslogLine
  import opened Extraction
  import opened Classification
  import opened Ranking
  import opened SourceCounter

  /** The figures the script prints. */
  datatype Report = Report(topSources: seq<SourceCount>, total: nat, errors: nat, warnings: nat, criticals: nat)

  /** The Source column. */
  function Sources(rows: seq<Row>): (column: seq<string>)
    ensures |column| == |rows|
    ensures forall i :: 0 <= i < |rows| ==> column[i] == rows[i].source
  {
    if rows == [] then [] else [rows[0].source] + Sources(rows[1..])
  }

  /** The report of a classified data frame. */
  function Summarize(df: seq<Row>): (r: Report)
    ensures r.total == |df| && r.errors + r.warnings + r.criticals <= r.total
    ensures |r.topSources| <= 5 && |r.topSources| <= |df|
  {
    ReportedCountsBounded(df);
    Report(TopSources(Sources(df)), |df|,
           |WithCategory(df, ERROR)|, |WithCategory(df, WARNING)|, |WithCategory(df, CRITICAL)|)
  }

  /**
    The report's figures: `total` is the number of rows, each category
    figure is the number of rows with that label and together they do not
    exceed `total`, and the counts of all sources add up to `total`.
  */
  lemma SummarizeCounts(df: seq<Row>)
    ensures Summarize(df).total == |df|
    ensures Summarize(df).errors == multiset(Labels(df))[ERROR]
    ensures Summarize(df).warnings == multiset(Labels(df))[WARNING]
    ensures Summarize(df).criticals == multiset(Labels(df))[CRITICAL]
    ensures Summarize(df).errors + Summarize(df).warnings + Summarize(df).criticals <= Summarize(df).total
    ensures SumCounts(FirstSeen(Sources(df)), Sources(df)) == Summarize(df).total
  {
    CountIsOccurrences(df, ERROR);
    CountIsOccurrences(df, WARNING);
    CountIsOccurrences(df, CRITICAL);
    ReportedCountsBounded(df);
    CountsSumToTotal(Sources(df));
  }

  /** No rows: nothing to rank and every figure zero. */
  lemma SummarizeEmpty()
    ensures Summarize([]) == Report([], 0, 0, 0, 0)
  {
    assert FirstSeen([]) == [];
    assert SourceItems([]) == [];
  }

  /**
    smartlog.py from the lines it has read to its data frame and its report:
    the extraction loop, the Category column, `Counter(df["Source"])`,
    `most_common(5)`, and the three label counts.
  */
  method Analyze(logs: seq<string>, predict: string -> Category) returns (df: seq<Row>, report: Report)
    ensures df == Classify(Records(logs), predict)
    ensures report == Summarize(df)
    ensures report.total <= |logs|
  {
    var logData := ExtractRecords(logs);
    df := Classify(logData, predict);
    var counter := CountSources(Sources(df));
    var topSources := MostCommon(counter.Items(), 5);
    report := Report(topSources, |df|,
                     |WithCategory(df, ERROR)|, |WithCategory(df, WARNING)|, |WithCategory(df, CRITICAL)|);
  }

  /** A matching line through the pipeline: one row, without the host, labelled by the classifier from its message. */
  lemma OneLine(line: string, g: Groups, predict: string -> Category)
    requires ParseGroups(line) == Some(g)
    ensures Classify(Records([line]), predict) == [Row(g.Timestamp(), g.Source(), g.message, predict(g.message))]
  {
    assert MatchLines([line]) == [Some(g)];
    assert Records([line]) == Kept(Some(g)) + KeptAll([]);
  }
}
