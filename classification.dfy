/**
  The Category column of smartlog.py and the per-category counts of its
  summary. The trained text classifier is not modelled: it is the parameter
  `predict`, a function from a message to the label it predicts. It sees
  one message at a time, so a row's label depends on that row's message only.
*/
module Classification {
  import opened Extraction

  /** The labels of the training samples. */
  datatype Category = INFO | WARNING | ERROR | CRITICAL | ALERT

  /** A row of the data frame after classification: the three extracted columns and Category. */
  datatype Row = Row(timestamp: string, source: string, message: string, category: Category)

  /** The extracted columns of a row, without its label. */
  function Columns(row: Row): Record {
    Record(row.timestamp, row.source, row.message)
  }

  /** `df["Category"] = model.predict(vectorizer.transform(df["Message"]))`. */
  function Classify(df: seq<Record>, predict: string -> Category): (rows: seq<Row>)
    ensures |rows| == |df|
  {
    if df == [] then []
    else [Row(df[0].timestamp, df[0].source, df[0].message, predict(df[0].message))] + Classify(df[1..], predict)
  }

  /** Row `i` keeps the columns of record `i` and carries the label predicted from its message. */
  lemma {:induction false} ClassifyAt(df: seq<Record>, predict: string -> Category, i: nat)
    requires i < |df|
    ensures Columns(Classify(df, predict)[i]) == df[i]
    ensures Classify(df, predict)[i].category == predict(df[i].message)
  {
    if i > 0 {
      ClassifyAt(df[1..], predict, i - 1);
    }
  }

  /** Classification only adds a column: dropping it gives back the extracted records. */
  lemma ClassifyKeepsRecords(df: seq<Record>, predict: string -> Category)
    ensures |Classify(df, predict)| == |df|
    ensures forall i :: 0 <= i < |df| ==> Columns(Classify(df, predict)[i]) == df[i]
  {
    forall i | 0 <= i < |df| ensures Columns(Classify(df, predict)[i]) == df[i] {
      ClassifyAt(df, predict, i);
    }
  }

  /** The Category column. */
  function Labels(rows: seq<Row>): (labels: seq<Category>)
    ensures |labels| == |rows|
    ensures forall i :: 0 <= i < |rows| ==> labels[i] == rows[i].category
  {
    if rows == [] then [] else [rows[0].category] + Labels(rows[1..])
  }

  /** `df[df['Category'] == c]`: the rows labelled `c`, in order. */
  function WithCategory(rows: seq<Row>, c: Category): (kept: seq<Row>)
    ensures |kept| <= |rows|
    ensures forall k :: 0 <= k < |kept| ==> kept[k].category == c
  {
    if rows == [] then []
    else if rows[0].category == c then [rows[0]] + WithCategory(rows[1..], c)
    else WithCategory(rows[1..], c)
  }

  /** `len(df[df['Category'] == c])` is the number of times `c` occurs in the Category column. */
  lemma {:induction false} CountIsOccurrences(rows: seq<Row>, c: Category)
    ensures |WithCategory(rows, c)| == multiset(Labels(rows))[c]
  {
    if rows != [] {
      CountIsOccurrences(rows[1..], c);
      assert Labels(rows) == [rows[0].category] + Labels(rows[1..]);
    }
  }

  /** Every row carries exactly one label: the five counts add up to the number of rows. */
  lemma {:induction false} CountsPartitionRows(rows: seq<Row>)
    ensures |WithCategory(rows, INFO)| + |WithCategory(rows, WARNING)| + |WithCategory(rows, ERROR)|
            + |WithCategory(rows, CRITICAL)| + |WithCategory(rows, ALERT)| == |rows|
  {
    if rows != [] {
      CountsPartitionRows(rows[1..]);
    }
  }

  /** The errors, warnings and critical alerts of the summary never exceed the number of rows. */
  lemma ReportedCountsBounded(rows: seq<Row>)
    ensures |WithCategory(rows, ERROR)| + |WithCategory(rows, WARNING)| + |WithCategory(rows, CRITICAL)| <= |rows|
  {
    CountsPartitionRows(rows);
  }
}
