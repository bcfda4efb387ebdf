/**
  The extraction loop of smartlog.py: every line that matches the syslog
  header pattern contributes `[timestamp, source, message]` to `log_data`;
  the host group is discarded and lines that do not match are skipped.

  The rows are stated in two steps: `MatchLines` applies `re.match` to every
  line, and `KeptAll` turns the sequence of match results into rows. The
  facts about the loop are proved once on match results, whatever the
  pattern, and carried over to lines.
*/
module Extraction {
  import opened Options
  import opened SyslogLine

  /** One row of `log_data`: the columns Timestamp, Source and Message. */
  datatype Record = Record(timestamp: string, source: string, message: string)

  /** The kept groups of a match. */
  function ToRecord(g: Groups): Record {
    Record(g.Timestamp(), g.Source(), g.message)
  }

  /** A matcher applied to each line, in order. */
  function MapLines(logs: seq<string>, matcher: string -> Option<Groups>): (ms: seq<Option<Groups>>)
    ensures |ms| == |logs|
  {
    seq(|logs|, i requires 0 <= i < |logs| => matcher(logs[i]))
  }

  /** `re.match` applied to each line, in order. */
  function MatchLines(logs: seq<string>): (ms: seq<Option<Groups>>)
    ensures |ms| == |logs|
  {
    MapLines(logs, ParseGroups)
  }

  /** What one match result contributes to `log_data`: the kept groups of a match, nothing otherwise. */
  function Kept(m: Option<Groups>): seq<Record> {
    match m
    case Some(g) => [ToRecord(g)]
    case None => []
  }

  /** The rows contributed by a sequence of match results, in order. */
  function KeptAll(ms: seq<Option<Groups>>): (rows: seq<Record>)
    ensures |rows| <= |ms|
  {
    if ms == [] then [] else Kept(ms[0]) + KeptAll(ms[1..])
  }

  /** The rows of `log_data` after the loop has seen `logs`. */
  function Records(logs: seq<string>): (rows: seq<Record>)
    ensures |rows| <= |logs|
  {
    KeptAll(MatchLines(logs))
  }

  /** The rows of two runs of match results are the rows of each, one after the other. */
  lemma {:induction false} KeptAllAppend(a: seq<Option<Groups>>, b: seq<Option<Groups>>)
    ensures KeptAll(a + b) == KeptAll(a) + KeptAll(b)
  {
    if a == [] {
      assert a + b == b;
    } else {
      assert (a + b)[1..] == a[1..] + b;
      KeptAllAppend(a[1..], b);
    }
  }

  /** Matching is line by line: the results for two runs of lines are those of each, one after the other. */
  lemma MapLinesAppend(a: seq<string>, b: seq<string>, matcher: string -> Option<Groups>)
    ensures MapLines(a + b, matcher) == MapLines(a, matcher) + MapLines(b, matcher)
  {
    var l, r := MapLines(a + b, matcher), MapLines(a, matcher) + MapLines(b, matcher);
    forall i | 0 <= i < |l| ensures l[i] == r[i] {
      if i < |a| {
        assert (a + b)[i] == a[i];
      } else {
        assert (a + b)[i] == b[i - |a|];
      }
    }
  }

  /** Extraction is line by line: the rows of two runs of lines are the rows of each, one after the other. */
  lemma RecordsAppend(a: seq<string>, b: seq<string>)
    ensures Records(a + b) == Records(a) + Records(b)
  {
    MapLinesAppend(a, b, ParseGroups);
    KeptAllAppend(MatchLines(a), MatchLines(b));
  }

  /** A row comes from a match result exactly when some result is a match whose kept groups are that row. */
  lemma {:induction false} KeptAllExactly(ms: seq<Option<Groups>>, r: Record)
    ensures r in KeptAll(ms) <==> exists i :: 0 <= i < |ms| && ms[i].Some? && ToRecord(ms[i].value) == r
  {
    if ms != [] {
      KeptAllExactly(ms[1..], r);
      if r in KeptAll(ms[1..]) {
        var i :| 0 <= i < |ms[1..]| && ms[1..][i].Some? && ToRecord(ms[1..][i].value) == r;
        assert ms[i + 1] == ms[1..][i];
      }
      if exists i :: 0 <= i < |ms| && ms[i].Some? && ToRecord(ms[i].value) == r {
        var i :| 0 <= i < |ms| && ms[i].Some? && ToRecord(ms[i].value) == r;
        if i > 0 {
          assert ms[1..][i - 1] == ms[i];
        }
      }
    }
  }

  /**
    A row is produced exactly for the matching lines: every row is the kept
    part of some matching line, and every matching line yields its row.
  */
  lemma RecordsExactlyMatched(logs: seq<string>, r: Record)
    ensures r in Records(logs) <==> exists i :: 0 <= i < |logs| && ParseGroups(logs[i]).Some? && ToRecord(ParseGroups(logs[i]).value) == r
  {
    var ms := MatchLines(logs);
    KeptAllExactly(ms, r);
    assert forall i :: 0 <= i < |logs| ==> ms[i] == ParseGroups(logs[i]);
  }

  /** When every result is a match, there is one row per result, in the same order. */
  lemma {:induction false} KeptAllEvery(ms: seq<Option<Groups>>)
    requires forall i :: 0 <= i < |ms| ==> ms[i].Some?
    ensures |KeptAll(ms)| == |ms|
    ensures forall i :: 0 <= i < |ms| ==> KeptAll(ms)[i] == ToRecord(ms[i].value)
  {
    if ms != [] {
      var tail := ms[1..];
      assert forall i :: 0 <= i < |tail| ==> tail[i] == ms[i + 1];
      KeptAllEvery(tail);
      assert KeptAll(ms) == [ToRecord(ms[0].value)] + KeptAll(tail);
      forall i | 0 <= i < |ms| ensures KeptAll(ms)[i] == ToRecord(ms[i].value) {
        if i > 0 {
          assert ms[i] == tail[i - 1];
        }
      }
    }
  }

  /** When every line matches, no line is lost and the rows are the lines' groups, position by position. */
  lemma AllMatchedKeepsEveryLine(logs: seq<string>)
    requires forall i :: 0 <= i < |logs| ==> ParseGroups(logs[i]).Some?
    ensures |Records(logs)| == |logs|
    ensures forall i :: 0 <= i < |logs| ==> Records(logs)[i] == ToRecord(ParseGroups(logs[i]).value)
  {
    var ms := MatchLines(logs);
    assert forall i :: 0 <= i < |logs| ==> ms[i] == ParseGroups(logs[i]);
    KeptAllEvery(ms);
  }

  /** Results that are not matches contribute no rows. */
  lemma {:induction false} KeptAllNone(ms: seq<Option<Groups>>)
    requires forall i :: 0 <= i < |ms| ==> ms[i].None?
    ensures KeptAll(ms) == []
  {
    if ms != [] {
      assert forall i :: 0 <= i < |ms[1..]| ==> ms[1..][i] == ms[i + 1];
      KeptAllNone(ms[1..]);
    }
  }

  /** Lines that do not match contribute nothing. */
  lemma NoMatchNoRecords(logs: seq<string>)
    requires forall i :: 0 <= i < |logs| ==> ParseGroups(logs[i]).None?
    ensures Records(logs) == []
  {
    var ms := MatchLines(logs);
    assert forall i :: 0 <= i < |logs| ==> ms[i] == ParseGroups(logs[i]);
    KeptAllNone(ms);
  }

  /** The rows after one more result are the rows so far followed by what that result contributes. */
  lemma KeptAllSnoc(ms: seq<Option<Groups>>, i: nat)
    requires i < |ms|
    ensures KeptAll(ms[..i + 1]) == KeptAll(ms[..i]) + Kept(ms[i])
  {
    assert KeptAll([ms[i]]) == Kept(ms[i]) + KeptAll([ms[i]][1..]);
    assert ms[..i + 1] == ms[..i] + [ms[i]];
    KeptAllAppend(ms[..i], [ms[i]]);
  }

  /** The loop of smartlog.py: match each line and append the kept groups of the matching ones. */
  method ExtractRecords(logs: seq<string>) returns (logData: seq<Record>)
    ensures logData == Records(logs)
  {
    ghost var ms := MatchLines(logs);
    logData := [];
    for i := 0 to |logs|
      invariant logData == KeptAll(ms[..i])
    {
      var m := ParseGroups(logs[i]);
      assert m == ms[i];
      KeptAllSnoc(ms, i);
      if m.Some? {
        logData := logData + [ToRecord(m.value)];
      }
    }
    assert ms[..|logs|] == ms;
  }
}
