# SmartLog in Dafny

SmartLog reads syslog lines and matches each one against the header pattern
`(\w+ \d+ \d+:\d+:\d+) (\S+) (\S+): (.+)`. For every matching line it keeps
the timestamp, source and message, and drops the host. It labels each message
with a text classifier. It then reports three things: the five sources with
the most entries, the number of entries, and the numbers of ERROR, WARNING
and CRITICAL entries.

This project models the deterministic part of that data path:

- `options.dfy`: the `Option` type that stands for "no match".
- `syslog_line.dfy` (module `SyslogLine`): the header pattern.
  - `Matches(line, g)` states declaratively what a match is.
  - `ParseGroups` finds the match in one scan from left to right. The timestamp and host runs end at a literal their class cannot contain. The source run `(\S+): ` is the exception: the engine takes the whole non-space token and gives back its last character, which must be the colon. The scanner does the same.
  - `ParseGroupsIff` proves that the scanner and the declarative pattern agree on every line and every candidate match.
- `syslog_examples.dfy` (module `SyslogExamples`): concrete lines, accepted and rejected.
- `extraction.dfy` (module `Extraction`): the loop that appends to `log_data`. It is a method, proved against the specification function `Records`.
- `classification.dfy` (module `Classification`): the Category column and the per-label counts. The classifier is a function parameter `predict: string -> Category`.
- `ranking.dfy` (module `Ranking`): `most_common(n)`, a stable sort by count, highest first, cut after `n` items.
- `source_counter.dfy` (module `SourceCounter`): `Counter(df["Source"])`.
  - A loop fills a map and keeps the keys in insertion order.
  - `TopSources` is `most_common(5)` over the counter's items.
  - `TopSourcesSpec` states what `top_sources` holds.
- `summary.dfy` (module `Summary`): the whole path from raw lines to the report (`Analyze`), and the report's figures.

Character classes:

- `\w` is an ASCII letter, an ASCII digit or `_`.
- `\d` is an ASCII digit `0`-`9`.
- `\S` is any character that Python's `str.isspace` rejects. Whitespace is:
  - tab, line feed, vertical tab, form feed and carriage return (0x09-0x0D);
  - the separators 0x1C-0x1F and space;
  - next line (0x85) and no-break space (0xA0);
  - the Unicode space separators;
  - the line separator and the paragraph separator.
- `.` is any character except line feed.

## Model

| member | source | states |
|---|---|---|
| SyslogLine.IsSpace | smartlog.py:29 | the whitespace of `\s`, which `\S` negates: exactly the characters Python's `str.isspace` accepts. It has no contract of its own; `SyslogExamples.SeparatorEndsHost` exercises it |
| SyslogLine.InClass | smartlog.py:29 | the classes `\w`, `\d`, `\S` and `.` of the pattern. It has no contract of its own; `SyslogLine.Span` and `SyslogLine.FieldUnique` state the runs built from it |
| SyslogLine.Span | smartlog.py:29 | the length of the longest run of a character class at the start of a string: every character before it is in the class, and the next one is not |
| SyslogLine.Field | smartlog.py:29 | a match of `cls+` followed by a literal separator is a non-empty run of the class, and the line is that run, the separator and the rest |
| SyslogLine.FieldUnique | smartlog.py:29 | a run followed by a separator outside its class is always found, and no other split of that shape exists |
| SyslogLine.ParseStamp | smartlog.py:29 | a scanned timestamp is `\w+ \d+ \d+:\d+:\d+` with single-space and colon separators, and it is followed by a space |
| SyslogLine.ParseStampComplete | smartlog.py:29 | every well-formed timestamp followed by a space is recognised, whatever follows it |
| SyslogLine.ParseHeader | smartlog.py:29 | a scanned header is a well-formed timestamp, host and source, and it is a prefix of the line |
| SyslogLine.ParseHeaderComplete | smartlog.py:29 | every well-formed header is recognised, whatever follows it |
| SyslogLine.Matches | smartlog.py:29 | the pattern stated declaratively. It has no contract of its own; `SyslogLine.ParseGroupsIff` ties it to the scanner in both directions |
| SyslogLine.ParseGroups | smartlog.py:29-31 | every match `re.match` reports satisfies the pattern: anchored at the line start, groups of the right shapes, message up to the first line feed |
| SyslogLine.MessageMatches | smartlog.py:29 | a well-formed header followed by the longest non-empty run of characters other than line feed is a match of the pattern |
| SyslogLine.ParseGroupsIff | smartlog.py:29-30 | the scanner reports exactly the matches of the pattern, in both directions, so the match is unique |
| SyslogLine.NoMatchIff | smartlog.py:30 | a line is skipped exactly when no decomposition satisfies the pattern |
| SyslogLine.ParseText | smartlog.py:29 | printing well-formed groups and parsing the text back returns the same groups, with or without a trailing line feed |
| SyslogLine.RoundTrip | smartlog.py:29 | on a line without line feeds, `timestamp + " " + host + " " + source + ": " + message` is the line |
| SyslogLine.HeaderNoNewline | smartlog.py:29 | no group of the header can contain a line feed |
| SyslogLine.NewlineEndsMessage | smartlog.py:29 | a line feed and whatever follows it do not change the match: the newline that `readlines` keeps is never part of the message |
| SyslogLine.EmptyMessageRejected | smartlog.py:29 | a header followed by nothing, or directly by a line feed, does not match: `(.+)` needs one character |
| SyslogLine.DoubleSpaceRejected | smartlog.py:29 | a first word followed by two spaces never matches: separators are single spaces |
| SyslogLine.HostMissingRejected | smartlog.py:29 | a timestamp followed by text that does not start with a non-space host token and a space never matches |
| SyslogLine.SourceIsFifthToken | smartlog.py:29 | the source is non-empty, holds no whitespace, and with a colon appended is the fifth space-separated token of the line |
| SyslogLine.MatchedLineSplit | smartlog.py:29 | a matched line splits at spaces into month, day, clock, host, the colon-terminated source, then the rest |
| SyslogLine.HeaderSplit | smartlog.py:29 | a header's five tokens are separated by exactly one space each |
| SyslogLine.StampSplit | smartlog.py:29 | a timestamp splits at spaces into exactly three tokens: month, day and the colon-separated clock |
| SyslogExamples.AuthenticationLine | smartlog.py:29-31 | `Jan 1 00:00:01 h sshd: failed` yields timestamp `Jan 1 00:00:01`, host `h`, source `sshd`, message `failed` |
| SyslogExamples.ColonsStayInMessage | smartlog.py:29 | later `": "` sequences stay in the message, `cron[7]` stays the source, and the line feed is dropped |
| SyslogExamples.NoRangeCheck | smartlog.py:29 | time fields of any length, such as `7:12345:0`, are accepted |
| SyslogExamples.PaddedDayRejected | smartlog.py:29 | `Jan  1 ...` (two spaces) does not match |
| SyslogExamples.EmptyMessage | smartlog.py:29 | a line ending right after `": "`, with or without a line feed, does not match |
| SyslogExamples.SourceGivesBackColon | smartlog.py:29 | in `J 1 0:0:0 h a:: m` the source run gives back one colon: the source is `a:` |
| SyslogExamples.SeparatorEndsHost | smartlog.py:29 | the separator 0x1C is whitespace to `\S`, so a host containing it ends early and the line does not match |
| Extraction.Records | smartlog.py:28-32 | the rows kept from a run of lines are never more than the lines |
| Extraction.MatchLines | smartlog.py:28-29 | `re.match` is applied to every line: one result per line |
| Extraction.ToRecord | smartlog.py:31-32 | the row `[timestamp, source, message]` kept from a match: the host is dropped here. It has no contract of its own; `Extraction.RecordsExactlyMatched` and `Extraction.AllMatchedKeepsEveryLine` state the rows through it |
| Extraction.Kept | smartlog.py:30-32 | what one match result appends: its row for a match, nothing otherwise. It has no contract of its own; `Extraction.KeptAllSnoc` and `Extraction.KeptAllExactly` state its effect |
| Extraction.KeptAll | smartlog.py:28-32 | the rows kept from a run of match results are never more than the results |
| Extraction.KeptAllAppend | smartlog.py:28-32 | the rows of two runs of match results are the rows of the first followed by those of the second |
| Extraction.MapLinesAppend | smartlog.py:28-29 | each line is matched on its own: the results for two runs of lines are those of the first followed by those of the second |
| Extraction.KeptAllExactly | smartlog.py:30-32 | a row is present exactly when some result is a match whose timestamp, source and message are that row |
| Extraction.KeptAllEvery | smartlog.py:30-32 | when every result is a match, there is one row per result, in the same order |
| Extraction.KeptAllNone | smartlog.py:30 | results that are not matches contribute no rows |
| Extraction.KeptAllSnoc | smartlog.py:28-32 | one more loop iteration appends what that line's match contributes and changes nothing before it |
| Extraction.RecordsAppend | smartlog.py:28-32 | extraction works line by line: the rows of two runs of lines are the rows of the first followed by those of the second |
| Extraction.RecordsExactlyMatched | smartlog.py:28-32 | a row is present exactly when some line matches and keeps that timestamp, source and message (the host is dropped) |
| Extraction.AllMatchedKeepsEveryLine | smartlog.py:28-32 | when every line matches, there are as many rows as lines, and row `i` comes from line `i` |
| Extraction.NoMatchNoRecords | smartlog.py:28-32 | lines that do not match contribute no rows |
| Extraction.ExtractRecords | smartlog.py:27-32 | the loop's `log_data` equals `Records(logs)`, so all the properties above hold of it |
| Classification.Classify | smartlog.py:67 | the Category column gets exactly one label per row |
| Classification.Labels | smartlog.py:67 | the Category column: one label per row, and label `i` is row `i`'s category. `Classification.CountIsOccurrences` relates the label counts to it |
| Classification.ClassifyAt | smartlog.py:67 | row `i` keeps the timestamp, source and message of record `i`, and its label is the prediction for its own message |
| Classification.ClassifyKeepsRecords | smartlog.py:67 | adding the Category column changes no other column and no row count |
| Classification.WithCategory | smartlog.py:78-80 | the filter `df[df['Category'] == c]` keeps only rows labelled `c` and never more rows than the frame has |
| Classification.CountIsOccurrences | smartlog.py:78-80 | the filtered length equals the number of times the label occurs in the Category column |
| Classification.CountsPartitionRows | smartlog.py:67 | the five label counts add up to the number of rows |
| Classification.ReportedCountsBounded | smartlog.py:77-80 | errors, warnings and critical alerts together never exceed the total |
| Ranking.Insert | smartlog.py:70 | inserting an item into a ranked list adds exactly that item (as a multiset) |
| Ranking.SortByCount | smartlog.py:70 | the sort is a permutation of the counter's items |
| Ranking.InsertRanked | smartlog.py:70 | inserting an item seen before all the others keeps the list ranked: counts never increase, and ties stay in input order |
| Ranking.SortRanked | smartlog.py:70 | the stable sort of items given in rank order is ranked: non-increasing counts, and ties in input order |
| Ranking.MostCommon | smartlog.py:70 | `most_common(n)` returns `min(n, len)` items, and only items of the counter. Ranking and what is left out are stated by `Ranking.MostCommonSpec` |
| Ranking.MostCommonSpec | smartlog.py:70 | `most_common(n)` returns `min(n, len)` items, ranked, all taken from the counter, and every item left out ranks below every item kept |
| SourceCounter.FirstSeen | smartlog.py:70 | the counter's key order is no longer than its input |
| SourceCounter.FirstIndex | smartlog.py:70 | the index of an element's first occurrence: it holds the element, and no earlier position does |
| SourceCounter.FirstSeenOnce | smartlog.py:70 | the counter's keys are the input's elements, each exactly once |
| SourceCounter.FirstSeenOrdered | smartlog.py:70 | the counter's keys are in the order of their first occurrences |
| SourceCounter.FirstSeenDistinct | smartlog.py:70 | the keys are pairwise different and are exactly the elements of the input |
| SourceCounter.CountsSumToTotal | smartlog.py:70 | the counts of all sources add up to the number of entries |
| SourceCounter.SourceItems | smartlog.py:70 | the counter's items: one per distinct source. `SourceCounter.ItemsAreCounts` and `SourceCounter.ItemsInRankOrder` state their counts and order |
| SourceCounter.TopSources | smartlog.py:70 | `top_sources` has five items, or one per distinct source when there are fewer, all taken from the counter. The full ranking is stated by `SourceCounter.TopSourcesSpec` |
| SourceCounter.CountSources | smartlog.py:70 | the counting loop's map holds each source's exact count, and its key order is first-seen order, so its items are those of the specification |
| SourceCounter.Tally.Items | smartlog.py:70 | `Counter.items()`: the keys in insertion order, each with its count, as `Summary.Analyze` hands them to `most_common`. `SourceCounter.CountSources` proves the counting loop's items equal `SourceCounter.SourceItems` |
| SourceCounter.TopSourcesSpec | smartlog.py:70 | `top_sources` has at most five items and at most one per distinct source; each count is exact; sources are distinct; counts never increase, and ties follow first-seen order; every source left out ranks below every one kept |
| SourceCounter.TopRanked | smartlog.py:70 | `most_common(5)` over the counter's items is ranked, holds only counter items, and ranks above every item it leaves out |
| SourceCounter.ItemsInRankOrder | smartlog.py:70 | the counter's items come in the order their sources were first seen |
| SourceCounter.ItemsAreCounts | smartlog.py:70 | the counter's items are exactly the sources of the log, each paired with its number of entries |
| SourceCounter.TieKeepsFirstSeenOrder | smartlog.py:70 | with sources `[A, B, A, B]`, A ranks above B |
| SourceCounter.TieItems | smartlog.py:70 | the counter of `[A, B, A, B]` holds A, then B, with two entries each |
| SourceCounter.TieKeys | smartlog.py:70 | the counter of `[A, B, A, B]` has the keys A, then B |
| Summary.SummarizeCounts | smartlog.py:70-80 | total is the row count; each label figure is that label's number of rows; the three together are at most the total; the source counts add up to the total |
| Summary.Sources | smartlog.py:70 | `df["Source"]`: the Source column, one entry per row, in row order |
| Summary.Summarize | smartlog.py:70-80 | the printed figures: total is the row count, the three label figures together do not exceed it, and at most five top sources are reported. `Summary.SummarizeCounts` states each figure exactly |
| Summary.SummarizeEmpty | smartlog.py:70-80 | the model's policy for a frame with no rows: no top sources and all figures zero. The script itself does not get this far (see Left out) |
| Summary.Analyze | smartlog.py:27-80 | the script's data frame is the classified extraction of its lines, its report is the summary of that frame, and the total is at most the number of lines read |
| Summary.OneLine | smartlog.py:28-32 | a matching line becomes one row without the host, labelled by the classifier from its message |

## Left out

- Reading `/var/log/syslog` and the exit on a missing file (smartlog.py:19-24) are file I/O. The model starts from the sequence of lines that `readlines` returns.
- Downloading the tokenizer data, the tokenizer itself and TF-IDF vectorisation (smartlog.py:11-13, 51-52) are a network download and floating-point library code.
- The training samples, `train_test_split` and the random forest's fit and predict (smartlog.py:38-58, 67) are randomness, floating point and an opaque library. The fitted model is the parameter `predict`, a function from a message to a label. A row's label depends only on its own message.
- Summary.SummarizeEmpty: when no line matches, the script never reaches smartlog.py:70-80. scikit-learn's input validation at smartlog.py:67 rejects input with no rows. That error comes from the library and is not visible in the script. The model does not raise it. Instead `Classify` gives an empty column and `Summarize` a zero report, a policy of the model rather than what the script prints.
- Saving and loading the model with `joblib` (smartlog.py:61-64) is persistence.
- Printing and the CSV export (smartlog.py:72-85) are presentation and I/O. Only the printed figures are modelled, as `Report`.
- Python's Unicode `\w` and `\d` are restricted to ASCII. Non-ASCII letters and digits, which Python accepts, do not match them in the model.
- The file is opened in text mode (smartlog.py:20). Universal newlines turn `\r\n` and a lone `\r` into `\n` before `readlines` splits the text, so no carriage return reaches the pattern from the file. The model does not model that decoding. It accepts any string as a line.
- The script labels rows with whatever the classifier returns. The model's `Category` holds the five training labels (INFO, WARNING, ERROR, CRITICAL, ALERT) as an enumeration instead of strings.
- The script reports only the ERROR, WARNING and CRITICAL figures, not a count for every label. The model follows the script.
- The script has no phases (untrained, trained, classified), and no errors for too few training labels or for an untrained model. None of these are modelled.
