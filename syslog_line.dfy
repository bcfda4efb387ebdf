/**
  The syslog header pattern of smartlog.py:

      (\w+ \d+ \d+:\d+:\d+) (\S+) (\S+): (.+)

  applied with Python's `re.match` (anchored at the start of the line, not at
  its end). The four groups are the timestamp, the host, the source and the
  message.

  The match is unique and `ParseGroups` finds it in one left-to-right scan.
  The runs of the timestamp and the host are each followed by a literal
  their class cannot contain (a space is neither a word character, a digit
  nor a non-space character; a colon is not a digit), so each of them is the
  longest run available, and the greedy `(.+)` takes everything up to the
  first line feed. The source run `(\S+): ` is the one exception: the
  colon is itself a non-space character, so the engine first takes the whole
  non-space token up to the next space and then gives back its last
  character, which must be the colon. `ParseHeader` does the same: it takes
  the token and strips one trailing colon. `Matches` states the pattern
  declaratively; `ParseGroupsIff` proves that the scanner finds exactly the
  decompositions `Matches` describes.

  `\w` is an ASCII letter, digit or `_`, and `\d` an ASCII digit. `\S` is any
  character that is not whitespace in Python's sense (`str.isspace`), and
  `.` anything but a line feed.
*/
module SyslogLine {
  import opened Options

  datatype CharClass = Word | Digit | NonSpace | NotNewline

  /**
    The whitespace of `\s` in a str pattern, the characters `str.isspace`
    accepts: tab, line feed, vertical tab, form feed, carriage return, the
    four separators 0x1C-0x1F, space, next line, no-break space, and the
    Unicode space and line/paragraph separators.
  */
  predicate IsSpace(c: char) {
    var n := c as int;
    || 0x09 <= n <= 0x0D || 0x1C <= n <= 0x20 || n == 0x85 || n == 0xA0 || n == 0x1680
    || 0x2000 <= n <= 0x200A || n == 0x2028 || n == 0x2029 || n == 0x202F || n == 0x205F || n == 0x3000
  }

  predicate InClass(c: char, cls: CharClass) {
    match cls
    case Word => 'a' <= c <= 'z' || 'A' <= c <= 'Z' || '0' <= c <= '9' || c == '_'
    case Digit => '0' <= c <= '9'
    case NonSpace => !IsSpace(c)
    case NotNewline => c != '\n'
  }

  predicate AllIn(s: string, cls: CharClass) {
    forall k :: 0 <= k < |s| ==> InClass(s[k], cls)
  }

  /** What `cls+` matches: a non-empty string of characters of the class. */
  predicate IsRun(s: string, cls: CharClass) {
    s != [] && AllIn(s, cls)
  }

  /** The length of the longest prefix of `s` made of characters of `cls`. */
  function Span(cls: CharClass, s: string): (n: nat)
    ensures n <= |s|
    ensures forall k :: 0 <= k < n ==> InClass(s[k], cls)
    ensures n == |s| || !InClass(s[n], cls)
  {
    if s == [] || !InClass(s[0], cls) then 0 else 1 + Span(cls, s[1..])
  }

  /** A run matched by `cls+` and the rest of the line after the literal `sep` that follows it. */
  datatype Cut = Cut(token: string, rest: string)

  /** Matches `cls+` followed by the literal `sep` at the start of `s`. */
  function Field(cls: CharClass, sep: char, s: string): (r: Option<Cut>)
    requires !InClass(sep, cls)
    ensures r.Some? ==> IsRun(r.value.token, cls) && s == r.value.token + [sep] + r.value.rest
  {
    var n := Span(cls, s);
    if n == 0 || n == |s| || s[n] != sep then None
    else
      assert s == s[..n] + [sep] + s[n + 1..];
      Some(Cut(s[..n], s[n + 1..]))
  }

  /** `Field` finds every decomposition of its pattern: the run cannot stop early or run past `sep`. */
  lemma FieldUnique(cls: CharClass, sep: char, t: string, rest: string)
    requires !InClass(sep, cls) && IsRun(t, cls)
    ensures Field(cls, sep, t + [sep] + rest) == Some(Cut(t, rest))
  {
    var s := t + [sep] + rest;
    assert s[|t|] == sep;
    assert Span(cls, s) == |t|;
    assert s[..|t|] == t;
    assert s[|t| + 1..] == rest;
  }

  /** The text matched by `\w+ \d+ \d+:\d+:\d+`, split at its literals. */
  datatype Stamp = Stamp(month: string, day: string, hour: string, minute: string, second: string) {

    predicate WellFormed() {
      IsRun(month, Word) && IsRun(day, Digit) && IsRun(hour, Digit) && IsRun(minute, Digit) && IsRun(second, Digit)
    }

    /** The first group of the pattern. */
    function Text(): string {
      month + " " + day + " " + hour + ":" + minute + ":" + second
    }
  }

  /** Everything the pattern matches before the message: `<timestamp> <host> <source>: `. */
  datatype Header = Header(stamp: Stamp, host: string, source: string) {

    predicate WellFormed() {
      stamp.WellFormed() && IsRun(host, NonSpace) && IsRun(source, NonSpace)
    }

    function Text(): string {
      stamp.Text() + " " + host + " " + source + ": "
    }
  }

  /** The four groups of a successful match. */
  datatype Groups = Groups(header: Header, message: string) {

    function Timestamp(): string { header.stamp.Text() }

    function Host(): string { header.host }

    function Source(): string { header.source }

    /** The part of the line the whole pattern matched. */
    function Text(): string { header.Text() + message }
  }

  /**
    `Groups` `g` is a match of the pattern at the start of `line`: every group
    has the shape its class demands, the matched text starts the line, and
    the greedy `(.+)` has taken every character up to the end of the line or
    up to the first line feed.
  */
  predicate Matches(line: string, g: Groups) {
    && g.header.WellFormed()
    && IsRun(g.message, NotNewline)
    && var t := g.Text();
       && |t| <= |line|
       && line[..|t|] == t
       && (|t| == |line| || line[|t|] == '\n')
  }

  /** Scans `<timestamp> ` (the first group and the space after it) off the front of a line. */
  function ParseStamp(line: string): (r: Option<(Stamp, string)>)
    ensures r.Some? ==> r.value.0.WellFormed() && line == r.value.0.Text() + " " + r.value.1
  {
    var month :- Field(Word, ' ', line);
    var day :- Field(Digit, ' ', month.rest);
    var hour :- Field(Digit, ':', day.rest);
    var minute :- Field(Digit, ':', hour.rest);
    var second :- Field(Digit, ' ', minute.rest);
    var stamp := Stamp(month.token, day.token, hour.token, minute.token, second.token);
    StampText(stamp, line, month.rest, day.rest, hour.rest, minute.rest, second.rest);
    Some((stamp, second.rest))
  }

  /** Gluing the five runs of a timestamp back together gives its text. */
  lemma StampText(st: Stamp, l1: string, l2: string, l3: string, l4: string, l5: string, r: string)
    requires l1 == st.month + [' '] + l2
    requires l2 == st.day + [' '] + l3
    requires l3 == st.hour + [':'] + l4
    requires l4 == st.minute + [':'] + l5
    requires l5 == st.second + [' '] + r
    ensures l1 == st.Text() + " " + r
  {}

  /** Scans `<timestamp> <host> <source>: ` off the front of a line. */
  function ParseHeader(line: string): (r: Option<(Header, string)>)
    ensures r.Some? ==> r.value.0.WellFormed() && line == r.value.0.Text() + r.value.1
  {
    var (stamp, afterStamp) :- ParseStamp(line);
    var host :- Field(NonSpace, ' ', afterStamp);
    // `(\S+): ` -- the space ends the non-space run; the colon is that run's
    // last character, which the engine gives back to the literal `: `.
    var source :- Field(NonSpace, ' ', host.rest);
    var tok := source.token;
    if |tok| < 2 || tok[|tok| - 1] != ':' then None
    else
      var h := Header(stamp, host.token, tok[..|tok| - 1]);
      HeaderText(h, line, afterStamp, host.rest, tok, source.rest);
      Some((h, source.rest))
  }

  /** Gluing a timestamp, a host and a colon-terminated source token back together gives the header text. */
  lemma HeaderText(h: Header, l1: string, l2: string, l3: string, tok: string, r: string)
    requires l1 == h.stamp.Text() + " " + l2
    requires l2 == h.host + [' '] + l3
    requires l3 == tok + [' '] + r
    requires |tok| >= 1 && h.source == tok[..|tok| - 1] && tok[|tok| - 1] == ':'
    ensures l1 == h.Text() + r
  {
    assert tok == h.source + ":";
  }

  /** `ParseStamp` recognises every well-formed timestamp followed by a space, whatever follows. */
  lemma ParseStampComplete(st: Stamp, rest: string)
    requires st.WellFormed()
    ensures ParseStamp(st.Text() + " " + rest) == Some((st, rest))
  {
    var r5 := st.second + " " + rest;
    var r4 := st.minute + ":" + r5;
    var r3 := st.hour + ":" + r4;
    var r2 := st.day + " " + r3;
    assert st.Text() + " " + rest == st.month + " " + r2;
    FieldUnique(Word, ' ', st.month, r2);
    FieldUnique(Digit, ' ', st.day, r3);
    FieldUnique(Digit, ':', st.hour, r4);
    FieldUnique(Digit, ':', st.minute, r5);
    FieldUnique(Digit, ' ', st.second, rest);
  }

  /** A timestamp followed by text that does not start with a host token and a space never starts a match. */
  lemma HostMissingRejected(st: Stamp, rest: string)
    requires st.WellFormed() && Field(NonSpace, ' ', rest).None?
    ensures ParseGroups(st.Text() + " " + rest) == None
  {
    ParseStampComplete(st, rest);
  }

  /** `ParseHeader` recognises every well-formed header, whatever follows it. */
  lemma ParseHeaderComplete(h: Header, rest: string)
    requires h.WellFormed()
    ensures ParseHeader(h.Text() + rest) == Some((h, rest))
  {
    var s := h.stamp;
    var tok := h.source + ":";
    var r6 := tok + " " + rest;
    var r5 := h.host + " " + r6;
    var r4 := s.second + " " + r5;
    var r3 := s.minute + ":" + r4;
    var r2 := s.hour + ":" + r3;
    var r1 := s.day + " " + r2;
    assert h.Text() + rest == s.month + " " + r1;
    FieldUnique(Word, ' ', s.month, r1);
    FieldUnique(Digit, ' ', s.day, r2);
    FieldUnique(Digit, ':', s.hour, r3);
    FieldUnique(Digit, ':', s.minute, r4);
    FieldUnique(Digit, ' ', s.second, r5);
    FieldUnique(NonSpace, ' ', h.host, r6);
    assert IsRun(tok, NonSpace);
    FieldUnique(NonSpace, ' ', tok, rest);
    assert tok[..|tok| - 1] == h.source;
  }

  /** `re.match(pattern, line)`: the groups of the match, or `None` when the line does not match. */
  function ParseGroups(line: string): (r: Option<Groups>)
    ensures r.Some? ==> Matches(line, r.value)
  {
    match ParseHeader(line)
    case None => None
    case Some((h, rest)) =>
      var n := Span(NotNewline, rest);
      if n == 0 then None
      else
        MessageMatches(line, h, rest);
        Some(Groups(h, rest[..n]))
  }

  /** A well-formed header followed by the longest non-empty run of non-line-feed characters is a match. */
  lemma MessageMatches(line: string, h: Header, rest: string)
    requires h.WellFormed() && line == h.Text() + rest
    requires Span(NotNewline, rest) > 0
    ensures Matches(line, Groups(h, rest[..Span(NotNewline, rest)]))
  {
    var n := Span(NotNewline, rest);
    var g := Groups(h, rest[..n]);
    assert rest == g.message + rest[n..];
    assert line == g.Text() + rest[n..];
    assert line[..|g.Text()|] == g.Text();
  }

  /** The scanner and the pattern agree on every line: a match is found exactly when one exists, and it is the only one. */
  lemma ParseGroupsIff(line: string, g: Groups)
    ensures ParseGroups(line) == Some(g) <==> Matches(line, g)
  {
    if Matches(line, g) {
      var h := g.header;
      var t := g.Text();
      var tail := line[|t|..];
      var rest := g.message + tail;
      assert line == h.Text() + rest;
      ParseHeaderComplete(h, rest);
      assert |rest| == |g.message| || rest[|g.message|] == line[|t|];
      assert Span(NotNewline, rest) == |g.message|;
      assert rest[..|g.message|] == g.message;
    }
  }

  /** Printing well-formed groups and parsing the text back gives the same groups, whether or not a line feed and more follow. */
  lemma ParseText(g: Groups, tail: string)
    requires g.header.WellFormed() && IsRun(g.message, NotNewline)
    requires tail == [] || tail[0] == '\n'
    ensures ParseGroups(g.Text() + tail) == Some(g)
  {
    var line := g.Text() + tail;
    assert line[..|g.Text()|] == g.Text();
    ParseGroupsIff(line, g);
  }

  /** There is no match exactly when the scanner reports none. */
  lemma NoMatchIff(line: string)
    ensures ParseGroups(line) == None <==> forall g :: !Matches(line, g)
  {
    if ParseGroups(line).Some? {
      assert Matches(line, ParseGroups(line).value);
    } else {
      forall g ensures !Matches(line, g) {
        ParseGroupsIff(line, g);
      }
    }
  }

  /** No character of a well-formed header is a line feed. */
  lemma HeaderNoNewline(h: Header)
    requires h.WellFormed()
    ensures '\n' !in h.Text()
  {
    var s := h.stamp;
    assert '\n' !in s.month && '\n' !in s.day && '\n' !in s.hour && '\n' !in s.minute && '\n' !in s.second;
    assert '\n' !in h.host && '\n' !in h.source;
  }

  /** On a line with no line feed the match covers the whole line: the groups glue back into it. */
  lemma RoundTrip(line: string, g: Groups)
    requires '\n' !in line && ParseGroups(line) == Some(g)
    ensures g.Timestamp() + " " + g.Host() + " " + g.Source() + ": " + g.message == line
  {
    assert line == line[..|g.Text()|];
  }

  /** A line feed ends the message: whatever follows the first line feed does not change the match. */
  lemma NewlineEndsMessage(line: string, more: string)
    requires '\n' !in line
    ensures ParseGroups(line + "\n" + more) == ParseGroups(line)
  {
    var long := line + "\n" + more;
    assert long[..|line|] == line && long[|line|] == '\n';
    match ParseGroups(line)
    case Some(g) =>
      RoundTrip(line, g);
      assert g.Text() == line;
      ParseGroupsIff(long, g);
    case None =>
      if ParseGroups(long).Some? {
        var g := ParseGroups(long).value;
        var t := g.Text();
        HeaderNoNewline(g.header);
        assert '\n' !in t;
        assert t == line;
        ParseGroupsIff(line, g);
      }
  }

  /** `(.+)` needs at least one character: a header followed by nothing, or directly by a line feed, does not match. */
  lemma EmptyMessageRejected(h: Header, tail: string)
    requires h.WellFormed() && (tail == [] || tail[0] == '\n')
    ensures ParseGroups(h.Text() + tail) == None
  {
    ParseHeaderComplete(h, tail);
  }

  /** The separators are single spaces: a word followed by two spaces never starts a match. */
  lemma DoubleSpaceRejected(month: string, rest: string)
    requires IsRun(month, Word)
    ensures ParseGroups(month + "  " + rest) == None
  {
    assert month + "  " + rest == month + [' '] + (" " + rest);
    FieldUnique(Word, ' ', month, " " + rest);
  }

  /** Python's `str.split(sep)`: the pieces of `s` between occurrences of `sep`. */
  function Split(s: string, sep: char): (parts: seq<string>)
    ensures |parts| >= 1
  {
    if s == [] then [[]]
    else
      var p := Split(s[1..], sep);
      if s[0] == sep then [[]] + p else [[s[0]] + p[0]] + p[1..]
  }

  /** Splitting after a piece free of the separator yields that piece first. */
  lemma {:induction false} SplitAfter(t: string, sep: char, rest: string)
    requires sep !in t
    ensures Split(t + [sep] + rest, sep) == [t] + Split(rest, sep)
  {
    var s := t + [sep] + rest;
    if t == [] {
      assert s[1..] == rest;
    } else {
      assert s[1..] == t[1..] + [sep] + rest;
      SplitAfter(t[1..], sep, rest);
      assert [t[0]] + t[1..] == t;
    }
  }

  /**
    The source is the fifth space-separated token of the line with its
    trailing colon removed, and it holds no whitespace: the timestamp accounts
    for three tokens and the host for one. Colons inside the source token are
    kept.
  */
  lemma SourceIsFifthToken(line: string, g: Groups)
    requires ParseGroups(line) == Some(g)
    ensures |Split(line, ' ')| >= 6
    ensures Split(line, ' ')[4] == g.Source() + ":"
    ensures g.Source() != [] && forall k :: 0 <= k < |g.Source()| ==> !IsSpace(g.Source()[k])
  {
    assert Matches(line, g);
    MatchedLineSplit(line, g);
  }

  /** The tokens of a matched line: the five header tokens, then the pieces of the message and what follows it. */
  lemma MatchedLineSplit(line: string, g: Groups)
    requires Matches(line, g)
    ensures |g.header.Text()| <= |line|
    ensures Split(line, ' ')
         == [g.header.stamp.month, g.header.stamp.day, g.header.stamp.hour + ":" + g.header.stamp.minute + ":" + g.header.stamp.second,
             g.Host(), g.Source() + ":"] + Split(line[|g.header.Text()|..], ' ')
  {
    LineStartsWithHeader(line, g);
    HeaderSplit(g.header, line[|g.header.Text()|..]);
  }

  /** A matched line starts with the header of its groups. */
  lemma LineStartsWithHeader(line: string, g: Groups)
    requires Matches(line, g)
    ensures |g.header.Text()| <= |line| && line == g.header.Text() + line[|g.header.Text()|..]
  {
    var t := g.Text();
    assert line[..|t|] == t;
    assert t == g.header.Text() + g.message;
  }

  /** The header splits at spaces into its five tokens: month, day, clock, host and the colon-terminated source. */
  lemma HeaderSplit(h: Header, r: string)
    requires h.WellFormed()
    ensures Split(h.Text() + r, ' ')
         == [h.stamp.month, h.stamp.day, h.stamp.hour + ":" + h.stamp.minute + ":" + h.stamp.second, h.host, h.source + ":"]
            + Split(r, ' ')
  {
    var st := h.stamp;
    var clock := st.hour + [':'] + st.minute + [':'] + st.second;
    var tok := h.source + [':'];
    var r4 := tok + [' '] + r;
    HeaderTokens(h, r);
    NoSpaceIn(h.host, NonSpace);
    NoSpaceIn(h.source, NonSpace);
    SplitAfter(tok, ' ', r);
    SplitAfter(h.host, ' ', r4);
    StampSplit(st, h.host + [' '] + r4);
  }

  /** A timestamp splits at spaces into month, day and clock. */
  lemma StampSplit(st: Stamp, r: string)
    requires st.WellFormed()
    ensures Split(st.month + [' '] + (st.day + [' '] + (st.hour + [':'] + st.minute + [':'] + st.second + [' '] + r)), ' ')
         == [st.month, st.day, st.hour + ":" + st.minute + ":" + st.second] + Split(r, ' ')
  {
    var clock := st.hour + [':'] + st.minute + [':'] + st.second;
    var r2 := clock + [' '] + r;
    var r1 := st.day + [' '] + r2;
    NoSpaceIn(st.month, Word);
    NoSpaceIn(st.day, Digit);
    NoSpaceIn(st.hour, Digit);
    NoSpaceIn(st.minute, Digit);
    NoSpaceIn(st.second, Digit);
    SplitAfter(clock, ' ', r);
    SplitAfter(st.day, ' ', r2);
    SplitAfter(st.month, ' ', r1);
  }

  /** Runs of the pattern's classes other than `.` hold no space. */
  lemma NoSpaceIn(s: string, cls: CharClass)
    requires AllIn(s, cls) && cls != NotNewline
    ensures ' ' !in s
  {
  }

  /** The header text, cut at the five single spaces that separate its tokens. */
  lemma HeaderTokens(h: Header, r: string)
    ensures h.Text() + r
         == h.stamp.month + [' '] + (h.stamp.day + [' '] + (h.stamp.hour + [':'] + h.stamp.minute + [':'] + h.stamp.second + [' ']
            + (h.host + [' '] + (h.source + [':'] + [' '] + r))))
  {
  }
}
