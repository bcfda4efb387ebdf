/** Concrete lines run through the syslog header pattern. */
module SyslogExamples {
  import opened Options
  import opened SyslogLine

  /** A typical line: the source keeps no colon and the message runs to the end. */
  lemma AuthenticationLine()
    ensures ParseGroups("Jan 1 00:00:01 h sshd: failed")
         == Some(Groups(Header(Stamp("Jan", "1", "00", "00", "01"), "h", "sshd"), "failed"))
  {
    var g := Groups(Header(Stamp("Jan", "1", "00", "00", "01"), "h", "sshd"), "failed");
    assert g.header.WellFormed() && IsRun(g.message, NotNewline) by {}
    assert g.Text() + "" == "Jan 1 00:00:01 h sshd: failed" by {}
    ParseText(g, "");
  }

  /** Later `": "` sequences stay in the message, a bracketed process id stays in the source, the line feed is dropped. */
  lemma ColonsStayInMessage()
    ensures ParseGroups("Oct 5 1:2:3 h cron[7]: a: b\n")
         == Some(Groups(Header(Stamp("Oct", "5", "1", "2", "3"), "h", "cron[7]"), "a: b"))
  {
    var g := Groups(Header(Stamp("Oct", "5", "1", "2", "3"), "h", "cron[7]"), "a: b");
    assert g.header.WellFormed() && IsRun(g.message, NotNewline) by {}
    assert g.Text() + "\n" == "Oct 5 1:2:3 h cron[7]: a: b\n" by {}
    ParseText(g, "\n");
  }

  /** The time fields are digit runs of any length; nothing checks their range. */
  lemma NoRangeCheck()
    ensures ParseGroups("X 999 7:12345:0 h s: m")
         == Some(Groups(Header(Stamp("X", "999", "7", "12345", "0"), "h", "s"), "m"))
  {
    var g := Groups(Header(Stamp("X", "999", "7", "12345", "0"), "h", "s"), "m");
    assert g.header.WellFormed() && IsRun(g.message, NotNewline) by {}
    assert g.Text() + "" == "X 999 7:12345:0 h s: m" by {}
    ParseText(g, "");
  }

  /** Two spaces after the month: no match. */
  lemma PaddedDayRejected()
    ensures ParseGroups("Jan  1 00:00:01 host sshd: x") == None
  {
    assert IsRun("Jan", Word) by {}
    assert "Jan" + "  " + "1 00:00:01 host sshd: x" == "Jan  1 00:00:01 host sshd: x" by {}
    DoubleSpaceRejected("Jan", "1 00:00:01 host sshd: x");
  }

  /** Nothing after `": "`: no match, with or without the line feed. */
  lemma EmptyMessage()
    ensures ParseGroups("Jan 1 00:00:01 host sshd: ") == None
    ensures ParseGroups("Jan 1 00:00:01 host sshd: \n") == None
  {
    var h := Header(Stamp("Jan", "1", "00", "00", "01"), "host", "sshd");
    assert h.WellFormed() by {}
    assert h.Text() + "" == "Jan 1 00:00:01 host sshd: " by {}
    assert h.Text() + "\n" == "Jan 1 00:00:01 host sshd: \n" by {}
    EmptyMessageRejected(h, "");
    EmptyMessageRejected(h, "\n");
  }

  /** The source run takes the whole token up to the space and gives back one colon: `a::` yields the source `a:`. */
  lemma SourceGivesBackColon()
    ensures ParseGroups("J 1 0:0:0 h a:: m")
         == Some(Groups(Header(Stamp("J", "1", "0", "0", "0"), "h", "a:"), "m"))
  {
    var g := Groups(Header(Stamp("J", "1", "0", "0", "0"), "h", "a:"), "m");
    assert g.header.WellFormed() && IsRun(g.message, NotNewline) by {}
    assert g.Text() + "" == "J 1 0:0:0 h a:: m" by {}
    ParseText(g, "");
  }

  /** The information separator 0x1C is whitespace to `\S`, so a host containing it ends early and the line does not match. */
  lemma SeparatorEndsHost()
    ensures ParseGroups("J 1 0:0:0 h\U{1C}x s: m") == None
  {
    var rest := "h\U{1C}x s: m";
    var st := Stamp("J", "1", "0", "0", "0");
    assert st.WellFormed() by {}
    assert st.Text() + " " + rest == "J 1 0:0:0 h\U{1C}x s: m" by {}
    assert rest[1..][0] == '\U{1C}';
    assert Span(NonSpace, rest[1..]) == 0;
    assert Field(NonSpace, ' ', rest) == None;
    HostMissingRejected(st, rest);
  }
}
