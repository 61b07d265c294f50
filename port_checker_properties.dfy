/** Properties of the port-checker model that relate several of its
    operations: what the two listing scans find and how they differ, the
    round trips through the name commands' output, the order of the
    interactions in kill mode, and the dispatch of the argument vector. */
module PortCheckerProperties {
  import opened GoText
  import opened PortChecker

  // ---------------------------------------------------------------------
  // The listing scans
  // ---------------------------------------------------------------------

  /** findProcessID's scan returns the last field of the first line that
      mentions ":<port>", has at least two fields and ends in an integer;
      when there is no such line it reports that no PID was found. */
  lemma PidScanFindsFirstNumericLine(lines: seq<string>, port: int)
    ensures PidScan(lines, port).Err? <==> forall j :: 0 <= j < |lines| ==> !Qualifies(lines[j], port, true)
    ensures PidScan(lines, port).Err? ==> PidScan(lines, port).error == PidNotFound(port)
    ensures PidScan(lines, port).Ok? ==>
      exists i :: 0 <= i < |lines| &&
        Contains(lines[i], Needle(port)) && |Fields(lines[i])| >= 2 &&
        PidScan(lines, port).value == LastField(lines[i]) &&
        Atoi(PidScan(lines, port).value).Some? &&
        forall j :: 0 <= j < i ==> !Qualifies(lines[j], port, true)
  {
    FirstMatchIsFirstQualifying(lines, port, true);
    FirstQualifyingIsFirst(lines, port, true);
    var first := FirstQualifying(lines, port, true);
    if first.Some? {
      var i := first.value;
      assert Contains(lines[i], Needle(port)) && |Fields(lines[i])| >= 2;
    }
  }

  /** getProcessName's scan takes the last field of the first line that
      mentions ":<port>" and has at least two fields, numeric or not. */
  lemma NameScanFindsFirstLine(lines: seq<string>, port: int)
    ensures FirstMatch(lines, port, false).None? <==> forall j :: 0 <= j < |lines| ==> !Qualifies(lines[j], port, false)
    ensures FirstMatch(lines, port, false).Some? ==>
      exists i :: 0 <= i < |lines| &&
        Contains(lines[i], Needle(port)) && |Fields(lines[i])| >= 2 &&
        FirstMatch(lines, port, false).value == LastField(lines[i]) &&
        forall j :: 0 <= j < i ==> !(Contains(lines[j], Needle(port)) && |Fields(lines[j])| >= 2)
  {
    FirstMatchIsFirstQualifying(lines, port, false);
    FirstQualifyingIsFirst(lines, port, false);
    var first := FirstQualifying(lines, port, false);
    if first.Some? {
      var i := first.value;
      assert forall j :: 0 <= j < i ==> !Qualifies(lines[j], port, false);
    }
  }

  /** The line whose PID findProcessID returns is never before the line
      getProcessName takes, and when getProcessName's line ends in an
      integer both scans take the same line. */
  lemma {:induction false} NameScanNotAfterPidScan(lines: seq<string>, port: int)
    ensures PidScan(lines, port).Ok? ==> FirstMatch(lines, port, false).Some?
    ensures FirstMatch(lines, port, false).Some? && Atoi(FirstMatch(lines, port, false).value).Some? ==>
      PidScan(lines, port) == Ok(FirstMatch(lines, port, false).value)
    decreases |lines|
  {
    if lines != [] && !Qualifies(lines[0], port, false) {
      NameScanNotAfterPidScan(lines[1..], port);
    }
  }

  /** When findProcessID's first candidate line does not end in an integer
      and a later one does, the two scans disagree: the name is looked up
      for the first line's last field, the kill goes to the second's. */
  lemma ScansDisagree(first: string, second: string, port: int)
    requires Qualifies(first, port, false) && Atoi(LastField(first)).None?
    requires Qualifies(second, port, true)
    ensures FirstMatch([first, second], port, false) == Some(LastField(first))
    ensures PidScan([first, second], port) == Ok(LastField(second))
    ensures LastField(first) != LastField(second)
  {
    assert !Qualifies(first, port, true);
    assert [first, second][1..] == [second];
    assert FirstMatch([second], port, true) == Some(LastField(second));
  }

  /** A listing that does not mention ":<port>" anywhere yields "not found"
      from both scans; in particular an empty listing does. */
  lemma AbsentPortNotFound(out: string, port: int)
    requires !Contains(out, Needle(port))
    ensures PidScan(Lines(out), port) == Err(PidNotFound(port))
    ensures FirstMatch(Lines(out), port, false) == None
  {
    var lines := Lines(out);
    forall j | 0 <= j < |lines|
      ensures !Contains(lines[j], Needle(port))
    {
      if Contains(lines[j], Needle(port)) {
        PieceInJoin(lines, "\n", j, Needle(port));
      }
    }
    FirstMatchIsFirstQualifying(lines, port, true);
    FirstMatchIsFirstQualifying(lines, port, false);
    FirstQualifyingIsFirst(lines, port, true);
    FirstQualifyingIsFirst(lines, port, false);
  }

  lemma EmptyListingNotFound(port: int)
    ensures PidScan(Lines(""), port) == Err(PidNotFound(port))
    ensures FirstMatch(Lines(""), port, false) == None
  {
    assert !Contains("", Needle(port));
    AbsentPortNotFound("", port);
  }

  /** Matching is by substring: when the decimal form of `port` is a
      prefix of that of `other`, every line mentioning ":<other>" also
      mentions ":<port>" (a line for port 8080 is a line for port 80). */
  lemma SubstringMatch(line: string, port: int, other: int)
    requires |Needle(port)| <= |Needle(other)| && Needle(other)[..|Needle(port)|] == Needle(port)
    requires Contains(line, Needle(other))
    ensures Contains(line, Needle(port))
  {
    ContainsPrefix(line, Needle(other), Needle(port));
  }

  // ---------------------------------------------------------------------
  // The name commands' output
  // ---------------------------------------------------------------------

  /** The first cell of `"name","rest"` is `"name` when the name has no
      quote and no comma, and another cell follows it. */
  lemma TasklistFirstCell(name: string, rest: string)
    requires '"' !in name && ',' !in name
    ensures var cells := Split("\"" + name + CsvSeparator + rest + "\"", CsvSeparator);
      |cells| >= 2 && cells[0] == "\"" + name
  {
    var cell := "\"" + name;
    var row := "\"" + name + CsvSeparator + rest + "\"";
    assert row[..|cell|] == cell;
    assert OccursAt(row, CsvSeparator, |cell|) by {
      assert row[|cell|..|cell| + 3] == CsvSeparator;
    }
    forall j: nat | j < |cell|
      ensures !OccursAt(row, CsvSeparator, j)
    {
      NoCommaBefore(row, name, j);
      if j + 3 <= |row| {
        assert row[j..j + 3][1] == row[j + 1];
      }
    }
    SplitAtFirst(row, CsvSeparator, |cell|);
  }

  /** Up to the cell separator, the row `"name",...` has a comma only where
      the separator starts. */
  lemma NoCommaBefore(row: string, name: string, j: nat)
    requires ',' !in name && j <= |name|
    requires |row| > |name| + 1 && row[..|name| + 2] == "\"" + name + "\""
    ensures row[j + 1] != ','
  {
    assert row[j + 1] == row[..|name| + 2][j + 1];
    if j < |name| {
      assert ("\"" + name + "\"")[j + 1] == name[j];
    }
  }

  /** The first cell of such a row once its quotes are trimmed. */
  lemma TasklistCellName(pid: string, name: string, rest: string)
    requires '"' !in name && ',' !in name
    ensures CsvName(pid, "\"" + name + CsvSeparator + rest + "\"") == Ok(name)
  {
    TasklistFirstCell(name, rest);
    assert "\"" + name == "\"" + name + [];
    TrimPadded("\"", name, [], Quote);
  }

  /** A tasklist CSV row, as `"name","rest"` followed by a line break,
      gives back the name when it contains no quote and no comma. */
  lemma TasklistRowName(pid: string, name: string, rest: string)
    requires '"' !in name && ',' !in name
    ensures WindowsName(pid, "\"" + name + CsvSeparator + rest + "\"\r\n") == Ok(name)
  {
    var row := "\"" + name + CsvSeparator + rest + "\"";
    assert "\"" + name + CsvSeparator + rest + "\"\r\n" == [] + row + "\r\n";
    TrimPadded([], row, "\r\n", SpaceChars);
    TasklistCellName(pid, name, rest);
  }

  /** Since the name is only trimmed of quotes, a row whose first cell is
      empty gives an empty name: unlike the Unix parse, the Windows parse
      can succeed with "". */
  lemma TasklistEmptyName(pid: string, rest: string)
    ensures WindowsName(pid, "\"" + CsvSeparator + rest + "\"\r\n") == Ok("")
  {
    TasklistRowName(pid, "", rest);
    assert "\"" + "" == "\"";
  }

  /** ps prints the command name and a line break; the parse gives back any
      name that does not begin or end with white space. */
  lemma PsOutputName(pid: string, name: string)
    requires name != [] && !IsSpace(name[0]) && !IsSpace(name[|name| - 1])
    ensures UnixName(pid, name + "\n") == Ok(name)
  {
    assert name + "\n" == [] + name + "\n";
    TrimPadded([], name, "\n", SpaceChars);
  }

  /** One tasklist lookup through the runner: the command addresses the
      pid and its row's first cell is the name. */
  lemma WindowsNameByPid(pid: string, run: Runner, name: string, rest: string)
    requires '"' !in name && ',' !in name
    requires run(["tasklist", "/FI", "PID eq " + pid, "/FO", "CSV", "/NH"]) ==
      Completed("\"" + name + CsvSeparator + rest + "\"\r\n")
    ensures GetProcessNameByPid("windows", pid, run) ==
      Step(Ok(name), [Exec(["tasklist", "/FI", "PID eq " + pid, "/FO", "CSV", "/NH"])])
  {
    TasklistRowName(pid, name, rest);
  }

  // ---------------------------------------------------------------------
  // Listing examples
  // ---------------------------------------------------------------------

  /** A netstat row for a server on port 8080, in a simplified
      single-spaced shape with fewer columns than netstat prints. */
  const NetstatRow: string := "TCP 0.0.0.0:8080 4242"

  /** A simplified lsof row for a listening socket (a real one has more
      columns before the state): its last column is the state. */
  const LsofRow: string := "node 4242 *:80 (LISTEN)"

  lemma NetstatRowIsJoin()
    ensures Join(["TCP", "0.0.0.0:8080", "4242"], " ") == NetstatRow
  {
  }

  lemma NetstatRowFields()
    ensures Fields(NetstatRow) == ["TCP", "0.0.0.0:8080", "4242"]
  {
    var words := ["TCP", "0.0.0.0:8080", "4242"];
    assert IsWord(words[0]) && IsWord(words[2]);
    assert IsWord(words[1]);
    NetstatRowIsJoin();
    FieldsOfJoin(words);
  }

  lemma NetstatRowMentionsPort80()
    ensures Contains(NetstatRow, Needle(80))
  {
    assert Needle(80) == ":80";
    assert OccursAt(NetstatRow, ":80", 11);
  }

  /** A listing whose only row qualifies gives findProcessID its last field. */
  lemma NumericRowFound(line: string, port: int)
    requires Qualifies(line, port, true)
    ensures PidScan([line], port) == Ok(LastField(line))
  {
  }

  lemma NetstatRowQualifiesForPort80()
    ensures Qualifies(NetstatRow, 80, true) && LastField(NetstatRow) == "4242"
  {
    NetstatRowFields();
    NetstatRowMentionsPort80();
    PidFieldParses();
  }

  lemma PidFieldParses()
    ensures Atoi("4242") == Some(4242)
  {
    AtoiAccepts("4242");
    assert "4242"[..3] == "424" && "424"[..2] == "42" && "42"[..1] == "4" && "4"[..0] == [];
    assert DigitsValue("4242") == 4242;
  }

  /** Asked about port 80, findProcessID returns the pid of the process on
      port 8080, because ":80" occurs in ":8080". */
  lemma Port80FindsPort8080Process()
    ensures PidScan([NetstatRow], 80) == Ok("4242")
  {
    NetstatRowQualifiesForPort80();
    NumericRowFound(NetstatRow, 80);
  }

  lemma LsofRowIsJoin()
    ensures Join(["node", "4242", "*:80", "(LISTEN)"], " ") == LsofRow
  {
  }

  lemma LsofRowFields()
    ensures Fields(LsofRow) == ["node", "4242", "*:80", "(LISTEN)"]
  {
    var words := ["node", "4242", "*:80", "(LISTEN)"];
    assert IsWord(words[0]) && IsWord(words[1]);
    assert IsWord(words[2]) && IsWord(words[3]);
    LsofRowIsJoin();
    FieldsOfJoin(words);
  }

  lemma LsofRowMentionsPort80()
    ensures Contains(LsofRow, Needle(80))
  {
    assert Needle(80) == ":80";
    assert OccursAt(LsofRow, ":80", 11);
  }

  /** A listing whose only candidate row ends in something other than an
      integer gives getProcessName a pid and findProcessID none. */
  lemma NonNumericRowOnlyNamed(line: string, port: int)
    requires Qualifies(line, port, false) && Atoi(LastField(line)).None?
    ensures FirstMatch([line], port, false) == Some(LastField(line))
    ensures PidScan([line], port) == Err(PidNotFound(port))
  {
    assert !Qualifies(line, port, true);
    assert [line][1..] == [];
    assert FirstMatch([line], port, true) == FirstMatch([], port, true);
  }

  /** On an lsof row the last field is the socket state, not the pid: the
      name scan takes "(LISTEN)" as the pid and the pid scan skips the row. */
  lemma LsofRowLastFieldIsState()
    ensures FirstMatch([LsofRow], 80, false) == Some("(LISTEN)")
    ensures PidScan([LsofRow], 80) == Err(PidNotFound(80))
  {
    LsofRowFields();
    LsofRowMentionsPort80();
    assert Atoi("(LISTEN)") == None;
    NonNumericRowOnlyNamed(LsofRow, 80);
  }

  // ---------------------------------------------------------------------
  // Killing the process on a port
  // ---------------------------------------------------------------------

  /** Any pid findProcessID returns is an integer. */
  lemma PidLookupFindsInteger(goos: string, port: int, run: Runner)
    ensures PidLookup(goos, port, run).result.Ok? ==> Atoi(PidLookup(goos, port, run).result.value).Some?
  {
    var listing := ListingCommand(goos, port);
    if listing.Ok? && run(listing.value).Completed? {
      PidScanFindsFirstNumericLine(Lines(run(listing.value).stdout), port);
    }
  }

  // ---------------------------------------------------------------------
  // The command line
  // ---------------------------------------------------------------------

  /** The decimal form of a port is not the "-kill" option. */
  lemma ItoaIsNotKill(n: int)
    ensures Itoa(n) != "-kill"
  {
    var digits := NatToDecimal(if n < 0 then -n else n);
    assert IsDigit(digits[|digits| - 1]);
    var s := Itoa(n);
    assert s[|s| - 1] == digits[|digits| - 1];
  }

  /** Writing a 64-bit port in decimal on the command line asks to probe it,
      and after "-kill" asks to kill it. */
  lemma DispatchItoa(program: string, n: int)
    requires MinInt64 <= n <= MaxInt64
    ensures Dispatch([program, Itoa(n)]) == Probe(n)
    ensures Dispatch([program, "-kill", Itoa(n)]) == Kill(n)
  {
    AtoiItoa(n);
    ItoaIsNotKill(n);
  }

  /** Only the first argument matters when it is not "-kill". */
  lemma ProbeIgnoresExtraArguments(program: string, token: string, extra: seq<string>)
    requires token != "-kill"
    ensures Dispatch([program, token] + extra) == Dispatch([program, token])
  {
    assert ([program, token] + extra)[1] == token;
  }

  /** A plus sign before the port number is accepted. */
  lemma DispatchPlusSign(program: string)
    ensures Dispatch([program, "+80"]) == Probe(80)
  {
    AtoiAccepts("+80");
    assert "+80"[1..] == "80" && "80"[..1] == "8" && "8"[..0] == [];
  }

  /** Leading zeros before the port number are accepted. */
  lemma DispatchLeadingZeros(program: string)
    ensures Dispatch([program, "0080"]) == Probe(80)
  {
    AtoiAccepts("0080");
    assert "0080"[..3] == "008" && "008"[..2] == "00" && "00"[..1] == "0" && "0"[..0] == [];
  }

  /** A negative port number is accepted, as strconv.Atoi accepts it. */
  lemma DispatchNegative(program: string)
    ensures Dispatch([program, "-80"]) == Probe(-80)
  {
    AtoiAccepts("-80");
    assert "-80"[1..] == "80" && "80"[..1] == "8" && "8"[..0] == [];
  }

  /** A token that is not a number is rejected, and "-kill" needs exactly
      one more argument. */
  lemma DispatchRejects(program: string)
    ensures Dispatch([program, "abc"]) == InvalidPort("abc")
    ensures Dispatch([program, "-kill", "abc"]) == InvalidPort("abc")
    ensures Dispatch([program, "-kill", "80", "x"]) == KillUsage
    ensures Dispatch([program, "-kill"]) == KillUsage
  {
    AtoiAccepts("abc");
    assert !IsDigit("abc"[0]);
  }

  // ---------------------------------------------------------------------
  // main
  // ---------------------------------------------------------------------

  /** A port nobody listens on is reported closed after the dial alone. */
  lemma ClosedPortRunsNothing(args: seq<string>, goos: string, listening: int -> bool, run: Runner)
    requires Dispatch(args).Probe? && !listening(Dispatch(args).port)
    ensures Execute(args, goos, listening, run) ==
      Session(Closed(Dispatch(args).port), [Dial(Dispatch(args).port)])
  {
  }

  /** An open port is reported with the process name exactly when
      getProcessName finds one, after the dial and its commands. */
  lemma OpenPortReport(args: seq<string>, goos: string, listening: int -> bool, run: Runner)
    requires Dispatch(args).Probe? && listening(Dispatch(args).port)
    ensures var port := Dispatch(args).port;
      var named := NameLookup(goos, port, run);
      var s := Execute(args, goos, listening, run);
      && s.effects == [Dial(port)] + named.effects
      && (s.report.Open? <==> named.result.Ok?)
      && (s.report.Open? ==> s.report == Open(port, named.result.value))
      && (s.report.InfoFailed? <==> named.result.Err?)
      && (named.result.Err? ==> s.report == InfoFailed(port, named.result.error))
  {
  }

  /** In kill mode nothing is dialled, and the report says killed exactly
      when a pid was found and its kill command succeeded. */
  lemma KillModeReport(args: seq<string>, goos: string, listening: int -> bool, run: Runner)
    requires Dispatch(args).Kill?
    ensures var port := Dispatch(args).port;
      var s := Execute(args, goos, listening, run);
      && s.effects == KillLocalPort(goos, port, run).effects
      && (s.report == Killed(port) <==> KillLocalPort(goos, port, run).result.Ok?)
      && (s.report.KillFailed? ==> s.report.error == KillLocalPort(goos, port, run).result.error)
      && (KillLocalPort(goos, port, run).result.Err? ==>
            s.report == KillFailed(port, KillLocalPort(goos, port, run).result.error))
  {
  }
}
