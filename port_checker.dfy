/** A model of port-checker.go: the dispatch of the argument vector, the
    choice of a platform command for each operating system, and the
    parsing of those commands' text output.  Running a command, dialling a
    port, the operating-system name and the argument vector are all
    parameters; every operation also returns the interactions it had with
    the outside world, in order. */
module PortChecker {
  import opened GoText

  /** A command line: the program name followed by its arguments. */
  type Cmd = seq<string>

  /** The errors the program reports; each comment gives its message. */
  datatype Error =
    | Unsupported(goos: string)      // "Unsupported operating system: <goos>"
    | ExecFailed(reason: string)     // the error returned by running a command
    | PidNotFound(port: int)         // "Process ID not found for port <port>"
    | InfoNotFound(port: int)        // "Process information not found for port <port>"
    | NameNotFound(pid: string)      // "Process name not found for PID: <pid>"
    | UnexpectedFormat(pid: string)  // "Unexpected tasklist output format for PID: <pid>"

  datatype Result<T> = Ok(value: T) | Err(error: Error)

  /** What running a command gives: its standard output when it exits with
      status 0, otherwise an error. */
  datatype ExecResult = Completed(stdout: string) | Failed(reason: string)

  /** The outside world: how each command line would run. */
  type Runner = Cmd -> ExecResult

  /** One interaction with the outside world. */
  datatype Effect = Dial(port: int) | Exec(cmd: Cmd)

  /** An operation's result together with the interactions it performed. */
  datatype Step<T> = Step(result: Result<T>, effects: seq<Effect>)

  // ---------------------------------------------------------------------
  // Command selection by operating system
  // ---------------------------------------------------------------------

  predicate Supported(goos: string) {
    goos == "windows" || goos == "darwin" || goos == "linux"
  }

  /** ":<port>" in decimal: the argument given to lsof, and the text both
      scans look for in a line. */
  function Needle(port: int): (n: string)
    ensures |n| >= 2 && n[0] == ':'
  {
    ":" + Itoa(port)
  }

  /** The text after the colon is the port in decimal: read back as a
      64-bit integer it gives the port again. */
  lemma NeedleNamesPort(port: int)
    requires MinInt64 <= port <= MaxInt64
    ensures Atoi(Needle(port)[1..]) == Some(port)
  {
    assert Needle(port)[1..] == Itoa(port);
    AtoiItoa(port);
  }

  /** The command that lists sockets. */
  function ListingCommand(goos: string, port: int): (r: Result<Cmd>)
    ensures r.Err? <==> !Supported(goos)
    ensures r.Err? ==> r.error == Unsupported(goos)
    ensures r.Ok? && goos != "windows" ==> Needle(port) in r.value
  {
    if goos == "windows" then Ok(["netstat", "-aon"])
    else if goos == "darwin" || goos == "linux" then Ok(["lsof", "-i", Needle(port)])
    else Err(Unsupported(goos))
  }

  /** The command that terminates a process. */
  function KillCommand(goos: string, pid: string): (r: Result<Cmd>)
    ensures r.Err? <==> !Supported(goos)
    ensures r.Err? ==> r.error == Unsupported(goos)
    ensures r.Ok? ==> |r.value| >= 2 && r.value[|r.value| - 1] == pid
  {
    if goos == "windows" then Ok(["taskkill", "/F", "/PID", pid])
    else if goos == "darwin" || goos == "linux" then Ok(["kill", "-9", pid])
    else Err(Unsupported(goos))
  }

  /** The command that prints the name of a process. */
  function NameCommand(goos: string, pid: string): (r: Result<Cmd>)
    ensures r.Err? <==> !Supported(goos)
    ensures r.Err? ==> r.error == Unsupported(goos)
    ensures r.Ok? ==> |r.value| >= 3 && r.value[2] == (if goos == "windows" then "PID eq " + pid else pid)
  {
    if goos == "windows" then Ok(["tasklist", "/FI", "PID eq " + pid, "/FO", "CSV", "/NH"])
    else if goos == "darwin" || goos == "linux" then Ok(["ps", "-p", pid, "-o", "comm="])
    else Err(Unsupported(goos))
  }

  /** The three selections agree on which systems are supported, and on a
      supported one kill and name lookup both address the given pid. */
  lemma SelectionsAgree(goos: string, port: int, pid: string)
    ensures ListingCommand(goos, port).Ok? == KillCommand(goos, pid).Ok? == NameCommand(goos, pid).Ok?
    ensures !Supported(goos) ==>
      ListingCommand(goos, port) == Err(Unsupported(goos)) &&
      KillCommand(goos, pid) == Err(Unsupported(goos)) &&
      NameCommand(goos, pid) == Err(Unsupported(goos))
  {
  }

  // ---------------------------------------------------------------------
  // Scanning the listing for the line of a port
  // ---------------------------------------------------------------------

  /** The lines of a command's output (strings.Split on "\n"). */
  function Lines(text: string): (lines: seq<string>)
    ensures |lines| >= 1 && Join(lines, "\n") == text
  {
    Split(text, "\n")
  }

  function LastField(line: string): string
    requires Fields(line) != []
  {
    Fields(line)[|Fields(line)| - 1]
  }

  /** A line the scan of findProcessID (`needPid`) or of getProcessName
      (not `needPid`) accepts: it contains ":<port>", has at least two
      fields, and, for findProcessID only, its last field parses as an
      integer. */
  predicate Qualifies(line: string, port: int, needPid: bool) {
    Contains(line, Needle(port)) && |Fields(line)| >= 2 &&
    (needPid ==> Atoi(LastField(line)).Some?)
  }

  /** The index of the first qualifying line, if there is one. */
  function FirstQualifying(lines: seq<string>, port: int, needPid: bool): (r: Option<nat>)
    ensures r.Some? ==> r.value < |lines| && Qualifies(lines[r.value], port, needPid)
    decreases |lines|
  {
    if lines == [] then None
    else if Qualifies(lines[0], port, needPid) then Some(0)
    else
      match FirstQualifying(lines[1..], port, needPid)
      case None => None
      case Some(i) => Some(i + 1)
  }

  /** No line before the one FirstQualifying finds qualifies, and it finds
      none exactly when no line qualifies. */
  lemma {:induction false} FirstQualifyingIsFirst(lines: seq<string>, port: int, needPid: bool)
    ensures FirstQualifying(lines, port, needPid).Some? ==>
      forall j :: 0 <= j < FirstQualifying(lines, port, needPid).value ==> !Qualifies(lines[j], port, needPid)
    ensures FirstQualifying(lines, port, needPid).None? <==>
      forall j :: 0 <= j < |lines| ==> !Qualifies(lines[j], port, needPid)
    decreases |lines|
  {
    if lines != [] && !Qualifies(lines[0], port, needPid) {
      FirstQualifyingIsFirst(lines[1..], port, needPid);
      forall j | 1 <= j < |lines|
        ensures lines[j] == lines[1..][j - 1]
      {
      }
    }
  }

  /** A qualifying line with no qualifying line before it is the first. */
  lemma FirstIsUnique(lines: seq<string>, port: int, needPid: bool, i: nat)
    requires i < |lines| && Qualifies(lines[i], port, needPid)
    requires forall j :: 0 <= j < i ==> !Qualifies(lines[j], port, needPid)
    ensures FirstQualifying(lines, port, needPid) == Some(i)
  {
    FirstQualifyingIsFirst(lines, port, needPid);
    var r := FirstQualifying(lines, port, needPid);
    assert r.Some?;
    assert !(r.value < i) && !(r.value > i);
  }

  /** The scan as the loops perform it: the last field of the first
      qualifying line, looking at one line after another. */
  function FirstMatch(lines: seq<string>, port: int, needPid: bool): Option<string>
    decreases |lines|
  {
    if lines == [] then None
    else if Qualifies(lines[0], port, needPid) then Some(LastField(lines[0]))
    else FirstMatch(lines[1..], port, needPid)
  }

  /** The line-by-line scan finds the last field of the first qualifying
      line, and nothing when no line qualifies. */
  lemma {:induction false} FirstMatchIsFirstQualifying(lines: seq<string>, port: int, needPid: bool)
    ensures FirstMatch(lines, port, needPid).None? <==> FirstQualifying(lines, port, needPid).None?
    ensures FirstQualifying(lines, port, needPid).Some? ==>
      FirstMatch(lines, port, needPid) == Some(LastField(lines[FirstQualifying(lines, port, needPid).value]))
    decreases |lines|
  {
    if lines == [] {
    } else if Qualifies(lines[0], port, needPid) {
    } else {
      FirstMatchIsFirstQualifying(lines[1..], port, needPid);
      var k := FirstQualifying(lines[1..], port, needPid);
      if k.Some? {
        assert lines[1..][k.value] == lines[k.value + 1];
      }
    }
  }

  /** What the loop of findProcessID returns for the lines of a listing. */
  function PidScan(lines: seq<string>, port: int): Result<string> {
    match FirstMatch(lines, port, true)
    case None => Err(PidNotFound(port))
    case Some(pid) => Ok(pid)
  }

  /** What findProcessID returns: the last field of the first line that
      mentions the port and ends in an integer. */
  function PidLookup(goos: string, port: int, run: Runner): (s: Step<string>)
    ensures s.effects == (if Supported(goos) then [Exec(ListingCommand(goos, port).value)] else [])
    ensures !Supported(goos) ==> s.result == Err(Unsupported(goos))
    ensures Supported(goos) && run(ListingCommand(goos, port).value).Failed? ==>
      s.result == Err(ExecFailed(run(ListingCommand(goos, port).value).reason))
    ensures Supported(goos) && run(ListingCommand(goos, port).value).Completed? ==>
      s.result == PidScan(Lines(run(ListingCommand(goos, port).value).stdout), port)
  {
    match ListingCommand(goos, port)
    case Err(e) => Step(Err(e), [])
    case Ok(cmd) =>
      match run(cmd)
      case Failed(why) => Step(Err(ExecFailed(why)), [Exec(cmd)])
      case Completed(out) =>
        Step(PidScan(Lines(out), port), [Exec(cmd)])
  }

  /** findProcessID. */
  method FindProcessId(goos: string, port: int, run: Runner) returns (pid: Result<string>, effects: seq<Effect>)
    ensures Step(pid, effects) == PidLookup(goos, port, run)
  {
    var selected := ListingCommand(goos, port);
    if selected.Err? {
      return Err(selected.error), [];
    }
    var cmd := selected.value;
    effects := [Exec(cmd)];
    var output := run(cmd);
    if output.Failed? {
      return Err(ExecFailed(output.reason)), effects;
    }
    pid := ScanForPid(Lines(output.stdout), port);
  }

  /** The loop of findProcessID over the lines of the listing. */
  method ScanForPid(lines: seq<string>, port: int) returns (pid: Result<string>)
    ensures pid == PidScan(lines, port)
  {
    for i := 0 to |lines|
      invariant FirstMatch(lines[i..], port, true) == FirstMatch(lines, port, true)
    {
      var found := PidOfLine(lines[i], port);
      assert lines[i..][0] == lines[i];
      if found.Some? {
        return Ok(found.value);
      }
      assert lines[i..][1..] == lines[i + 1..];
    }
    return Err(PidNotFound(port));
  }

  /** The body of findProcessID's loop: the last field of a line that
      mentions the port, has at least two fields and ends in an integer. */
  method PidOfLine(line: string, port: int) returns (pid: Option<string>)
    ensures pid.Some? <==> Qualifies(line, port, true)
    ensures pid.Some? ==> pid.value == LastField(line)
  {
    pid := None;
    if Contains(line, Needle(port)) {
      var fields := Fields(line);
      if |fields| >= 2 {
        var pidField := fields[|fields| - 1];
        if Atoi(pidField).Some? {
          pid := Some(pidField);
        }
      }
    }
  }

  // ---------------------------------------------------------------------
  // Process names
  // ---------------------------------------------------------------------

  /** The separator between the cells of tasklist's CSV output. */
  const CsvSeparator: string := "\",\""

  const Quote: set<char> := {'"'}

  /** The name in tasklist's CSV output: the first cell without its quotes. */
  function WindowsName(pid: string, out: string): (r: Result<string>)
    ensures r == Err(NameNotFound(pid)) <==> TrimSpace(out) == []
    ensures r == Err(UnexpectedFormat(pid)) <==> TrimSpace(out) != [] && !Contains(TrimSpace(out), CsvSeparator)
    ensures r.Err? ==> r.error.NameNotFound? || r.error.UnexpectedFormat?
    ensures r.Ok? ==> !Contains(r.value, CsvSeparator)
    ensures r.Ok? && r.value != [] ==> r.value[0] != '"' && r.value[|r.value| - 1] != '"'
    ensures r.Ok? ==>
      Index(TrimSpace(out), CsvSeparator).Some? &&
      r.value == Trim(TrimSpace(out)[..Index(TrimSpace(out), CsvSeparator).value], Quote)
  {
    var csv := TrimSpace(out);
    if csv == [] then Err(NameNotFound(pid)) else CsvName(pid, csv)
  }

  /** The first cell of a non-empty CSV row, once its quotes are trimmed;
      a row without a cell separator is not in the expected format. */
  function CsvName(pid: string, csv: string): (r: Result<string>)
    ensures r.Err? <==> !Contains(csv, CsvSeparator)
    ensures r.Err? ==> r.error == UnexpectedFormat(pid)
    ensures r.Ok? ==> !Contains(r.value, CsvSeparator)
    ensures r.Ok? && r.value != [] ==> r.value[0] != '"' && r.value[|r.value| - 1] != '"'
    ensures r.Ok? ==>
      Index(csv, CsvSeparator).Some? &&
      r.value == Trim(csv[..Index(csv, CsvSeparator).value], Quote)
  {
    var cells := Split(csv, CsvSeparator);
    if |cells| >= 2 then
      SplitFirstPiece(csv, CsvSeparator);
      TrimKeepsAbsence(cells[0], Quote, CsvSeparator);
      Ok(Trim(cells[0], Quote))
    else Err(UnexpectedFormat(pid))
  }

  /** The name in ps's output: the whole output without surrounding space. */
  function UnixName(pid: string, out: string): (r: Result<string>)
    ensures r.Err? <==> TrimSpace(out) == []
    ensures r.Err? ==> r.error == NameNotFound(pid)
    ensures r.Ok? ==> r.value == TrimSpace(out) && !IsSpace(r.value[0]) && !IsSpace(r.value[|r.value| - 1])
  {
    var name := TrimSpace(out);
    if name == [] then Err(NameNotFound(pid)) else Ok(name)
  }

  /** The name in the output of the name command for `pid`. */
  function ParseName(goos: string, pid: string, out: string): (r: Result<string>)
    ensures !Supported(goos) ==> r == Err(Unsupported(goos))
  {
    if goos == "windows" then WindowsName(pid, out)
    else if goos == "darwin" || goos == "linux" then UnixName(pid, out)
    else Err(Unsupported(goos))
  }

  /** getProcessNameByPID. */
  function GetProcessNameByPid(goos: string, pid: string, run: Runner): (s: Step<string>)
    ensures s.effects == (if Supported(goos) then [Exec(NameCommand(goos, pid).value)] else [])
    ensures Supported(goos) && run(NameCommand(goos, pid).value).Completed? ==>
      s.result == ParseName(goos, pid, run(NameCommand(goos, pid).value).stdout)
    ensures Supported(goos) && run(NameCommand(goos, pid).value).Failed? ==>
      s.result == Err(ExecFailed(run(NameCommand(goos, pid).value).reason))
    ensures !Supported(goos) ==> s.result == Err(Unsupported(goos))
  {
    match NameCommand(goos, pid)
    case Err(e) => Step(Err(e), [])
    case Ok(cmd) =>
      match run(cmd)
      case Failed(why) => Step(Err(ExecFailed(why)), [Exec(cmd)])
      case Completed(out) => Step(ParseName(goos, pid, out), [Exec(cmd)])
  }

  /** What getProcessName returns: the name of the process whose pid is the
      last field of the first line that mentions the port and has at least
      two fields. */
  function NameLookup(goos: string, port: int, run: Runner): (s: Step<string>)
    ensures !Supported(goos) ==> s == Step(Err(Unsupported(goos)), [])
    ensures Supported(goos) && run(ListingCommand(goos, port).value).Failed? ==>
      s == Step(Err(ExecFailed(run(ListingCommand(goos, port).value).reason)),
                [Exec(ListingCommand(goos, port).value)])
    ensures Supported(goos) && run(ListingCommand(goos, port).value).Completed? ==>
      var candidate := FirstMatch(Lines(run(ListingCommand(goos, port).value).stdout), port, false);
      && (candidate.None? ==> s == Step(Err(InfoNotFound(port)), [Exec(ListingCommand(goos, port).value)]))
      && (candidate.Some? ==>
            s.result == GetProcessNameByPid(goos, candidate.value, run).result &&
            s.effects == [Exec(ListingCommand(goos, port).value)] +
                         GetProcessNameByPid(goos, candidate.value, run).effects)
  {
    match ListingCommand(goos, port)
    case Err(e) => Step(Err(e), [])
    case Ok(cmd) =>
      match run(cmd)
      case Failed(why) => Step(Err(ExecFailed(why)), [Exec(cmd)])
      case Completed(out) =>
        match FirstMatch(Lines(out), port, false)
        case None => Step(Err(InfoNotFound(port)), [Exec(cmd)])
        case Some(pid) =>
          var named := GetProcessNameByPid(goos, pid, run);
          Step(named.result, [Exec(cmd)] + named.effects)
  }

  /** getProcessName. */
  method GetProcessName(goos: string, port: int, run: Runner) returns (name: Result<string>, effects: seq<Effect>)
    ensures Step(name, effects) == NameLookup(goos, port, run)
  {
    var selected := ListingCommand(goos, port);
    if selected.Err? {
      return Err(selected.error), [];
    }
    var cmd := selected.value;
    effects := [Exec(cmd)];
    var output := run(cmd);
    if output.Failed? {
      return Err(ExecFailed(output.reason)), effects;
    }
    var pid := ScanForCandidate(Lines(output.stdout), port);
    if pid.None? {
      return Err(InfoNotFound(port)), effects;
    }
    var named := GetProcessNameByPid(goos, pid.value, run);
    return named.result, effects + named.effects;
  }

  /** The loop of getProcessName: the last field of the first line that
      mentions the port and has at least two fields. */
  method ScanForCandidate(lines: seq<string>, port: int) returns (pid: Option<string>)
    ensures pid == FirstMatch(lines, port, false)
  {
    for i := 0 to |lines|
      invariant FirstMatch(lines[i..], port, false) == FirstMatch(lines, port, false)
    {
      var found := CandidateOfLine(lines[i], port);
      assert lines[i..][0] == lines[i];
      if found.Some? {
        return found;
      }
      assert lines[i..][1..] == lines[i + 1..];
    }
    return None;
  }

  /** The body of getProcessName's loop: no check that the field is a number. */
  method CandidateOfLine(line: string, port: int) returns (pid: Option<string>)
    ensures pid.Some? <==> Qualifies(line, port, false)
    ensures pid.Some? ==> pid.value == LastField(line)
  {
    pid := None;
    if Contains(line, Needle(port)) {
      var fields := Fields(line);
      if |fields| >= 2 {
        pid := Some(fields[|fields| - 1]);
      }
    }
  }

  // ---------------------------------------------------------------------
  // Killing the process on a port
  // ---------------------------------------------------------------------

  /** killLocalPort. */
  function KillLocalPort(goos: string, port: int, run: Runner): (s: Step<()>)
    ensures PidLookup(goos, port, run).result.Err? ==>
      s == Step(Err(PidLookup(goos, port, run).result.error), PidLookup(goos, port, run).effects)
    ensures PidLookup(goos, port, run).result.Ok? ==>
      Supported(goos) &&
      s.effects == [Exec(ListingCommand(goos, port).value),
                    Exec(KillCommand(goos, PidLookup(goos, port, run).result.value).value)]
    ensures PidLookup(goos, port, run).result.Ok? ==>
      var outcome := run(KillCommand(goos, PidLookup(goos, port, run).result.value).value);
      && (outcome.Completed? ==> s.result == Ok(()))
      && (outcome.Failed? ==> s.result == Err(ExecFailed(outcome.reason)))
  {
    var lookup := PidLookup(goos, port, run);
    match lookup.result
    case Err(e) => Step(Err(e), lookup.effects)
    case Ok(pid) =>
      match KillCommand(goos, pid)
      case Err(e) => Step(Err(e), lookup.effects)
      case Ok(cmd) =>
        var outcome := run(cmd);
        Step(if outcome.Failed? then Err(ExecFailed(outcome.reason)) else Ok(()),
             lookup.effects + [Exec(cmd)])
  }

  // ---------------------------------------------------------------------
  // The command line
  // ---------------------------------------------------------------------

  /** What the argument vector (program name first) asks for. */
  datatype Action =
    | Usage
    | KillUsage
    | InvalidPort(token: string)
    | Kill(port: int)
    | Probe(port: int)

  /** The dispatch at the top of main. */
  function Dispatch(args: seq<string>): (a: Action)
    ensures a == Usage <==> |args| < 2
    ensures a == KillUsage <==> |args| >= 2 && args[1] == "-kill" && |args| != 3
    ensures a.InvalidPort? ==> a.token == (if args[1] == "-kill" then args[2] else args[1])
    ensures a.InvalidPort? ==> Atoi(a.token).None?
    ensures a.Kill? <==> |args| == 3 && args[1] == "-kill" && Atoi(args[2]).Some?
    ensures a.Kill? ==> Atoi(args[2]) == Some(a.port)
    ensures a.Probe? <==> |args| >= 2 && args[1] != "-kill" && Atoi(args[1]).Some?
    ensures a.Probe? ==> Atoi(args[1]) == Some(a.port)
  {
    if |args| < 2 then Usage
    else if args[1] == "-kill" then
      if |args| != 3 then KillUsage
      else
        match Atoi(args[2])
        case None => InvalidPort(args[2])
        case Some(p) => Kill(p)
    else
      match Atoi(args[1])
      case None => InvalidPort(args[1])
      case Some(p) => Probe(p)
  }

  /** The message main prints. */
  datatype Report =
    | UsageText                          // the three-line usage summary
    | KillUsageText                      // "Usage: port-checker -kill <port>"
    | InvalidPortText(token: string)     // "Invalid port number: <token>"
    | KillFailed(port: int, error: Error) // "Failed to kill port <port>: <error>"
    | Killed(port: int)                  // "Port <port> successfully killed"
    | Closed(port: int)                  // "Port <port> is closed"
    | InfoFailed(port: int, error: Error) // "Failed to retrieve process information for port <port>: <error>"
    | Open(port: int, name: string)      // "Port <port> is open." and "Process Name: <name>"

  datatype Session = Session(report: Report, effects: seq<Effect>)

  /** main, with `listening` standing for whether a TCP connection to
      localhost:<port> succeeds. */
  function Execute(args: seq<string>, goos: string, listening: int -> bool, run: Runner): (s: Session)
    ensures !Dispatch(args).Kill? && !Dispatch(args).Probe? ==> s.effects == []
    ensures Dispatch(args).Kill? ==> forall e :: e in s.effects ==> e.Exec?
    ensures Dispatch(args).Probe? ==> |s.effects| >= 1 && s.effects[0] == Dial(Dispatch(args).port)
    ensures Dispatch(args) == Usage ==> s.report == UsageText
    ensures Dispatch(args) == KillUsage ==> s.report == KillUsageText
    ensures Dispatch(args).InvalidPort? ==> s.report == InvalidPortText(Dispatch(args).token)
    ensures Dispatch(args).Kill? ==>
      (s.report == Killed(Dispatch(args).port) <==> KillLocalPort(goos, Dispatch(args).port, run).result.Ok?)
    ensures Dispatch(args).Probe? && !listening(Dispatch(args).port) ==>
      s.report == Closed(Dispatch(args).port) && s.effects == [Dial(Dispatch(args).port)]
    ensures Dispatch(args).Kill? && KillLocalPort(goos, Dispatch(args).port, run).result.Err? ==>
      s.report == KillFailed(Dispatch(args).port, KillLocalPort(goos, Dispatch(args).port, run).result.error)
    ensures Dispatch(args).Probe? && listening(Dispatch(args).port) &&
            NameLookup(goos, Dispatch(args).port, run).result.Err? ==>
      s.report == InfoFailed(Dispatch(args).port, NameLookup(goos, Dispatch(args).port, run).result.error)
  {
    match Dispatch(args)
    case Usage => Session(UsageText, [])
    case KillUsage => Session(KillUsageText, [])
    case InvalidPort(token) => Session(InvalidPortText(token), [])
    case Kill(port) =>
      var killed := KillLocalPort(goos, port, run);
      Session(if killed.result.Err? then KillFailed(port, killed.result.error) else Killed(port),
              killed.effects)
    case Probe(port) =>
      if !listening(port) then Session(Closed(port), [Dial(port)])
      else
        var named := NameLookup(goos, port, run);
        Session(if named.result.Err? then InfoFailed(port, named.result.error) else Open(port, named.result.value),
                [Dial(port)] + named.effects)
  }
}
