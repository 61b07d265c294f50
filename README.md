# port-checker, modelled in Dafny

`port-checker` is a small command-line tool. `port-checker <port>` tells
whether something listens on a local TCP port and, if so, names the
process. `port-checker -kill <port>` terminates the process that holds the
port. It works by running platform commands:

- `netstat -aon` or `lsof -i :<port>` to list sockets;
- `tasklist ... /FO CSV /NH` or `ps -p <pid> -o comm=` to name a process;
- `taskkill /F /PID <pid>` or `kill -9 <pid>` to terminate it.

It then scans the text those commands print.

This project models that core in three files:

- `go_text.dfy` (module `GoText`) covers the parts of Go's standard
  library the program relies on, each with its defining properties.
  - `strings.Index` and `strings.Contains`;
  - `strings.Split` and `strings.Join`;
  - `strings.Fields`, with the full Unicode white-space set that
    `unicode.IsSpace` uses, inverted for words between any runs of white
    space;
  - `strings.Trim` and `strings.TrimSpace`;
  - `strconv.Atoi` on a 64-bit `int`;
  - decimal formatting with `%d`.
- `port_checker.dfy` (module `PortChecker`) models the tool itself.
  - The argument dispatch of `main`.
  - The per-OS command choices.
  - `findProcessID` and `getProcessName`. Each is a method whose `for`
    loop is proved equal to a specification function.
  - `getProcessNameByPID`'s parsing of `tasklist` and `ps` output.
  - `killLocalPort`.
- `port_checker_properties.dfy` (module `PortCheckerProperties`) states
  the properties that relate several operations.

Interactions with the outside world are parameters:

- The OS name (`runtime.GOOS`) is a string.
- The argument vector (`os.Args`) is a sequence of strings.
- Running a command is a function `run` from a command line to either its
  standard output or a failure.
- Dialling `localhost:<port>` is a predicate `listening`.

Every operation returns the list of interactions it performed, in order.
That lets the contracts say which commands run, and in what order: for
example, a kill command never runs before a PID has been found.

Several behaviours of the code are proved here as written:

- Matching a line is by substring. Asked about port 80, the PID scan
  accepts a line about port 8080 (`SubstringMatch`,
  `Port80FindsPort8080Process`).
- The two scans differ:
  - the PID scan skips lines whose last field is not an integer;
  - the name scan takes that field as the PID anyway (`ScansDisagree`).
- `lsof` rows end with the socket state, such as `(LISTEN)`.
  - On Linux and macOS, the PID scan therefore skips such rows.
  - The name scan takes `(LISTEN)` as the PID.
  - `LsofRowLastFieldIsState` shows this on a simplified four-column row,
    `node 4242 *:80 (LISTEN)`. A real row has more columns before the
    state, but the last field is the state all the same.
- The port is not range-checked: any 64-bit integer is accepted, signed
  or zero-padded. In particular, negative ports are accepted
  (`DispatchNegative`).
- The Windows name parse only trims quotes, so it can return an empty
  name (`TasklistEmptyName`). The Unix parse never does.
- With no argument, the usage text printed is three lines: `Usage:` and
  the two command forms.

## Model

| member | source | states |
|---|---|---|
| GoText.Index | port-checker.go:115 | the result is the first position where the needle occurs; there is none when it occurs nowhere |
| GoText.ContainsPrefix | port-checker.go:115 | a string containing a needle contains every prefix of that needle |
| GoText.Split | port-checker.go:113 | the pieces contain no separator and join back to the input; there is exactly one piece iff the input has no separator |
| GoText.SplitAtFirst | port-checker.go:192 | when the first separator is at i, the first piece is the text before i and another piece follows |
| GoText.SplitJoin | port-checker.go:113 | splitting lines joined by a one-character separator they do not contain gives the lines back |
| GoText.PieceInJoin | port-checker.go:113 | text in any line is text in the whole output |
| GoText.FieldsAreWords | port-checker.go:116 | every field is non-empty and contains no white space |
| GoText.FieldsOfJoin | port-checker.go:116 | the fields of words joined by single spaces are those words |
| GoText.FieldsOfSpaced | port-checker.go:116 | the fields of words separated by non-empty runs of white space, with any white space before and after (such as padded columns and a trailing carriage return), are those words |
| GoText.Trim | port-checker.go:194 | the result is no longer than the input, and neither of its ends is a trimmed character |
| GoText.TrimPadded | port-checker.go:188 | trimming removes exactly the padding around a core that starts and ends outside the cut set |
| GoText.TrimKeepsAbsence | port-checker.go:194 | trimming cannot make a substring appear |
| GoText.DecimalValueOfDigits | port-checker.go:121 | the digit reader accepts exactly the all-digit strings, with their decimal value |
| GoText.Atoi | port-checker.go:121 | every accepted value lies in the 64-bit range |
| GoText.AtoiAccepts | port-checker.go:121 | a string is accepted iff it is an optional sign and one or more digits whose signed value fits in 64 bits; the result is that value |
| GoText.NatToDecimal | port-checker.go:103 | the digits are non-empty, have the value n and no leading zero |
| GoText.AtoiItoa | port-checker.go:103 | parsing the decimal form of any 64-bit integer gives it back |
| PortChecker.Needle | port-checker.go:103 | the searched text starts with a colon and has at least one character after it |
| PortChecker.NeedleNamesPort | port-checker.go:103 | for a port in the 64-bit range, the text after the colon parses back to the port |
| PortChecker.ListingCommand | port-checker.go:98-106 | the result is an error iff the OS is unsupported, and that error is Unsupported; lsof is given `:<port>` |
| PortChecker.KillCommand | port-checker.go:83-91 | the result is an error iff the OS is unsupported, and that error is Unsupported; the last argument is the PID |
| PortChecker.NameCommand | port-checker.go:168-176 | the result is an error iff the OS is unsupported, and that error is Unsupported; the filter or `-p` argument names the PID |
| PortChecker.SelectionsAgree | port-checker.go:83-106 | the three OS switches accept the same systems and reject the others with the same error |
| PortChecker.Lines | port-checker.go:113 | there is at least one line, and the lines join back to the output |
| PortChecker.FirstQualifying | port-checker.go:114-126 | the index found is in range and its line qualifies |
| PortChecker.FirstQualifyingIsFirst | port-checker.go:114-126 | no line before the index found qualifies; there is no index iff no line qualifies |
| PortChecker.FirstIsUnique | port-checker.go:114-126 | a qualifying line with no qualifying line before it is the one found |
| PortChecker.FirstMatchIsFirstQualifying | port-checker.go:114-126 | scanning line after line yields the last field of the first qualifying line |
| PortChecker.FindProcessId | port-checker.go:97-129 | the method returns exactly the lookup's PID or error and performs exactly its interactions |
| PortChecker.ScanForPid | port-checker.go:113-128 | the loop returns the PID of the first qualifying line, or PidNotFound |
| PortChecker.PidOfLine | port-checker.go:115-124 | a line gives a PID iff it mentions `:<port>`, has at least two fields and its last field parses as an integer; that PID is the last field |
| PortChecker.WindowsName | port-checker.go:186-197 | NameNotFound iff the trimmed output is empty; UnexpectedFormat iff it has no `","`; no other error; the name is the trimmed output before its first `","` with the quotes trimmed from both ends, so it contains no `","` and neither end is a quote |
| PortChecker.CsvName | port-checker.go:192-197 | a row without a cell separator is UnexpectedFormat; otherwise the name is the text before the first separator with the quotes trimmed from both ends, so it has no separator and no quote at either end |
| PortChecker.UnixName | port-checker.go:198-203 | an error iff the trimmed output is empty, and that error is NameNotFound; otherwise the name is the trimmed output and is non-empty |
| PortChecker.ParseName | port-checker.go:184-206 | an unsupported OS gives Unsupported |
| PortChecker.GetProcessNameByPid | port-checker.go:167-209 | the only interaction is the name command (none on an unsupported OS); an unsupported OS is Err(Unsupported); a failed command is Err(ExecFailed) with its reason; on success of the command the result is the parse of its output |
| PortChecker.GetProcessName | port-checker.go:132-164 | the method returns exactly the lookup's name or error and performs exactly its interactions |
| PortChecker.ScanForCandidate | port-checker.go:148-162 | the loop returns the last field of the first line that mentions the port and has two fields |
| PortChecker.CandidateOfLine | port-checker.go:150-153 | a line gives a PID iff it mentions `:<port>` and has at least two fields, with no numeric check; that PID is the last field |
| PortChecker.Dispatch | port-checker.go:15-50 | Usage iff there is no argument; KillUsage iff `-kill` has other than one argument; Kill and Probe iff the port token parses, with its value; an InvalidPort names exactly the port token (the argument after `-kill` in kill mode, the first argument otherwise), which does not parse |
| PortChecker.Execute | port-checker.go:13-67 | the usage, kill-usage and invalid-port reports come from the corresponding dispatch, with the token, and have no interaction; kill mode never dials and reports Killed iff the kill succeeded and KillFailed with the port and error otherwise; probe mode dials the port first, and a closed port reports Closed after that one dial, and a failed name lookup on an open port reports InfoFailed with the port and the lookup's error |
| PortCheckerProperties.PidScanFindsFirstNumericLine | port-checker.go:113-128 | the PID scan fails (PidNotFound) iff no line qualifies; otherwise its PID is the integer last field of a line mentioning the port, with no earlier qualifying line |
| PortCheckerProperties.NameScanFindsFirstLine | port-checker.go:148-163 | the name scan finds nothing iff no line mentions the port with two fields; otherwise it takes the last field of the first such line |
| PortCheckerProperties.NameScanNotAfterPidScan | port-checker.go:113-163 | whenever the PID scan finds something, so does the name scan; when the name scan's field is an integer, both scans agree |
| PortCheckerProperties.ScansDisagree | port-checker.go:113-163 | a non-numeric candidate line followed by a numeric one makes the scans return different PIDs |
| PortCheckerProperties.AbsentPortNotFound | port-checker.go:128 | an output that never mentions `:<port>` gives not-found from both scans |
| PortCheckerProperties.EmptyListingNotFound | port-checker.go:163 | empty output gives not-found from both scans |
| PortCheckerProperties.SubstringMatch | port-checker.go:115 | when the port's digits are a prefix of another port's, a line for the other port mentions this one too |
| PortCheckerProperties.Port80FindsPort8080Process | port-checker.go:115-122 | asked about port 80, the PID scan returns the PID on a netstat row for port 8080 |
| PortCheckerProperties.NonNumericRowOnlyNamed | port-checker.go:117-121 | a lone candidate row with a non-numeric last field gives the name scan a PID and the PID scan none |
| PortCheckerProperties.LsofRowLastFieldIsState | port-checker.go:117-121 | on an lsof row ending in `(LISTEN)`, the name scan takes `(LISTEN)` as the PID and the PID scan finds nothing |
| PortCheckerProperties.TasklistFirstCell | port-checker.go:192 | for a name with neither a quote nor a comma, the first cell of `"name","rest"` is `"name`, and another cell follows |
| PortCheckerProperties.TasklistRowName | port-checker.go:186-197 | a tasklist row `"name","rest"` and a line break parse back to the name |
| PortCheckerProperties.TasklistEmptyName | port-checker.go:194 | a row whose first cell is empty parses to the empty name |
| PortCheckerProperties.PsOutputName | port-checker.go:198-203 | ps output of a name and a line break parses back to the name |
| PortCheckerProperties.WindowsNameByPid | port-checker.go:167-208 | with tasklist printing a row for the PID whose name has neither a quote nor a comma, the lookup runs that one command and returns the name |
| PortChecker.PidLookup | port-checker.go:97-129 | the lookup runs only the listing command (nothing on an unsupported OS); an unsupported OS is Err(Unsupported), a failed listing Err(ExecFailed) with its reason, and a completed one gives the PID scan of its lines |
| PortCheckerProperties.PidLookupFindsInteger | port-checker.go:97-129 | any PID the lookup returns parses as an integer |
| PortChecker.NameLookup | port-checker.go:132-164 | an unsupported OS is Err(Unsupported) with no interaction; a failed listing is Err(ExecFailed) after the listing; with no candidate line it is Err(InfoNotFound) after the listing; otherwise the listing runs and then the name lookup for the candidate's PID, whose result it returns |
| PortChecker.KillLocalPort | port-checker.go:77-94 | a failed PID lookup is returned unchanged with only its interactions; otherwise the listing and then the kill command for that PID run, and the result is success when the kill command completes and Err(ExecFailed) with its reason when it fails |
| PortCheckerProperties.DispatchItoa | port-checker.go:23-50 | the decimal form of a 64-bit port asks to probe it, and after `-kill` asks to kill it |
| PortCheckerProperties.ProbeIgnoresExtraArguments | port-checker.go:43-46 | in probe mode, arguments after the port are ignored |
| PortCheckerProperties.DispatchPlusSign | port-checker.go:46 | `+80` is port 80 |
| PortCheckerProperties.DispatchLeadingZeros | port-checker.go:46 | `0080` is port 80 |
| PortCheckerProperties.DispatchNegative | port-checker.go:46 | `-80` is accepted as the port -80 |
| PortCheckerProperties.DispatchRejects | port-checker.go:24-35 | `abc` is an invalid port, and `-kill` with zero or two arguments gives the kill usage |
| PortCheckerProperties.ClosedPortRunsNothing | port-checker.go:52-54 | a port nobody listens on is reported closed after the dial alone |
| PortCheckerProperties.OpenPortReport | port-checker.go:56-63 | an open port is reported with its name iff the name lookup succeeds, and InfoFailed with the port and the lookup's error iff it fails, after the dial and the lookup's commands |
| PortCheckerProperties.KillModeReport | port-checker.go:36-42 | kill mode has killLocalPort's interactions and reports Killed iff it succeeds, and KillFailed with the port and its error iff it fails |

## Left out

- Dialling: `checkPort`'s `net.Dial` is the parameter `listening`. The connection it opens, which the source never closes, is not modelled. Go's `net.Dial` rejects a port outside 0..65535, so such a port is always reported closed by the source, while the unconstrained `listening` lets the model report it open.
- Running commands: `exec.Command(...).Output()` and `.Run()` are the parameter `run`, which gives either the standard output or a failure reason. Exit codes, standard error and the error's text beyond a reason string are not modelled.
- Output text: the messages of `main` are the `Report` datatype, and errors are the `Error` datatype. The exact `fmt` formatting of the messages is not modelled.
- Text encoding: strings are sequences of Unicode code points. The byte-to-string conversion of command output, and invalid UTF-8 within it, are not modelled.
- Command output formats: the sample `netstat` and `lsof` rows are simplified single-spaced rows with fewer columns than the tools print; FieldsOfSpaced covers the padding of real rows. Without `-P`, `lsof` may print a well-known port by its service name (`*:http`), which the text `:80` does not match; what the tools print is outside the model.
- Integer width: `int` is taken to be 64 bits, the width of Go's `int` on 64-bit platforms. A 32-bit build's `strconv.Atoi` range is not modelled.
- PortCheckerProperties.TasklistRowName: requires the name to contain neither a quote nor a comma. A name that is a lone comma would be cut at the wrong separator, and this case is not covered.
- PortCheckerProperties.TasklistFirstCell: requires the name to contain neither a quote nor a comma. For a name that is a lone comma the first `","` of the row starts at offset 0 and the first cell is empty, so the general case does not hold.
- PortCheckerProperties.WindowsNameByPid: requires the name to contain neither a quote nor a comma, for the same reason as TasklistFirstCell. WindowsName's own contract covers every output.
- PortChecker.ParseName: states only the unsupported-OS case. The other cases are WindowsName and UnixName, whose contracts carry the properties.
