# psql-transporter in Dafny

A model of the core of psql-transporter. It is an interactive command-line tool that
copies a PostgreSQL database to another database, to a plain SQL dump file, or from
such a file into a database. It relies on `pg_dump` and `psql`. Each database the tool
knows is a named entry of its configuration. An entry marked *protected* must never be
overwritten.

The model has seven modules:

- `Common` (`common.dfy`) holds `Option` and `Error`. A Go `error` is `Option<Error>`, and `None` stands for `nil`.
- `Format` (`format.dfy`) covers the `%d` rendering of integers and a parser that inverts it.
- `Config` (`config.dfy`) holds the configuration entry `Source` and the entry list of a freshly created configuration.
- `Copy` (`copy.dfy`) models the tool layer of `internal/app/copy/psql.go`. It has:
  - the connection descriptor `Conn`;
  - the child environment, and how a child process reads a variable from it;
  - the argument lists of dump, wipe and import;
  - the error-wrapping rule;
  - the three tool calls as methods over a process-runner oracle;
  - progress reporting of the dump;
  - the unit selection of `humanSize`.
- `Ui` (`ui.dfy`) covers `StepSpinner` and `RunSteps` of `internal/ui/ui.go`.
- `Transporter` (`transporter.dfy`) models the transfer command, the `RunE` closure of `cmd/psql-transporter/main.go`:
  - `Transfer` is the imperative command. It builds the option lists with loops, resolves names by linear search and runs the phases with early returns.
  - `Transfer` is proved equal to the specification function `TransferSpec`.
  - `TransferSpec` is `Decide` (the prompts, the name resolution, the validation and the confirmation, giving either a stop or a plan of phases) followed by `RunPhases` (the plan, run until the first failing phase).
  - The operator's answers are an input, `Answers`. Each answer is a value or the error its prompt returned.
  - The outcome of each phase is an oracle, `phases`.
  - A run is a trace of events (each prompt shown, each phase started) and an outcome: `Done`, `Aborted` or `Failed(error)`.
  - `ToolOutcome` and `RunPhase` show how the tool layer carries out each phase.
- `TransporterProperties` (`properties.dfy`) holds the guarantees of the command, proved about `TransferSpec` for every configuration, every set of answers and every phase oracle.

The default dump path is `filepath.Join(".", "dump.sql")`, which Go cleans to
`dump.sql`; that is the path in the prompts and in the database-to-database plan
(`Transporter.DefaultDumpPath`).

## Model

| member | source | states |
|---|---|---|
| Format.Decimal | internal/app/copy/psql.go:30 | The `%d` text of an integer is non-empty, starts with '-' exactly for negative values, and is all digits otherwise |
| Format.DigitsRoundTrip | internal/app/copy/psql.go:30 | Reading back the digits of a natural number gives that number |
| Format.DecimalRoundTrip | internal/app/copy/psql.go:30 | Parsing the `%d` text of any integer gives the integer back |
| Format.DecimalInjective | internal/app/copy/psql.go:30 | Distinct ports give distinct `-p` arguments |
| Config.DefaultSources | internal/config/config.go:32-42 | A freshly created configuration has exactly one entry, and that entry is protected |
| Copy.Env | internal/app/copy/psql.go:18-25 | The child environment is the inherited one, then `PGPASSWORD=<password>`, then `PGSSLMODE=<mode>` only when a mode is configured |
| Copy.Lookup | internal/app/copy/psql.go:18-25 | A child sees a variable as absent exactly when no entry sets it |
| Copy.LookupIsLastSetting | internal/app/copy/psql.go:18-25 | When a variable is set, the child sees the value of the last entry that sets it, later entries set it no more |
| Copy.EnvSetsPassword | internal/app/copy/psql.go:18-25 | The child sees the configured password whatever the inherited environment holds |
| Copy.EnvSetsSslMode | internal/app/copy/psql.go:18-25 | The child sees the configured TLS mode when one is set, and the inherited value otherwise |
| Copy.EnvKeepsOtherVariables | internal/app/copy/psql.go:18-25 | Every other variable reaches the child as inherited |
| Copy.BaseArgs | internal/app/copy/psql.go:27-34 | The connection arguments are exactly `-h` with the host, `-p` with the `%d` text of the port (which parses back to the port), `-U` with the user and `-d` with the database name |
| Copy.BaseArgsIdentifyTarget | internal/app/copy/psql.go:27-34 | Two descriptors give the same connection arguments if and only if they agree on host, port, user and database name |
| Copy.DumpCommand | internal/app/copy/psql.go:44-48 | pg_dump with the connection arguments, then the plain-format, no-owner, no-privileges flags ending in the output file; the environment is `Env` |
| Copy.WipeCommand | internal/app/copy/psql.go:94-98 | psql with the connection arguments, then `-c` and the statement that drops and recreates schema `public` |
| Copy.ImportCommand | internal/app/copy/psql.go:113-115 | psql with the connection arguments, then `-f` and the dump file |
| Copy.WipeAddressesTarget | internal/app/copy/psql.go:93-98 | The wipe runs psql against the descriptor's host and database, with the schema-reset statement, and the child sees the descriptor's password |
| Copy.ArgsIgnoreCredentials | internal/app/copy/psql.go:18-34 | Password and TLS mode never change an argument list; credentials travel only in the environment |
| Copy.CommandsIdentifyTarget | internal/app/copy/psql.go:44-46 | Equal argument lists of a tool call mean the same host, port, user and database, and the same file |
| Copy.Failure | internal/app/copy/psql.go:84-90 | No error iff the process ran and exited cleanly; a start error or an exit error with empty stderr is returned unchanged; otherwise the error is `<tool> failed: <err>`, a newline, then the captured stderr |
| Copy.Reported | internal/app/copy/psql.go:58-78 | The poller reports only sizes that were read at some tick, and nothing when no read succeeded |
| Copy.ReportedKeepsReadings | internal/app/copy/psql.go:66-70 | Every size read at a tick is reported, and the latest reading is the one reported last |
| Copy.ReportedInOrder | internal/app/copy/psql.go:64-77 | Reports follow tick order: two stretches of ticks report the sizes of the first, then those of the second |
| Copy.DumpWithProgress | internal/app/copy/psql.go:43-91 | Runs exactly `DumpCommand`; returns the error by the `pg_dump failed` rule; reports the sizes read at each tick only when a callback is given and the process started |
| Copy.Dump | internal/app/copy/psql.go:36-39 | The dump called without a progress callback: same command and error as `DumpWithProgress` |
| Copy.Wipe | internal/app/copy/psql.go:93-110 | Runs exactly `WipeCommand` and returns the error by the `psql wipe failed` rule |
| Copy.Import | internal/app/copy/psql.go:112-127 | Runs exactly `ImportCommand` and returns the error by the `psql import failed` rule |
| Copy.RadixMonotone | internal/app/copy/psql.go:141-143 | Each further power of 1024 is at least 1024 times the previous |
| Copy.HumanSize | internal/app/copy/psql.go:134-152 | Below 1024 the text is `<b> B`. Otherwise the unit index `i` has `1024^(i+1) <= b < 1024^(i+2)` and names `Units[i]`. The fallback to bytes happens exactly from `1024^7` on |
| Copy.ExponentUnique | internal/app/copy/psql.go:141-146 | At most one unit index brackets a size, so the unit is determined by the size |
| Copy.Int64SizesHaveUnit | internal/app/copy/psql.go:141-151 | No int64 size reaches `1024^7`: for 64-bit sizes the unit is one of KiB to EiB and the fallback is unreachable |
| Ui.SpinnerResult | internal/ui/ui.go:24-33 | A spinner ends in success exactly when the work returned no error, and its final text starts with the title |
| Ui.StepSpinner | internal/ui/ui.go:24-33 | Returns the result and the error of `fn` unchanged, and ends the spinner per `SpinnerResult` |
| Ui.RunSteps | internal/ui/ui.go:56-66 | Runs steps in list order, each once, up to the first failure. Returns that step's error, and nil iff every step succeeds (including the empty list) |
| Transporter.ToConn | cmd/psql-transporter/main.go:242-248 | The descriptor carries the entry's host, port, user, password, database name and TLS mode |
| Transporter.Names | cmd/psql-transporter/main.go:49-52 | One name per entry, in configuration order |
| Transporter.SourceOptions | cmd/psql-transporter/main.go:49-56 | The configured names in order, followed by `Load from file` as last option |
| Transporter.Candidates | cmd/psql-transporter/main.go:87-100 | An entry is offered as destination iff it is configured, unprotected and, for a database source, not named like it |
| Transporter.CandidatesInOrder | cmd/psql-transporter/main.go:90-100 | The offered entries keep configuration order: filtering a list split in two gives the offered entries of the first part, then those of the second |
| Transporter.FirstByName | cmd/psql-transporter/main.go:136-145 | No result iff no entry has the name; otherwise the first entry with that name |
| Transporter.ProtectedDestination | cmd/psql-transporter/main.go:146-148 | The error for a protected destination names the entry, and differs from the invalid-source, invalid-destination and same-endpoints errors |
| Transporter.ConfirmMessage | cmd/psql-transporter/main.go:155-160 | The confirmation question names the destination to be wiped first and, last, the origin of the new contents: the input file for a file source, the source entry's name otherwise |
| Transporter.DestinationOptions | cmd/psql-transporter/main.go:87-104 | The destination options are the names of the offered entries in configuration order, then `Dump to file` exactly when the source is a database |
| Transporter.Plan | cmd/psql-transporter/main.go:170-232 | A confirmed plan ends by wiping the destination and importing into it; for a database source it first exports to the default dump path, which is the file the import then reads; for a file source it imports the chosen file |
| Transporter.Decide | cmd/psql-transporter/main.go:49-85 | Every run starts with the source prompt; a plan runs only after the source prompt was answered, with an input path for a file source and with a name that resolves to an entry otherwise |
| Transporter.DecideDestination | cmd/psql-transporter/main.go:87-152 | The destination prompt follows the prompts shown so far; a plan runs only after it was answered: an export of the source to the answered output path for `Dump to file`, and otherwise a confirmed plan into the first entry with the chosen name, which is not protected |
| Transporter.DecideConfirm | cmd/psql-transporter/main.go:154-168 | The confirmation prompt is the last prompt; its plan runs exactly on a yes, the run aborts exactly on a no, and a prompt error ends the run with that error |
| Transporter.TransferSpec | cmd/psql-transporter/main.go:49-232 | A run always begins with the source prompt and succeeds only after a phase ran as its last event |
| Transporter.RunPhases | cmd/psql-transporter/main.go:170-232 | The phases started are a prefix of the plan, all but the last succeeded; success iff the whole plan ran and every phase succeeded; a failure carries the last phase's error |
| Transporter.FindByName | cmd/psql-transporter/main.go:76-84 | The search loop returns the first entry with the chosen name (`FirstByName`) |
| Transporter.ListNames | cmd/psql-transporter/main.go:49-52 | The array loop collects the entries' names in order |
| Transporter.ListDestinations | cmd/psql-transporter/main.go:87-104 | The filtering loop builds the offered names, then `Dump to file` for a database source |
| Transporter.WipeStep | cmd/psql-transporter/main.go:172-176 | Running the single wipe step through `RunSteps` returns the wipe's own error |
| Transporter.RunPhase | cmd/psql-transporter/main.go:201-213 | An export runs pg_dump with a progress callback, a wipe runs psql. The error is the tool's, by the failure rule; the spinner gets the sizes the poller read |
| Transporter.Transfer | cmd/psql-transporter/main.go:49-232 | The command's trace and outcome are exactly those of `TransferSpec` |
| Transporter.SelectDestination | cmd/psql-transporter/main.go:87-152 | From the destination prompt on, the command follows `DecideDestination` and its plan |
| Transporter.ConfirmAndRun | cmd/psql-transporter/main.go:154-168 | From the confirmation on, the command follows `DecideConfirm` and its plan |
| Transporter.FileToDb | cmd/psql-transporter/main.go:170-195 | Wipe, then import of the chosen file, until the first failure |
| Transporter.DbToDb | cmd/psql-transporter/main.go:197-232 | Export to the default dump file, wipe, import of that file, until the first failure |
| TransporterProperties.DecideFacts | cmd/psql-transporter/main.go:49-168 | Before any phase the command only prompts, starting with the source prompt. A confirmation is only ever the last prompt. Declining aborts and accepting runs the plan. It never stops with success. Every plan it runs is safe (see `SafePlan`) |
| TransporterProperties.ConfirmFacts | cmd/psql-transporter/main.go:154-168 | For an offered destination, the confirmation and the plan after it obey `DecisionOk` |
| TransporterProperties.DestinationFacts | cmd/psql-transporter/main.go:87-152 | Destination resolution and validation keep the prompts shown so far, and obey `DecisionOk` |
| TransporterProperties.TraceLayout | cmd/psql-transporter/main.go:113-232 | A trace is the prompts of the decision, then one call per phase started |
| TransporterProperties.CallInPlan | cmd/psql-transporter/main.go:170-232 | Every phase call comes after all prompts, at its own position in the plan |
| TransporterProperties.DestinationIsSafe | cmd/psql-transporter/main.go:136-168 | A wipe or import only reaches a configured, unprotected entry, never the database source, and only after a confirmation answered yes. An export reads a configured entry. An import reads the chosen dump file, or `dump.sql` for a database source |
| TransporterProperties.CallIsSafe | cmd/psql-transporter/main.go:136-168 | The facts of `DestinationIsSafe` (the predicate `SafeCall`) hold at every position of the trace that calls a phase |
| TransporterProperties.FailedPhaseEndsRun | cmd/psql-transporter/main.go:204-228 | A failing phase is the last event of the trace and its error is the outcome |
| TransporterProperties.NoWipeAfterFailedExport | cmd/psql-transporter/main.go:200-213 | When the export fails it is the only phase started: the destination is never wiped |
| TransporterProperties.AbortIsClean | cmd/psql-transporter/main.go:161-168 | An abort happens only at a confirmation answered no, with no phase started |
| TransporterProperties.DeclineAborts | cmd/psql-transporter/main.go:161-168 | Answering no to the confirmation ends the run there, cleanly and without a phase |
| TransporterProperties.DoneCompletesPlan | cmd/psql-transporter/main.go:170-232 | A run succeeds iff it ran its whole plan in order and every phase succeeded |
| TransporterProperties.SourceSelected | cmd/psql-transporter/main.go:57-85 | A source answer that selects the file option or a configured entry leads to the destination prompt with the prompts shown so far |
| TransporterProperties.DbToFileRun | cmd/psql-transporter/main.go:113-133 | Database to file: source, destination and output prompts, then the export alone, with no confirmation prompt; the outcome is the export's |
| TransporterProperties.ConfirmedRun | cmd/psql-transporter/main.go:154-232 | A confirmed transfer runs `[wipe(dst), import(dst, file)]` from a file, or `[export(src, dump.sql), wipe(dst), import(dst, dump.sql)]` from a database, until the first failure |
| TransporterProperties.DestinationRejected | cmd/psql-transporter/main.go:136-152 | An unknown destination, a protected destination and a destination named like the database source each fail with their own error, right after the destination prompt: no confirmation, no phase |
| TransporterProperties.InvalidSourceRejected | cmd/psql-transporter/main.go:76-84 | An unknown source name fails with `invalid source selection` after the source prompt alone |
| TransporterProperties.DestinationOptionsShape | cmd/psql-transporter/main.go:87-104 | Options are the offered names, all unprotected and not the database source, then `Dump to file` exactly when the source is a database; every such entry is offered |
| TransporterProperties.ProtectedOnlyOffersNoDatabase | cmd/psql-transporter/main.go:90-94 | A configuration of protected entries only, such as the freshly created one, offers no database destination |
| TransporterProperties.WipeRunsAgainstConfirmedEntry | internal/app/copy/psql.go:93-98 | Every wipe of a run is psql resetting the schema on the host and database of a confirmed, unprotected configured entry, with that entry's password |

## Left out

- Process execution is out of scope: starting and waiting for pg_dump and psql, their effect on the databases, and the 30-minute context timeout. A tool call is the oracle `run` from the command to its exit status and captured stderr.
- The dump's progress poller is a goroutine on a 500 ms ticker with quit and done channels. It becomes a loop over the results of reading the file size at each tick, given as input. Timing, cancellation and interleaving are not modelled.
- The import-with-progress call is not among the source files. It is the opaque `imports` capability in `ToolOutcome`, and an arbitrary outcome of the `Import` phase in the transfer. Its percentage text is floating point and is not modelled.
- `Copy.HumanSize` does not model the `%.1f` value: floating point is out of scope. A scaled result carries the size and the unit index instead. The identical copy in cmd/psql-transporter/main.go:250-267 is covered by this one definition.
- The `%q` verb is modelled as plain double quotes. Go's escaping of quotes, backslashes and non-printable characters is not modelled.
- Terminal prompts and spinners (survey, pterm) are not modelled: `Select`, `ConfirmDanger`, `Input`, `InputExistingFile` and `ProgressSteps`. Each prompt appears in the trace with what it shows, and its answer is an input. The existence check of the input-file prompt is part of that answer.
- Printed success messages are not modelled ("Dump written to", "All done", "Aborted.").
- Reading, writing and creating the YAML configuration is not modelled (`EnsureExists`, `Load`, `Save`, the non-empty check). The transfer takes the loaded entry list, which may be empty.
- The version flag, cobra and the process exit codes are not modelled.
- The forwarding wrappers of internal/psql/psql.go are subsumed by the copy methods they call.
- The placeholder engine (internal/app/copy/engine.go), the keyring wrapper and the configuration service are stubs and are not modelled.
- `Transporter.Transfer` is parametric in the phase oracle. `RunPhase` shows how the tool layer carries out one phase, but the command does not call it.
- A configuration entry named `Load from file` cannot be selected as source, because the option shadows it. One named `Dump to file` cannot be selected as destination of a database source. The model does what the code does here.
