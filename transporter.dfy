/** The transfer command (cmd/psql-transporter/main.go): the selection of source and
    destination, their validation, the confirmation of the destructive step, and the
    sequence of export, wipe and import that follows.

    The operator's answers to the prompts are an input (`Answers`); the outcome of
    each phase is an oracle (`phases`), standing for pg_dump and psql run through the
    process runner. The model records what the command does as a trace of events:
    each prompt shown and each phase started. */
module Transporter {
  import opened Common
  import opened Config
  import Copy
  import Ui

  const LoadFromFile := "Load from file"
  const DumpToFile := "Dump to file"
  /** filepath.Join(".", "dump.sql"), which Go cleans to "dump.sql". */
  const DefaultDumpPath := "dump.sql"
  const WipeTitle := "Wiping destination..."

  const InvalidSource := "invalid source selection"
  const InvalidDestination := "invalid destination selection"
  const SameEndpoints := "source and destination cannot be the same"

  /** A name in double quotes, as the `%q` verb prints a plain name. */
  function Quote(s: string): (q: string) {
    "\"" + s + "\""
  }

  /** The error for a protected destination: it names the entry, and it differs
      from every other rejection of a selection. */
  function ProtectedDestination(name: string): (e: Error)
    ensures 13 + |name| <= |e| && e[13..13 + |name|] == name
    ensures e != InvalidSource && e != InvalidDestination && e != SameEndpoints
  {
    var e := "destination " + Quote(name) + " is protected; aborting";
    assert e[0] == 'd' && InvalidSource[0] == 'i' && InvalidDestination[0] == 'i' && SameEndpoints[0] == 's';
    e
  }

  /** The answer to one prompt: a value, or the error the prompt returned. */
  datatype Answer<T> = Given(value: T) | Cancelled(err: Error)

  /** The operator's answers, one per prompt the command may show. */
  datatype Answers = Answers(
    source: Answer<string>,
    inputFile: Answer<string>,
    destination: Answer<string>,
    outputFile: Answer<string>,
    confirm: Answer<bool>)

  /** A prompt shown to the operator. */
  datatype Prompt =
    | ChooseSource(options: seq<string>)
    | EnterInputFile(defaultPath: string)
    | ChooseDestination(options: seq<string>)
    | EnterOutputFile(defaultPath: string)
    | ConfirmWipe(message: string)

  /** One call into the database tools. */
  datatype Phase =
    | Export(src: Source, file: string)
    | Wipe(dst: Source)
    | Import(dst: Source, file: string)

  datatype Event = Ask(prompt: Prompt) | Call(phase: Phase)

  /** How the command ends: success, a clean stop by the operator, or an error. */
  datatype Outcome = Done | Aborted | Failed(error: Error)

  datatype Run = Run(trace: seq<Event>, outcome: Outcome)

  /** The chosen source: a dump file, or a configured database. */
  datatype Endpoint = FromFile(path: string) | FromDb(db: Source)

  /** What follows the prompts: either the command stops, or it runs a plan of phases. */
  datatype Decision = Stop(prompts: seq<Event>, outcome: Outcome) | Go(prompts: seq<Event>, plan: seq<Phase>)

  /** The connection descriptor handed to the tools for a configured entry. */
  function ToConn(s: Source): (c: Copy.Conn)
    ensures c.host == s.host && c.port == s.port && c.user == s.user && c.dbName == s.dbName
    ensures c.password == s.password && c.sslMode == s.sslMode
  {
    Copy.Conn(s.host, s.user, s.password, s.dbName, s.sslMode, s.port)
  }

  // ---------------------------------------------------------------------------
  // Option lists and name resolution

  function Names(entries: seq<Source>): (names: seq<string>)
    ensures |names| == |entries|
    ensures forall k :: 0 <= k < |entries| ==> names[k] == entries[k].name
  {
    seq(|entries|, k requires 0 <= k < |entries| => entries[k].name)
  }

  /** The source options: every configured name in order, then the file option. */
  function SourceOptions(sources: seq<Source>): (options: seq<string>)
    ensures |options| == |sources| + 1 && options[|sources|] == LoadFromFile
    ensures options[..|sources|] == Names(sources)
  {
    Names(sources) + [LoadFromFile]
  }

  /** Whether entry `e` is offered as a destination for source `src`. */
  predicate Offered(e: Source, src: Endpoint) {
    !e.protected && !(src.FromDb? && e.name == src.db.name)
  }

  /** The entries offered as destinations, in configuration order. */
  function Candidates(entries: seq<Source>, src: Endpoint): (offered: seq<Source>)
    ensures |offered| <= |entries|
    ensures forall e :: e in offered <==> e in entries && Offered(e, src)
  {
    if entries == [] then []
    else
      var init := entries[..|entries| - 1];
      var e := entries[|entries| - 1];
      assert entries == init + [e];
      if Offered(e, src) then Candidates(init, src) + [e] else Candidates(init, src)
  }

  /** The offered entries keep configuration order: filtering a list split in two
      gives the offered entries of the first part followed by those of the second. */
  lemma {:induction false} CandidatesInOrder(a: seq<Source>, b: seq<Source>, src: Endpoint)
    ensures Candidates(a + b, src) == Candidates(a, src) + Candidates(b, src)
    decreases |b|
  {
    if b == [] {
      assert a + b == a;
    } else {
      var init, e := b[..|b| - 1], b[|b| - 1];
      var last := if Offered(e, src) then [e] else [];
      assert (a + b)[..|a + b| - 1] == a + init && (a + b)[|a + b| - 1] == e;
      assert Candidates(a + b, src) == Candidates(a + init, src) + last;
      assert Candidates(b, src) == Candidates(init, src) + last;
      CandidatesInOrder(a, init, src);
      assert Candidates(a, src) + (Candidates(init, src) + last) == (Candidates(a, src) + Candidates(init, src)) + last;
    }
  }

  /** The destination options: the names of the offered entries, then the
      dump-to-file option when the source is a database. */
  function DestinationOptions(sources: seq<Source>, src: Endpoint): (options: seq<string>)
    ensures |options| == |Candidates(sources, src)| + (if src.FromDb? then 1 else 0)
    ensures forall k :: 0 <= k < |Candidates(sources, src)| ==> options[k] == Candidates(sources, src)[k].name
    ensures src.FromDb? ==> options[|options| - 1] == DumpToFile
  {
    Names(Candidates(sources, src)) + (if src.FromDb? then [DumpToFile] else [])
  }

  /** The first configured entry called `name`, if there is one. */
  function FirstByName(entries: seq<Source>, name: string): (found: Option<Source>)
    ensures found.None? <==> forall k :: 0 <= k < |entries| ==> entries[k].name != name
    ensures found.Some? ==> exists k :: 0 <= k < |entries| && entries[k] == found.value
                                   && entries[k].name == name
                                   && forall j :: 0 <= j < k ==> entries[j].name != name
  {
    if entries == [] then None
    else if entries[0].name == name then Some(entries[0])
    else
      var rest := FirstByName(entries[1..], name);
      assert forall k :: 1 <= k < |entries| ==> entries[k] == entries[1..][k - 1];
      rest
  }

  /** The confirmation question: it names the destination to be wiped first and the
      origin of the new contents (the file, or the source database) last. */
  function ConfirmMessage(src: Endpoint, dst: Source): (m: string)
    ensures 28 + |dst.name| <= |m| && m[..13] == "DESTINATION \""
    ensures m[13..13 + |dst.name|] == dst.name && m[13 + |dst.name|..28 + |dst.name|] == "\" will be WIPED"
    ensures var origin := if src.FromFile? then src.path else src.db.name;
            |origin| + 13 <= |m| && m[|m| - (|origin| + 13)..] == Quote(origin) + ". Continue?"
  {
    match src
    case FromFile(f) =>
      MessageShape(dst.name, " and replaced with contents of ", f);
      "DESTINATION " + Quote(dst.name) + " will be WIPED" + " and replaced with contents of " + Quote(f) + ". Continue?"
    case FromDb(s) =>
      MessageShape(dst.name, " and replaced with ", s.name);
      "DESTINATION " + Quote(dst.name) + " will be WIPED" + " and replaced with " + Quote(s.name) + ". Continue?"
  }

  /** The layout of a confirmation question, whatever follows the warning. */
  lemma MessageShape(name: string, rest: string, origin: string)
    ensures var m := "DESTINATION " + Quote(name) + " will be WIPED" + rest + Quote(origin) + ". Continue?";
            && 28 + |name| <= |m| && m[..13] == "DESTINATION \""
            && m[13..13 + |name|] == name && m[13 + |name|..28 + |name|] == "\" will be WIPED"
            && |origin| + 13 <= |m| && m[|m| - (|origin| + 13)..] == Quote(origin) + ". Continue?"
  {
  }

  // ---------------------------------------------------------------------------
  // The specification of one run

  /** The phases of a confirmed transfer into database `dst`. */
  function Plan(src: Endpoint, dst: Source): (plan: seq<Phase>)
    ensures |plan| == (if src.FromDb? then 3 else 2)
    ensures src.FromDb? ==> plan[0] == Export(src.db, DefaultDumpPath)
    ensures plan[|plan| - 2] == Wipe(dst)
    ensures plan[|plan| - 1] == Import(dst, if src.FromFile? then src.path else plan[0].file)
  {
    match src
    case FromFile(f) => [Wipe(dst), Import(dst, f)]
    case FromDb(s) => [Export(s, DefaultDumpPath), Wipe(dst), Import(dst, DefaultDumpPath)]
  }

  /** The prompts and checks up to the first phase. */
  function Decide(sources: seq<Source>, answers: Answers): (d: Decision)
    ensures 0 < |d.prompts| && d.prompts[0] == Ask(ChooseSource(SourceOptions(sources)))
    ensures d.Go? ==> 0 < |d.plan| && answers.source.Given?
    ensures d.Go? && answers.source.value == LoadFromFile ==> answers.inputFile.Given?
    ensures d.Go? && answers.source.value != LoadFromFile ==> FirstByName(sources, answers.source.value).Some?
  {
    var t := [Ask(ChooseSource(SourceOptions(sources)))];
    match answers.source
    case Cancelled(e) => Stop(t, Failed(e))
    case Given(sel) =>
      if sel == LoadFromFile then
        var t' := t + [Ask(EnterInputFile(DefaultDumpPath))];
        match answers.inputFile
        case Cancelled(e) => Stop(t', Failed(e))
        case Given(f) => DecideDestination(sources, answers, t', FromFile(f))
      else
        match FirstByName(sources, sel)
        case None => Stop(t, Failed(InvalidSource))
        case Some(s) => DecideDestination(sources, answers, t, FromDb(s))
  }

  function DecideDestination(sources: seq<Source>, answers: Answers, t: seq<Event>, src: Endpoint): (d: Decision)
    ensures |t| < |d.prompts| && d.prompts[..|t| + 1] == t + [Ask(ChooseDestination(DestinationOptions(sources, src)))]
    ensures d.Go? ==> answers.destination.Given?
    ensures d.Go? && src.FromDb? && answers.destination.value == DumpToFile
            ==> answers.outputFile.Given? && d.plan == [Export(src.db, answers.outputFile.value)]
    ensures d.Go? && !(src.FromDb? && answers.destination.value == DumpToFile)
            ==> && answers.confirm == Given(true)
                && FirstByName(sources, answers.destination.value).Some?
                && !FirstByName(sources, answers.destination.value).value.protected
                && d.plan == Plan(src, FirstByName(sources, answers.destination.value).value)
  {
    var t' := t + [Ask(ChooseDestination(DestinationOptions(sources, src)))];
    match answers.destination
    case Cancelled(e) => Stop(t', Failed(e))
    case Given(d) =>
      if src.FromDb? && d == DumpToFile then
        var t'' := t' + [Ask(EnterOutputFile(DefaultDumpPath))];
        match answers.outputFile
        case Cancelled(e) => Stop(t'', Failed(e))
        case Given(p) => Go(t'', [Export(src.db, p)])
      else
        match FirstByName(sources, d)
        case None => Stop(t', Failed(InvalidDestination))
        case Some(dst) =>
          if dst.protected then Stop(t', Failed(ProtectedDestination(dst.name)))
          else if src.FromDb? && src.db.name == dst.name then Stop(t', Failed(SameEndpoints))
          else DecideConfirm(answers, t', src, dst)
  }

  /** The confirmation stage: the plan runs on a yes, a no aborts cleanly, and an
      error of the prompt ends the run with that error. */
  function DecideConfirm(answers: Answers, t: seq<Event>, src: Endpoint, dst: Source): (d: Decision)
    ensures d.prompts == t + [Ask(ConfirmWipe(ConfirmMessage(src, dst)))]
    ensures d.Go? <==> answers.confirm == Given(true)
    ensures d.Go? ==> d.plan == Plan(src, dst)
    ensures d == Stop(d.prompts, Aborted) <==> answers.confirm == Given(false)
    ensures answers.confirm.Cancelled? ==> d == Stop(d.prompts, Failed(answers.confirm.err))
  {
    var t' := t + [Ask(ConfirmWipe(ConfirmMessage(src, dst)))];
    match answers.confirm
    case Cancelled(e) => Stop(t', Failed(e))
    case Given(ok) => if ok then Go(t', Plan(src, dst)) else Stop(t', Aborted)
  }

  /** The phases started and the outcome of running `plan` until the first failure. */
  datatype Progress = Progress(calls: seq<Phase>, outcome: Outcome)

  function RunPhases(plan: seq<Phase>, phases: Phase -> Option<Error>): (p: Progress)
    ensures |p.calls| <= |plan| && p.calls == plan[..|p.calls|]
    ensures forall k :: 0 <= k < |p.calls| - 1 ==> phases(p.calls[k]).None?
    ensures !p.outcome.Aborted?
    ensures p.outcome.Done? <==> p.calls == plan && forall k :: 0 <= k < |plan| ==> phases(plan[k]).None?
    ensures p.outcome.Failed? ==> 0 < |p.calls| && phases(p.calls[|p.calls| - 1]) == Some(p.outcome.error)
  {
    if plan == [] then Progress([], Done)
    else match phases(plan[0])
      case Some(e) => Progress([plan[0]], Failed(e))
      case None =>
        var rest := RunPhases(plan[1..], phases);
        assert forall k :: 1 <= k < |plan| ==> plan[k] == plan[1..][k - 1];
        Progress([plan[0]] + rest.calls, rest.outcome)
  }

  function CallEvents(calls: seq<Phase>): (events: seq<Event>)
    ensures |events| == |calls|
    ensures forall k :: 0 <= k < |calls| ==> events[k] == Call(calls[k])
  {
    seq(|calls|, k requires 0 <= k < |calls| => Call(calls[k]))
  }

  /** The run that a decision leads to. */
  function Finish(d: Decision, phases: Phase -> Option<Error>): (r: Run) {
    match d
    case Stop(t, o) => Run(t, o)
    case Go(t, plan) =>
      var p := RunPhases(plan, phases);
      Run(t + CallEvents(p.calls), p.outcome)
  }

  /** The whole run: the prompts and checks, then the phases of the plan. */
  function TransferSpec(sources: seq<Source>, answers: Answers, phases: Phase -> Option<Error>): (r: Run)
    ensures 0 < |r.trace| && r.trace[0] == Ask(ChooseSource(SourceOptions(sources)))
    ensures r.outcome.Done? ==> r.trace[|r.trace| - 1].Call?
  {
    Finish(Decide(sources, answers), phases)
  }

  /** The outcome of a phase when the tools carry it out: the export by pg_dump and
      the wipe by psql, each through the process runner `run` with the inherited
      environment `inherited`; the import by `imports`, which stands for the
      import-with-progress call of the copy package. */
  function ToolOutcome(inherited: seq<string>, run: Copy.Command -> Copy.ExitStatus,
                       imports: (Source, string) -> Option<Error>, p: Phase): (err: Option<Error>) {
    match p
    case Export(s, f) => Copy.Failure(Copy.DumpFailed, run(Copy.DumpCommand(ToConn(s), f, inherited)))
    case Wipe(d) => Copy.Failure(Copy.WipeFailed, run(Copy.WipeCommand(ToConn(d), inherited)))
    case Import(d, f) => imports(d, f)
  }

  /** Carries out one phase as the command does: the export through the dump with a
      progress callback (whose reported sizes feed the spinner text), the wipe
      through the wipe call, the import through `imports`. */
  method RunPhase(p: Phase, inherited: seq<string>, run: Copy.Command -> Copy.ExitStatus,
                  imports: (Source, string) -> Option<Error>, ticks: seq<Option<int>>)
    returns (err: Option<Error>, reported: seq<int>)
    ensures err == ToolOutcome(inherited, run, imports, p)
    ensures reported == if p.Export? && run(Copy.DumpCommand(ToConn(p.src), p.file, inherited)).Exited?
                        then Copy.Reported(ticks) else []
  {
    reported := [];
    match p
    case Export(s, f) =>
      var cmd;
      cmd, err, reported := Copy.DumpWithProgress(ToConn(s), f, true, inherited, run, ticks);
    case Wipe(d) =>
      var cmd;
      cmd, err := Copy.Wipe(ToConn(d), inherited, run);
    case Import(d, f) =>
      err := imports(d, f);
  }

  // ---------------------------------------------------------------------------
  // The command

  /** Looks up the first entry called `name`, as the search loops of the command do. */
  method FindByName(entries: seq<Source>, name: string) returns (found: Option<Source>)
    ensures found == FirstByName(entries, name)
  {
    var i := 0;
    while i < |entries|
      invariant 0 <= i <= |entries|
      invariant forall k :: 0 <= k < i ==> entries[k].name != name
    {
      if entries[i].name == name {
        return Some(entries[i]);
      }
      i := i + 1;
    }
    return None;
  }

  /** The configured names, in configuration order. */
  method ListNames(sources: seq<Source>) returns (names: seq<string>)
    ensures names == Names(sources)
  {
    var a := new string[|sources|];
    for i := 0 to |sources|
      invariant forall k :: 0 <= k < i ==> a[k] == sources[k].name
    {
      a[i] := sources[i].name;
    }
    names := a[..];
  }

  /** Builds the destination options for a source that is a file (`src` is None)
      or the database `src`. */
  method ListDestinations(sources: seq<Source>, srcIsFile: bool, src: Option<Source>, ghost endpoint: Endpoint)
    returns (options: seq<string>)
    requires srcIsFile <==> endpoint.FromFile?
    requires !srcIsFile ==> src == Some(endpoint.db)
    ensures options == DestinationOptions(sources, endpoint)
  {
    options := [];
    for i := 0 to |sources|
      invariant options == Names(Candidates(sources[..i], endpoint))
    {
      assert sources[..i + 1][..i] == sources[..i];
      var s := sources[i];
      if s.protected {
        continue;
      }
      if !srcIsFile && src.Some? && s.name == src.value.name {
        continue;
      }
      options := options + [s.name];
    }
    assert sources[..|sources|] == sources;
    if !srcIsFile {
      options := options + [DumpToFile];
    }
  }

  /** Runs the wipe of `dst` as the single step of the step runner. */
  method WipeStep(dst: Source, phases: Phase -> Option<Error>) returns (err: Option<Error>)
    ensures err == phases(Wipe(dst))
  {
    var steps := [Ui.Step(WipeTitle, () => phases(Wipe(dst)))];
    assert steps[0].run() == phases(Wipe(dst));
    var invoked, shown;
    err, invoked, shown := Ui.RunSteps(steps);
  }

  /** One run of the command, after the configuration has been loaded. */
  method Transfer(sources: seq<Source>, answers: Answers, phases: Phase -> Option<Error>)
    returns (trace: seq<Event>, outcome: Outcome)
    ensures Run(trace, outcome) == TransferSpec(sources, answers, phases)
  {
    var names := ListNames(sources);
    var namesSrc := names + [LoadFromFile];
    trace := [Ask(ChooseSource(namesSrc))];
    if answers.source.Cancelled? {
      return trace, Failed(answers.source.err);
    }
    var srcSel := answers.source.value;

    var src: Option<Source> := None;
    var srcIsFile := false;
    var srcFile := "";
    if srcSel == LoadFromFile {
      trace := trace + [Ask(EnterInputFile(DefaultDumpPath))];
      if answers.inputFile.Cancelled? {
        return trace, Failed(answers.inputFile.err);
      }
      srcIsFile := true;
      srcFile := answers.inputFile.value;
    } else {
      src := FindByName(sources, srcSel);
      if src.None? {
        return trace, Failed(InvalidSource);
      }
    }
    ghost var endpoint := if srcIsFile then FromFile(srcFile) else FromDb(src.value);
    assert Decide(sources, answers) == DecideDestination(sources, answers, trace, endpoint);
    trace, outcome := SelectDestination(sources, answers, phases, trace, srcIsFile, src, srcFile, endpoint);
  }

  /** From the destination prompt on: picks the destination, validates the pair and
      runs the export-only path or goes on to the confirmation. */
  method SelectDestination(sources: seq<Source>, answers: Answers, phases: Phase -> Option<Error>,
                           t: seq<Event>, srcIsFile: bool, src: Option<Source>, srcFile: string,
                           ghost endpoint: Endpoint)
    returns (trace: seq<Event>, outcome: Outcome)
    requires !srcIsFile ==> src.Some?
    requires endpoint == if srcIsFile then FromFile(srcFile) else FromDb(src.value)
    ensures Run(trace, outcome) == Finish(DecideDestination(sources, answers, t, endpoint), phases)
  {
    var namesDst := ListDestinations(sources, srcIsFile, src, endpoint);
    trace := t + [Ask(ChooseDestination(namesDst))];
    if answers.destination.Cancelled? {
      return trace, Failed(answers.destination.err);
    }
    var dstName := answers.destination.value;

    if !srcIsFile && dstName == DumpToFile {
      trace := trace + [Ask(EnterOutputFile(DefaultDumpPath))];
      if answers.outputFile.Cancelled? {
        return trace, Failed(answers.outputFile.err);
      }
      var filePath := answers.outputFile.value;
      assert RunPhases([Export(src.value, filePath)], phases).calls == [Export(src.value, filePath)];
      trace := trace + [Call(Export(src.value, filePath))];
      var err := phases(Export(src.value, filePath));
      if err.Some? {
        return trace, Failed(err.value);
      }
      return trace, Done;
    }

    var dst := FindByName(sources, dstName);
    if dst.None? {
      return trace, Failed(InvalidDestination);
    }
    if dst.value.protected {
      return trace, Failed(ProtectedDestination(dst.value.name));
    }
    if !srcIsFile && src.value.name == dst.value.name {
      return trace, Failed(SameEndpoints);
    }
    trace, outcome := ConfirmAndRun(answers, phases, trace, srcIsFile, src, srcFile, dst.value, endpoint);
  }

  /** Asks for confirmation naming the destination, then runs the phases. */
  method ConfirmAndRun(answers: Answers, phases: Phase -> Option<Error>,
                       t: seq<Event>, srcIsFile: bool, src: Option<Source>, srcFile: string, dst: Source,
                       ghost endpoint: Endpoint)
    returns (trace: seq<Event>, outcome: Outcome)
    requires !srcIsFile ==> src.Some?
    requires endpoint == if srcIsFile then FromFile(srcFile) else FromDb(src.value)
    ensures Run(trace, outcome) == Finish(DecideConfirm(answers, t, endpoint, dst), phases)
  {
    var confirmMsg;
    if srcIsFile {
      confirmMsg := "DESTINATION " + Quote(dst.name) + " will be WIPED" + " and replaced with contents of "
                    + Quote(srcFile) + ". Continue?";
    } else {
      confirmMsg := "DESTINATION " + Quote(dst.name) + " will be WIPED" + " and replaced with "
                    + Quote(src.value.name) + ". Continue?";
    }
    trace := t + [Ask(ConfirmWipe(confirmMsg))];
    if answers.confirm.Cancelled? {
      return trace, Failed(answers.confirm.err);
    }
    if !answers.confirm.value {
      return trace, Aborted;
    }
    if srcIsFile {
      trace, outcome := FileToDb(phases, trace, srcFile, dst);
    } else {
      trace, outcome := DbToDb(phases, trace, src.value, dst);
    }
  }

  /** Wipes the destination, then imports the dump file into it. */
  method FileToDb(phases: Phase -> Option<Error>, t: seq<Event>, srcFile: string, dst: Source)
    returns (trace: seq<Event>, outcome: Outcome)
    ensures Run(trace, outcome) == Finish(Go(t, Plan(FromFile(srcFile), dst)), phases)
  {
    ghost var plan := Plan(FromFile(srcFile), dst);
    assert plan[1..] == [Import(dst, srcFile)] && plan[1..][1..] == [];
    var wipeErr := WipeStep(dst, phases);
    trace := t + [Call(Wipe(dst))];
    if wipeErr.Some? {
      return trace, Failed(wipeErr.value);
    }
    trace := trace + [Call(Import(dst, srcFile))];
    assert CallEvents(plan) == [Call(Wipe(dst)), Call(Import(dst, srcFile))];
    var err := phases(Import(dst, srcFile));
    assert RunPhases(plan[1..], phases).calls == [Import(dst, srcFile)];
    assert RunPhases(plan, phases).calls == plan;
    if err.Some? {
      assert RunPhases(plan, phases).outcome == Failed(err.value);
      return trace, Failed(err.value);
    }
    return trace, Done;
  }

  /** Exports the source to the default dump file, wipes the destination, then
      imports the dump into it. */
  method DbToDb(phases: Phase -> Option<Error>, t: seq<Event>, src: Source, dst: Source)
    returns (trace: seq<Event>, outcome: Outcome)
    ensures Run(trace, outcome) == Finish(Go(t, Plan(FromDb(src), dst)), phases)
  {
    ghost var plan := Plan(FromDb(src), dst);
    assert plan[1..] == [Wipe(dst), Import(dst, DefaultDumpPath)];
    assert plan[1..][1..] == [Import(dst, DefaultDumpPath)] && plan[1..][1..][1..] == [];
    trace := t + [Call(Export(src, DefaultDumpPath))];
    var err := phases(Export(src, DefaultDumpPath));
    if err.Some? {
      assert RunPhases(plan, phases) == Progress([plan[0]], Failed(err.value));
      return trace, Failed(err.value);
    }
    var wipeErr := WipeStep(dst, phases);
    trace := trace + [Call(Wipe(dst))];
    if wipeErr.Some? {
      assert RunPhases(plan[1..], phases) == Progress([Wipe(dst)], Failed(wipeErr.value));
      return trace, Failed(wipeErr.value);
    }
    trace := trace + [Call(Import(dst, DefaultDumpPath))];
    err := phases(Import(dst, DefaultDumpPath));
    ghost var last := RunPhases(plan[1..][1..], phases);
    assert last.calls == [Import(dst, DefaultDumpPath)];
    assert RunPhases(plan, phases).calls == plan;
    assert RunPhases(plan, phases).outcome == last.outcome;
    assert CallEvents(plan) == [Call(Export(src, DefaultDumpPath)), Call(Wipe(dst)), Call(Import(dst, DefaultDumpPath))];
    if err.Some? {
      assert last.outcome == Failed(err.value);
      return trace, Failed(err.value);
    }
    return trace, Done;
  }
}
