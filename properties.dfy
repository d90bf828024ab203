/** What the transfer command guarantees, proved about its specification
    `Transporter.TransferSpec`, which `Transporter.Transfer` implements. */
module TransporterProperties {
  import opened Common
  import opened Config
  import opened Transporter
  import Copy

  // ---------------------------------------------------------------------------
  // Facts about the decision stage

  predicate OnlyPrompts(t: seq<Event>) {
    forall k :: 0 <= k < |t| ==> t[k].Ask?
  }

  predicate IsConfirmation(e: Event) {
    e.Ask? && e.prompt.ConfirmWipe?
  }

  /** The facts every plan obeys: an export comes first and reads the configured
      entry the operator selected as source; a wipe is always followed by the import
      into the same entry; an import always follows the wipe of its entry; the
      destination of a wipe or import is a configured, unprotected entry, other than
      the source, that the operator has just confirmed; and an import reads the file
      the operator selected as source, or the default dump file the export of the
      same run has written. */
  predicate SafePlan(sources: seq<Source>, answers: Answers, t: seq<Event>, plan: seq<Phase>) {
    && 0 < |plan|
    && (forall k :: 0 <= k < |plan| && plan[k].Export? ==> k == 0 && plan[k].src in sources)
    && (forall k :: 0 <= k < |plan| && plan[k].Wipe? ==>
          k + 1 < |plan| && plan[k + 1].Import? && plan[k + 1].dst == plan[k].dst)
    && (forall k :: 0 <= k < |plan| && plan[k].Import? ==> 0 < k && plan[k - 1] == Wipe(plan[k].dst))
    && (forall k :: 0 <= k < |plan| && !plan[k].Export? ==>
          && plan[k].dst in sources && !plan[k].dst.protected
          && (plan[0].Export? ==> plan[0].src.name != plan[k].dst.name)
          && answers.confirm == Given(true)
          && 0 < |t| && IsConfirmation(t[|t| - 1]))
    && (answers.source == Given(LoadFromFile) ==>
          forall k :: 0 <= k < |plan| ==>
            !plan[k].Export? && (plan[k].Import? ==> answers.inputFile == Given(plan[k].file)))
    && (answers.source != Given(LoadFromFile) ==> plan[0].Export? && answers.source == Given(plan[0].src.name))
    && (forall k :: 0 <= k < |plan| && plan[k].Import? && plan[0].Export? ==>
          plan[0].file == DefaultDumpPath && plan[k].file == DefaultDumpPath)
  }

  /** Facts about a decision: it shows only prompts, at most one confirmation and
      only as the last prompt; what follows the confirmation is decided by the
      answer to it; it stops with Done never; and the plan it runs is safe. */
  predicate DecisionOk(sources: seq<Source>, answers: Answers, d: Decision) {
    && OnlyPrompts(d.prompts)
    && (forall k :: 0 <= k < |d.prompts| - 1 ==> !IsConfirmation(d.prompts[k]))
    && (0 < |d.prompts| && IsConfirmation(d.prompts[|d.prompts| - 1]) ==>
          match answers.confirm
          case Given(ok) => if ok then d.Go? else d.Stop? && d.outcome == Aborted
          case Cancelled(e) => d == Stop(d.prompts, Failed(e)))
    && (d.Stop? ==> !d.outcome.Done?)
    && (d.Stop? && d.outcome == Aborted ==> 0 < |d.prompts| && IsConfirmation(d.prompts[|d.prompts| - 1]))
    && (d.Go? ==> SafePlan(sources, answers, d.prompts, d.plan))
  }

  predicate NoConfirmation(t: seq<Event>) {
    forall k :: 0 <= k < |t| ==> !IsConfirmation(t[k])
  }

  lemma ConfirmFacts(sources: seq<Source>, answers: Answers, t: seq<Event>, src: Endpoint, dst: Source)
    requires OnlyPrompts(t) && NoConfirmation(t)
    requires dst in sources && Offered(dst, src)
    requires src.FromDb? ==> src.db in sources
    requires SelectsSource(sources, answers, src)
    ensures DecisionOk(sources, answers, DecideConfirm(answers, t, src, dst))
  {
  }

  lemma DestinationFacts(sources: seq<Source>, answers: Answers, t: seq<Event>, src: Endpoint)
    requires OnlyPrompts(t) && NoConfirmation(t)
    requires src.FromDb? ==> src.db in sources
    requires SelectsSource(sources, answers, src)
    ensures DecisionOk(sources, answers, DecideDestination(sources, answers, t, src))
    ensures |t| <= |DecideDestination(sources, answers, t, src).prompts|
    ensures DecideDestination(sources, answers, t, src).prompts[..|t|] == t
  {
    var t' := t + [Ask(ChooseDestination(DestinationOptions(sources, src)))];
    assert OnlyPrompts(t') && NoConfirmation(t');
    assert forall m :: (t' + [m])[..|t|] == t;
    match answers.destination
    case Cancelled(_) =>
    case Given(d) =>
      if src.FromDb? && d == DumpToFile {
        var t'' := t' + [Ask(EnterOutputFile(DefaultDumpPath))];
        assert OnlyPrompts(t'') && NoConfirmation(t'');
        if answers.outputFile.Given? {
          var plan := [Export(src.db, answers.outputFile.value)];
          assert DecideDestination(sources, answers, t, src) == Go(t'', plan);
          assert SafePlan(sources, answers, t'', plan);
        }
      } else {
        match FirstByName(sources, d)
        case None =>
        case Some(dst) =>
          if !dst.protected && !(src.FromDb? && src.db.name == dst.name) {
            ConfirmFacts(sources, answers, t', src, dst);
          }
      }
  }

  /** A decision that stops after prompts without a confirmation, with an error. */
  lemma StopFacts(sources: seq<Source>, answers: Answers, t: seq<Event>, e: Error)
    requires OnlyPrompts(t) && NoConfirmation(t)
    ensures DecisionOk(sources, answers, Stop(t, Failed(e)))
  {
  }

  /** The decision stage starts with the source prompt and obeys `DecisionOk`. */
  lemma DecideFacts(sources: seq<Source>, answers: Answers)
    ensures DecisionOk(sources, answers, Decide(sources, answers))
    ensures 0 < |Decide(sources, answers).prompts|
    ensures Decide(sources, answers).prompts[0] == Ask(ChooseSource(SourceOptions(sources)))
  {
    var t := [Ask(ChooseSource(SourceOptions(sources)))];
    assert OnlyPrompts(t) && NoConfirmation(t);
    match answers.source
    case Cancelled(e) =>
      StopFacts(sources, answers, t, e);
    case Given(sel) =>
      if sel == LoadFromFile {
        var t' := t + [Ask(EnterInputFile(DefaultDumpPath))];
        assert OnlyPrompts(t') && NoConfirmation(t');
        match answers.inputFile
        case Cancelled(e) =>
          StopFacts(sources, answers, t', e);
        case Given(f) =>
          assert Decide(sources, answers) == DecideDestination(sources, answers, t', FromFile(f));
          DestinationFacts(sources, answers, t', FromFile(f));
          assert t'[..1] == t;
      } else {
        match FirstByName(sources, sel)
        case None =>
          StopFacts(sources, answers, t, InvalidSource);
        case Some(s) =>
          assert Decide(sources, answers) == DecideDestination(sources, answers, t, FromDb(s));
          DestinationFacts(sources, answers, t, FromDb(s));
      }
  }

  /** How the trace of a run is laid out: the prompts of the decision stage, then
      one call per phase started. */
  lemma TraceLayout(sources: seq<Source>, answers: Answers, phases: Phase -> Option<Error>)
    ensures var d := Decide(sources, answers);
            var r := TransferSpec(sources, answers, phases);
            && |d.prompts| <= |r.trace| && r.trace[..|d.prompts|] == d.prompts
            && (d.Stop? ==> r == Run(d.prompts, d.outcome))
            && (d.Go? ==> r.trace[|d.prompts|..] == CallEvents(RunPhases(d.plan, phases).calls)
                          && r.outcome == RunPhases(d.plan, phases).outcome)
  {
    var d := Decide(sources, answers);
    if d.Go? {
      var p := RunPhases(d.plan, phases);
      var tr := d.prompts + CallEvents(p.calls);
      assert tr[..|d.prompts|] == d.prompts;
      assert tr[|d.prompts|..] == CallEvents(p.calls);
    }
  }

  // ---------------------------------------------------------------------------
  // Safety of every run

  /** Where a phase call sits in the trace: after all prompts, at the position of
      its phase in the plan. */
  lemma CallInPlan(sources: seq<Source>, answers: Answers, phases: Phase -> Option<Error>, k: nat)
    ensures var d := Decide(sources, answers);
            var r := TransferSpec(sources, answers, phases);
            k < |r.trace| && r.trace[k].Call? ==>
            && d.Go? && |d.prompts| <= k && k - |d.prompts| < |RunPhases(d.plan, phases).calls|
            && r.trace[k].phase == d.plan[k - |d.prompts|]
            && r.trace[k].phase == RunPhases(d.plan, phases).calls[k - |d.prompts|]
  {
    DecideFacts(sources, answers);
    TraceLayout(sources, answers, phases);
    var d := Decide(sources, answers);
    var r := TransferSpec(sources, answers, phases);
    if k < |r.trace| && r.trace[k].Call? && k >= |d.prompts| {
      var i := k - |d.prompts|;
      var calls := RunPhases(d.plan, phases).calls;
      assert r.trace[|d.prompts|..][i] == Call(calls[i]);
    }
  }

  /** A wipe or an import only ever reaches a configured, unprotected entry other
      than the database source, and only after the operator confirmed the wipe; an
      import reads the chosen dump file, or the default dump file when the source
      is a database. */
  lemma DestinationIsSafe(sources: seq<Source>, answers: Answers, phases: Phase -> Option<Error>, k: nat)
    ensures var r := TransferSpec(sources, answers, phases);
            k < |r.trace| && r.trace[k].Call? ==> SafeCall(sources, answers, r.trace, k)
  {
    var r := TransferSpec(sources, answers, phases);
    if k < |r.trace| && r.trace[k].Call? {
      CallIsSafe(sources, answers, phases, k);
    }
  }

  /** The facts `DestinationIsSafe` states about the phase called at position `k`. */
  predicate SafeCall(sources: seq<Source>, answers: Answers, trace: seq<Event>, k: nat)
    requires k < |trace| && trace[k].Call?
  {
    var p := trace[k].phase;
    && (p.Export? ==> p.src in sources)
    && (!p.Export? ==> && p.dst in sources && !p.dst.protected && answers.confirm == Given(true)
                       && exists j :: 0 <= j < k && IsConfirmation(trace[j]))
    && (!p.Export? && answers.source != Given(LoadFromFile) ==>
          answers.source.Given? && p.dst.name != answers.source.value)
    && (p.Import? ==> if answers.source == Given(LoadFromFile) then answers.inputFile == Given(p.file)
                      else p.file == DefaultDumpPath)
  }

  lemma CallIsSafe(sources: seq<Source>, answers: Answers, phases: Phase -> Option<Error>, k: nat)
    requires k < |TransferSpec(sources, answers, phases).trace|
    requires TransferSpec(sources, answers, phases).trace[k].Call?
    ensures SafeCall(sources, answers, TransferSpec(sources, answers, phases).trace, k)
  {
    CallInPlan(sources, answers, phases, k);
    DecideFacts(sources, answers);
    TraceLayout(sources, answers, phases);
    var d := Decide(sources, answers);
    var r := TransferSpec(sources, answers, phases);
    var i := k - |d.prompts|;
    assert SafePlan(sources, answers, d.prompts, d.plan);
    var p := d.plan[i];
    if p.Export? {
      assert p.src in sources;
    } else {
      assert p.dst in sources && !p.dst.protected && answers.confirm == Given(true);
      var j := |d.prompts| - 1;
      assert r.trace[..|d.prompts|][j] == r.trace[j];
      assert IsConfirmation(r.trace[j]);
    }
  }

  /** A phase that fails ends the run: it is the last event of the trace, no later
      phase starts, and its error is what the command returns. */
  lemma FailedPhaseEndsRun(sources: seq<Source>, answers: Answers, phases: Phase -> Option<Error>, k: nat)
    ensures var r := TransferSpec(sources, answers, phases);
            k < |r.trace| && r.trace[k].Call? && phases(r.trace[k].phase).Some? ==>
            k == |r.trace| - 1 && r.outcome == Failed(phases(r.trace[k].phase).value)
  {
    var r := TransferSpec(sources, answers, phases);
    if k < |r.trace| && r.trace[k].Call? && phases(r.trace[k].phase).Some? {
      CallInPlan(sources, answers, phases, k);
      TraceLayout(sources, answers, phases);
      var d := Decide(sources, answers);
      var p := RunPhases(d.plan, phases);
      var i := k - |d.prompts|;
      assert |r.trace| == |d.prompts| + |p.calls| by {
        assert |r.trace[|d.prompts|..]| == |p.calls|;
      }
      assert i == |p.calls| - 1;
    }
  }

  /** The key safety property: when the export fails, it is the only phase of the
      run; in particular the destination is never wiped. */
  lemma NoWipeAfterFailedExport(sources: seq<Source>, answers: Answers, phases: Phase -> Option<Error>, i: nat, j: nat)
    ensures var r := TransferSpec(sources, answers, phases);
            && i < |r.trace| && r.trace[i].Call? && r.trace[i].phase.Export? && phases(r.trace[i].phase).Some?
            && j < |r.trace| && r.trace[j].Call?
            ==> j == i && !r.trace[j].phase.Wipe?
  {
    var r := TransferSpec(sources, answers, phases);
    if && i < |r.trace| && r.trace[i].Call? && r.trace[i].phase.Export? && phases(r.trace[i].phase).Some?
       && j < |r.trace| && r.trace[j].Call?
    {
      FailedPhaseEndsRun(sources, answers, phases, i);
      CallInPlan(sources, answers, phases, i);
      CallInPlan(sources, answers, phases, j);
      DecideFacts(sources, answers);
      var d := Decide(sources, answers);
      assert SafePlan(sources, answers, d.prompts, d.plan);
      assert i - |d.prompts| == 0;
    }
  }

  /** Every aborted run stopped at the confirmation the operator declined, and
      started no phase. */
  lemma AbortIsClean(sources: seq<Source>, answers: Answers, phases: Phase -> Option<Error>)
    requires TransferSpec(sources, answers, phases).outcome == Aborted
    ensures var r := TransferSpec(sources, answers, phases);
            && OnlyPrompts(r.trace) && answers.confirm == Given(false)
            && 0 < |r.trace| && IsConfirmation(r.trace[|r.trace| - 1])
  {
    DecideFacts(sources, answers);
    TraceLayout(sources, answers, phases);
  }

  /** Declining the confirmation ends the run there, cleanly: no phase starts and
      the command returns without error. */
  lemma DeclineAborts(sources: seq<Source>, answers: Answers, phases: Phase -> Option<Error>, k: nat)
    requires k < |TransferSpec(sources, answers, phases).trace|
    requires IsConfirmation(TransferSpec(sources, answers, phases).trace[k])
    requires answers.confirm == Given(false)
    ensures var r := TransferSpec(sources, answers, phases);
            r.outcome == Aborted && OnlyPrompts(r.trace) && k == |r.trace| - 1
  {
    DecideFacts(sources, answers);
    TraceLayout(sources, answers, phases);
    var d := Decide(sources, answers);
    var r := TransferSpec(sources, answers, phases);
    if k >= |d.prompts| {
      CallInPlan(sources, answers, phases, k);
    }
    assert r.trace[..|d.prompts|][k] == r.trace[k];
    assert k == |d.prompts| - 1;
  }

  /** A run succeeds exactly when every phase of its plan ran, in plan order, and
      succeeded. */
  lemma DoneCompletesPlan(sources: seq<Source>, answers: Answers, phases: Phase -> Option<Error>)
    ensures var d := Decide(sources, answers);
            var r := TransferSpec(sources, answers, phases);
            r.outcome == Done <==>
              && d.Go?
              && r.trace == d.prompts + CallEvents(d.plan)
              && forall k :: 0 <= k < |d.plan| ==> phases(d.plan[k]).None?
  {
  }

  // ---------------------------------------------------------------------------
  // The three kinds of transfer

  /** The prompts before the destination prompt, for a source resolved to `src`. */
  function PromptsBefore(sources: seq<Source>, src: Endpoint): (t: seq<Event>) {
    match src
    case FromFile(_) => [Ask(ChooseSource(SourceOptions(sources))), Ask(EnterInputFile(DefaultDumpPath))]
    case FromDb(_) => [Ask(ChooseSource(SourceOptions(sources)))]
  }

  /** Whether the source answers select `src`: the file option and a path, or the
      name of the configured entry `src` is the first of. */
  predicate SelectsSource(sources: seq<Source>, answers: Answers, src: Endpoint) {
    match src
    case FromFile(f) => answers.source == Given(LoadFromFile) && answers.inputFile == Given(f)
    case FromDb(s) =>
      answers.source.Given? && answers.source.value != LoadFromFile
      && FirstByName(sources, answers.source.value) == Some(s)
  }

  lemma SourceSelected(sources: seq<Source>, answers: Answers, src: Endpoint)
    requires SelectsSource(sources, answers, src)
    ensures Decide(sources, answers) == DecideDestination(sources, answers, PromptsBefore(sources, src), src)
  {
    var t := [Ask(ChooseSource(SourceOptions(sources)))];
    match src
    case FromFile(f) =>
      assert PromptsBefore(sources, src) == t + [Ask(EnterInputFile(DefaultDumpPath))];
    case FromDb(s) =>
      assert PromptsBefore(sources, src) == t;
  }

  /** Database to file: the output path is asked for and the export is the only
      phase, with no confirmation prompt. */
  lemma DbToFileRun(sources: seq<Source>, answers: Answers, phases: Phase -> Option<Error>, s: Source, path: string)
    requires SelectsSource(sources, answers, FromDb(s))
    requires answers.destination == Given(DumpToFile) && answers.outputFile == Given(path)
    ensures TransferSpec(sources, answers, phases).trace
         == [Ask(ChooseSource(SourceOptions(sources))),
             Ask(ChooseDestination(DestinationOptions(sources, FromDb(s)))),
             Ask(EnterOutputFile(DefaultDumpPath)),
             Call(Export(s, path))]
    ensures TransferSpec(sources, answers, phases).outcome
         == if phases(Export(s, path)).Some? then Failed(phases(Export(s, path)).value) else Done
  {
    SourceSelected(sources, answers, FromDb(s));
    assert CallEvents([Export(s, path)]) == [Call(Export(s, path))];
  }

  /** The prompts up to and including the confirmation of a wipe of `dst`. */
  function ConfirmedPrompts(sources: seq<Source>, src: Endpoint, dst: Source): (t: seq<Event>) {
    PromptsBefore(sources, src) + [Ask(ChooseDestination(DestinationOptions(sources, src))),
                                   Ask(ConfirmWipe(ConfirmMessage(src, dst)))]
  }

  /** File to database, and database to database: once the destination resolves to
      an unprotected entry other than the source and the operator confirms, the
      phases are wipe then import of the file (file source), or export to the
      default dump file, wipe, then import of that file (database source), run in
      that order until the first failure. */
  lemma ConfirmedRun(sources: seq<Source>, answers: Answers, phases: Phase -> Option<Error>,
                     src: Endpoint, name: string, dst: Source)
    requires SelectsSource(sources, answers, src)
    requires answers.destination == Given(name) && !(src.FromDb? && name == DumpToFile)
    requires FirstByName(sources, name) == Some(dst) && !dst.protected
    requires !(src.FromDb? && src.db.name == dst.name)
    requires answers.confirm == Given(true)
    ensures src.FromFile? ==> Plan(src, dst) == [Wipe(dst), Import(dst, src.path)]
    ensures src.FromDb? ==> Plan(src, dst) == [Export(src.db, DefaultDumpPath), Wipe(dst), Import(dst, DefaultDumpPath)]
    ensures var r := TransferSpec(sources, answers, phases);
            var p := RunPhases(Plan(src, dst), phases);
            r.trace == ConfirmedPrompts(sources, src, dst) + CallEvents(p.calls) && r.outcome == p.outcome
  {
    SourceSelected(sources, answers, src);
    var t := PromptsBefore(sources, src) + [Ask(ChooseDestination(DestinationOptions(sources, src)))];
    assert t + [Ask(ConfirmWipe(ConfirmMessage(src, dst)))] == ConfirmedPrompts(sources, src, dst);
  }

  /** A destination that does not resolve, a protected destination, and a
      database destination named like the database source are each rejected with
      their own error, right after the destination prompt: before any confirmation
      is asked and before any phase runs. */
  lemma DestinationRejected(sources: seq<Source>, answers: Answers, phases: Phase -> Option<Error>,
                            src: Endpoint, name: string)
    requires SelectsSource(sources, answers, src)
    requires answers.destination == Given(name) && !(src.FromDb? && name == DumpToFile)
    ensures var r := TransferSpec(sources, answers, phases);
            var found := FirstByName(sources, name);
            && (found.None? ==> r.outcome == Failed(InvalidDestination))
            && (found.Some? && found.value.protected ==> r.outcome == Failed(ProtectedDestination(found.value.name)))
            && (found.Some? && !found.value.protected && src.FromDb? && src.db.name == found.value.name
                ==> r.outcome == Failed(SameEndpoints))
            && (found.None? || found.value.protected || (src.FromDb? && src.db.name == found.value.name)
                ==> r.trace == PromptsBefore(sources, src) + [Ask(ChooseDestination(DestinationOptions(sources, src)))])
  {
    SourceSelected(sources, answers, src);
  }

  /** A source name that matches no entry is rejected before any other prompt. */
  lemma InvalidSourceRejected(sources: seq<Source>, answers: Answers, phases: Phase -> Option<Error>, name: string)
    requires answers.source == Given(name) && name != LoadFromFile
    requires FirstByName(sources, name).None?
    ensures TransferSpec(sources, answers, phases)
         == Run([Ask(ChooseSource(SourceOptions(sources)))], Failed(InvalidSource))
  {
  }

  // ---------------------------------------------------------------------------
  // The option lists

  /** The destination prompt lists the names of the offered entries, all of them
      unprotected configured entries not named like a database source, and ends with
      the dump-to-file option exactly when the source is a database. */
  lemma DestinationOptionsShape(sources: seq<Source>, src: Endpoint)
    ensures var options := DestinationOptions(sources, src);
            var offered := Candidates(sources, src);
            && |options| == |offered| + (if src.FromDb? then 1 else 0)
            && (src.FromDb? ==> options[|options| - 1] == DumpToFile)
            && (forall k :: 0 <= k < |offered| ==>
                  && options[k] == offered[k].name && offered[k] in sources && !offered[k].protected
                  && (src.FromDb? ==> offered[k].name != src.db.name))
            && (forall e :: e in sources && !e.protected && !(src.FromDb? && e.name == src.db.name) ==> e in offered)
  {
  }

  /** A configuration whose entries are all protected offers no database as
      destination; the freshly created configuration is one. */
  lemma ProtectedOnlyOffersNoDatabase(sources: seq<Source>, src: Endpoint)
    requires forall e :: e in sources ==> e.protected
    ensures Candidates(sources, src) == []
    ensures DestinationOptions(DefaultSources(), FromFile("")) == []
  {
  }

  // ---------------------------------------------------------------------------
  // The tools behind the phases

  /** Every wipe the command runs is carried out (see `ToolOutcome`) as psql
      executing the schema reset against the host and database of a configured,
      unprotected entry the operator confirmed, with that entry's password. */
  lemma WipeRunsAgainstConfirmedEntry(sources: seq<Source>, answers: Answers, phases: Phase -> Option<Error>,
                                      inherited: seq<string>, k: nat)
    ensures var r := TransferSpec(sources, answers, phases);
            k < |r.trace| && r.trace[k].Call? && r.trace[k].phase.Wipe? ==>
            var dst := r.trace[k].phase.dst;
            var cmd := Copy.WipeCommand(ToConn(dst), inherited);
            && dst in sources && !dst.protected && answers.confirm == Given(true)
            && cmd.program == Copy.Psql
            && cmd.args[0] == "-h" && cmd.args[1] == dst.host
            && cmd.args[6] == "-d" && cmd.args[7] == dst.dbName
            && cmd.args[8..] == ["-c", Copy.WipeStatement]
            && Copy.Lookup(cmd.env, "PGPASSWORD") == Some(dst.password)
  {
    var r := TransferSpec(sources, answers, phases);
    if k < |r.trace| && r.trace[k].Call? && r.trace[k].phase.Wipe? {
      CallIsSafe(sources, answers, phases, k);
      Copy.WipeAddressesTarget(ToConn(r.trace[k].phase.dst), inherited);
    }
  }
}
