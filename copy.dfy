/** The process runner for the PostgreSQL command-line tools
    (internal/app/copy/psql.go): the connection descriptor, the argument lists
    and environment handed to pg_dump and psql, the rule that turns a failed
    process into the returned error, and the human-readable byte size.
    Starting and waiting for a process is an oracle `run`, which maps the
    command to start to the way it ended. */
module Copy {
  import opened Common
  import opened Format

  /** The addressing and credential fields of one database instance. */
  datatype Conn = Conn(host: string, user: string, password: string, dbName: string, sslMode: string, port: int)

  /** A child process to start: program, argument list and complete environment. */
  datatype Command = Command(program: string, args: seq<string>, env: seq<string>)

  /** How one child process ended, as far as the runner can tell. */
  datatype ExitStatus =
    | StartFailed(err: Error)                            // the process could not be started
    | Exited(waitErr: Option<Error>, stderr: string)     // the process ran; its exit error and captured error stream

  const PgDump := "pg_dump"
  const Psql := "psql"

  /** The statement the wipe runs against the destination. */
  const WipeStatement := "DROP SCHEMA public CASCADE; CREATE SCHEMA public;"

  const DumpFailed := "pg_dump failed"
  const WipeFailed := "psql wipe failed"
  const ImportFailed := "psql import failed"

  // ---------------------------------------------------------------------------
  // Environment

  /** The environment of every child process: the inherited environment, then the
      password, then the TLS mode when one is configured. */
  function Env(c: Conn, inherited: seq<string>): (env: seq<string>)
    ensures |env| == |inherited| + (if c.sslMode == "" then 1 else 2)
    ensures env[..|inherited|] == inherited
    ensures env[|inherited|] == "PGPASSWORD=" + c.password
    ensures c.sslMode != "" ==> env[|inherited| + 1] == "PGSSLMODE=" + c.sslMode
  {
    var env := inherited + ["PGPASSWORD=" + c.password];
    if c.sslMode != "" then env + ["PGSSLMODE=" + c.sslMode] else env
  }

  /** Whether the environment entry `entry` ("KEY=value") sets the variable `key`. */
  predicate Sets(entry: string, key: string) {
    |key| < |entry| && entry[..|key|] == key && entry[|key|] == '='
  }

  /** The value a child process sees for `key`: when an environment holds the same
      key more than once, Go's os/exec passes on only the last of them. */
  function Lookup(env: seq<string>, key: string): (v: Option<string>)
    ensures v.None? <==> forall k :: 0 <= k < |env| ==> !Sets(env[k], key)
  {
    if env == [] then None
    else if Sets(env[|env| - 1], key) then Some(env[|env| - 1][|key| + 1..])
    else Lookup(env[..|env| - 1], key)
  }

  /** The value seen is that of the last entry setting the key. */
  lemma {:induction false} LookupIsLastSetting(env: seq<string>, key: string)
    ensures Lookup(env, key).Some? ==>
              exists k :: && 0 <= k < |env| && Sets(env[k], key)
                          && Lookup(env, key).value == env[k][|key| + 1..]
                          && forall j :: k < j < |env| ==> !Sets(env[j], key)
    decreases |env|
  {
    if env != [] && !Sets(env[|env| - 1], key) {
      var init := env[..|env| - 1];
      LookupIsLastSetting(init, key);
      if Lookup(init, key).Some? {
        var k :| && 0 <= k < |init| && Sets(init[k], key)
                 && Lookup(init, key).value == init[k][|key| + 1..]
                 && forall j :: k < j < |init| ==> !Sets(init[j], key);
        assert forall j :: k < j < |init| ==> init[j] == env[j];
        assert env[k] == init[k];
      }
    }
  }

  lemma LookupAfterSet(env: seq<string>, key: string, value: string)
    ensures Lookup(env + [key + "=" + value], key) == Some(value)
  {
  }

  lemma LookupAfterOther(env: seq<string>, entry: string, key: string)
    requires !Sets(entry, key)
    ensures Lookup(env + [entry], key) == Lookup(env, key)
  {
  }

  /** The child process sees the configured password, whatever the inherited
      environment holds. */
  lemma EnvSetsPassword(c: Conn, inherited: seq<string>)
    ensures Lookup(Env(c, inherited), "PGPASSWORD") == Some(c.password)
  {
    var withPw := inherited + ["PGPASSWORD=" + c.password];
    LookupAfterSet(inherited, "PGPASSWORD", c.password);
    if c.sslMode != "" {
      var ssl := "PGSSLMODE=" + c.sslMode;
      assert ssl[2] != "PGPASSWORD"[2];
      LookupAfterOther(withPw, ssl, "PGPASSWORD");
    }
  }

  /** The child process sees the configured TLS mode when one is set, and the
      inherited one otherwise. */
  lemma EnvSetsSslMode(c: Conn, inherited: seq<string>)
    ensures Lookup(Env(c, inherited), "PGSSLMODE")
         == if c.sslMode != "" then Some(c.sslMode) else Lookup(inherited, "PGSSLMODE")
  {
    var pw := "PGPASSWORD=" + c.password;
    assert pw[2] != "PGSSLMODE"[2];
    LookupAfterOther(inherited, pw, "PGSSLMODE");
    if c.sslMode != "" {
      LookupAfterSet(inherited + [pw], "PGSSLMODE", c.sslMode);
    }
  }

  /** Every other variable reaches the child process as inherited. */
  lemma EnvKeepsOtherVariables(c: Conn, inherited: seq<string>, key: string)
    requires key != "PGPASSWORD" && key != "PGSSLMODE" && '=' !in key
    ensures Lookup(Env(c, inherited), key) == Lookup(inherited, key)
  {
    var pw := "PGPASSWORD=" + c.password;
    NotSetByOther("PGPASSWORD", c.password, key);
    LookupAfterOther(inherited, pw, key);
    if c.sslMode != "" {
      NotSetByOther("PGSSLMODE", c.sslMode, key);
      LookupAfterOther(inherited + [pw], "PGSSLMODE=" + c.sslMode, key);
    }
  }

  /** An entry "NAME=value" sets no variable other than NAME whose name contains no '='. */
  lemma NotSetByOther(name: string, value: string, key: string)
    requires '=' !in name && '=' !in key && key != name
    ensures !Sets(name + "=" + value, key)
  {
    var e := name + "=" + value;
    if |key| < |name| {
      assert e[|key|] == name[|key|] && name[|key|] in name;
    } else if |key| == |name| {
      assert e[..|name|] == name;
    } else {
      assert e[|name|] == '=';
    }
  }

  // ---------------------------------------------------------------------------
  // Argument lists

  /** The arguments that address the database: host, port, user and database name. */
  function BaseArgs(c: Conn): (args: seq<string>)
    ensures |args| == 8
    ensures args[0] == "-h" && args[1] == c.host
    ensures args[2] == "-p" && ParseDecimal(args[3]) == Some(c.port)
    ensures args[4] == "-U" && args[5] == c.user
    ensures args[6] == "-d" && args[7] == c.dbName
  {
    DecimalRoundTrip(c.port);
    ["-h", c.host, "-p", Decimal(c.port), "-U", c.user, "-d", c.dbName]
  }

  /** Two descriptors give the same connection arguments exactly when they agree on
      host, port, user and database name. */
  lemma BaseArgsIdentifyTarget(a: Conn, b: Conn)
    ensures BaseArgs(a) == BaseArgs(b)
        <==> a.host == b.host && a.port == b.port && a.user == b.user && a.dbName == b.dbName
  {
  }

  function DumpFlags(outFile: string): (flags: seq<string>) {
    ["--no-owner", "--no-privileges", "-F", "p", "-f", outFile]
  }

  function WipeFlags(): (flags: seq<string>) {
    ["-c", WipeStatement]
  }

  function ImportFlags(file: string): (flags: seq<string>) {
    ["-f", file]
  }

  /** pg_dump writing a plain-format dump, without ownership or privilege statements, to `outFile`. */
  function DumpCommand(src: Conn, outFile: string, inherited: seq<string>): (cmd: Command)
    ensures cmd.program == PgDump && cmd.env == Env(src, inherited)
    ensures |cmd.args| == 14 && cmd.args[..8] == BaseArgs(src)
    ensures cmd.args[8..] == ["--no-owner", "--no-privileges", "-F", "p", "-f", outFile]
  {
    Command(PgDump, BaseArgs(src) + DumpFlags(outFile), Env(src, inherited))
  }

  /** psql dropping and recreating the destination's public schema. */
  function WipeCommand(dst: Conn, inherited: seq<string>): (cmd: Command)
    ensures cmd.program == Psql && cmd.env == Env(dst, inherited)
    ensures |cmd.args| == 10 && cmd.args[..8] == BaseArgs(dst) && cmd.args[8..] == ["-c", WipeStatement]
  {
    Command(Psql, BaseArgs(dst) + WipeFlags(), Env(dst, inherited))
  }

  /** psql running the statements of `file` against the destination. */
  function ImportCommand(dst: Conn, file: string, inherited: seq<string>): (cmd: Command)
    ensures cmd.program == Psql && cmd.env == Env(dst, inherited)
    ensures |cmd.args| == 10 && cmd.args[..8] == BaseArgs(dst) && cmd.args[8..] == ["-f", file]
  {
    Command(Psql, BaseArgs(dst) + ImportFlags(file), Env(dst, inherited))
  }

  /** Credentials travel only in the environment: descriptors that address the same
      database give the same argument lists, whatever their password and TLS mode. */
  lemma ArgsIgnoreCredentials(a: Conn, b: Conn, file: string, inherited: seq<string>)
    requires a.host == b.host && a.port == b.port && a.user == b.user && a.dbName == b.dbName
    ensures DumpCommand(a, file, inherited).args == DumpCommand(b, file, inherited).args
    ensures WipeCommand(a, inherited).args == WipeCommand(b, inherited).args
    ensures ImportCommand(a, file, inherited).args == ImportCommand(b, file, inherited).args
  {
  }

  /** Each command names its database exactly: equal argument lists mean the same
      host, port, user and database name (and, for dump and import, the same file). */
  lemma CommandsIdentifyTarget(a: Conn, b: Conn, f: string, g: string, inherited: seq<string>)
    ensures DumpCommand(a, f, inherited).args == DumpCommand(b, g, inherited).args
        ==> BaseArgs(a) == BaseArgs(b) && f == g
    ensures WipeCommand(a, inherited).args == WipeCommand(b, inherited).args ==> BaseArgs(a) == BaseArgs(b)
    ensures ImportCommand(a, f, inherited).args == ImportCommand(b, g, inherited).args
        ==> BaseArgs(a) == BaseArgs(b) && f == g
  {
    var da, db := DumpCommand(a, f, inherited).args, DumpCommand(b, g, inherited).args;
    if da == db {
      assert da[..8] == db[..8] && da[13] == db[13];
    }
    var ia, ib := ImportCommand(a, f, inherited).args, ImportCommand(b, g, inherited).args;
    if ia == ib {
      assert ia[..8] == ib[..8] && ia[9] == ib[9];
    }
    var wa, wb := WipeCommand(a, inherited).args, WipeCommand(b, inherited).args;
    if wa == wb {
      assert wa[..8] == wb[..8];
    }
  }

  /** The wipe addresses the descriptor's host and database, and authenticates with
      its password. */
  lemma WipeAddressesTarget(dst: Conn, inherited: seq<string>)
    ensures var cmd := WipeCommand(dst, inherited);
            && cmd.program == Psql
            && cmd.args[0] == "-h" && cmd.args[1] == dst.host
            && cmd.args[6] == "-d" && cmd.args[7] == dst.dbName
            && cmd.args[8..] == ["-c", WipeStatement]
            && Lookup(cmd.env, "PGPASSWORD") == Some(dst.password)
  {
    var cmd := WipeCommand(dst, inherited);
    assert cmd.args[..8] == BaseArgs(dst);
    assert cmd.args[7] == cmd.args[..8][7];
    EnvSetsPassword(dst, inherited);
  }

  // ---------------------------------------------------------------------------
  // Errors

  /** The error a tool call returns: nil on success; the process error alone when the
      tool wrote nothing on its error stream; otherwise `<prefix>: <error>` followed by
      a newline and the captured error stream. */
  function Failure(prefix: string, status: ExitStatus): (r: Option<Error>)
    ensures r.None? <==> status.Exited? && status.waitErr.None?
    ensures status.StartFailed? ==> r == Some(status.err)
    ensures status.Exited? && status.waitErr.Some? && status.stderr == "" ==> r == status.waitErr
    ensures status.Exited? && status.waitErr.Some? && status.stderr != "" ==>
              r.Some? && |r.value| == |prefix| + 3 + |status.waitErr.value| + |status.stderr|
              && r.value[..|prefix| + 2] == prefix + ": "
              && r.value[|prefix| + 2..|prefix| + 2 + |status.waitErr.value|] == status.waitErr.value
              && r.value[|prefix| + 2 + |status.waitErr.value|] == '\n'
              && r.value[|r.value| - |status.stderr|..] == status.stderr
  {
    match status
    case StartFailed(e) => Some(e)
    case Exited(None, _) => None
    case Exited(Some(e), stderr) =>
      if |stderr| > 0 then
        var m := prefix + ": " + e + "\n" + stderr;
        assert m[..|prefix| + 2] == prefix + ": ";
        assert m[|prefix| + 2..|prefix| + 2 + |e|] == e;
        assert m[|prefix| + 2 + |e|] == '\n';
        assert m[|m| - |stderr|..] == stderr;
        Some(m)
      else Some(e)
  }

  // ---------------------------------------------------------------------------
  // The three tool calls

  /** The sizes the progress poller reports: at every tick at which the size of the
      output file could be read (a `Some` entry), that size, in tick order. */
  function Reported(ticks: seq<Option<int>>): (sizes: seq<int>)
    ensures |sizes| <= |ticks|
    ensures forall x :: x in sizes ==> Some(x) in ticks
    ensures (forall k :: 0 <= k < |ticks| ==> ticks[k].None?) ==> sizes == []
  {
    if ticks == [] then []
    else
      var rest := Reported(ticks[..|ticks| - 1]);
      assert forall x :: Some(x) in ticks[..|ticks| - 1] ==> Some(x) in ticks;
      match ticks[|ticks| - 1]
      case Some(size) => rest + [size]
      case None => rest
  }

  /** Every size read at a tick is reported, and the latest reading is reported last. */
  lemma {:induction false} ReportedKeepsReadings(ticks: seq<Option<int>>)
    ensures forall k :: 0 <= k < |ticks| && ticks[k].Some? ==> ticks[k].value in Reported(ticks)
    ensures 0 < |ticks| && ticks[|ticks| - 1].Some? ==>
              0 < |Reported(ticks)| && Reported(ticks)[|Reported(ticks)| - 1] == ticks[|ticks| - 1].value
    decreases |ticks|
  {
    if ticks != [] {
      var init := ticks[..|ticks| - 1];
      ReportedKeepsReadings(init);
      assert forall k :: 0 <= k < |init| ==> init[k] == ticks[k];
    }
  }

  /** The poller reports in tick order: the sizes of two stretches of ticks are
      those of the first stretch followed by those of the second. */
  lemma {:induction false} ReportedInOrder(a: seq<Option<int>>, b: seq<Option<int>>)
    ensures Reported(a + b) == Reported(a) + Reported(b)
    decreases |b|
  {
    if b == [] {
      assert a + b == a;
    } else {
      var init := b[..|b| - 1];
      assert (a + b)[..|a + b| - 1] == a + init;
      assert b[..|b| - 1] == init;
      ReportedInOrder(a, init);
    }
  }

  /** Runs pg_dump into `outFile`. `onSize` says whether a progress callback was
      given; `ticks` are the results of reading the output file's size at each tick
      of the poller while the process runs. */
  method DumpWithProgress(src: Conn, outFile: string, onSize: bool, inherited: seq<string>,
                          run: Command -> ExitStatus, ticks: seq<Option<int>>)
    returns (cmd: Command, err: Option<Error>, reported: seq<int>)
    ensures cmd == DumpCommand(src, outFile, inherited)
    ensures err == Failure(DumpFailed, run(cmd))
    ensures reported == if onSize && run(cmd).Exited? then Reported(ticks) else []
  {
    var args := BaseArgs(src) + ["--no-owner", "--no-privileges", "-F", "p", "-f", outFile];
    cmd := Command(PgDump, args, Env(src, inherited));
    var status := run(cmd);
    reported := [];
    if status.StartFailed? {
      err := Some(status.err);
      return;
    }
    // The poller: one iteration per tick until the process ends.
    var k := 0;
    while k < |ticks|
      invariant 0 <= k <= |ticks|
      invariant reported == if onSize then Reported(ticks[..k]) else []
    {
      assert ticks[..k + 1][..k] == ticks[..k];
      if onSize && ticks[k].Some? {
        reported := reported + [ticks[k].value];
      }
      k := k + 1;
    }
    assert ticks[..k] == ticks;
    if status.waitErr.Some? {
      if |status.stderr| > 0 {
        err := Some(DumpFailed + ": " + status.waitErr.value + "\n" + status.stderr);
      } else {
        err := status.waitErr;
      }
    } else {
      err := None;
    }
  }

  /** Runs pg_dump without a progress callback. */
  method Dump(src: Conn, outFile: string, inherited: seq<string>,
              run: Command -> ExitStatus, ticks: seq<Option<int>>)
    returns (cmd: Command, err: Option<Error>)
    ensures cmd == DumpCommand(src, outFile, inherited)
    ensures err == Failure(DumpFailed, run(cmd))
  {
    var reported;
    cmd, err, reported := DumpWithProgress(src, outFile, false, inherited, run, ticks);
    assert reported == [];
  }

  /** Runs psql to drop and recreate the destination's public schema. */
  method Wipe(dst: Conn, inherited: seq<string>, run: Command -> ExitStatus)
    returns (cmd: Command, err: Option<Error>)
    ensures cmd == WipeCommand(dst, inherited)
    ensures err == Failure(WipeFailed, run(cmd))
  {
    var args := BaseArgs(dst) + ["-c", WipeStatement];
    cmd := Command(Psql, args, Env(dst, inherited));
    var status := run(cmd);
    var stderr := if status.Exited? then status.stderr else "";
    var e := if status.StartFailed? then Some(status.err) else status.waitErr;
    if e.Some? {
      if |stderr| > 0 {
        err := Some(WipeFailed + ": " + e.value + "\n" + stderr);
      } else {
        err := e;
      }
    } else {
      err := None;
    }
  }

  /** Runs psql on the statements of `file` against the destination. */
  method Import(dst: Conn, file: string, inherited: seq<string>, run: Command -> ExitStatus)
    returns (cmd: Command, err: Option<Error>)
    ensures cmd == ImportCommand(dst, file, inherited)
    ensures err == Failure(ImportFailed, run(cmd))
  {
    var args := BaseArgs(dst) + ["-f", file];
    cmd := Command(Psql, args, Env(dst, inherited));
    var status := run(cmd);
    var stderr := if status.Exited? then status.stderr else "";
    var e := if status.StartFailed? then Some(status.err) else status.waitErr;
    if e.Some? {
      if |stderr| > 0 {
        err := Some(ImportFailed + ": " + e.value + "\n" + stderr);
      } else {
        err := e;
      }
    } else {
      err := None;
    }
  }

  // ---------------------------------------------------------------------------
  // Human-readable sizes

  /** 1024 to the power k. */
  function Radix(k: nat): (p: nat)
    ensures p >= 1
  {
    if k == 0 then 1 else 1024 * Radix(k - 1)
  }

  const Units := ["KiB", "MiB", "GiB", "TiB", "PiB", "EiB"]

  /** A formatted size: `text` is printed as is; `Scaled` stands for the size divided
      by 1024^(exponent + 1), printed with one decimal and the unit name. */
  datatype SizeText =
    | Bytes(text: string)
    | Scaled(size: int, exponent: nat, unit: string)

  lemma {:induction false} RadixMonotone(i: nat, j: nat)
    requires i < j
    ensures 1024 * Radix(i) <= Radix(j)
    decreases j
  {
    if i + 1 < j {
      RadixMonotone(i, j - 1);
    }
  }

  /** One more division by 1024 keeps the size bracketed by the next power. */
  lemma DivideStep(p: nat, n: int, b: int)
    requires p >= 1 && n >= 1024
    requires p * n <= b < p * (n + 1)
    ensures n / 1024 >= 1
    ensures (1024 * p) * (n / 1024) <= b < (1024 * p) * (n / 1024 + 1)
  {
    var m := n / 1024;
    assert 1024 * m <= n < 1024 * (m + 1);
    assert (1024 * p) * m == p * (1024 * m);
    assert (1024 * p) * (m + 1) == p * (1024 * (m + 1));
    ScaleBy(p, 1024 * m, n);
    ScaleBy(p, n + 1, 1024 * (m + 1));
  }

  /** When the quotient drops below 1024, the size lies between p and 1024 * p. */
  lemma DivideDone(p: nat, n: int, b: int)
    requires p >= 1 && 1 <= n < 1024
    requires p * n <= b < p * (n + 1)
    ensures p <= b < 1024 * p
  {
  }

  lemma ScaleBy(p: nat, x: int, y: int)
    requires x <= y
    ensures p * x <= p * y
  {
  }

  /** Formats a byte count with binary units; sizes below 1024 stay in bytes. */
  method HumanSize(b: int) returns (r: SizeText)
    ensures r.Bytes? ==> r.text == Decimal(b) + " B"
    ensures r.Bytes? <==> b < 1024 || Radix(7) <= b
    ensures r.Scaled? ==> r.size == b && r.exponent < |Units| && r.unit == Units[r.exponent]
    ensures r.Scaled? ==> Radix(r.exponent + 1) <= b < Radix(r.exponent + 2)
  {
    if b < 1024 {
      return Bytes(Decimal(b) + " B");
    }
    var i: nat := 0;
    var n := b / 1024;
    while n >= 1024
      invariant n >= 1
      invariant Radix(i + 1) * n <= b < Radix(i + 1) * (n + 1)
    {
      DivideStep(Radix(i + 1), n, b);
      i, n := i + 1, n / 1024;
    }
    DivideDone(Radix(i + 1), n, b);
    if i >= |Units| {
      if i > |Units| {
        RadixMonotone(7, i + 1);
      }
      return Bytes(Decimal(b) + " B");
    }
    if Radix(7) <= b {
      RadixMonotone(i + 2, 7);
    }
    r := Scaled(b, i, Units[i]);
  }

  /** The unit is well defined: at most one exponent brackets a size. */
  lemma ExponentUnique(b: int, i: nat, j: nat)
    requires Radix(i + 1) <= b < Radix(i + 2)
    requires Radix(j + 1) <= b < Radix(j + 2)
    ensures i == j
  {
    if i < j {
      RadixMonotone(i + 2, j + 1);
    } else if j < i {
      RadixMonotone(j + 2, i + 1);
    }
  }

  /** Every int64 byte count of at least 1024 bytes gets one of the six units: the
      "very large" fallback to plain bytes is never reached for 64-bit sizes. */
  lemma Int64SizesHaveUnit(b: int, i: nat)
    requires b <= 0x7fff_ffff_ffff_ffff
    requires Radix(i + 1) <= b
    ensures i < |Units| && b < Radix(7)
  {
    assert Radix(7) == 0x40_0000_0000_0000_0000 by {
      assert Radix(1) == 0x400;
      assert Radix(2) == 0x10_0000;
      assert Radix(3) == 0x4000_0000;
      assert Radix(4) == 0x100_0000_0000;
      assert Radix(5) == 0x4_0000_0000_0000;
      assert Radix(6) == 0x1000_0000_0000_0000;
    }
    if i > |Units| {
      RadixMonotone(7, i + 1);
    }
  }
}
