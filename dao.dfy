/**
 * The `dao` generate command: which template files a run selects for each
 * database driver, the ordered rule list it hands to the replacer, one
 * generation (`daoGenerator.generateCode`) and the loop over a
 * comma-separated list of tables (`RunE`).
 */
module Dao {
  import opened Wrappers
  import opened GoStrings
  import opened TemplateReplacer
  import opened GenerateCommon

  /** The command-line flags of `sponge <parent> dao`. */
  datatype DaoFlags = DaoFlags(
    moduleName: string,
    outPath: string,
    dbTables: string,
    includeInitDB: bool,
    sqlArgs: SqlArgs,
    serverName: string,
    suitedMonoRepo: bool)

  /** The names a run settles on before it walks the tables. */
  datatype DaoNames = DaoNames(moduleName: string, serverName: string, suitedMonoRepo: bool, outPath: string)

  /** `daoGenerator`: one table's generation request. */
  datatype DaoGenerator = DaoGenerator(
    moduleName: string,
    dbDriver: string,
    isIncludeInitDB: bool,
    codes: map<string, string>,
    outPath: string,
    serverName: string,
    suitedMonoRepo: bool)

  // ---------------------------------------------------------------------------
  // File selection
  // ---------------------------------------------------------------------------

  const DaoSubDirs: seq<string> := ["internal/model", "internal/cache", "internal/dao"]

  const SqlIgnoreFiles: seq<string> := [
    "init.go", "init_test.go", "init.go.mgo",
    "doc.go", "cacheNameExample.go", "cacheNameExample_test.go", "cache/userExample.go.mgo",
    "dao/userExample.go.mgo"]

  const MongoIgnoreFiles: seq<string> := [
    "init.go", "init_test.go", "init.go.mgo",
    "doc.go", "cacheNameExample.go", "cacheNameExample_test.go", "cache/userExample.go", "cache/userExample_test.go",
    "dao/userExample_test.go", "dao/userExample.go"]

  /** The initialisation file of a driver's family: the one `--include-init-db` emits. */
  function InitFile(d: Driver): string
  {
    if d == Mongodb then "init.go.mgo" else "init.go"
  }

  /**
   * Which template files a run leaves out, stated file by file: the shared
   * model and cache files except the family's initialisation file when
   * initialisation code was asked for, and the other family's cache and dao
   * variants.
   */
  predicate DaoIgnores(d: Driver, initDB: bool, f: string)
  {
    if f in ["init.go", "init_test.go", "init.go.mgo", "doc.go", "cacheNameExample.go", "cacheNameExample_test.go"] then
      !(initDB && f == InitFile(d))
    else if d == Mongodb then
      f in ["cache/userExample.go", "cache/userExample_test.go", "dao/userExample_test.go", "dao/userExample.go"]
    else
      f in ["cache/userExample.go.mgo", "dao/userExample.go.mgo"]
  }

  /** The ignore list `generateCode` selects for a driver name, or its error. */
  function DaoIgnoreFiles(driver: string, initDB: bool): (r: Result<seq<string>, Error>)
    ensures r.Failure? <==> MatchDriver(driver).None?
    ensures r.Failure? ==> r.error == UnsupportedDriver(driver)
    ensures r.Failure? ==> Message(r.error) == "unsupported db driver: " + driver
  {
    match MatchDriver(driver)
    case None => Failure(UnsupportedDriver(driver))
    case Some(Mongodb) =>
      Success(if initDB then RemoveElement(MongoIgnoreFiles, "init.go.mgo") else MongoIgnoreFiles)
    case Some(_) =>
      Success(if initDB then RemoveElement(SqlIgnoreFiles, "init.go") else SqlIgnoreFiles)
  }

  /** The selected list leaves out exactly the files `DaoIgnores` names. */
  lemma DaoIgnoreFilesSpec(driver: string, initDB: bool, f: string)
    requires MatchDriver(driver).Some?
    ensures f in DaoIgnoreFiles(driver, initDB).value <==> DaoIgnores(MatchDriver(driver).value, initDB, f)
  {
  }

  /** mysql, postgresql, tidb and sqlite, in any case, select one and the same list. */
  lemma SqlDriversShareIgnoreList(a: string, b: string, initDB: bool)
    requires MatchDriver(a).Some? && IsSqlDriver(MatchDriver(a).value)
    requires MatchDriver(b).Some? && IsSqlDriver(MatchDriver(b).value)
    ensures DaoIgnoreFiles(a, initDB) == DaoIgnoreFiles(b, initDB)
  {
  }

  /** For a SQL driver only `init.go` depends on the flag; the mongodb and test variants stay out. */
  lemma SqlInitFiles(driver: string, initDB: bool)
    requires MatchDriver(driver).Some? && IsSqlDriver(MatchDriver(driver).value)
    ensures var files := DaoIgnoreFiles(driver, initDB).value;
      && ("init.go" in files <==> !initDB)
      && "init.go.mgo" in files && "init_test.go" in files
  {
  }

  /** For mongodb only `init.go.mgo` depends on the flag; `init.go` and the test stay out. */
  lemma MongoInitFiles(driver: string, initDB: bool)
    requires MatchDriver(driver) == Some(Mongodb)
    ensures var files := DaoIgnoreFiles(driver, initDB).value;
      && ("init.go.mgo" in files <==> !initDB)
      && "init.go" in files && "init_test.go" in files
  {
  }

  // ---------------------------------------------------------------------------
  // Rule list
  // ---------------------------------------------------------------------------

  /** The four mark deletions `addFields` starts with. */
  function DaoMarkCalls(): seq<MarkCall>
  {
    [ DeleteMark(ModelFile, StartMark, EndMark),
      DeleteMark(DaoFile, StartMark, EndMark),
      DeleteMark(DaoMgoFile, StartMark, EndMark),
      DeleteMark(DaoTestFile, StartMark, EndMark) ]
  }

  /** The table-name rule: the only case-sensitive rule the dao command writes itself. */
  function TableRule(g: DaoGenerator, env: Env): Field
  {
    Field("UserExample", Lookup(g.codes, env.text(TableName)), true)
  }

  /** `daoGenerator.addFields`. */
  function AddFields(g: DaoGenerator, env: Env, sourcePath: string, outputDir: string): seq<Field>
  {
    ResolveMarks(env, DaoMarkCalls())
    + [ Literal(env.text(ModelFileMark), Lookup(g.codes, env.text(CodeTypeModel))),
        Literal(env.text(DaoFileMark), Lookup(g.codes, env.text(CodeTypeDAO))),
        Literal(env.text(SelfPackageName) + "/" + sourcePath, g.moduleName),
        Literal(FrameworkModule, g.moduleName),
        Literal(g.moduleName + "/pkg", FrameworkModule + "/pkg"),
        Literal("init.go.mgo", "init.go"),
        Literal("userExample.go.mgo", "userExample.go"),
        TableRule(g, env) ]
    + (if g.suitedMonoRepo then env.subServerCodeFields(outputDir, g.moduleName, g.serverName) else [])
  }

  /** The rules from the four mark deletions come before every other rule. */
  lemma DaoMarkRulesFirst(g: DaoGenerator, env: Env, sourcePath: string, outputDir: string)
    ensures var marks := ResolveMarks(env, DaoMarkCalls());
      var fs := AddFields(g, env, sourcePath, outputDir);
      |marks| <= |fs| && fs[..|marks|] == marks
  {
  }

  /**
   * Among the rules the command writes itself, the table-name rule is the only
   * case-sensitive one, and it comes right after the two `.go.mgo` renames.
   */
  lemma DaoTableRuleOnlyCaseSensitive(g: DaoGenerator, env: Env, sourcePath: string, outputDir: string)
    ensures var m := |ResolveMarks(env, DaoMarkCalls())|;
      var fs := AddFields(g, env, sourcePath, outputDir);
      && m + 8 <= |fs|
      && fs[m + 7] == TableRule(g, env)
      && fs[m + 5] == Literal("init.go.mgo", "init.go")
      && fs[m + 6] == Literal("userExample.go.mgo", "userExample.go")
      && (forall i :: m <= i < m + 8 ==> (fs[i].isCaseSensitive <==> i == m + 7))
  {
  }

  /** The module rename is immediately followed by the rule restoring framework `pkg` imports. */
  lemma DaoPkgImportsRestored(g: DaoGenerator, env: Env, sourcePath: string, outputDir: string)
    ensures ImmediatelyFollows(AddFields(g, env, sourcePath, outputDir),
      Literal(FrameworkModule, g.moduleName), Literal(g.moduleName + "/pkg", FrameworkModule + "/pkg"))
  {
    var m := |ResolveMarks(env, DaoMarkCalls())|;
    var fs := AddFields(g, env, sourcePath, outputDir);
    assert fs[m + 3] == Literal(FrameworkModule, g.moduleName);
    assert fs[m + 4] == Literal(g.moduleName + "/pkg", FrameworkModule + "/pkg");
  }

  /** Mono-repo rules come last and only in mono-repo mode; otherwise the table rule is last. */
  lemma DaoMonoRepoRulesLast(g: DaoGenerator, env: Env, sourcePath: string, outputDir: string)
    ensures var m := |ResolveMarks(env, DaoMarkCalls())|;
      var fs := AddFields(g, env, sourcePath, outputDir);
      && m + 8 <= |fs|
      && (g.suitedMonoRepo ==> fs[m + 8..] == env.subServerCodeFields(outputDir, g.moduleName, g.serverName))
      && (!g.suitedMonoRepo ==> |fs| == m + 8 && fs[|fs| - 1] == TableRule(g, env))
  {
  }

  // ---------------------------------------------------------------------------
  // One generation
  // ---------------------------------------------------------------------------

  /** What one `generateCode` call saves (if it reaches `SaveFiles`) and returns. */
  datatype Step = Step(saved: Option<Config>, out: string, err: Option<Error>)

  /**
   * `generateCode` for a replacer with source path `src` (None: no replacer is
   * registered) and a `SaveFiles` outcome `fault`.
   */
  function GenerateStep(g: DaoGenerator, src: Option<string>, env: Env, now: string, fault: Option<string>): (s: Step)
    // a missing replacer or an unsupported driver is reported before anything is saved
    ensures s.saved.Some? <==> src.Some? && MatchDriver(g.dbDriver).Some?
    ensures src.None? ==> s.err == Some(NilReplacer("r is nil"))
    ensures src.Some? && MatchDriver(g.dbDriver).None? ==> s.err == Some(UnsupportedDriver(g.dbDriver))
    // success exactly when the files were saved without a fault; then the output directory is returned
    ensures s.err.None? <==> s.saved.Some? && fault.None?
    ensures s.saved.Some? && fault.Some? ==> s.err == Some(Collaborator(fault.value))
    ensures s.err.None? ==> s.out == s.saved.value.outputDir
    ensures s.err.Some? ==> s.out == ""
    ensures s.saved.Some? ==> s.saved.value.outputDir == ResolveOutputDir(g.outPath, "dao", now)
  {
    match src
    case None => Step(None, "", Some(NilReplacer("r is nil")))
    case Some(sourcePath) =>
      match DaoIgnoreFiles(g.dbDriver, g.isIncludeInitDB)
      case Failure(e) => Step(None, "", Some(e))
      case Success(ignoreFiles) =>
        var dir := ResolveOutputDir(g.outPath, "dao", now);
        var cfg := Config(DaoSubDirs, [], [], ignoreFiles, AddFields(g, env, sourcePath, dir), dir);
        match fault
        case None => Step(Some(cfg), dir, None)
        case Some(e) => Step(Some(cfg), "", Some(Collaborator(e)))
  }

  /** The configuration a saved generation used: the dao sub-directories, the driver's ignore list, "dao" as the output name. */
  lemma SavedDaoConfig(g: DaoGenerator, sourcePath: string, env: Env, now: string, fault: Option<string>)
    requires MatchDriver(g.dbDriver).Some?
    ensures var s := GenerateStep(g, Some(sourcePath), env, now, fault);
      var dir := ResolveOutputDir(g.outPath, "dao", now);
      s.saved == Some(Config(DaoSubDirs, [], [], DaoIgnoreFiles(g.dbDriver, g.isIncludeInitDB).value,
                             AddFields(g, env, sourcePath, dir), dir))
  {
  }

  /** `daoGenerator.generateCode` on the registered replacer `r`. */
  method GenerateCode(g: DaoGenerator, r: Replacer?, disk: Disk, env: Env, now: string, fault: Option<string>)
    returns (out: string, err: Option<Error>)
    modifies r, disk
    ensures var s := GenerateStep(g, SourceOf(r), env, now, fault);
      && out == s.out && err == s.err
      && disk.writes == old(disk.writes) + Saves(OptionToSeq(s.saved))
      && (r != null && s.saved.Some? ==> r.Current() == s.saved.value)
      && (r != null && s.saved.None? ==> unchanged(r))
  {
    var subTplName := "dao";
    if r == null {
      return "", Some(NilReplacer("r is nil"));
    }
    var subDirs := DaoSubDirs;
    var ignoreDirs: seq<string> := [];
    var ignoreFiles: seq<string>;
    // the switch on strings.ToLower(dbDriver)
    match MatchDriver(g.dbDriver) {
      case None =>
        return "", Some(UnsupportedDriver(g.dbDriver));
      case Some(Mongodb) =>
        ignoreFiles := MongoIgnoreFiles;
        if g.isIncludeInitDB {
          ignoreFiles := RemoveElement(ignoreFiles, "init.go.mgo");
        }
      case Some(_) =>
        ignoreFiles := SqlIgnoreFiles;
        if g.isIncludeInitDB {
          ignoreFiles := RemoveElement(ignoreFiles, "init.go");
        }
    }
    assert DaoIgnoreFiles(g.dbDriver, g.isIncludeInitDB) == Success(ignoreFiles);

    r.SetSubDirsAndFiles(subDirs, []);
    r.SetIgnoreSubDirs(ignoreDirs);
    r.SetIgnoreSubFiles(ignoreFiles);
    r.SetOutputDir(g.outPath, subTplName, now);
    var fields := AddFields(g, env, r.sourcePath, r.outputDir);
    r.SetReplacementFields(fields);
    ghost var cfg := Config(DaoSubDirs, [], [], ignoreFiles, fields, ResolveOutputDir(g.outPath, "dao", now));
    assert r.Current() == cfg;
    assert GenerateStep(g, SourceOf(r), env, now, fault).saved == Some(cfg);
    var e := r.SaveFiles(disk, fault);
    assert Saves(OptionToSeq(Some(cfg))) == [Save(cfg)];
    if e.Some? {
      return "", Some(Collaborator(e.value));
    }
    return r.outputDir, None;
  }

  // ---------------------------------------------------------------------------
  // Names
  // ---------------------------------------------------------------------------

  /**
   * The names a run uses: those recovered from a previously generated output
   * directory override the module, server and mono-repo flags; a module name
   * is required; a mono-repo run needs a server name and moves the output path.
   */
  function ResolveDaoNames(flags: DaoFlags, command: string, env: Env): (r: Result<DaoNames, Error>)
    ensures var rec := env.namesFromOutDir(flags.outPath);
      var useRec := rec.moduleName != "";
      var moduleName := if useRec then rec.moduleName else flags.moduleName;
      var server := if useRec then rec.serverName else flags.serverName;
      var mono := if useRec then rec.suitedMonoRepo else flags.suitedMonoRepo;
      && (!useRec && flags.moduleName == "" ==> r == Failure(ModuleNameNotSet(command)))
      && (moduleName != "" ==> (r.Failure? <==> mono && server == ""))
      && (moduleName != "" && r.Failure? ==> r.error == ServerNameNotSet(command))
      && (r.Success? ==> r.value.moduleName == moduleName && moduleName != "" && r.value.suitedMonoRepo == mono)
      && (r.Success? && mono ==>
            r.value.serverName == env.convertServerName(server)
            && r.value.outPath == env.changeOutPath(flags.outPath, r.value.serverName))
      && (r.Success? && !mono ==> r.value.serverName == server && r.value.outPath == flags.outPath)
  {
    var rec := env.namesFromOutDir(flags.outPath);
    if rec.moduleName == "" && flags.moduleName == "" then
      Failure(ModuleNameNotSet(command))
    else
      var moduleName := if rec.moduleName != "" then rec.moduleName else flags.moduleName;
      var server := if rec.moduleName != "" then rec.serverName else flags.serverName;
      var mono := if rec.moduleName != "" then rec.suitedMonoRepo else flags.suitedMonoRepo;
      if !mono then
        Success(DaoNames(moduleName, server, false, flags.outPath))
      else if server == "" then
        Failure(ServerNameNotSet(command))
      else
        var converted := env.convertServerName(server);
        Success(DaoNames(moduleName, converted, true, env.changeOutPath(flags.outPath, converted)))
  }

  // ---------------------------------------------------------------------------
  // The table loop
  // ---------------------------------------------------------------------------

  /** One table that reached `generateCode`: its position in the split list, the request, the outcome. */
  datatype Run = Run(index: nat, table: string, gen: DaoGenerator, step: Step)

  /** The variables the loop of `RunE` carries, with the runs and saves so far. */
  datatype LoopState = LoopState(
    args: SqlArgs,
    initDB: bool,
    outPath: string,
    runs: seq<Run>,
    saved: seq<Config>,
    err: Option<Error>)

  /** What stays fixed during the loop; `saveFault(i)` is the outcome of saving table `i`. */
  datatype LoopCtx = LoopCtx(
    names: DaoNames,
    src: Option<string>,
    env: Env,
    now: string,
    saveFault: nat -> Option<string>)

  /** The SQL arguments for entry `i`: mongodb never embeds, and the table is the entry. */
  function TableArgs(tables: seq<string>, i: nat, st: LoopState): SqlArgs
    requires i < |tables|
  {
    st.args.(isEmbed := st.args.isEmbed && st.args.dbDriver != DriverName(Mongodb), dbTable := tables[i])
  }

  /** The generation of entry `i` from the code the SQL generator returned for it. */
  function TableRun(ctx: LoopCtx, tables: seq<string>, i: nat, st: LoopState, codes: map<string, string>): Run
    requires i < |tables|
  {
    // the initialisation code is generated only once
    var initDB := i == 0 && st.initDB;
    var g := DaoGenerator(ctx.names.moduleName, TableArgs(tables, i, st).dbDriver, initDB, codes, st.outPath,
                          ctx.names.serverName, ctx.names.suitedMonoRepo);
    Run(i, tables[i], g, GenerateStep(g, ctx.src, ctx.env, ctx.now, ctx.saveFault(i)))
  }

  /** The body of the loop for the entry at position `i` of the split table list. */
  function TableStep(ctx: LoopCtx, tables: seq<string>, i: nat, st: LoopState): LoopState
    requires i < |tables|
  {
    if tables[i] == "" then st
    else
      var args := TableArgs(tables, i, st);
      match ctx.env.sqlGenerate(args)
      case Failure(msg) => st.(args := args, err := Some(Collaborator(msg)))
      case Success(codes) => Advance(st, args, TableRun(ctx, tables, i, st, codes))
  }

  /** The state after `run`: its output directory is the next `outPath`, its save and error are recorded. */
  function Advance(st: LoopState, args: SqlArgs, run: Run): LoopState
  {
    LoopState(args, run.gen.isIncludeInitDB, run.step.out, st.runs + [run],
              st.saved + OptionToSeq(run.step.saved), run.step.err)
  }

  /** The loop from position `i` on; the first error ends it. */
  function TableLoop(ctx: LoopCtx, tables: seq<string>, i: nat, st: LoopState): LoopState
    requires i <= |tables|
    decreases |tables| - i
  {
    if i == |tables| || st.err.Some? then st
    else TableLoop(ctx, tables, i + 1, TableStep(ctx, tables, i, st))
  }

  /** The positions of the non-empty entries among the first `n`, in order. */
  function NonEmptyBelow(tables: seq<string>, n: nat): seq<nat>
    requires n <= |tables|
  {
    if n == 0 then [] else NonEmptyBelow(tables, n - 1) + (if tables[n - 1] != "" then [n - 1] else [])
  }

  function Indices(runs: seq<Run>): seq<nat>
  {
    seq(|runs|, j requires 0 <= j < |runs| => runs[j].index)
  }

  /** The state the loop starts from. */
  function LoopStart(args: SqlArgs, flag: bool, out0: string): LoopState
  {
    LoopState(args, flag, out0, [], [], None)
  }

  /**
   * The loop's mongodb test compares the driver name exactly, unlike the
   * case-insensitive driver switch: only the exact name "mongodb" clears the
   * embed flag, although a case variant such as "MongoDB" is generated as
   * mongodb code.
   */
  lemma MongoEmbedTestIsExact(tables: seq<string>, i: nat, st: LoopState)
    requires i < |tables|
    ensures TableArgs(tables, i, st).isEmbed <==> st.args.isEmbed && st.args.dbDriver != DriverName(Mongodb)
    ensures TableArgs(tables, i, st).dbTable == tables[i]
    ensures MatchDriver("MongoDB") == Some(Mongodb) && "MongoDB" != DriverName(Mongodb)
  {
    assert ToLower("MongoDB") == "mongodb";
  }

  // Each property of the loop is an invariant of TableLoop, proved for one
  // step and then by induction over the remaining entries.

  /** Runs ask for initialisation code exactly when they are at position 0 and the flag was set. */
  ghost predicate InitInv(flag: bool, i: nat, st: LoopState)
  {
    && (i == 0 ==> st.initDB == flag)
    && (forall j :: 0 <= j < |st.runs| ==> (st.runs[j].gen.isIncludeInitDB <==> st.runs[j].index == 0 && flag))
  }

  lemma InitStep(ctx: LoopCtx, tables: seq<string>, flag: bool, i: nat, st: LoopState)
    requires i < |tables| && st.err.None? && InitInv(flag, i, st)
    ensures InitInv(flag, i + 1, TableStep(ctx, tables, i, st))
  {
  }

  lemma {:induction false} InitLoop(ctx: LoopCtx, tables: seq<string>, flag: bool, i: nat, st: LoopState)
    requires i <= |tables| && InitInv(flag, i, st)
    ensures InitInv(flag, |tables|, TableLoop(ctx, tables, i, st))
    decreases |tables| - i
  {
    if i < |tables| && st.err.None? {
      InitStep(ctx, tables, flag, i, st);
      InitLoop(ctx, tables, flag, i + 1, TableStep(ctx, tables, i, st));
    }
  }

  /** Runs come from non-empty entries before `i`, in order, and without error from all of them. */
  ghost predicate OrderInv(tables: seq<string>, i: nat, st: LoopState)
  {
    && RunsOrdered(tables, i, st.runs)
    && (st.err.None? ==> Indices(st.runs) == NonEmptyBelow(tables, i))
  }

  /** Every run is for a non-empty entry below `i`, in increasing order. */
  ghost predicate RunsOrdered(tables: seq<string>, i: nat, runs: seq<Run>)
  {
    && i <= |tables|
    && (forall j :: 0 <= j < |runs| ==>
          runs[j].index < i && tables[runs[j].index] == runs[j].table && runs[j].table != "")
    && (forall j :: 0 < j < |runs| ==> runs[j - 1].index < runs[j].index)
  }

  lemma RunsOrderedAppend(tables: seq<string>, i: nat, runs: seq<Run>, run: Run)
    requires i < |tables| && RunsOrdered(tables, i, runs)
    requires run.index == i && run.table == tables[i] != ""
    ensures RunsOrdered(tables, i + 1, runs + [run])
    ensures Indices(runs + [run]) == Indices(runs) + [i]
  {
  }

  lemma OrderStep(ctx: LoopCtx, tables: seq<string>, i: nat, st: LoopState)
    requires i < |tables| && st.err.None? && OrderInv(tables, i, st)
    ensures OrderInv(tables, i + 1, TableStep(ctx, tables, i, st))
  {
    if tables[i] != "" {
      var args := TableArgs(tables, i, st);
      match ctx.env.sqlGenerate(args)
      case Failure(_) =>
      case Success(codes) =>
        RunsOrderedAppend(tables, i, st.runs, TableRun(ctx, tables, i, st, codes));
    }
  }

  lemma {:induction false} OrderLoop(ctx: LoopCtx, tables: seq<string>, i: nat, st: LoopState)
    requires OrderInv(tables, i, st)
    ensures OrderInv(tables, |tables|, TableLoop(ctx, tables, i, st))
    decreases |tables| - i
  {
    if i < |tables| && st.err.None? {
      OrderStep(ctx, tables, i, st);
      OrderLoop(ctx, tables, i + 1, TableStep(ctx, tables, i, st));
    }
  }

  /**
   * Each run starts from the previous run's output (the first from `out0`),
   * the loop carries the last run's output, and only the last run can fail.
   */
  ghost predicate ThreadInv(out0: string, st: LoopState)
  {
    && (|st.runs| == 0 ==> st.outPath == out0)
    && (|st.runs| > 0 ==> st.runs[0].gen.outPath == out0 && st.outPath == st.runs[|st.runs| - 1].step.out)
    && (forall j :: 0 < j < |st.runs| ==> st.runs[j].gen.outPath == st.runs[j - 1].step.out)
    && (forall j :: 0 <= j < |st.runs| - 1 ==> st.runs[j].step.err.None?)
    && (st.err.None? ==> forall j :: 0 <= j < |st.runs| ==> st.runs[j].step.err.None?)
  }

  lemma ThreadStep(ctx: LoopCtx, tables: seq<string>, out0: string, i: nat, st: LoopState)
    requires i < |tables| && st.err.None? && ThreadInv(out0, st)
    ensures ThreadInv(out0, TableStep(ctx, tables, i, st))
  {
    var next := TableStep(ctx, tables, i, st);
    if tables[i] != "" && ctx.env.sqlGenerate(TableArgs(tables, i, st)).Success? {
      var run := TableRun(ctx, tables, i, st, ctx.env.sqlGenerate(TableArgs(tables, i, st)).value);
      assert next.runs == st.runs + [run];
    }
  }

  lemma {:induction false} ThreadLoop(ctx: LoopCtx, tables: seq<string>, out0: string, i: nat, st: LoopState)
    requires i <= |tables| && ThreadInv(out0, st)
    ensures ThreadInv(out0, TableLoop(ctx, tables, i, st))
    decreases |tables| - i
  {
    if i < |tables| && st.err.None? {
      ThreadStep(ctx, tables, out0, i, st);
      ThreadLoop(ctx, tables, out0, i + 1, TableStep(ctx, tables, i, st));
    }
  }

  /** Every run after the first, and every save, uses the directory `dir` the first table resolved to. */
  ghost predicate TreeInv(dir: string, now: string, st: LoopState)
  {
    && (st.err.None? ==> ResolveOutputDir(st.outPath, "dao", now) == dir)
    && (st.err.None? && |st.runs| > 0 ==> st.outPath == dir)
    && (forall j :: 0 < j < |st.runs| ==> st.runs[j].gen.outPath == dir)
    && (forall k :: 0 <= k < |st.saved| ==> st.saved[k].outputDir == dir)
  }

  lemma TreeStep(ctx: LoopCtx, tables: seq<string>, dir: string, i: nat, st: LoopState)
    requires i < |tables| && st.err.None? && TreeInv(dir, ctx.now, st)
    ensures TreeInv(dir, ctx.now, TableStep(ctx, tables, i, st))
  {
    var next := TableStep(ctx, tables, i, st);
    if tables[i] != "" && ctx.env.sqlGenerate(TableArgs(tables, i, st)).Success? {
      var run := TableRun(ctx, tables, i, st, ctx.env.sqlGenerate(TableArgs(tables, i, st)).value);
      assert next.runs == st.runs + [run];
      assert next.saved == st.saved + OptionToSeq(run.step.saved);
      assert run.gen.outPath == st.outPath;
      ResolveOutputDirIdempotent(st.outPath, "dao", ctx.now, "dao", ctx.now);
    }
  }

  lemma {:induction false} TreeLoop(ctx: LoopCtx, tables: seq<string>, dir: string, i: nat, st: LoopState)
    requires i <= |tables| && TreeInv(dir, ctx.now, st)
    ensures TreeInv(dir, ctx.now, TableLoop(ctx, tables, i, st))
    decreases |tables| - i
  {
    if i < |tables| && st.err.None? {
      TreeStep(ctx, tables, dir, i, st);
      TreeLoop(ctx, tables, dir, i + 1, TableStep(ctx, tables, i, st));
    }
  }

  /**
   * Initialisation code is asked for at most once: only for the entry at
   * position 0 of the split list, and only when the flag was set.
   */
  lemma InitDbOnlyForFirstEntry(ctx: LoopCtx, tables: seq<string>, args: SqlArgs, flag: bool, out0: string)
    ensures var fin := TableLoop(ctx, tables, 0, LoopStart(args, flag, out0));
      forall j :: 0 <= j < |fin.runs| ==>
        (fin.runs[j].gen.isIncludeInitDB <==> fin.runs[j].index == 0 && flag)
  {
    InitLoop(ctx, tables, flag, 0, LoopStart(args, flag, out0));
  }

  /**
   * Only non-empty entries are generated, each from its own entry, in list
   * order; a run that ends without error has generated every non-empty entry.
   */
  lemma EmptyTableNamesSkipped(ctx: LoopCtx, tables: seq<string>, args: SqlArgs, flag: bool, out0: string)
    ensures var fin := TableLoop(ctx, tables, 0, LoopStart(args, flag, out0));
      && (forall j :: 0 <= j < |fin.runs| ==>
            fin.runs[j].index < |tables| && fin.runs[j].table == tables[fin.runs[j].index] && fin.runs[j].table != "")
      && (forall j :: 0 < j < |fin.runs| ==> fin.runs[j - 1].index < fin.runs[j].index)
      && (fin.err.None? ==> Indices(fin.runs) == NonEmptyBelow(tables, |tables|))
  {
    assert Indices([]) == [];
    OrderLoop(ctx, tables, 0, LoopStart(args, flag, out0));
  }

  /**
   * Each generation's output directory is the next one's `outPath`, and every
   * table after the first, and every save, goes into the directory the first
   * table resolved to.
   */
  lemma OutputDirThreaded(ctx: LoopCtx, tables: seq<string>, args: SqlArgs, flag: bool, out0: string)
    ensures var fin := TableLoop(ctx, tables, 0, LoopStart(args, flag, out0));
      var dir := ResolveOutputDir(out0, "dao", ctx.now);
      && (|fin.runs| > 0 ==> fin.runs[0].gen.outPath == out0)
      && (forall j :: 0 < j < |fin.runs| ==> fin.runs[j].gen.outPath == fin.runs[j - 1].step.out)
      && (forall j :: 0 < j < |fin.runs| ==> fin.runs[j].gen.outPath == dir)
      && (forall k :: 0 <= k < |fin.saved| ==> fin.saved[k].outputDir == dir)
      && (fin.err.None? && |fin.runs| > 0 ==> fin.outPath == dir)
  {
    ThreadLoop(ctx, tables, out0, 0, LoopStart(args, flag, out0));
    TreeLoop(ctx, tables, ResolveOutputDir(out0, "dao", ctx.now), 0, LoopStart(args, flag, out0));
  }

  /** Every run before the last succeeded: a failing table is the last one generated. */
  lemma FailureIsLastRun(ctx: LoopCtx, tables: seq<string>, args: SqlArgs, flag: bool, out0: string)
    ensures var fin := TableLoop(ctx, tables, 0, LoopStart(args, flag, out0));
      && (forall j :: 0 <= j < |fin.runs| - 1 ==> fin.runs[j].step.err.None?)
      && (fin.err.None? ==> forall j :: 0 <= j < |fin.runs| ==> fin.runs[j].step.err.None?)
  {
    ThreadLoop(ctx, tables, out0, 0, LoopStart(args, flag, out0));
  }

  lemma {:induction false} ErrorIgnoresLaterTables(ctx: LoopCtx, tables: seq<string>, extra: seq<string>, i: nat, st: LoopState)
    requires i <= |tables|
    requires TableLoop(ctx, tables, i, st).err.Some?
    ensures TableLoop(ctx, tables + extra, i, st) == TableLoop(ctx, tables, i, st)
    decreases |tables| - i
  {
    if i < |tables| && st.err.None? {
      assert (tables + extra)[i] == tables[i];
      assert TableStep(ctx, tables + extra, i, st) == TableStep(ctx, tables, i, st);
      ErrorIgnoresLaterTables(ctx, tables, extra, i + 1, TableStep(ctx, tables, i, st));
    }
  }

  /**
   * The first error aborts the remaining tables: whatever entries follow the
   * failing one, the runs, the saves and the error are the same.
   */
  lemma FirstErrorAbortsRemainingTables(ctx: LoopCtx, tables: seq<string>, extra: seq<string>, args: SqlArgs, flag: bool, out0: string)
    requires TableLoop(ctx, tables, 0, LoopStart(args, flag, out0)).err.Some?
    ensures TableLoop(ctx, tables + extra, 0, LoopStart(args, flag, out0))
         == TableLoop(ctx, tables, 0, LoopStart(args, flag, out0))
  {
    ErrorIgnoresLaterTables(ctx, tables, extra, 0, LoopStart(args, flag, out0));
  }

  // ---------------------------------------------------------------------------
  // The command
  // ---------------------------------------------------------------------------

  /** `RunE` of the dao command, as the final loop state. */
  function DaoCommand(flags: DaoFlags, command: string, src: Option<string>, env: Env, now: string,
                      saveFault: nat -> Option<string>): LoopState
  {
    match ResolveDaoNames(flags, command, env)
    case Failure(e) => LoopState(flags.sqlArgs, flags.includeInitDB, flags.outPath, [], [], Some(e))
    case Success(names) =>
      TableLoop(LoopCtx(names, src, env, now, saveFault), SplitComma(flags.dbTables), 0,
                LoopStart(flags.sqlArgs, flags.includeInitDB, names.outPath))
  }

  /** A rejected module or server name is reported before anything is generated or saved. */
  lemma NameErrorsWriteNothing(flags: DaoFlags, command: string, src: Option<string>, env: Env, now: string,
                               saveFault: nat -> Option<string>)
    requires ResolveDaoNames(flags, command, env).Failure?
    ensures var fin := DaoCommand(flags, command, src, env, now, saveFault);
      fin.err == Some(ResolveDaoNames(flags, command, env).error) && fin.runs == [] && fin.saved == []
  {
  }

  /** Regrouping the writes before the loop, the earlier saves and this table's save. */
  lemma AppendAssociates<T>(a: seq<T>, b: seq<T>, c: seq<T>)
    ensures (a + b) + c == a + (b + c)
  {
  }

  /**
   * One pass of the table loop for a non-empty entry: the SQL arguments for
   * the table, the generated code, and the generation into `outPath`.
   * `base` is what the disk held before the loop.
   */
  method GenerateTable(names: DaoNames, tableNames: seq<string>, count: nat, sqlArgs: SqlArgs, isIncludeInitDB: bool,
                       outPath: string, ghost st: LoopState, ghost base: seq<Write>,
                       r: Replacer?, disk: Disk, env: Env, now: string, saveFault: nat -> Option<string>)
    returns (ghost next: LoopState, args: SqlArgs, initDB: bool, out: string, err: Option<Error>)
    requires count < |tableNames| && tableNames[count] != ""
    requires st == LoopState(sqlArgs, isIncludeInitDB, outPath, st.runs, st.saved, None)
    requires disk.writes == base + Saves(st.saved)
    modifies r, disk
    ensures next == TableStep(LoopCtx(names, SourceOf(r), env, now, saveFault), tableNames, count, st)
    ensures (next.args, next.initDB, next.outPath, next.err) == (args, initDB, out, err)
    ensures disk.writes == base + Saves(next.saved)
  {
    var tableName := tableNames[count];
    // mongodb tables are never embedded
    args := sqlArgs.(isEmbed := sqlArgs.isEmbed && sqlArgs.dbDriver != DriverName(Mongodb), dbTable := tableName);
    var codes := env.sqlGenerate(args);
    if codes.Failure? {
      next := st.(args := args, err := Some(Collaborator(codes.error)));
      return next, args, isIncludeInitDB, outPath, Some(Collaborator(codes.error));
    }

    // only the entry at position 0 may ask for the initialisation code
    initDB := count == 0 && isIncludeInitDB;

    var g := DaoGenerator(names.moduleName, args.dbDriver, initDB, codes.value, outPath,
                          names.serverName, names.suitedMonoRepo);
    ghost var s := GenerateStep(g, SourceOf(r), env, now, saveFault(count));
    next := Advance(st, args, Run(count, tableName, g, s));
    SavesAppend(st.saved, OptionToSeq(s.saved));
    AppendAssociates(base, Saves(st.saved), Saves(OptionToSeq(s.saved)));
    out, err := GenerateCode(g, r, disk, env, now, saveFault(count));
  }

  /**
   * The table loop of the dao command's `RunE`, from the resolved names: one
   * generation per non-empty entry of `tableNames`, stopping at the first error.
   */
  method GenerateTables(names: DaoNames, tableNames: seq<string>, args: SqlArgs, initDB: bool,
                        r: Replacer?, disk: Disk, env: Env, now: string, saveFault: nat -> Option<string>)
    returns (err: Option<Error>, out: string)
    modifies r, disk
    ensures var fin := TableLoop(LoopCtx(names, SourceOf(r), env, now, saveFault), tableNames, 0,
                                 LoopStart(args, initDB, names.outPath));
      && err == fin.err
      && (err.None? ==> out == fin.outPath)
      && disk.writes == old(disk.writes) + Saves(fin.saved)
  {
    ghost var ctx := LoopCtx(names, SourceOf(r), env, now, saveFault);
    ghost var fin := TableLoop(ctx, tableNames, 0, LoopStart(args, initDB, names.outPath));
    assert Saves([]) == [];
    var sqlArgs, isIncludeInitDB, outPath := args, initDB, names.outPath;
    ghost var st := LoopStart(args, initDB, names.outPath);
    var count := 0;
    while count < |tableNames|
      invariant 0 <= count <= |tableNames|
      invariant st == LoopState(sqlArgs, isIncludeInitDB, outPath, st.runs, st.saved, None)
      invariant TableLoop(ctx, tableNames, count, st) == fin
      invariant disk.writes == old(disk.writes) + Saves(st.saved)
    {
      if tableNames[count] == "" {
        count := count + 1;
        continue;
      }
      var e;
      ghost var next;
      next, sqlArgs, isIncludeInitDB, outPath, e :=
        GenerateTable(names, tableNames, count, sqlArgs, isIncludeInitDB, outPath, st, old(disk.writes),
                      r, disk, env, now, saveFault);
      if e.Some? {
        assert fin == next;
        return e, outPath;
      }
      st := next;
      count := count + 1;
    }
    return None, outPath;
  }

  /** `RunE` of the dao command on the registered replacer `r`; `out` is the directory it reports. */
  method RunDao(flags: DaoFlags, command: string, r: Replacer?, disk: Disk, env: Env, now: string,
                saveFault: nat -> Option<string>)
    returns (err: Option<Error>, out: string)
    modifies r, disk
    ensures var fin := DaoCommand(flags, command, SourceOf(r), env, now, saveFault);
      && err == fin.err
      && (err.None? ==> out == fin.outPath)
      && disk.writes == old(disk.writes) + Saves(fin.saved)
  {
    var moduleName, serverName, suitedMonoRepo, outPath :=
      flags.moduleName, flags.serverName, flags.suitedMonoRepo, flags.outPath;
    var recovered := env.namesFromOutDir(outPath);
    if recovered.moduleName != "" {
      moduleName := recovered.moduleName;
      serverName := recovered.serverName;
      suitedMonoRepo := recovered.suitedMonoRepo;
    } else if moduleName == "" {
      assert Saves([]) == [];
      return Some(ModuleNameNotSet(command)), outPath;
    }
    if suitedMonoRepo {
      if serverName == "" {
        assert Saves([]) == [];
        return Some(ServerNameNotSet(command)), outPath;
      }
      serverName := env.convertServerName(serverName);
      outPath := env.changeOutPath(outPath, serverName);
    }
    var names := DaoNames(moduleName, serverName, suitedMonoRepo, outPath);
    assert ResolveDaoNames(flags, command, env) == Success(names);
    err, out := GenerateTables(names, SplitComma(flags.dbTables), flags.sqlArgs, flags.includeInitDB,
                               r, disk, env, now, saveFault);
  }
}
