/**
 * The `http-pb` generate command (`runGenHTTPPbCommand`): the template
 * directories and files it selects, its ignore list, the ordered rule list of
 * `addHTTPPbFields`, and the order in which it fails, saves and writes its
 * extra files.
 */
module HttpPb {
  import opened Wrappers
  import opened TemplateReplacer
  import opened GenerateCommon

  /** The command-line flags of `sponge web http-pb`. */
  datatype HttpPbFlags = HttpPbFlags(
    moduleName: string,
    serverName: string,
    projectName: string,
    protobufFile: string,
    repoAddr: string,
    outPath: string)

  // ---------------------------------------------------------------------------
  // File selection
  // ---------------------------------------------------------------------------

  /** The template sub-directories the command processes. */
  const HttpPbSubDirs: seq<string> := [
    "api/types", "cmd/serverNameExample_httpPbExample",
    "sponge/build", "sponge/configs", "sponge/deployments", "sponge/docs", "sponge/scripts", "sponge/third_party",
    "internal/config", "internal/ecode", "internal/routers", "internal/server"]

  /** The single template files the command processes. */
  const HttpPbSubFiles: seq<string> := [
    "sponge/.gitignore", "sponge/.golangci.yml", "sponge/go.mod", "sponge/go.sum",
    "sponge/Jenkinsfile", "sponge/Makefile", "sponge/README.md"]

  /** The files inside the selected directories that are always skipped. */
  const HttpPbFixedIgnoreFiles: seq<string> := [
    "types.pb.validate.go", "types.pb.go",
    "swagger.json", "swagger.yaml", "apis.swagger.json", "apis.html", "docs.go",
    "userExample_rpc.go", "systemCode_rpc.go", "userExample_http.go",
    "routers.go", "routers_test.go", "userExample.go", "userExample_service.pb.go",
    "grpc.go", "grpc_option.go", "grpc_test.go"]

  /** The ignore list the command hands to the replacer. */
  function HttpPbIgnoreFiles(isImportTypes: bool): seq<string>
  {
    if isImportTypes then HttpPbFixedIgnoreFiles else HttpPbFixedIgnoreFiles + ["types.proto"]
  }

  /**
   * `types.proto` is skipped exactly when the proto files do not import the
   * shared types; every other entry is fixed and keeps its place.
   */
  lemma HttpPbIgnoreFilesSpec(isImportTypes: bool, f: string)
    ensures "types.proto" in HttpPbIgnoreFiles(isImportTypes) <==> !isImportTypes
    ensures f != "types.proto" ==> (f in HttpPbIgnoreFiles(isImportTypes) <==> f in HttpPbFixedIgnoreFiles)
    ensures HttpPbIgnoreFiles(isImportTypes)[..|HttpPbFixedIgnoreFiles|] == HttpPbFixedIgnoreFiles
  {
  }

  /** The name `SetOutputDir` is given for the default output directory. */
  function OutputHint(serverName: string): string
  {
    serverName + "_" + "http-pb"
  }

  /** Without `--out` the code goes to `./<server>_http-pb_<time>`. */
  lemma HttpPbDefaultOutputDir(serverName: string, now: string)
    ensures ResolveOutputDir("", OutputHint(serverName), now) == "./" + serverName + "_http-pb_" + now
  {
  }

  // ---------------------------------------------------------------------------
  // Rule list
  // ---------------------------------------------------------------------------

  /** The twelve mark deletions `addHTTPPbFields` starts with. */
  function HttpPbDeleteCalls(): seq<MarkCall>
  {
    [ DeleteMark(HttpFile, StartMark, EndMark),
      DeleteMark(DockerFile, WellStartMark, WellEndMark),
      DeleteMark(DockerFileBuild, WellStartMark, WellEndMark),
      DeleteMark(DockerComposeFile, WellStartMark, WellEndMark),
      DeleteMark(K8sDeploymentFile, WellStartMark, WellEndMark),
      DeleteMark(K8sServiceFile, WellStartMark, WellEndMark),
      DeleteMark(ImageBuildFile, WellOnlyGrpcStartMark, WellOnlyGrpcEndMark),
      DeleteMark(MakeFile, WellStartMark, WellEndMark),
      DeleteMark(GitIgnoreFile, WellStartMark, WellEndMark),
      DeleteMark(ProtoShellFile, WellStartMark, WellEndMark),
      DeleteMark(ProtoShellFile, WellStartMark2, WellEndMark2),
      DeleteMark(AppConfigFile, WellStartMark, WellEndMark) ]
  }

  /** The mark deletions followed by the README heading replacement. */
  function HttpPbMarkCalls(serverName: string): seq<MarkCall>
  {
    HttpPbDeleteCalls() + [ReplaceContentMark(ReadmeFile, "## " + serverName)]
  }

  /** `proto.sh` is cleared of two independent mark pairs, and every other file of one. */
  lemma ProtoShellTwoMarkPairs()
    ensures |HttpPbDeleteCalls()| == 12
    ensures forall c :: c in HttpPbDeleteCalls() ==> c.DeleteMark?
    ensures DeleteMark(ProtoShellFile, WellStartMark, WellEndMark) in HttpPbDeleteCalls()
    ensures DeleteMark(ProtoShellFile, WellStartMark2, WellEndMark2) in HttpPbDeleteCalls()
    ensures forall i, j :: 0 <= i < j < 12 && HttpPbDeleteCalls()[i].file == HttpPbDeleteCalls()[j].file ==>
              i == 9 && j == 10
  {
  }

  /** `addHTTPPbFields`. */
  function AddHttpPbFields(moduleName: string, serverName: string, projectName: string, repoAddr: string,
                           env: Env): seq<Field>
  {
    ResolveMarks(env, HttpPbMarkCalls(serverName))
    + [ Literal(env.text(DockerFileMark), env.text(DockerFileHTTPCode)),
        Literal(env.text(DockerFileBuildMark), env.text(DockerFileBuildHTTPCode)),
        Literal(env.text(DockerComposeFileMark), env.text(DockerComposeFileHTTPCode)),
        Literal(env.text(K8sDeploymentFileMark), env.text(K8sDeploymentFileHTTPCode)),
        Literal(env.text(K8sServiceFileMark), env.text(K8sServiceFileHTTPCode)),
        Literal(env.text(AppConfigFileMark), env.text(HttpServerConfigCode)),
        Literal(env.text(ProtoShellFileGRPCMark), ""),
        Literal(env.text(ProtoShellFileMark), env.text(ProtoShellHandlerCode)),
        Literal(FrameworkModule, moduleName),
        Literal(moduleName + "/pkg", FrameworkModule + "/pkg"),
        Literal("sponge api docs", serverName + " api docs"),
        Literal("serverNameExample", serverName),
        Literal("server-name-example", env.toKebabCase(serverName)),
        Literal("projectNameExample", projectName),
        Literal("project-name-example", env.toKebabCase(projectName)),
        Literal("repo-addr-example", repoAddr),
        Literal("image-repo-host", env.imageRepoHost(repoAddr)),
        Literal("_httpPbExample", ""),
        Literal("_pbExample", ""),
        Literal("_mixExample", "") ]
  }

  /**
   * The rules of the twelve mark deletions come first, then those of the
   * README heading replacement, then the literal rules.
   */
  lemma HttpPbMarkRulesFirst(moduleName: string, serverName: string, projectName: string, repoAddr: string, env: Env)
    ensures var dels := ResolveMarks(env, HttpPbDeleteCalls());
      var readme := env.resolveMark(ReplaceContentMark(ReadmeFile, "## " + serverName));
      var fs := AddHttpPbFields(moduleName, serverName, projectName, repoAddr, env);
      && |dels| + |readme| + 20 == |fs|
      && fs[..|dels|] == dels
      && fs[|dels|..|dels| + |readme|] == readme
  {
    var readme := ReplaceContentMark(ReadmeFile, "## " + serverName);
    ResolveMarksAppend(env, HttpPbDeleteCalls(), [readme]);
    assert ResolveMarks(env, [readme]) == env.resolveMark(readme) + ResolveMarks(env, []);
  }

  /** Every rule the command writes itself is applied without regard to case. */
  lemma HttpPbLiteralRulesIgnoreCase(moduleName: string, serverName: string, projectName: string, repoAddr: string,
                                     env: Env)
    ensures var m := |ResolveMarks(env, HttpPbMarkCalls(serverName))|;
      var fs := AddHttpPbFields(moduleName, serverName, projectName, repoAddr, env);
      && m + 20 == |fs|
      && forall i :: m <= i < |fs| ==> !fs[i].isCaseSensitive
  {
  }

  /** The module rename is immediately followed by the rule restoring framework `pkg` imports. */
  lemma HttpPbPkgImportsRestored(moduleName: string, serverName: string, projectName: string, repoAddr: string,
                                 env: Env)
    ensures ImmediatelyFollows(AddHttpPbFields(moduleName, serverName, projectName, repoAddr, env),
      Literal(FrameworkModule, moduleName), Literal(moduleName + "/pkg", FrameworkModule + "/pkg"))
  {
    var m := |ResolveMarks(env, HttpPbMarkCalls(serverName))|;
    var fs := AddHttpPbFields(moduleName, serverName, projectName, repoAddr, env);
    assert fs[m + 8] == Literal(FrameworkModule, moduleName);
    assert fs[m + 9] == Literal(moduleName + "/pkg", FrameworkModule + "/pkg");
  }

  /**
   * In `proto.sh` the gRPC mark is erased and the handler mark becomes the
   * handler code, both before any rule that rewrites module paths.
   */
  lemma HttpPbProtoShellRules(moduleName: string, serverName: string, projectName: string, repoAddr: string, env: Env)
    ensures var m := |ResolveMarks(env, HttpPbMarkCalls(serverName))|;
      var fs := AddHttpPbFields(moduleName, serverName, projectName, repoAddr, env);
      && m + 10 <= |fs|
      && fs[m + 6] == Literal(env.text(ProtoShellFileGRPCMark), "")
      && fs[m + 7] == Literal(env.text(ProtoShellFileMark), env.text(ProtoShellHandlerCode))
      && fs[m + 8] == Literal(FrameworkModule, moduleName)
      && fs[m + 9] == Literal(moduleName + "/pkg", FrameworkModule + "/pkg")
  {
  }

  /** The last three rules strip the `_httpPbExample`, `_pbExample` and `_mixExample` suffixes. */
  lemma HttpPbSuffixRulesLast(moduleName: string, serverName: string, projectName: string, repoAddr: string, env: Env)
    ensures var fs := AddHttpPbFields(moduleName, serverName, projectName, repoAddr, env);
      && |fs| >= 3
      && fs[|fs| - 3..] == [Literal("_httpPbExample", ""), Literal("_pbExample", ""), Literal("_mixExample", "")]
  {
  }

  // ---------------------------------------------------------------------------
  // The command
  // ---------------------------------------------------------------------------

  /** What `runGenHTTPPbCommand` writes, in order, and the error it returns. */
  datatype Outcome = Outcome(writes: seq<Write>, err: Option<Error>)

  /** The configuration the command saves with, for parsed proto files `pf`. */
  function HttpPbConfig(flags: HttpPbFlags, pf: ProtoFiles, env: Env, now: string): (cfg: Config)
    ensures "types.proto" in cfg.ignoreFiles <==> !pf.isImportTypes
    ensures flags.outPath != "" ==> cfg.outputDir == flags.outPath
    ensures flags.outPath == "" ==> cfg.outputDir == "./" + flags.serverName + "_http-pb_" + now
  {
    Config(HttpPbSubDirs, HttpPbSubFiles, [], HttpPbIgnoreFiles(pf.isImportTypes),
           AddHttpPbFields(flags.moduleName, flags.serverName, flags.projectName, flags.repoAddr, env),
           ResolveOutputDir(flags.outPath, OutputHint(flags.serverName), now))
  }

  /**
   * `runGenHTTPPbCommand` for a replacer with source path `src` (None: no
   * replacer is registered) and a `SaveFiles` outcome `fault`.
   */
  function HttpPbCommand(flags: HttpPbFlags, src: Option<string>, env: Env, now: string, fault: Option<string>): (o: Outcome)
    // the proto files are parsed before the replacer is looked up
    ensures env.parseProtobufFiles(flags.protobufFile).Failure? ==>
              o == Outcome([], Some(Collaborator(env.parseProtobufFiles(flags.protobufFile).error)))
    ensures env.parseProtobufFiles(flags.protobufFile).Success? && src.None? ==>
              o == Outcome([], Some(NilReplacer("replacer is nil")))
    // otherwise the template is saved first, and only a clean save writes the proto files and gen info
    ensures o.writes != [] <==> env.parseProtobufFiles(flags.protobufFile).Success? && src.Some?
    ensures o.writes != [] ==>
              o.writes[0] == Save(HttpPbConfig(flags, env.parseProtobufFiles(flags.protobufFile).value, env, now))
    ensures o.err.None? <==> o.writes != [] && fault.None?
    ensures o.writes != [] && fault.Some? ==> o.writes == [o.writes[0]] && o.err == Some(Collaborator(fault.value))
    ensures o.err.None? ==>
              var pf := env.parseProtobufFiles(flags.protobufFile).value;
              var dir := o.writes[0].config.outputDir;
              o.writes[1..] == [ProtobufFiles(flags.moduleName, flags.serverName, dir, pf.files),
                                GenInfo(flags.moduleName, flags.serverName, dir)]
  {
    match env.parseProtobufFiles(flags.protobufFile)
    case Failure(e) => Outcome([], Some(Collaborator(e)))
    case Success(pf) =>
      if src.None? then Outcome([], Some(NilReplacer("replacer is nil")))
      else SaveOutcome(flags, pf, env, now, fault)
  }

  /** What the command writes and returns once the proto files are parsed and the replacer is found. */
  function SaveOutcome(flags: HttpPbFlags, pf: ProtoFiles, env: Env, now: string, fault: Option<string>): Outcome
  {
    var cfg := HttpPbConfig(flags, pf, env, now);
    match fault
    case Some(e) => Outcome([Save(cfg)], Some(Collaborator(e)))
    case None =>
      Outcome([Save(cfg), ProtobufFiles(flags.moduleName, flags.serverName, cfg.outputDir, pf.files),
               GenInfo(flags.moduleName, flags.serverName, cfg.outputDir)], None)
  }

  /** `saveProtobufFiles`: copies the proto files into the generated tree; its error is discarded. */
  method SaveProtobufFiles(disk: Disk, moduleName: string, serverName: string, outputDir: string, files: seq<string>)
    modifies disk
    ensures disk.writes == old(disk.writes) + [ProtobufFiles(moduleName, serverName, outputDir, files)]
  {
    disk.writes := disk.writes + [ProtobufFiles(moduleName, serverName, outputDir, files)];
  }

  /** `saveGenInfo`: records how the tree was generated; its error is discarded. */
  method SaveGenInfo(disk: Disk, moduleName: string, serverName: string, outputDir: string)
    modifies disk
    ensures disk.writes == old(disk.writes) + [GenInfo(moduleName, serverName, outputDir)]
  {
    disk.writes := disk.writes + [GenInfo(moduleName, serverName, outputDir)];
  }

  /**
   * The part of `runGenHTTPPbCommand` between the replacer lookup and
   * `SaveFiles`: the template selection, the ignore list for the parsed proto
   * files, the rule list and the output directory, set in that order.
   */
  method ConfigureHttpPb(flags: HttpPbFlags, pf: ProtoFiles, r: Replacer, env: Env, now: string)
    modifies r
    ensures r.Current() == HttpPbConfig(flags, pf, env, now)
  {
    var subTplName := "http-pb";
    var subDirs := HttpPbSubDirs;
    var subFiles := HttpPbSubFiles;
    var ignoreDirs: seq<string> := [];
    var ignoreFiles := HttpPbFixedIgnoreFiles;
    if !pf.isImportTypes {
      ignoreFiles := ignoreFiles + ["types.proto"];
    }

    r.SetSubDirsAndFiles(subDirs, subFiles);
    r.SetIgnoreSubDirs(ignoreDirs);
    r.SetIgnoreSubFiles(ignoreFiles);
    var fields := AddHttpPbFields(flags.moduleName, flags.serverName, flags.projectName, flags.repoAddr, env);
    r.SetReplacementFields(fields);
    r.SetOutputDir(flags.outPath, flags.serverName + "_" + subTplName, now);
  }

  /** The rest of `runGenHTTPPbCommand` on the found replacer `r`: configure, save, then write the extra files. */
  method SaveHttpPb(flags: HttpPbFlags, pf: ProtoFiles, r: Replacer, disk: Disk, env: Env, now: string,
                    fault: Option<string>)
    returns (err: Option<Error>)
    modifies r, disk
    ensures var o := SaveOutcome(flags, pf, env, now, fault);
      && err == o.err
      && disk.writes == old(disk.writes) + o.writes
      && r.Current() == HttpPbConfig(flags, pf, env, now)
  {
    ConfigureHttpPb(flags, pf, r, env, now);
    var e := r.SaveFiles(disk, fault);
    if e.Some? {
      return Some(Collaborator(e.value));
    }

    SaveProtobufFiles(disk, flags.moduleName, flags.serverName, r.outputDir, pf.files);
    SaveGenInfo(disk, flags.moduleName, flags.serverName, r.outputDir);
    return None;
  }

  /** `runGenHTTPPbCommand` on the registered replacer `r`. */
  method RunGenHttpPb(flags: HttpPbFlags, r: Replacer?, disk: Disk, env: Env, now: string, fault: Option<string>)
    returns (err: Option<Error>)
    modifies r, disk
    ensures var o := HttpPbCommand(flags, SourceOf(r), env, now, fault);
      && err == o.err
      && disk.writes == old(disk.writes) + o.writes
      && (r != null && o.writes != [] ==> r.Current() == o.writes[0].config)
      && (r != null && o.writes == [] ==> unchanged(r))
  {
    var parsed := env.parseProtobufFiles(flags.protobufFile);
    if parsed.Failure? {
      return Some(Collaborator(parsed.error));
    }
    if r == null {
      return Some(NilReplacer("replacer is nil"));
    }
    err := SaveHttpPb(flags, parsed.value, r, disk, env, now, fault);
  }
}
