/**
 * What the `dao` and `http-pb` generate commands share: the package-level
 * constants they name, the collaborators they call, their errors and the
 * supported database drivers.
 */
module GenerateCommon {
  import opened Wrappers
  import opened GoStrings
  import opened TemplateReplacer

  /**
   * Package-level constants of the generate package, the sql2code parser and
   * the template marks, named as in Go. Their text is defined outside the
   * modelled files and is supplied by `Env.text`.
   */
  datatype Const =
    // template files and marks used by the dao command
    | ModelFile | DaoFile | DaoMgoFile | DaoTestFile
    | StartMark | EndMark | ModelFileMark | DaoFileMark | SelfPackageName
    // keys of the code map returned by sql2code.Generate
    | CodeTypeModel | CodeTypeDAO | TableName
    // template files used by the http-pb command
    | HttpFile | DockerFile | DockerFileBuild | DockerComposeFile | K8sDeploymentFile
    | K8sServiceFile | ImageBuildFile | MakeFile | GitIgnoreFile | ProtoShellFile
    | AppConfigFile | ReadmeFile
    // "# " marks of shell, yaml and docker files
    | WellStartMark | WellEndMark | WellOnlyGrpcStartMark | WellOnlyGrpcEndMark
    | WellStartMark2 | WellEndMark2
    // placeholder marks and the http variants that replace them
    | DockerFileMark | DockerFileHTTPCode | DockerFileBuildMark | DockerFileBuildHTTPCode
    | DockerComposeFileMark | DockerComposeFileHTTPCode | K8sDeploymentFileMark
    | K8sDeploymentFileHTTPCode | K8sServiceFileMark | K8sServiceFileHTTPCode
    | AppConfigFileMark | HttpServerConfigCode | ProtoShellFileGRPCMark
    | ProtoShellFileMark | ProtoShellHandlerCode

  /**
   * One call that turns a marked region of a template file into rules:
   * `deleteFieldsMark(r, file, start, end)` or
   * `replaceFileContentMark(r, file, heading)`.
   */
  datatype MarkCall =
    | DeleteMark(file: Const, start: Const, end: Const)
    | ReplaceContentMark(file: Const, heading: string)

  /** `sql2code.Args`: what the SQL code generator is asked for. */
  datatype SqlArgs = SqlArgs(
    packageName: string,
    jsonTag: bool,
    gormType: bool,
    dbDriver: string,
    dbDsn: string,
    dbTable: string,
    isEmbed: bool,
    jsonNamedType: int)

  /** What `getNamesFromOutDir` recovers from a previously generated directory. */
  datatype OutDirNames = OutDirNames(moduleName: string, serverName: string, suitedMonoRepo: bool)

  /** What `parseProtobufFiles` returns on success. */
  datatype ProtoFiles = ProtoFiles(files: seq<string>, isImportTypes: bool)

  /**
   * The collaborators the commands call whose code is not part of this model,
   * as functions of their arguments. Those that read the embedded template
   * (`resolveMark`) or a database or proto file (`sqlGenerate`,
   * `parseProtobufFiles`) see fixed inputs during one command.
   */
  datatype Env = Env(
    text: Const -> string,
    resolveMark: MarkCall -> seq<Field>,
    subServerCodeFields: (string, string, string) -> seq<Field>,
    toKebabCase: string -> string,
    imageRepoHost: string -> string,
    convertServerName: string -> string,
    changeOutPath: (string, string) -> string,
    namesFromOutDir: string -> OutDirNames,
    sqlGenerate: SqlArgs -> Result<map<string, string>, string>,
    parseProtobufFiles: string -> Result<ProtoFiles, string>)

  /** The rules produced by a list of mark calls, in call order. */
  function ResolveMarks(env: Env, calls: seq<MarkCall>): seq<Field>
  {
    if |calls| == 0 then [] else env.resolveMark(calls[0]) + ResolveMarks(env, calls[1..])
  }

  /** The rules of consecutive call lists are the rules of each list, in order. */
  lemma {:induction false} ResolveMarksAppend(env: Env, a: seq<MarkCall>, b: seq<MarkCall>)
    ensures ResolveMarks(env, a + b) == ResolveMarks(env, a) + ResolveMarks(env, b)
    decreases |a|
  {
    if |a| == 0 {
      assert a + b == b;
    } else {
      assert (a + b)[1..] == a[1..] + b;
      ResolveMarksAppend(env, a[1..], b);
    }
  }

  /** Go's map index: a missing key reads as the empty string. */
  function Lookup(codes: map<string, string>, key: string): string
  {
    if key in codes then codes[key] else ""
  }

  /** The framework module path that templates import. */
  const FrameworkModule := "github.com/zhufuyi/sponge"

  datatype Error =
    | ModuleNameNotSet(command: string)
    | ServerNameNotSet(command: string)
    | NilReplacer(message: string)
    | UnsupportedDriver(driver: string)
    /** An error returned by a collaborator (SQL generation, proto parsing, SaveFiles). */
    | Collaborator(message: string)

  /** The text of each error as the command returns it. */
  function Message(e: Error): string
  {
    match e
    case ModuleNameNotSet(c) =>
      "required flag(s) \"module-name\" not set, use \"sponge " + c + " dao -h\" for help"
    case ServerNameNotSet(c) =>
      "required flag(s) \"server-name\" not set, use \"sponge " + c + " dao -h\" for help"
    case NilReplacer(m) => m
    case UnsupportedDriver(d) => "unsupported db driver: " + d
    case Collaborator(m) => m
  }

  /** The database drivers the dao command supports. */
  datatype Driver = Mysql | Postgresql | Tidb | Sqlite | Mongodb

  /** `DBDriverMysql` ... `DBDriverMongodb`, the names accepted by --db-driver. */
  function DriverName(d: Driver): (name: string)
    ensures IsLowerAscii(name)
  {
    match d
    case Mysql => "mysql"
    case Postgresql => "postgresql"
    case Tidb => "tidb"
    case Sqlite => "sqlite"
    case Mongodb => "mongodb"
  }

  predicate IsSqlDriver(d: Driver)
  {
    d != Mongodb
  }

  /** The `switch strings.ToLower(g.dbDriver)` of generateCode. */
  function MatchDriver(name: string): Option<Driver>
  {
    var lower := ToLower(name);
    if lower == "mysql" then Some(Mysql)
    else if lower == "postgresql" then Some(Postgresql)
    else if lower == "tidb" then Some(Tidb)
    else if lower == "sqlite" then Some(Sqlite)
    else if lower == "mongodb" then Some(Mongodb)
    else None
  }

  /** A name selects driver `k` exactly when its lower-case form is `k`'s name. */
  lemma MatchDriverSpec(name: string, k: Driver)
    ensures MatchDriver(name) == Some(k) <==> ToLower(name) == DriverName(k)
  {
  }

  /** Each driver name is matched back to its driver, in any ASCII case. */
  lemma MatchDriverName(d: Driver)
    ensures MatchDriver(DriverName(d)) == Some(d)
    ensures MatchDriver(ToUpperAscii(DriverName(d))) == Some(d)
  {
    LowerOfLowerAscii(DriverName(d));
    UpperAsciiEqualFold(DriverName(d));
  }

  /** Names equal up to case select the same driver (or both none). */
  lemma MatchDriverCaseInsensitive(s: string, t: string)
    requires EqualFold(s, t)
    ensures MatchDriver(s) == MatchDriver(t)
  {
  }

  /** `fs[i]` is immediately followed by `fs[i + 1]` for some position `i`. */
  predicate ImmediatelyFollows(fs: seq<Field>, first: Field, second: Field)
  {
    exists i :: 0 <= i < |fs| - 1 && fs[i] == first && fs[i + 1] == second
  }
}
