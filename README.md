# sponge generate commands: run configuration

sponge generates Go services from an embedded template tree. Each generate
command configures a template replacer: which sub-directories and files of
the template to process, which files in them to skip, the ordered list of
substitution rules (`Field{Old, New, IsCaseSensitive}`) and the output
directory. Then it asks the replacer to save the rewritten tree. This project
models that configuration layer for two commands:

- **`dao`** picks the template files for the database driver. The driver is
  matched case-insensitively: mysql, postgresql, tidb and sqlite share one
  list, mongodb has its own, and any other name is rejected. The
  `--include-init-db` flag un-ignores the family's initialisation file. The
  rule list starts with four mark deletions, then the literal renames, then an
  optional block for mono-repo mode. The command walks a comma-separated table
  list: empty entries are skipped, initialisation code is asked for only at
  position 0, each table's output directory becomes the next table's
  `outPath`, and the first error stops the loop.
- **`http-pb`** selects twelve directories and seven files and a fixed ignore
  list. It adds `types.proto` to that list when the proto files do not import
  the shared types. Its rule list has twelve mark deletions, then the README
  heading replacement, then twenty literal rules. The command parses the proto
  files, looks up the replacer, configures and saves it, and only after a
  clean save writes the proto files and the generation info.

Modules:

- `Wrappers`: `Option`, `Result`.
- `GoStrings`: `strings.ToLower`, `strings.Split(s, ",")` and `removeElement`.
- `TemplateReplacer`: the replacer's abstract state as a class, and the output
  tree as a log of writes.
- `GenerateCommon`: package constants, collaborators, errors and drivers.
- `Dao`, `HttpPb`: the two commands.

Each command has two parts:

- A specification function: `GenerateStep`, `TableLoop` and `DaoCommand` for
  `dao`, `HttpPbCommand` for `http-pb`.
- Methods that follow the Go code statement by statement. Their `ensures`
  equate the returned error, the output directory and the writes with that
  function.

The properties are then lemmas about the functions. Each loop property is an
invariant of `TableLoop`, proved for one step and then by induction.

Package constants whose text is defined outside the modelled files are
symbolic, except the driver names (see "## Left out"). Examples are `modelFile`, `startMark`, `dockerFileMark` and
`parser.CodeTypeModel`. Each is a constructor of `Const`, and `Env.text`
gives its value. The helpers outside the modelled files are fields of `Env`:

- `deleteFieldsMark` / `replaceFileContentMark` (as `resolveMark`);
- `SubServerCodeFields`, `sql2code.Generate`, `parseProtobufFiles`;
- `getNamesFromOutDir`, `convertServerName`, `changeOutPath`;
- `xstrings.ToKebabCase`, `parseImageRepoAddr`.

The clock reading that `SetOutputDir` uses is the parameter `now`. The
outcome of each `SaveFiles` call is a parameter (`fault` / `saveFault(i)`).

## Model

| member | source | states |
|---|---|---|
| GoStrings.ToLower | cmd/sponge/commands/generate/dao.go:159 | no contract of its own; LowerOfLowerAscii and UpperAsciiEqualFold state that lower-case names are fixed and upper-case ASCII spellings lower back to them (limits under "## Left out") |
| GoStrings.RemoveElement | cmd/sponge/commands/generate/dao.go:166-168 | the result holds exactly the entries of the list other than the name, is no longer, and is the list itself when the name is absent (assumed contract) |
| GoStrings.SplitComma | cmd/sponge/commands/generate/dao.go:69 | at least one piece, for the empty string too; the round trip and the comma-free pieces are stated by JoinSplit, SplitJoin and SplitPiecesCommaFree |
| GoStrings.JoinSplit | cmd/sponge/commands/generate/dao.go:69 | joining the pieces of `strings.Split(s, ",")` with commas gives back `s` |
| GoStrings.SplitJoin | cmd/sponge/commands/generate/dao.go:69 | splitting comma-free pieces joined by commas gives back the pieces, empty ones included |
| GoStrings.SplitPiecesCommaFree | cmd/sponge/commands/generate/dao.go:69 | no table name produced by the split contains a comma |
| GoStrings.UpperAsciiEqualFold | cmd/sponge/commands/generate/dao.go:159 | an upper-cased lower-case ASCII name has that name as its lower case |
| TemplateReplacer.SavesAppend | cmd/sponge/commands/generate/dao.go:188 | the saves of two consecutive runs are the saves of the first followed by those of the second |
| TemplateReplacer.ResolveOutputDir | cmd/sponge/commands/generate/dao.go:185 | the resolved directory is never empty and is the given path when that is non-empty (assumed `SetOutputDir`); ResolveOutputDirIdempotent states idempotence |
| TemplateReplacer.ResolveOutputDirIdempotent | cmd/sponge/commands/generate/dao.go:185 | handing an already resolved output directory to `SetOutputDir` again keeps it |
| TemplateReplacer.Replacer.SaveFiles | cmd/sponge/commands/generate/dao.go:188-190 | one save of the current configuration is appended to the output tree, and the outcome is returned |
| GenerateCommon.ResolveMarksAppend | cmd/sponge/commands/generate/http-pb.go:121-133 | the rules of consecutive mark calls are those of each call, in call order |
| GenerateCommon.MatchDriver | cmd/sponge/commands/generate/dao.go:159-180 | no contract of its own; MatchDriverSpec, MatchDriverName and MatchDriverCaseInsensitive state the case-insensitive match |
| GenerateCommon.MatchDriverSpec | cmd/sponge/commands/generate/dao.go:159-180 | a name selects driver `k` exactly when its lower case is `k`'s name |
| GenerateCommon.MatchDriverName | cmd/sponge/commands/generate/dao.go:159-169 | each driver name selects its driver, in lower and in upper case |
| GenerateCommon.MatchDriverCaseInsensitive | cmd/sponge/commands/generate/dao.go:159 | names equal up to case select the same driver, or both none |
| Dao.DaoIgnoreFiles | cmd/sponge/commands/generate/dao.go:158-180 | the ignore list fails exactly for an unmatched driver, with "unsupported db driver" and the name |
| Dao.DaoIgnoreFilesSpec | cmd/sponge/commands/generate/dao.go:158-177 | a file is ignored exactly when the file-by-file rule `DaoIgnores` says so for the matched driver and flag |
| Dao.SqlDriversShareIgnoreList | cmd/sponge/commands/generate/dao.go:160-168 | any two SQL driver names, in any case, select the same list |
| Dao.SqlInitFiles | cmd/sponge/commands/generate/dao.go:161-168 | for SQL drivers `init.go` is ignored exactly without the flag; `init.go.mgo` and `init_test.go` are always ignored |
| Dao.MongoInitFiles | cmd/sponge/commands/generate/dao.go:170-177 | for mongodb `init.go.mgo` is ignored exactly without the flag; `init.go` and `init_test.go` are always ignored |
| Dao.AddFields | cmd/sponge/commands/generate/dao.go:196-245 | no contract of its own; its order is stated by DaoMarkRulesFirst, DaoTableRuleOnlyCaseSensitive, DaoPkgImportsRestored and DaoMonoRepoRulesLast |
| Dao.DaoMarkRulesFirst | cmd/sponge/commands/generate/dao.go:199-203 | the rules of the four mark deletions are a prefix of the rule list |
| Dao.DaoTableRuleOnlyCaseSensitive | cmd/sponge/commands/generate/dao.go:203-237 | among the eight literal rules only the table-name rule is case-sensitive, and it comes right after the two `.go.mgo` renames |
| Dao.DaoPkgImportsRestored | cmd/sponge/commands/generate/dao.go:216-223 | the module rename is immediately followed by the rule mapping `moduleName/pkg` back to the framework's `pkg` |
| Dao.DaoMonoRepoRulesLast | cmd/sponge/commands/generate/dao.go:239-244 | in mono-repo mode the sub-server rules follow the literal rules; otherwise the table-name rule is last |
| Dao.GenerateStep | cmd/sponge/commands/generate/dao.go:146-193 | nothing is saved without a replacer or a matched driver, with the matching error; success is a fault-free save, returning the `dao` output directory |
| Dao.SavedDaoConfig | cmd/sponge/commands/generate/dao.go:154-187 | a save uses the three dao directories, no single files, no ignored directories, the driver's list, the rule list and the resolved directory |
| Dao.GenerateCode | cmd/sponge/commands/generate/dao.go:146-193 | the setters and `SaveFiles` leave the replacer in the saved configuration and write what `GenerateStep` saves; an early error leaves the replacer and the tree unchanged |
| Dao.ResolveDaoNames | cmd/sponge/commands/generate/dao.go:53-67 | recovered names override the flags; a missing module name and, in mono-repo mode, an empty server name are errors; mono-repo converts the server name and moves the output path |
| Dao.MongoEmbedTestIsExact | cmd/sponge/commands/generate/dao.go:75-78 | for every driver and entry, the embed flag stays set exactly when it was set and the driver is not spelled exactly "mongodb", and the table is the entry; "MongoDB" still selects mongodb code in the case-insensitive switch |
| Dao.TableStep | cmd/sponge/commands/generate/dao.go:70-104 | no contract of its own; InitStep, OrderStep, ThreadStep and TreeStep state that one pass keeps each loop invariant |
| Dao.TableLoop | cmd/sponge/commands/generate/dao.go:69-105 | no contract of its own; InitDbOnlyForFirstEntry, EmptyTableNamesSkipped, OutputDirThreaded, FailureIsLastRun and FirstErrorAbortsRemainingTables state its properties |
| Dao.InitDbOnlyForFirstEntry | cmd/sponge/commands/generate/dao.go:84-89 | a generation asks for initialisation code exactly when it is for position 0 and the flag was set |
| Dao.EmptyTableNamesSkipped | cmd/sponge/commands/generate/dao.go:69-73 | every generation is for a non-empty entry, taken from its own position, in list order; an error-free run generates every non-empty entry |
| Dao.OutputDirThreaded | cmd/sponge/commands/generate/dao.go:96-101 | each generation starts from the previous one's output directory; all saves after the first table land in the first table's resolved directory |
| Dao.FailureIsLastRun | cmd/sponge/commands/generate/dao.go:101-104 | only the last generation can fail |
| Dao.FirstErrorAbortsRemainingTables | cmd/sponge/commands/generate/dao.go:79-82 | after an error, any further entries change neither the runs, the saves nor the error |
| Dao.NameErrorsWriteNothing | cmd/sponge/commands/generate/dao.go:58-64 | a rejected module or server name is returned with nothing generated or saved |
| Dao.DaoCommand | cmd/sponge/commands/generate/dao.go:52-114 | no contract of its own; NameErrorsWriteNothing states the name errors, and the loop lemmas state the rest; RunDao is proved against it |
| Dao.GenerateTable | cmd/sponge/commands/generate/dao.go:75-104 | one pass for a non-empty entry advances the loop state as `TableStep` does and appends that step's save to the tree |
| Dao.GenerateTables | cmd/sponge/commands/generate/dao.go:69-105 | the loop returns the error and output directory of `TableLoop` and writes exactly its saves |
| Dao.RunDao | cmd/sponge/commands/generate/dao.go:52-114 | `RunE` returns the error and output directory of `DaoCommand` and writes exactly its saves |
| HttpPb.HttpPbIgnoreFiles | cmd/sponge/commands/generate/http-pb.go:85-95 | no contract of its own; HttpPbIgnoreFilesSpec states that `types.proto` is added exactly when types are not imported |
| HttpPb.HttpPbIgnoreFilesSpec | cmd/sponge/commands/generate/http-pb.go:85-95 | `types.proto` is ignored exactly when types are not imported; every other entry is fixed and keeps its place |
| HttpPb.HttpPbDefaultOutputDir | cmd/sponge/commands/generate/http-pb.go:102 | without `--out` the output directory is `./<server>_http-pb_<time>` |
| HttpPb.ProtoShellTwoMarkPairs | cmd/sponge/commands/generate/http-pb.go:121-132 | twelve mark deletions; `proto.sh` is the only file with two, and they use the two independent mark pairs |
| HttpPb.AddHttpPbFields | cmd/sponge/commands/generate/http-pb.go:115-220 | no contract of its own; its order is stated by HttpPbMarkRulesFirst, HttpPbLiteralRulesIgnoreCase, HttpPbPkgImportsRestored, HttpPbProtoShellRules and HttpPbSuffixRulesLast |
| HttpPb.HttpPbMarkRulesFirst | cmd/sponge/commands/generate/http-pb.go:121-134 | the deletion rules come first, then the README heading rules, then exactly twenty literal rules |
| HttpPb.HttpPbLiteralRulesIgnoreCase | cmd/sponge/commands/generate/http-pb.go:134-217 | none of the twenty literal rules is case-sensitive |
| HttpPb.HttpPbPkgImportsRestored | cmd/sponge/commands/generate/http-pb.go:167-174 | the module rename is immediately followed by the rule mapping `moduleName/pkg` back to the framework's `pkg` |
| HttpPb.HttpPbProtoShellRules | cmd/sponge/commands/generate/http-pb.go:159-174 | the `proto.sh` gRPC mark is erased and the handler mark becomes the handler code, right before the module-path rules |
| HttpPb.HttpPbSuffixRulesLast | cmd/sponge/commands/generate/http-pb.go:205-216 | the last three rules strip `_httpPbExample`, `_pbExample` and `_mixExample` |
| HttpPb.HttpPbConfig | cmd/sponge/commands/generate/http-pb.go:75-102 | the saved ignore list holds `types.proto` exactly when types are not imported; the output directory is `--out` when given, otherwise `./<server>_http-pb_<time>` |
| HttpPb.HttpPbCommand | cmd/sponge/commands/generate/http-pb.go:62-113 | a parse error comes before the nil-replacer error, and neither writes anything; a save comes first; the proto files and gen info follow only a fault-free save, in the saved directory |
| HttpPb.SaveOutcome | cmd/sponge/commands/generate/http-pb.go:97-112 | no contract of its own; HttpPbCommand's ensures state the save-first order and the extra writes after a clean save |
| HttpPb.ConfigureHttpPb | cmd/sponge/commands/generate/http-pb.go:68-102 | the setters, in source order, leave the replacer holding HttpPbConfig for the parsed proto files |
| HttpPb.SaveHttpPb | cmd/sponge/commands/generate/http-pb.go:97-112 | configures, saves and writes the extra files, returning SaveOutcome's error and writes, with the replacer left in the saved configuration |
| HttpPb.SaveProtobufFiles | cmd/sponge/commands/generate/http-pb.go:107 | appends one proto-file write for the output directory |
| HttpPb.SaveGenInfo | cmd/sponge/commands/generate/http-pb.go:108 | appends one gen-info write for the output directory |
| HttpPb.RunGenHttpPb | cmd/sponge/commands/generate/http-pb.go:62-113 | returns `HttpPbCommand`'s error, writes exactly its writes, and leaves the replacer in the saved configuration (unchanged when nothing is written) |

## Left out

- The replacer's own work is not part of this model: walking the template, deleting marked regions, case-aware renaming and merge splicing. A save is recorded as the configuration the replacer held.
- Dao.SavedDaoConfig and HttpPb.HttpPbConfig: `SetOutputDir` is assumed to keep a non-empty path as given and to pick `./<hint>_<time>` otherwise. `filepath.Abs` and its ignored error are not modelled.
- GenerateCommon.DriverName: the driver constants `DBDriverMysql` ... `DBDriverMongodb` are defined outside the modelled files. They are assumed to be the lower-case names listed in the `--db-driver` help text (cmd/sponge/commands/generate/dao.go:119). The driver switch and the loop's exact mongodb test depend on those spellings.
- GoStrings.RemoveElement: `removeElement` is not part of this model. It is given the assumed contract "the list with that name filtered out, in order".
- GoStrings.ToLower: maps only the characters whose lower case is ASCII ('A'..'Z', U+0130, U+212A), which is what decides a match against the lower-case driver names. Other characters keep their case, although Go would lower them too.
- The helpers listed above are functions of their arguments, fixed during one command: the template's marks and the SQL and proto collaborators. Their own logic is not modelled, and the loop assumes `sql2code.Generate` returns the same result for the same arguments. `sql2code.Generate(&sqlArgs)` receives a pointer to the loop's own arguments; the model assumes it leaves them unmodified, so the driver read after the call and the arguments carried to later tables are those the loop set.
- The errors returned by `saveProtobufFiles` and `saveGenInfo` are discarded by the command. The model records each call as one write that always succeeds.
- Dao.GenerateTable, Dao.GenerateTables and Dao.RunDao: state the errors, the returned directory and everything written, but not the replacer's final configuration. That configuration is stated per table by Dao.GenerateCode.
- `fmt.Printf` output and cobra flag registration (defaults, required flags) are left out. The flags arrive as a record.
- The registry `Replacers[TplNameSponge]` is the parameter `r`. Concurrent use of the shared replacer is not modelled.
- `cmd/protoc-gen-go-gin/internal/generate/handler/template.go`, `internal/model/init_test.go` and `internal/server/grpc_test.go` are not part of this model. They hold Go template rendering with randomness, and tests that need live databases, Redis and a gRPC server.
