/**
 * The abstract state of the template replacer (`replacer.Replacer`) that the
 * generate commands configure, and the output tree it writes. The replacer's
 * own text rewriting is not part of this model: a run is recorded as the
 * configuration it was saved with.
 */
module TemplateReplacer {
  import opened Wrappers

  /** One substitution rule, `replacer.Field{Old, New, IsCaseSensitive}`. */
  datatype Field = Field(oldText: string, newText: string, isCaseSensitive: bool)

  /** A rule written without `IsCaseSensitive`, which Go leaves false. */
  function Literal(oldText: string, newText: string): Field
  {
    Field(oldText, newText, false)
  }

  /** Everything the setters store before `SaveFiles` walks the template. */
  datatype Config = Config(
    subDirs: seq<string>,
    subFiles: seq<string>,
    ignoreDirs: seq<string>,
    ignoreFiles: seq<string>,
    fields: seq<Field>,
    outputDir: string)

  /** One thing written to the output tree, in the order it happens. */
  datatype Write =
    | Save(config: Config)
    | ProtobufFiles(moduleName: string, serverName: string, outputDir: string, files: seq<string>)
    | GenInfo(moduleName: string, serverName: string, outputDir: string)

  /** The writes of `SaveFiles` calls on `configs`, in order. */
  function Saves(configs: seq<Config>): (ws: seq<Write>)
    ensures |ws| == |configs|
  {
    if |configs| == 0 then [] else [Save(configs[0])] + Saves(configs[1..])
  }

  /** The `k`-th write saved the `k`-th configuration. */
  lemma {:induction false} SavesAt(configs: seq<Config>, k: nat)
    requires k < |configs|
    ensures Saves(configs)[k] == Save(configs[k])
    decreases k
  {
    if k > 0 {
      SavesAt(configs[1..], k - 1);
    }
  }

  lemma SavesAppend(a: seq<Config>, b: seq<Config>)
    ensures Saves(a + b) == Saves(a) + Saves(b)
  {
    forall k | 0 <= k < |a + b|
      ensures Saves(a + b)[k] == (Saves(a) + Saves(b))[k]
    {
      SavesAt(a + b, k);
      if k < |a| {
        SavesAt(a, k);
      } else {
        SavesAt(b, k - |a|);
      }
    }
  }

  /**
   * The output file system, as the sequence of `SaveFiles` calls (each
   * recorded, even one that is refused) and extra-file writes made to it.
   */
  class Disk {
    var writes: seq<Write>

    constructor ()
      ensures writes == []
    {
      writes := [];
    }
  }

  /**
   * The directory `SetOutputDir(path, hint)` settles on: a non-empty path as
   * given, otherwise `./<hint>_<time>` in the working directory, `now` being
   * the clock reading.
   */
  function ResolveOutputDir(path: string, hint: string, now: string): (dir: string)
    ensures dir != ""
    ensures path != "" ==> dir == path
  {
    if path != "" then path else "./" + hint + "_" + now
  }

  /** Resolving a directory already resolved keeps it, whatever the hint and clock. */
  lemma ResolveOutputDirIdempotent(path: string, hint: string, now: string, hint2: string, now2: string)
    ensures ResolveOutputDir(ResolveOutputDir(path, hint, now), hint2, now2) == ResolveOutputDir(path, hint, now)
  {
  }

  class Replacer {
    /** `GetSourcePath()`: where the embedded template tree lives. */
    const sourcePath: string
    var subDirs: seq<string>
    var subFiles: seq<string>
    var ignoreDirs: seq<string>
    var ignoreFiles: seq<string>
    var fields: seq<Field>
    /** `GetOutputDir()`. */
    var outputDir: string

    constructor (sourcePath: string)
      ensures this.sourcePath == sourcePath
      ensures Current() == Config([], [], [], [], [], "")
    {
      this.sourcePath := sourcePath;
      subDirs, subFiles, ignoreDirs, ignoreFiles := [], [], [], [];
      fields, outputDir := [], "";
    }

    function Current(): Config
      reads this
    {
      Config(subDirs, subFiles, ignoreDirs, ignoreFiles, fields, outputDir)
    }

    method SetSubDirsAndFiles(dirs: seq<string>, files: seq<string>)
      modifies this`subDirs, this`subFiles
      ensures subDirs == dirs && subFiles == files
    {
      subDirs, subFiles := dirs, files;
    }

    method SetIgnoreSubDirs(dirs: seq<string>)
      modifies this`ignoreDirs
      ensures ignoreDirs == dirs
    {
      ignoreDirs := dirs;
    }

    method SetIgnoreSubFiles(files: seq<string>)
      modifies this`ignoreFiles
      ensures ignoreFiles == files
    {
      ignoreFiles := files;
    }

    method SetReplacementFields(fs: seq<Field>)
      modifies this`fields
      ensures fields == fs
    {
      fields := fs;
    }

    method SetOutputDir(path: string, hint: string, now: string)
      modifies this`outputDir
      ensures outputDir == ResolveOutputDir(path, hint, now)
    {
      outputDir := ResolveOutputDir(path, hint, now);
    }

    /**
     * Walks the selected template files into the output directory. `fault` is
     * the outcome of that file-system pass (for instance a refusal because the
     * directory already holds generated code); the pass is recorded either way,
     * since a failure part-way leaves what was written in place.
     */
    method SaveFiles(disk: Disk, fault: Option<string>) returns (err: Option<string>)
      modifies disk
      ensures disk.writes == old(disk.writes) + [Save(Current())]
      ensures err == fault
    {
      disk.writes := disk.writes + [Save(Current())];
      err := fault;
    }
  }

  /** The source path of the registered replacer, or None when none is registered. */
  function SourceOf(r: Replacer?): Option<string>
  {
    if r == null then None else Some(r.sourcePath)
  }
}
