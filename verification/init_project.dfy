/** init_proj.py: builds `output_<project>/` from the template tree `src/`.
    Each entry of `src/` is skipped, filled in as a template, or copied;
    then the configured dataset preset is copied in as `dataset.py`.

    The order `os.listdir` returns is a parameter (`names`), and
    `string.Template.substitute` is the uninterpreted parameter `subst`. */
module InitProject {
  import opened Wrappers
  import opened Strings
  import opened FileSystem

  /** A project configuration: the presets in dictionary order (directory,
      file name) and the template substitutions. */
  datatype Config = Config(presets: seq<(string, string)>, substitutions: map<string, string>)

  const RnnConfig := Config([("datasets", "dataset_rnn")],
                            map["loss_fn" := "nn.CrossEntropyLoss()", "model" := "BasicRNN"])

  const CnnConfig := Config([("datasets", "dataset_cnn")],
                            map["loss_fn" := "F.nll_loss", "model" := "BasicCNN"])

  /** `string.Template(text).substitute(mapping)`; `None` when it raises. */
  type Substitute = (string, map<string, string>) -> Option<string>

  /** A name `os.listdir` can return: non-empty, without a separator. */
  predicate PlainName(name: string)
  {
    name != [] && '/' !in name
  }

  /** The loop body for one entry `name` of `source`. */
  function EntryStep(fs: FS, source: string, destination: string, config: Config, subst: Substitute,
                     name: string): (r: Result<FS, Error>)
    ensures Contains(name, "data") ==> r == Success(fs)
  {
    if Contains(name, "data") then Success(fs)
    else
      var srcPath := Join(source, name);
      var destPath := Join(destination, name);
      var fs1 := RemoveExisting(fs, destPath);
      if Contains(name, "_temp.py") then
        match ReadFile(fs1, srcPath)
        case Failure(e) => Failure(e)
        case Success(text) =>
          match subst(text, config.substitutions)
          case None => Failure(TemplateError)
          case Some(filled) => WriteFile(fs1, RemoveAll(destPath, "_temp"), filled)
      else if IsDir(fs1, srcPath) then CopyTree(fs1, srcPath, destPath)
      else CopyFile(fs1, srcPath, destination)
  }

  /** `for filename in os.listdir(source)`, stopping at the first exception. */
  function CopyEntries(fs: FS, source: string, destination: string, config: Config, subst: Substitute,
                       names: seq<string>): (r: Result<FS, Error>)
    decreases |names|
  {
    if names == [] then Success(fs)
    else match CopyEntries(fs, source, destination, config, subst, names[..|names| - 1])
      case Failure(e) => Failure(e)
      case Success(fs1) => EntryStep(fs1, source, destination, config, subst, names[|names| - 1])
  }

  /** The preset file name: '.py' is appended unless the name already
      contains it. */
  function ChosenFile(name: string): (r: string)
    ensures Contains(r, ".py")
    ensures r == name <==> Contains(name, ".py")
    ensures !Contains(name, ".py") ==> r == name + ".py"
  {
    if Contains(name, ".py") then name
    else
      ContainsSuffix(name, ".py");
      name + ".py"
  }

  /** One preset: when `key` is an existing directory, its chosen file is
      copied to `destination/dataset.py`. */
  function PresetStep(fs: FS, destination: string, preset: (string, string)): (r: Result<FS, Error>)
    ensures !IsDir(fs, preset.0) ==> r == Success(fs)
    ensures r.Success? && IsDir(fs, preset.0) && !IsDir(fs, Join(destination, "dataset.py")) ==>
              Lookup(r.value, Join(destination, "dataset.py")) == Lookup(fs, Join(preset.0, ChosenFile(preset.1)))
  {
    if IsDir(fs, preset.0) then CopyFile(fs, Join(preset.0, ChosenFile(preset.1)), Join(destination, "dataset.py"))
    else Success(fs)
  }

  function AddPresets(fs: FS, destination: string, presets: seq<(string, string)>): (r: Result<FS, Error>)
    decreases |presets|
  {
    if presets == [] then Success(fs)
    else match AddPresets(fs, destination, presets[..|presets| - 1])
      case Failure(e) => Failure(e)
      case Success(fs1) => PresetStep(fs1, destination, presets[|presets| - 1])
  }

  /** `init_project(source, destination, config)` */
  function Init(fs: FS, source: string, destination: string, config: Config, subst: Substitute,
                names: seq<string>): (r: Result<FS, Error>)
  {
    var made := if !IsDir(fs, destination) then MakeDirs(fs, destination) else Success(fs);
    match made
    case Failure(e) => Failure(e)
    case Success(fs1) =>
      match CopyEntries(fs1, source, destination, config, subst, names)
      case Failure(e) => Failure(e)
      case Success(fs2) => AddPresets(fs2, destination, config.presets)
  }

  /** The configuration `main` picks for a project name. */
  function SelectConfig(project: string): (r: Option<Config>)
    ensures r.Some? <==> project == "rnn" || project == "cnn"
  {
    if project == "rnn" then Some(RnnConfig)
    else if project == "cnn" then Some(CnnConfig)
    else None
  }

  /** `main()`: `names` is what `os.listdir('src/')` returns. */
  function Main(fs: FS, project: string, subst: Substitute, names: seq<string>): (r: Result<FS, Error>)
    ensures r == Failure(ValueError) <== project != "rnn" && project != "cnn"
  {
    match SelectConfig(project)
    case None => Failure(ValueError)
    case Some(config) => Init(fs, "src/", "output_" + project + "/", config, subst, names)
  }

  // ---------------------------------------------------------------------
  // Properties

  /** `main` builds the selected project from `src/` into
      `output_<project>/`. */
  lemma MainDispatch(fs: FS, project: string, subst: Substitute, names: seq<string>)
    ensures project == "rnn" ==> Main(fs, project, subst, names) == Init(fs, "src/", "output_rnn/", RnnConfig, subst, names)
    ensures project == "cnn" ==> Main(fs, project, subst, names) == Init(fs, "src/", "output_cnn/", CnnConfig, subst, names)
  {
    if project == "rnn" {
      assert "output_" + project + "/" == "output_rnn/";
    } else if project == "cnn" {
      assert "output_" + project + "/" == "output_cnn/";
    }
  }

  /** The names a run acts on: those without 'data'. */
  function Kept(names: seq<string>): (r: seq<string>)
    ensures forall j :: 0 <= j < |r| ==> !Contains(r[j], "data")
    decreases |names|
  {
    if names == [] then []
    else Kept(names[..|names| - 1]) + (if Contains(names[|names| - 1], "data") then [] else [names[|names| - 1]])
  }

  /** An entry whose name contains 'data' is skipped entirely: the run is
      the same with those names left out. */
  lemma {:induction false} SkipsData(fs: FS, source: string, destination: string, config: Config, subst: Substitute,
                                     names: seq<string>)
    ensures CopyEntries(fs, source, destination, config, subst, names)
            == CopyEntries(fs, source, destination, config, subst, Kept(names))
    decreases |names|
  {
    if names != [] {
      var n := |names|;
      var prefix := names[..n - 1];
      var last := names[n - 1];
      SkipsData(fs, source, destination, config, subst, prefix);
      var k := Kept(names);
      if Contains(last, "data") {
        assert k == Kept(prefix);
        match CopyEntries(fs, source, destination, config, subst, prefix)
        case Failure(_) =>
        case Success(fs1) => assert EntryStep(fs1, source, destination, config, subst, last) == Success(fs1);
      } else {
        assert k == Kept(prefix) + [last];
        assert k[..|k| - 1] == Kept(prefix);
      }
    }
  }

  /** `join(d, name)` for a plain name is its own normal form, longer than
      `d`'s, so it lies neither at nor above `d`. */
  lemma JoinPlain(d: string, name: string)
    requires PlainName(name)
    ensures Norm(Join(d, name)) == Join(d, name)
    ensures |Norm(d)| < |Join(d, name)|
    ensures !Under(Norm(d), Join(d, name))
  {
    var j := Join(d, name);
    assert j[|j| - 1] == name[|name| - 1];
    assert name[|name| - 1] in name;
  }

  /** A template lands at its destination path with every '_temp' removed,
      holding the substitution of the source text; the destination entry
      under the template's own name is gone. */
  lemma TemplateStep(fs: FS, source: string, destination: string, config: Config, subst: Substitute, name: string)
    requires PlainName(name) && !Contains(name, "data") && Contains(name, "_temp.py")
    requires !Under(Join(source, name), Join(destination, name))
    ensures var r := EntryStep(fs, source, destination, config, subst, name);
            var text := Lookup(fs, Join(source, name));
            r.Success? ==>
              && text.Some? && text.value.File?
              && subst(text.value.content, config.substitutions).Some?
              && Lookup(r.value, RemoveAll(Join(destination, name), "_temp"))
                 == Some(File(subst(text.value.content, config.substitutions).value))
              && !Exists(r.value, Join(destination, name))
  {
    var srcPath, destPath := Join(source, name), Join(destination, name);
    JoinPlain(source, name);
    JoinPlain(destination, name);
    TemplatePathShrinks(destination, name);
  }

  /** Filling a template in removes at least one '_temp' from its path, so
      the filled file never lands on the template itself. */
  lemma TemplatePathShrinks(d: string, name: string)
    requires PlainName(name) && Contains(name, "_temp.py")
    ensures |RemoveAll(Join(d, name), "_temp")| < |Join(d, name)|
  {
    var path := Join(d, name);
    assert "_temp" + ".py" == "_temp.py";
    ContainsPrefixOfPattern(name, "_temp", ".py");
    assert name[0] in name;
    if d == [] || d[|d| - 1] == '/' {
      ContainsExtended(d, name, [], "_temp");
      assert path == d + name + [];
    } else {
      ContainsExtended(d + "/", name, [], "_temp");
      assert path == d + "/" + name + [];
    }
    RemoveAllShrinks(path, "_temp");
  }

  /** A plain file is copied under its own name into the destination
      directory; when neither path has entries below it, the copy is all
      that is left at `destination/name`. */
  lemma FileStep(fs: FS, source: string, destination: string, config: Config, subst: Substitute, name: string)
    requires PlainName(name) && !Contains(name, "data") && !Contains(name, "_temp.py")
    requires IsDir(fs, destination)
    requires !Under(Join(source, name), Join(destination, name))
    requires IsFile(fs, Join(source, name))
    ensures var r := EntryStep(fs, source, destination, config, subst, name);
            r.Success? ==> Lookup(r.value, Join(destination, name)) == Lookup(fs, Join(source, name))
    // with nothing below either file, `destination/name` holds exactly the file
    ensures var r := EntryStep(fs, source, destination, config, subst, name);
            r.Success? && TreeAt(fs, Join(source, name)) && TreeAt(fs, Join(destination, name)) ==>
              Replica(fs, Join(source, name), r.value, Join(destination, name))
  {
    var srcPath, destPath := Join(source, name), Join(destination, name);
    JoinPlain(source, name);
    JoinPlain(destination, name);
    JoinSplit(source, name);
    var fs1 := RemoveExisting(fs, destPath);
    assert IsDir(fs1, destination);
    assert CopyTarget(fs1, srcPath, destination) == destPath;
    var r := EntryStep(fs, source, destination, config, subst, name);
    if r.Success? && TreeAt(fs, srcPath) && TreeAt(fs, destPath) {
      assert r.value == fs1[destPath := fs1[srcPath]];
      FileReplica(fs1, srcPath, destPath);
      ReplicaFrom(fs, fs1, srcPath, r.value, destPath);
    }
  }

  /** A directory is copied recursively: every entry below the source
      directory reappears at the same place below `destination/name`; the
      old namesake goes first, so when it was a directory or had nothing
      below it, nothing else is there. */
  lemma DirStep(fs: FS, source: string, destination: string, config: Config, subst: Substitute, name: string)
    requires PlainName(name) && !Contains(name, "data") && !Contains(name, "_temp.py")
    requires IsDir(fs, Join(source, name))
    requires forall k :: k in fs && Under(k, Join(source, name)) ==> !Under(k, Join(destination, name))
    ensures var r := EntryStep(fs, source, destination, config, subst, name);
            r.Success? ==> forall q :: q in fs && Under(q, Join(source, name)) ==>
              Rebase(q, Join(source, name), Join(destination, name)) in r.value
              && r.value[Rebase(q, Join(source, name), Join(destination, name))] == fs[q]
    // the old namesake goes first, so when it was a directory, or held
    // nothing below it, the copy is all there is below `destination/name`
    ensures var r := EntryStep(fs, source, destination, config, subst, name);
            r.Success? && TreeAt(fs, Join(destination, name)) ==>
              Replica(fs, Join(source, name), r.value, Join(destination, name))
  {
    var srcPath, destPath := Join(source, name), Join(destination, name);
    JoinPlain(source, name);
    JoinPlain(destination, name);
    var fs1 := RemoveExisting(fs, destPath);
    var r := EntryStep(fs, source, destination, config, subst, name);
    if r.Success? && TreeAt(fs, destPath) {
      assert r == CopyTree(fs1, srcPath, destPath);
      ReplicaFrom(fs, fs1, srcPath, r.value, destPath);
    }
  }

  /** A plain file or directory of `source` replaces its namesake in the
      destination directory: the step succeeds, `destination/name` then
      holds exactly what `source/name` held (whatever was there before is
      gone), and nothing outside `destination/name` changes. */
  lemma EntryReplaces(fs: FS, source: string, destination: string, config: Config, subst: Substitute, name: string)
    requires PlainName(name) && !Contains(name, "data") && !Contains(name, "_temp.py")
    requires IsDir(fs, destination) && Canonical(destination)
    requires IsFile(fs, Join(source, name)) || IsDir(fs, Join(source, name))
    requires TreeAt(fs, Join(source, name)) && TreeAt(fs, Join(destination, name))
    requires forall k :: k in fs && Under(k, Join(source, name)) ==> !Under(k, Join(destination, name))
    ensures var r := EntryStep(fs, source, destination, config, subst, name);
            && r.Success?
            && Replica(fs, Join(source, name), r.value, Join(destination, name))
            && forall k :: k in fs && !Under(k, Join(destination, name)) ==> k in r.value && r.value[k] == fs[k]
  {
    var srcPath, destPath := Join(source, name), Join(destination, name);
    JoinPlain(source, name);
    JoinPlain(destination, name);
    JoinSplit(source, name);
    var fs1 := RemoveExisting(fs, destPath);
    assert IsDir(fs1, destination);
    if IsDir(fs, srcPath) {
      CopyTreeInto(fs1, srcPath, destination, name);
      ReplicaFrom(fs, fs1, srcPath, CopyTree(fs1, srcPath, destPath).value, destPath);
    } else {
      assert CopyTarget(fs1, srcPath, destination) == destPath;
      WriteInto(fs1, destination, name, fs[srcPath].content);
      FileReplica(fs1, srcPath, destPath);
      ReplicaFrom(fs, fs1, srcPath, fs1[destPath := fs1[srcPath]], destPath);
    }
  }

  /** The output directory name `main` builds holds no '_temp'. */
  lemma OutputDirClean(project: string)
    requires project == "rnn" || project == "cnn"
    ensures !Contains("output_" + project, "_temp")
  {
    var dir := "output_" + project;
    assert 'm' in "_temp";
    assert 'm' !in dir;
    AbsentChar(dir, "_temp", 'm');
  }

  /** Under `main`, a template is written into `output_<project>/` itself:
      the '_temp' removal cannot reach the directory part. */
  lemma {:induction false} TemplateStaysInOutput(project: string, name: string)
    requires project == "rnn" || project == "cnn"
    requires PlainName(name)
    ensures RemoveAll(Join("output_" + project + "/", name), "_temp")
            == "output_" + project + "/" + RemoveAll(name, "_temp")
  {
    var dir := "output_" + project;
    OutputDirClean(project);
    assert Join(dir + "/", name) == dir + ['/'] + name;
    assert '/' !in "_temp";
    RemoveAllBehind(dir, '/', name, "_temp");
  }

  /** The destination directory exists after a successful run. */
  lemma {:induction false} EntriesKeepDestination(fs: FS, source: string, destination: string, config: Config,
                                                  subst: Substitute, names: seq<string>)
    requires IsDir(fs, destination)
    requires forall j :: 0 <= j < |names| ==> PlainName(names[j])
    ensures var r := CopyEntries(fs, source, destination, config, subst, names);
            r.Success? ==> IsDir(r.value, destination)
    decreases |names|
  {
    if names != [] {
      var n := |names|;
      EntriesKeepDestination(fs, source, destination, config, subst, names[..n - 1]);
      var prev := CopyEntries(fs, source, destination, config, subst, names[..n - 1]);
      if prev.Success? {
        StepKeepsDestination(prev.value, source, destination, config, subst, names[n - 1]);
      }
    }
  }

  lemma StepKeepsDestination(fs: FS, source: string, destination: string, config: Config, subst: Substitute,
                             name: string)
    requires IsDir(fs, destination) && PlainName(name)
    ensures var r := EntryStep(fs, source, destination, config, subst, name);
            r.Success? ==> IsDir(r.value, destination)
  {
    JoinPlain(destination, name);
    var fs1 := RemoveExisting(fs, Join(destination, name));
    assert IsDir(fs1, destination);
  }

  lemma {:induction false} PresetsKeepDestination(fs: FS, destination: string, presets: seq<(string, string)>)
    requires IsDir(fs, destination)
    ensures var r := AddPresets(fs, destination, presets);
            r.Success? ==> IsDir(r.value, destination)
    decreases |presets|
  {
    if presets != [] {
      PresetsKeepDestination(fs, destination, presets[..|presets| - 1]);
    }
  }

  /** `init_project` leaves the destination a directory, creating it when
      absent. */
  lemma InitMakesDestination(fs: FS, source: string, destination: string, config: Config, subst: Substitute,
                             names: seq<string>)
    requires forall j :: 0 <= j < |names| ==> PlainName(names[j])
    ensures var r := Init(fs, source, destination, config, subst, names);
            r.Success? ==> IsDir(r.value, destination)
  {
    var made := if !IsDir(fs, destination) then MakeDirs(fs, destination) else Success(fs);
    if made.Success? {
      EntriesKeepDestination(made.value, source, destination, config, subst, names);
      var copied := CopyEntries(made.value, source, destination, config, subst, names);
      if copied.Success? {
        PresetsKeepDestination(copied.value, destination, config.presets);
      }
    }
  }
}
