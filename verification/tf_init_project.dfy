/** tensorflow/init_proj.py: builds a project folder from the template
    tree `source`.  Every entry of `source` replaces its namesake in the
    destination; then every `*_temp.py` file found by walking the
    destination is filled in; then the preset files are copied in.

    The listing of `source` (`names`) and the walk of the destination
    (`walk`) are parameters; `string.Template.substitute` is `subst`;
    what the script prints is collected in `State.printed`. */
module TfInitProject {
  import opened Wrappers
  import opened Strings
  import opened FileSystem
  import InitProject

  /** A project configuration: where it goes, the preset files as pairs
      (path inside the destination, source file) in dictionary order, and
      the template substitutions. */
  datatype Config = Config(destination: string, presets: seq<(string, string)>, substitutions: map<string, string>)

  const CnnConfig := Config("output_cnn",
                            [("src/dataset.py", "datasets/dataset_cnn.py"), ("src/viz.py", "visualizers/viz_cnn.py")],
                            map[])

  const Configs: map<string, Config> := map["cnn" := CnnConfig]

  /** One directory `os.walk` visits, with the files it lists there. */
  datatype WalkEntry = WalkEntry(root: string, files: seq<string>)

  /** The file system together with the lines printed so far. */
  datatype State = State(fs: FS, printed: seq<string>)

  const PathNotFound := "Path not found."
  const SpecifyDestination := "SPECIFY DESTINATION"

  /** `remove_duplicate_files(destination, filename)` */
  function RemoveDuplicateFiles(fs: FS, destination: string, filename: string): (r: FS)
    ensures !Exists(r, Join(destination, filename))
    ensures !Exists(fs, Join(destination, filename)) ==> r == fs
    ensures forall k :: k in fs && !Under(k, Norm(Join(destination, filename))) ==> k in r && r[k] == fs[k]
    // a directory goes with everything below it (`shutil.rmtree`)
    ensures IsDir(fs, Join(destination, filename)) ==>
              forall k :: k in r ==> !Under(k, Norm(Join(destination, filename)))
  {
    RemoveExisting(fs, Join(destination, filename))
  }

  /** `copy_file_or_folder(source, destination, filename)` */
  function CopyFileOrFolder(fs: FS, source: string, destination: string, filename: string): (r: Result<FS, Error>)
    ensures !Exists(fs, Join(source, filename)) ==> r.Failure?
    ensures IsDir(fs, Join(source, filename)) && Exists(fs, Join(destination, filename)) ==> r.Failure?
    ensures r.Success? && IsFile(fs, Join(source, filename)) && !IsDir(fs, Join(destination, filename)) ==>
              Lookup(r.value, Join(destination, filename)) == Lookup(fs, Join(source, filename))
    ensures r.Success? && IsDir(fs, Join(source, filename)) ==>
              forall q :: q in fs && Under(q, Norm(Join(source, filename))) ==>
                Rebase(q, Norm(Join(source, filename)), Norm(Join(destination, filename))) in r.value
                && r.value[Rebase(q, Norm(Join(source, filename)), Norm(Join(destination, filename)))] == fs[q]
    // ... and, when nothing was below the target, nothing else is there
    ensures r.Success? && IsDir(fs, Join(source, filename))
            && (forall k :: k in fs ==> !Under(k, Norm(Join(destination, filename)))) ==>
              Replica(fs, Norm(Join(source, filename)), r.value, Norm(Join(destination, filename)))
  {
    var src, dst := Join(source, filename), Join(destination, filename);
    if IsDir(fs, src) then CopyTree(fs, src, dst) else CopyFile(fs, src, dst)
  }

  /** The loop body of `create_project_folder` for one listed name. */
  function CopyStep(fs: FS, source: string, destination: string, filename: string): (r: Result<FS, Error>)
  {
    CopyFileOrFolder(RemoveDuplicateFiles(fs, destination, filename), source, destination, filename)
  }

  function CopyAll(fs: FS, source: string, destination: string, names: seq<string>): (r: Result<FS, Error>)
    decreases |names|
  {
    if names == [] then Success(fs)
    else match CopyAll(fs, source, destination, names[..|names| - 1])
      case Failure(e) => Failure(e)
      case Success(fs1) => CopyStep(fs1, source, destination, names[|names| - 1])
  }

  /** One file of the walk: a `*_temp.py` file is read, substituted,
      written back without its '_temp' parts, and removed. */
  function FillFile(fs: FS, root: string, filename: string, subs: map<string, string>,
                    subst: InitProject.Substitute): (r: Result<FS, Error>)
    ensures !Contains(filename, "_temp.py") ==> r == Success(fs)
  {
    if !Contains(filename, "_temp.py") then Success(fs)
    else
      var full := Join(root, filename);
      match ReadFile(fs, full)
      case Failure(e) => Failure(e)
      case Success(text) =>
        match subst(text, subs)
        case None => Failure(TemplateError)
        case Some(result) =>
          match WriteFile(fs, RemoveAll(full, "_temp"), result)
          case Failure(e) => Failure(e)
          case Success(fs1) => RemoveFile(fs1, full)
  }

  function FillFiles(fs: FS, root: string, files: seq<string>, subs: map<string, string>,
                     subst: InitProject.Substitute): (r: Result<FS, Error>)
    decreases |files|
  {
    if files == [] then Success(fs)
    else match FillFiles(fs, root, files[..|files| - 1], subs, subst)
      case Failure(e) => Failure(e)
      case Success(fs1) => FillFile(fs1, root, files[|files| - 1], subs, subst)
  }

  /** Directories the walk passes over. */
  predicate Skipped(root: string)
  {
    Contains(root, "data") || Contains(root, "checkpoints") || Contains(root, "cache")
  }

  function FillRoot(fs: FS, entry: WalkEntry, subs: map<string, string>, subst: InitProject.Substitute): (r: Result<FS, Error>)
    ensures Skipped(entry.root) ==> r == Success(fs)
  {
    if Skipped(entry.root) then Success(fs) else FillFiles(fs, entry.root, entry.files, subs, subst)
  }

  /** `fill_template_files(destination, config)` over the given walk. */
  function FillTemplateFiles(fs: FS, walk: seq<WalkEntry>, subs: map<string, string>,
                             subst: InitProject.Substitute): (r: Result<FS, Error>)
    decreases |walk|
  {
    if walk == [] then Success(fs)
    else match FillTemplateFiles(fs, walk[..|walk| - 1], subs, subst)
      case Failure(e) => Failure(e)
      case Success(fs1) => FillRoot(fs1, walk[|walk| - 1], subs, subst)
  }

  /** One preset: copied to `destination/key` when its source is a file,
      otherwise reported. */
  function PresetStep(st: State, destination: string, preset: (string, string)): (r: Result<State, Error>)
    ensures !IsFile(st.fs, preset.1) ==> r == Success(State(st.fs, st.printed + [PathNotFound]))
    ensures r.Success? && IsFile(st.fs, preset.1) ==> r.value.printed == st.printed
    ensures r.Success? && IsFile(st.fs, preset.1) && !IsDir(st.fs, Join(destination, preset.0)) ==>
              Lookup(r.value.fs, Join(destination, preset.0)) == Lookup(st.fs, preset.1)
  {
    if IsFile(st.fs, preset.1) then
      match CopyFile(st.fs, preset.1, Join(destination, preset.0))
      case Failure(e) => Failure(e)
      case Success(fs1) => Success(State(fs1, st.printed))
    else Success(State(st.fs, st.printed + [PathNotFound]))
  }

  /** `add_config_files(destination, config)` */
  function AddConfigFiles(st: State, destination: string, presets: seq<(string, string)>): (r: Result<State, Error>)
    decreases |presets|
  {
    if presets == [] then Success(st)
    else match AddConfigFiles(st, destination, presets[..|presets| - 1])
      case Failure(e) => Failure(e)
      case Success(st1) => PresetStep(st1, destination, presets[|presets| - 1])
  }

  /** `create_project_folder(config)` up to the presets: the destination
      is created, `source` is copied in and the templates are filled. */
  function BuildTree(fs: FS, config: Config, names: seq<string>, walk: seq<WalkEntry>,
                     subst: InitProject.Substitute): (r: Result<FS, Error>)
  {
    var d := config.destination;
    var made := if !IsDir(fs, d) then MakeDirs(fs, d) else Success(fs);
    match made
    case Failure(e) => Failure(e)
    case Success(fs1) =>
      match CopyAll(fs1, "source", d, names)
      case Failure(e) => Failure(e)
      case Success(fs2) => FillTemplateFiles(fs2, walk, config.substitutions, subst)
  }

  /** `create_project_folder(config)`, copying from `source`. */
  function CreateProjectFolder(st: State, config: Config, names: seq<string>, walk: seq<WalkEntry>,
                               subst: InitProject.Substitute): (r: Result<State, Error>)
  {
    match BuildTree(st.fs, config, names, walk, subst)
    case Failure(e) => Failure(e)
    case Success(fs3) => AddConfigFiles(State(fs3, st.printed), config.destination, config.presets)
  }

  /** `main()`: `all` is `--all`, `project` is `--project` (absent when not
      given), `outputPath` is `--output_path`. */
  function Main(fs: FS, all: bool, project: Option<string>, outputPath: string, names: seq<string>,
                walk: seq<WalkEntry>, subst: InitProject.Substitute): (r: Result<State, Error>)
    ensures all ==> r == CreateProjectFolder(State(fs, []), CnnConfig, names, walk, subst)
    ensures !all && project == Some("cnn") && outputPath == [] ==>
              r == CreateProjectFolder(State(fs, []), CnnConfig, names, walk, subst)
    ensures !all && project == Some("cnn") && outputPath != [] ==> r == Success(State(fs, [SpecifyDestination]))
    ensures !all && project != Some("cnn") ==> r == Failure(ValueError)
  {
    var st := State(fs, []);
    if all then CreateProjectFolder(st, Configs["cnn"], names, walk, subst)
    else if project.Some? && project.value in Configs then
      if outputPath == "" then CreateProjectFolder(st, Configs[project.value], names, walk, subst)
      else Success(State(fs, [SpecifyDestination]))
    else Failure(ValueError)
  }

  // ---------------------------------------------------------------------
  // Properties

  /** A filled template holds the substituted text at its path without
      '_temp', and the template file itself is gone. */
  lemma FillFileLands(fs: FS, root: string, filename: string, subs: map<string, string>,
                      subst: InitProject.Substitute)
    requires InitProject.PlainName(filename) && Contains(filename, "_temp.py")
    ensures var r := FillFile(fs, root, filename, subs, subst);
            var text := Lookup(fs, Join(root, filename));
            r.Success? ==>
              && text.Some? && text.value.File?
              && subst(text.value.content, subs).Some?
              && Lookup(r.value, RemoveAll(Join(root, filename), "_temp")) == Some(File(subst(text.value.content, subs).value))
              && !Exists(r.value, Join(root, filename))
  {
    var full := Join(root, filename);
    InitProject.JoinPlain(root, filename);
    InitProject.TemplatePathShrinks(root, filename);
    var target := RemoveAll(full, "_temp");
    assert |Norm(target)| < |Norm(full)|;
  }

  /** The walk ignoring data, checkpoint and cache directories. */
  function Visited(walk: seq<WalkEntry>): (r: seq<WalkEntry>)
    ensures forall j :: 0 <= j < |r| ==> !Skipped(r[j].root)
    decreases |walk|
  {
    if walk == [] then []
    else Visited(walk[..|walk| - 1]) + (if Skipped(walk[|walk| - 1].root) then [] else [walk[|walk| - 1]])
  }

  /** Templates under data, checkpoint or cache directories are never
      filled: the run equals the run over the other directories. */
  lemma {:induction false} SkipsGeneratedDirs(fs: FS, walk: seq<WalkEntry>, subs: map<string, string>,
                                              subst: InitProject.Substitute)
    ensures FillTemplateFiles(fs, walk, subs, subst) == FillTemplateFiles(fs, Visited(walk), subs, subst)
    decreases |walk|
  {
    if walk != [] {
      var n := |walk|;
      var prefix, last := walk[..n - 1], walk[n - 1];
      SkipsGeneratedDirs(fs, prefix, subs, subst);
      var v := Visited(walk);
      if Skipped(last.root) {
        assert v == Visited(prefix);
      } else {
        assert v == Visited(prefix) + [last];
        assert v[..|v| - 1] == Visited(prefix);
      }
    }
  }

  /** Only `*_temp.py` files are touched by the fill. */
  lemma {:induction false} PlainFilesUntouched(fs: FS, root: string, files: seq<string>, subs: map<string, string>,
                                               subst: InitProject.Substitute)
    requires forall j :: 0 <= j < |files| ==> !Contains(files[j], "_temp.py")
    ensures FillFiles(fs, root, files, subs, subst) == Success(fs)
    decreases |files|
  {
    if files != [] {
      PlainFilesUntouched(fs, root, files[..|files| - 1], subs, subst);
    }
  }

  /** `a` and `b` hold the same entry, or none, at `q`. */
  predicate SameAt(a: FS, b: FS, q: string)
  {
    (q in a <==> q in b) && (q in a ==> a[q] == b[q])
  }

  /** A preset copy changes nothing outside its target. */
  lemma PresetStepKeeps(st: State, destination: string, preset: (string, string), q: string)
    requires Join(destination, preset.0) != []
    requires !Under(q, Norm(Join(destination, preset.0)))
    ensures var r := PresetStep(st, destination, preset);
            r.Success? ==> SameAt(st.fs, r.value.fs, q)
  {
    if IsFile(st.fs, preset.1) {
      CopyTargetUnder(st.fs, preset.1, Join(destination, preset.0));
    }
  }

  lemma {:induction false} PresetsKeep(st: State, destination: string, presets: seq<(string, string)>, q: string)
    requires forall i :: 0 <= i < |presets| ==>
               Join(destination, presets[i].0) != [] && !Under(q, Norm(Join(destination, presets[i].0)))
    ensures var r := AddConfigFiles(st, destination, presets);
            r.Success? ==> SameAt(st.fs, r.value.fs, q)
    decreases |presets|
  {
    if presets != [] {
      var n := |presets|;
      PresetsKeep(st, destination, presets[..n - 1], q);
      var prev := AddConfigFiles(st, destination, presets[..n - 1]);
      if prev.Success? {
        PresetStepKeeps(prev.value, destination, presets[n - 1], q);
      }
    }
  }

  /** Directories stay directories while presets are copied. */
  lemma {:induction false} PresetsKeepDirs(st: State, destination: string, presets: seq<(string, string)>)
    ensures var r := AddConfigFiles(st, destination, presets);
            r.Success? ==> forall k :: k in st.fs && st.fs[k].Dir? ==> k in r.value.fs && r.value.fs[k] == Dir
    decreases |presets|
  {
    if presets != [] {
      PresetsKeepDirs(st, destination, presets[..|presets| - 1]);
    }
  }

  /** Copying a list of presets is copying a prefix, then the rest. */
  lemma {:induction false} AddConfigSplit(st: State, destination: string, presets: seq<(string, string)>, j: nat)
    requires j <= |presets|
    ensures AddConfigFiles(st, destination, presets)
            == match AddConfigFiles(st, destination, presets[..j])
               case Failure(e) => Failure(e)
               case Success(st1) => AddConfigFiles(st1, destination, presets[j..])
    decreases |presets|
  {
    if j == |presets| {
      assert presets[..j] == presets;
      assert presets[j..] == [];
    } else {
      var n := |presets|;
      var prefix := presets[..n - 1];
      AddConfigSplit(st, destination, prefix, j);
      assert prefix[..j] == presets[..j];
      var rest := presets[j..];
      assert rest[..|rest| - 1] == prefix[j..];
      assert rest[|rest| - 1] == presets[n - 1];
    }
  }

  /** Preset `j` ends up verbatim at its target, provided no earlier preset
      writes over its source and no later one writes over its target;
      a target that is a directory receives the file inside instead. */
  lemma PresetLands(st: State, destination: string, presets: seq<(string, string)>, j: nat)
    requires j < |presets|
    requires forall i :: 0 <= i < |presets| ==> Join(destination, presets[i].0) != []
    requires forall i :: 0 <= i < j ==> !Under(Norm(presets[j].1), Norm(Join(destination, presets[i].0)))
    requires forall i :: j < i < |presets| ==>
               !Under(Norm(Join(destination, presets[j].0)), Norm(Join(destination, presets[i].0)))
    ensures var r := AddConfigFiles(st, destination, presets);
            r.Success? && IsFile(st.fs, presets[j].1) && !IsDir(r.value.fs, Join(destination, presets[j].0)) ==>
              Lookup(r.value.fs, Join(destination, presets[j].0)) == Lookup(st.fs, presets[j].1)
  {
    var target := Join(destination, presets[j].0);
    var before, after := presets[..j], presets[j + 1..];
    AddConfigSplit(st, destination, presets, j + 1);
    assert presets[..j + 1][..j] == before;
    var a := AddConfigFiles(st, destination, before);
    if a.Success? {
      PresetsKeep(st, destination, before, Norm(presets[j].1));
      var b := PresetStep(a.value, destination, presets[j]);
      if b.Success? {
        PresetsKeepDirs(b.value, destination, after);
        PresetsKeep(b.value, destination, after, Norm(target));
      }
    }
  }

  // ---------------------------------------------------------------------
  // Every listed entry replaces its namesake

  /** A file or directory `source/name` replaces its namesake in the
      destination directory `d`: the step succeeds, `d/name` then holds
      exactly what `source/name` held (whatever was there before is gone),
      and nothing outside `d/name` changes. */
  lemma CopyStepReplaces(fs: FS, source: string, d: string, name: string)
    requires InitProject.PlainName(name)
    requires IsDir(fs, d) && Canonical(d)
    requires IsFile(fs, Join(source, name)) || IsDir(fs, Join(source, name))
    requires TreeAt(fs, Join(source, name)) && TreeAt(fs, Join(d, name))
    requires forall k :: k in fs && Under(k, Join(source, name)) ==> !Under(k, Join(d, name))
    ensures var r := CopyStep(fs, source, d, name);
            && r.Success?
            && Replica(fs, Join(source, name), r.value, Join(d, name))
            && forall k :: k in fs && !Under(k, Join(d, name)) ==> k in r.value && r.value[k] == fs[k]
  {
    var src, dst := Join(source, name), Join(d, name);
    InitProject.JoinPlain(source, name);
    InitProject.JoinPlain(d, name);
    var fs1 := RemoveDuplicateFiles(fs, d, name);
    assert IsDir(fs1, d);
    assert forall k :: k in fs1 ==> !Under(k, dst);
    if IsDir(fs, src) {
      CopyTreeInto(fs1, src, d, name);
      ReplicaFrom(fs, fs1, src, CopyTree(fs1, src, dst).value, dst);
    } else {
      assert CopyTarget(fs1, src, dst) == dst;
      WriteInto(fs1, d, name, fs[src].content);
      FileReplica(fs1, src, dst);
      ReplicaFrom(fs, fs1, src, fs1[dst := fs1[src]], dst);
    }
  }

  // ---------------------------------------------------------------------
  // Nothing outside the destination changes before the presets are copied

  /** Every entry of `a` outside `d` is in `b`, unchanged. */
  ghost predicate SameOutside(a: FS, b: FS, d: string)
  {
    forall k :: k in a && !Under(k, d) ==> k in b && b[k] == a[k]
  }

  /** A destination written as the configurations write it: a relative
      directory name without a trailing separator or '_temp'. */
  predicate PlainDestination(d: string)
  {
    d != [] && d[|d| - 1] != '/' && !Contains(d, "_temp")
  }

  /** A walk of `d`: every root is `d` or below it, every file a plain name. */
  predicate WalkOf(walk: seq<WalkEntry>, d: string)
  {
    forall j :: 0 <= j < |walk| ==>
      Under(walk[j].root, d) && forall f :: f in walk[j].files ==> InitProject.PlainName(f)
  }

  lemma JoinBelow(root: string, name: string, d: string)
    requires Under(root, d) && PlainDestination(d) && InitProject.PlainName(name)
    ensures d + "/" <= Join(root, name)
  {
    if root == d {
      assert Join(root, name) == d + "/" + name;
    }
  }

  /** Both paths a template fill touches lie below the destination. */
  lemma TemplatePathsBelow(root: string, name: string, d: string)
    requires Under(root, d) && PlainDestination(d) && InitProject.PlainName(name)
    ensures Under(Norm(Join(root, name)), d)
    ensures Under(Norm(RemoveAll(Join(root, name), "_temp")), d)
  {
    var full := Join(root, name);
    JoinBelow(root, name, d);
    var y := full[|d| + 1..];
    assert full == d + "/" + y;
    NormBelow(d, y);
    FilledBelow(d, y);
  }

  lemma FilledBelow(d: string, y: string)
    requires PlainDestination(d)
    ensures Under(Norm(RemoveAll(d + "/" + y, "_temp")), d)
  {
    assert '/' !in "_temp";
    RemoveAllBehind(d, '/', y, "_temp");
    NormBelow(d, RemoveAll(y, "_temp"));
  }

  lemma FillFileKeeps(fs: FS, root: string, name: string, subs: map<string, string>,
                      subst: InitProject.Substitute, d: string)
    requires Under(root, d) && PlainDestination(d) && InitProject.PlainName(name)
    ensures var r := FillFile(fs, root, name, subs, subst);
            r.Success? ==> SameOutside(fs, r.value, d)
  {
    if Contains(name, "_temp.py") {
      TemplatePathsBelow(root, name, d);
    }
  }

  lemma {:induction false} FillFilesKeep(fs: FS, root: string, files: seq<string>, subs: map<string, string>,
                                         subst: InitProject.Substitute, d: string)
    requires Under(root, d) && PlainDestination(d)
    requires forall f :: f in files ==> InitProject.PlainName(f)
    ensures var r := FillFiles(fs, root, files, subs, subst);
            r.Success? ==> SameOutside(fs, r.value, d)
    decreases |files|
  {
    if files != [] {
      var n := |files|;
      FillFilesKeep(fs, root, files[..n - 1], subs, subst, d);
      var prev := FillFiles(fs, root, files[..n - 1], subs, subst);
      if prev.Success? {
        FillFileKeeps(prev.value, root, files[n - 1], subs, subst, d);
      }
    }
  }

  lemma {:induction false} FillKeepsOutside(fs: FS, walk: seq<WalkEntry>, subs: map<string, string>,
                                            subst: InitProject.Substitute, d: string)
    requires PlainDestination(d) && WalkOf(walk, d)
    ensures var r := FillTemplateFiles(fs, walk, subs, subst);
            r.Success? ==> SameOutside(fs, r.value, d)
    decreases |walk|
  {
    if walk != [] {
      var n := |walk|;
      FillKeepsOutside(fs, walk[..n - 1], subs, subst, d);
      var prev := FillTemplateFiles(fs, walk[..n - 1], subs, subst);
      if prev.Success? && !Skipped(walk[n - 1].root) {
        FillFilesKeep(prev.value, walk[n - 1].root, walk[n - 1].files, subs, subst, d);
      }
    }
  }

  lemma CopyStepKeeps(fs: FS, source: string, d: string, name: string)
    requires PlainDestination(d) && InitProject.PlainName(name)
    ensures var r := CopyStep(fs, source, d, name);
            r.Success? ==> SameOutside(fs, r.value, d)
  {
    var src, dst := Join(source, name), Join(d, name);
    assert dst == d + "/" + name;
    NormBelow(d, name);
    var fs1 := RemoveDuplicateFiles(fs, d, name);
    forall k | !Under(k, d)
      ensures !Under(k, Norm(dst))
    {
      if Under(k, Norm(dst)) {
        UnderTrans(k, Norm(dst), d);
      }
    }
    if !IsDir(fs1, src) {
      CopyTargetUnder(fs1, src, dst);
      var t := Norm(CopyTarget(fs1, src, dst));
      UnderTrans(t, Norm(dst), d);
    }
  }

  lemma {:induction false} CopyAllKeeps(fs: FS, source: string, d: string, names: seq<string>)
    requires PlainDestination(d)
    requires forall j :: 0 <= j < |names| ==> InitProject.PlainName(names[j])
    ensures var r := CopyAll(fs, source, d, names);
            r.Success? ==> SameOutside(fs, r.value, d)
    decreases |names|
  {
    if names != [] {
      var n := |names|;
      CopyAllKeeps(fs, source, d, names[..n - 1]);
      var prev := CopyAll(fs, source, d, names[..n - 1]);
      if prev.Success? {
        CopyStepKeeps(prev.value, source, d, names[n - 1]);
      }
    }
  }

  /** Building the tree leaves everything outside the destination as it
      was. */
  lemma BuildKeepsOutside(fs: FS, config: Config, names: seq<string>, walk: seq<WalkEntry>,
                          subst: InitProject.Substitute)
    requires PlainDestination(config.destination) && WalkOf(walk, config.destination)
    requires forall j :: 0 <= j < |names| ==> InitProject.PlainName(names[j])
    ensures var r := BuildTree(fs, config, names, walk, subst);
            r.Success? ==> SameOutside(fs, r.value, config.destination)
  {
    var d := config.destination;
    var made := if !IsDir(fs, d) then MakeDirs(fs, d) else Success(fs);
    if made.Success? {
      var fs1 := made.value;
      CopyAllKeeps(fs1, "source", d, names);
      var copied := CopyAll(fs1, "source", d, names);
      if copied.Success? {
        FillKeepsOutside(copied.value, walk, config.substitutions, subst, d);
      }
    }
  }

  // ---------------------------------------------------------------------
  // The destination is a directory once the folder is created

  /** Filling a template writes one file and removes another, so a
      directory stays a directory. */
  lemma FillFileKeepsDir(fs: FS, root: string, filename: string, subs: map<string, string>,
                         subst: InitProject.Substitute, q: string)
    ensures var r := FillFile(fs, root, filename, subs, subst);
            r.Success? && IsDir(fs, q) ==> IsDir(r.value, q)
  {
  }

  lemma {:induction false} FillFilesKeepDir(fs: FS, root: string, files: seq<string>, subs: map<string, string>,
                                            subst: InitProject.Substitute, q: string)
    ensures var r := FillFiles(fs, root, files, subs, subst);
            r.Success? && IsDir(fs, q) ==> IsDir(r.value, q)
    decreases |files|
  {
    if files != [] {
      var n := |files|;
      FillFilesKeepDir(fs, root, files[..n - 1], subs, subst, q);
      var prev := FillFiles(fs, root, files[..n - 1], subs, subst);
      if prev.Success? {
        FillFileKeepsDir(prev.value, root, files[n - 1], subs, subst, q);
      }
    }
  }

  lemma {:induction false} FillKeepsDir(fs: FS, walk: seq<WalkEntry>, subs: map<string, string>,
                                        subst: InitProject.Substitute, q: string)
    ensures var r := FillTemplateFiles(fs, walk, subs, subst);
            r.Success? && IsDir(fs, q) ==> IsDir(r.value, q)
    decreases |walk|
  {
    if walk != [] {
      var n := |walk|;
      FillKeepsDir(fs, walk[..n - 1], subs, subst, q);
      var prev := FillTemplateFiles(fs, walk[..n - 1], subs, subst);
      if prev.Success? && !Skipped(walk[n - 1].root) {
        FillFilesKeepDir(prev.value, walk[n - 1].root, walk[n - 1].files, subs, subst, q);
      }
    }
  }

  /** Copying a plain name into `d` replaces `d/name` only, never `d`. */
  lemma CopyStepKeepsDestination(fs: FS, source: string, d: string, name: string)
    requires InitProject.PlainName(name)
    ensures var r := CopyStep(fs, source, d, name);
            r.Success? && IsDir(fs, d) ==> IsDir(r.value, d)
  {
    InitProject.JoinPlain(d, name);
    var fs1 := RemoveDuplicateFiles(fs, d, name);
    assert IsDir(fs, d) ==> IsDir(fs1, d);
  }

  lemma {:induction false} CopyAllKeepsDestination(fs: FS, source: string, d: string, names: seq<string>)
    requires forall j :: 0 <= j < |names| ==> InitProject.PlainName(names[j])
    ensures var r := CopyAll(fs, source, d, names);
            r.Success? && IsDir(fs, d) ==> IsDir(r.value, d)
    decreases |names|
  {
    if names != [] {
      var n := |names|;
      CopyAllKeepsDestination(fs, source, d, names[..n - 1]);
      var prev := CopyAll(fs, source, d, names[..n - 1]);
      if prev.Success? {
        CopyStepKeepsDestination(prev.value, source, d, names[n - 1]);
      }
    }
  }

  /** When the tree is built, the destination exists as a directory:
      created if it was missing, and neither the copies of the plain names
      of `source` nor the template fills remove it. */
  lemma BuildMakesDestination(fs: FS, config: Config, names: seq<string>, walk: seq<WalkEntry>,
                              subst: InitProject.Substitute)
    requires forall j :: 0 <= j < |names| ==> InitProject.PlainName(names[j])
    ensures var r := BuildTree(fs, config, names, walk, subst);
            r.Success? ==> IsDir(r.value, config.destination)
  {
    var d := config.destination;
    var made := if !IsDir(fs, d) then MakeDirs(fs, d) else Success(fs);
    if made.Success? {
      var fs1 := made.value;
      assert IsDir(fs1, d);
      CopyAllKeepsDestination(fs1, "source", d, names);
      var copied := CopyAll(fs1, "source", d, names);
      if copied.Success? {
        FillKeepsDir(copied.value, walk, config.substitutions, subst, d);
      }
    }
  }

  /** A created project folder is a directory at the configured
      destination; the presets copied last do not remove it. */
  lemma CreateMakesDestination(st: State, config: Config, names: seq<string>, walk: seq<WalkEntry>,
                               subst: InitProject.Substitute)
    requires forall j :: 0 <= j < |names| ==> InitProject.PlainName(names[j])
    ensures var r := CreateProjectFolder(st, config, names, walk, subst);
            r.Success? ==> IsDir(r.value.fs, config.destination)
  {
    BuildMakesDestination(st.fs, config, names, walk, subst);
    var b := BuildTree(st.fs, config, names, walk, subst);
    if b.Success? {
      PresetsKeepDirs(State(b.value, st.printed), config.destination, config.presets);
    }
  }

  /** Preset `j` of a run lands exactly as its source was before the run,
      when the source lies outside the destination: building the tree
      leaves it alone and the presets come last. */
  lemma RunPresetLands(fs: FS, printed: seq<string>, config: Config, names: seq<string>, walk: seq<WalkEntry>,
                       subst: InitProject.Substitute, j: nat)
    requires PlainDestination(config.destination) && WalkOf(walk, config.destination)
    requires forall i :: 0 <= i < |names| ==> InitProject.PlainName(names[i])
    requires j < |config.presets|
    requires !Under(Norm(config.presets[j].1), config.destination)
    requires forall i :: 0 <= i < j ==>
               !Under(Norm(config.presets[j].1), Norm(Join(config.destination, config.presets[i].0)))
    requires forall i :: j < i < |config.presets| ==>
               !Under(Norm(Join(config.destination, config.presets[j].0)),
                      Norm(Join(config.destination, config.presets[i].0)))
    ensures var r := CreateProjectFolder(State(fs, printed), config, names, walk, subst);
            var target := Join(config.destination, config.presets[j].0);
            r.Success? && IsFile(fs, config.presets[j].1) && !IsDir(r.value.fs, target) ==>
              Lookup(r.value.fs, target) == Lookup(fs, config.presets[j].1)
  {
    forall i | 0 <= i < |config.presets|
      ensures Join(config.destination, config.presets[i].0) != []
    {
    }
    BuildKeepsOutside(fs, config, names, walk, subst);
    var built := BuildTree(fs, config, names, walk, subst);
    if built.Success? {
      PresetLands(State(built.value, printed), config.destination, config.presets, j);
    }
  }

  /** The cnn dataset preset lands exactly as it was before the run:
      never substituted, and untouched by the copying of `source`. */
  lemma CnnDatasetVerbatim(fs: FS, printed: seq<string>, config: Config, names: seq<string>,
                           walk: seq<WalkEntry>, subst: InitProject.Substitute)
    requires config == CnnConfig
    requires forall j :: 0 <= j < |names| ==> InitProject.PlainName(names[j])
    requires WalkOf(walk, "output_cnn")
    ensures var r := CreateProjectFolder(State(fs, printed), config, names, walk, subst);
            r.Success? && IsFile(fs, "datasets/dataset_cnn.py") && !IsDir(r.value.fs, "output_cnn/src/dataset.py") ==>
              Lookup(r.value.fs, "output_cnn/src/dataset.py") == Lookup(fs, "datasets/dataset_cnn.py")
  {
    CnnDestination(config);
    CnnTargets(config);
    CnnDatasetApart(config);
    RunPresetLands(fs, printed, config, names, walk, subst, 0);
  }

  /** The cnn visualiser preset lands exactly as it was before the run. */
  lemma CnnVizVerbatim(fs: FS, printed: seq<string>, config: Config, names: seq<string>,
                       walk: seq<WalkEntry>, subst: InitProject.Substitute)
    requires config == CnnConfig
    requires forall j :: 0 <= j < |names| ==> InitProject.PlainName(names[j])
    requires WalkOf(walk, "output_cnn")
    ensures var r := CreateProjectFolder(State(fs, printed), config, names, walk, subst);
            r.Success? && IsFile(fs, "visualizers/viz_cnn.py") && !IsDir(r.value.fs, "output_cnn/src/viz.py") ==>
              Lookup(r.value.fs, "output_cnn/src/viz.py") == Lookup(fs, "visualizers/viz_cnn.py")
  {
    CnnDestination(config);
    CnnTargets(config);
    CnnVizApart(config);
    RunPresetLands(fs, printed, config, names, walk, subst, 1);
  }

  lemma CnnDestination(config: Config)
    requires config == CnnConfig
    ensures config.destination == "output_cnn" && PlainDestination("output_cnn")
  {
    assert 'm' in "_temp" && 'm' !in "output_cnn";
    AbsentChar("output_cnn", "_temp", 'm');
  }

  lemma CnnTargets(config: Config)
    requires config == CnnConfig
    ensures |config.presets| == 2
    ensures Join(config.destination, config.presets[0].0) == "output_cnn/src/dataset.py"
    ensures Join(config.destination, config.presets[1].0) == "output_cnn/src/viz.py"
  {
  }

  /** The cnn preset sources lie outside `output_cnn` and outside the
      first target. */
  lemma CnnSources(config: Config)
    requires config == CnnConfig
    ensures config.presets[0].1 == "datasets/dataset_cnn.py" && config.presets[1].1 == "visualizers/viz_cnn.py"
    ensures !Under(Norm("datasets/dataset_cnn.py"), "output_cnn")
    ensures !Under(Norm("visualizers/viz_cnn.py"), "output_cnn")
    ensures !Under(Norm("visualizers/viz_cnn.py"), Norm("output_cnn/src/dataset.py"))
  {
    var s0, s1 := "datasets/dataset_cnn.py", "visualizers/viz_cnn.py";
    assert Norm(s0) == s0 && Norm(s1) == s1;
    assert s0[0] != "output_cnn/"[0];
    assert s1[0] != "output_cnn/"[0];
    assert s1[0] != (Norm("output_cnn/src/dataset.py") + "/")[0];
  }

  /** The first cnn target does not lie below the second. */
  lemma CnnTargetsApart()
    ensures !Under(Norm("output_cnn/src/dataset.py"), Norm("output_cnn/src/viz.py"))
  {
    var t0, t1 := "output_cnn/src/dataset.py", "output_cnn/src/viz.py";
    assert Norm(t0) == t0 && Norm(t1) == t1;
    assert t0[15] != (t1 + "/")[15];
  }

  /** The side conditions of `RunPresetLands` for the cnn dataset preset. */
  lemma CnnDatasetApart(config: Config)
    requires config == CnnConfig
    ensures !Under(Norm(config.presets[0].1), config.destination)
    ensures forall i :: 0 < i < |config.presets| ==>
              !Under(Norm(Join(config.destination, config.presets[0].0)),
                     Norm(Join(config.destination, config.presets[i].0)))
  {
    CnnTargets(config);
    CnnSources(config);
    CnnTargetsApart();
  }

  /** The side conditions of `RunPresetLands` for the cnn visualiser
      preset. */
  lemma CnnVizApart(config: Config)
    requires config == CnnConfig
    ensures !Under(Norm(config.presets[1].1), config.destination)
    ensures forall i :: 0 <= i < 1 ==>
              !Under(Norm(config.presets[1].1), Norm(Join(config.destination, config.presets[i].0)))
  {
    CnnTargets(config);
    CnnSources(config);
  }
}
