/** The slice of `os`, `os.path` and `shutil` the scaffolding scripts use,
    over an abstract file system: a map from paths, relative to the working
    directory and without a trailing '/', to what is stored there.  The
    contents of a directory are the keys below it.  Every operation returns
    the new file system, or the exception Python would raise. */
module FileSystem {
  import opened Wrappers
  import opened Strings

  /** A directory, or a file with its text. */
  datatype Entry = Dir | File(content: string)

  type FS = map<string, Entry>

  /** The exceptions the scripts can raise. */
  datatype Error =
    | FileNotFound   // FileNotFoundError
    | FileExists     // FileExistsError
    | IsADirectory   // IsADirectoryError
    | NotADirectory  // NotADirectoryError
    | TemplateError  // KeyError or ValueError out of `string.Template.substitute`
    | ValueError     // the scripts' own `raise ValueError`

  // ---------------------------------------------------------------------
  // Paths

  /** A path with one trailing '/' dropped: `'output_rnn/'` names the same
      directory as `'output_rnn'`. */
  function Norm(p: string): (r: string)
    ensures |r| <= |p|
  {
    if p != [] && p[|p| - 1] == '/' then p[..|p| - 1] else p
  }

  /** `os.path.join(a, b)`: an absolute `b` wins; otherwise a separator is
      inserted unless `a` is empty or already ends with one. */
  function Join(a: string, b: string): (r: string)
  {
    if b != [] && b[0] == '/' then b
    else if a == [] || a[|a| - 1] == '/' then a + b
    else a + "/" + b
  }

  /** `os.path.dirname` on a relative path: everything before the last '/'. */
  function Dirname(p: string): (r: string)
    ensures p != [] ==> |r| < |p|
    decreases |p|
  {
    if p == [] then [] else if p[|p| - 1] == '/' then p[..|p| - 1] else Dirname(p[..|p| - 1])
  }

  /** `os.path.basename`: everything after the last '/'. */
  function Basename(p: string): (r: string)
    ensures '/' !in r
    decreases |p|
  {
    if p == [] || p[|p| - 1] == '/' then [] else Basename(p[..|p| - 1]) + [p[|p| - 1]]
  }

  /** Appending a name without separators extends the base name and leaves
      the directory part alone. */
  lemma {:induction false} SplitNoSlash(a: string, n: string)
    requires '/' !in n
    ensures Basename(a + n) == Basename(a) + n
    ensures Dirname(a + n) == Dirname(a)
    decreases |n|
  {
    if n == [] {
      assert a + n == a;
    } else {
      var n' := n[..|n| - 1];
      assert a + n == (a + n') + [n[|n| - 1]];
      assert (a + n)[..|a + n| - 1] == a + n';
      assert n == n' + [n[|n| - 1]];
      SplitNoSlash(a, n');
    }
  }

  /** `dirname` and `basename` take `join(d, name)` apart again, for a plain
      file name. */
  lemma JoinSplit(d: string, name: string)
    requires '/' !in name && name != []
    ensures Basename(Join(d, name)) == name
    ensures Dirname(Join(d, name)) == Norm(d)
  {
    if d == [] {
      assert Join(d, name) == [] + name;
      SplitNoSlash([], name);
    } else if d[|d| - 1] == '/' {
      assert Join(d, name) == d + name;
      SplitAfterSlash(d[..|d| - 1], name);
      assert d[..|d| - 1] + "/" == d;
    } else {
      assert Join(d, name) == (d + "/") + name;
      SplitAfterSlash(d, name);
    }
  }

  lemma SplitAfterSlash(a: string, name: string)
    requires '/' !in name
    ensures Basename((a + "/") + name) == name
    ensures Dirname((a + "/") + name) == a
  {
    SplitNoSlash(a + "/", name);
    assert (a + "/")[..|a + "/"| - 1] == a;
  }

  /** `q` is `d` or lies somewhere below it. */
  predicate Under(q: string, d: string)
  {
    q == d || d + "/" <= q
  }

  /** Being below a path that is below `d` is being below `d`. */
  lemma UnderTrans(k: string, m: string, d: string)
    requires Under(k, m) && Under(m, d)
    ensures Under(k, d)
  {
    if k != m && m != d {
      assert (d + "/") <= m && m + "/" <= k;
      assert k[..|d| + 1] == m[..|d| + 1];
    }
  }

  /** A path extending `d + "/"` is below `d`, also once normalised. */
  lemma NormBelow(d: string, z: string)
    ensures Under(Norm(d + "/" + z), d)
  {
    var p := d + "/" + z;
    if z == [] {
      assert p[..|p| - 1] == d;
    } else if z[|z| - 1] == '/' {
      assert p[..|p| - 1] == d + "/" + z[..|z| - 1];
    }
  }

  /** The path `q` below `src` gets when the tree is copied to `dst`. */
  function Rebase(q: string, src: string, dst: string): (r: string)
    requires Under(q, src)
  {
    dst + q[|src|..]
  }

  lemma RebaseUnder(q: string, src: string, dst: string)
    requires Under(q, src)
    ensures Under(Rebase(q, src, dst), dst)
  {
    if q != src {
      assert q[|src|..][0] == '/';
      assert (dst + "/") <= dst + q[|src|..];
    }
  }

  lemma RebaseInjective(q1: string, q2: string, src: string, dst: string)
    requires Under(q1, src) && Under(q2, src)
    requires Rebase(q1, src, dst) == Rebase(q2, src, dst)
    ensures q1 == q2
  {
    assert q1 == src + q1[|src|..];
    assert q2 == src + q2[|src|..];
    assert q1[|src|..] == Rebase(q1, src, dst)[|dst|..];
    assert q2[|src|..] == Rebase(q2, src, dst)[|dst|..];
  }

  // ---------------------------------------------------------------------
  // Queries

  /** `os.path.exists` */
  predicate Exists(fs: FS, p: string)
  {
    Norm(p) in fs
  }

  /** `os.path.isdir`; the empty path is not a directory. */
  predicate IsDir(fs: FS, p: string)
  {
    Norm(p) in fs && fs[Norm(p)].Dir?
  }

  /** `os.path.isfile` */
  predicate IsFile(fs: FS, p: string)
  {
    Norm(p) in fs && fs[Norm(p)].File?
  }

  function Lookup(fs: FS, p: string): Option<Entry>
  {
    if Norm(p) in fs then Some(fs[Norm(p)]) else None
  }

  /** `a` and `b` agree on every path but `q`. */
  predicate AgreeExcept(a: FS, b: FS, q: string)
  {
    && (forall k :: k in a && k != q ==> k in b && b[k] == a[k])
    && (forall k :: k in b && k != q ==> k in a)
  }

  /** Every entry of `a` is in `b`, unchanged. */
  predicate Keeps(a: FS, b: FS)
  {
    forall k :: k in a ==> k in b && b[k] == a[k]
  }

  /** Entries lie strictly below `p` only when `p` is a directory, as in
      any real file system: a file or a missing path has nothing below it. */
  predicate TreeAt(fs: FS, p: string)
  {
    forall k :: k in fs && Under(k, Norm(p)) && k != Norm(p) ==> IsDir(fs, p)
  }

  /** `p` ends in at most one separator, so `Norm(p)` is its normal form. */
  predicate Canonical(p: string)
  {
    Norm(Norm(p)) == Norm(p)
  }

  /** `b` holds below `d` exactly what `a` holds below `s`: every entry
      reappears at its rebased path, and nothing else is there. */
  ghost predicate Replica(a: FS, s: string, b: FS, d: string)
  {
    && (forall q :: q in a && Under(q, s) ==> Rebase(q, s, d) in b && b[Rebase(q, s, d)] == a[q])
    && (forall k :: k in b && Under(k, d) ==>
          exists q :: q in a && Under(q, s) && k == Rebase(q, s, d) && b[k] == a[q])
  }

  // ---------------------------------------------------------------------
  // Operations

  /** `open(p).read()` */
  function ReadFile(fs: FS, p: string): (r: Result<string, Error>)
    ensures r.Success? <==> IsFile(fs, p)
    ensures r.Success? ==> Lookup(fs, p) == Some(File(r.value))
    ensures r.Failure? ==> r.error == (if Exists(fs, p) then IsADirectory else FileNotFound)
  {
    var q := Norm(p);
    if q !in fs then Failure(FileNotFound)
    else if fs[q].Dir? then Failure(IsADirectory)
    else Success(fs[q].content)
  }

  /** `open(p, 'w').write(c)`: the parent must be an existing directory and
      `p` must not be one. */
  function WriteFile(fs: FS, p: string, c: string): (r: Result<FS, Error>)
    ensures r.Success? <==> Norm(p) != [] && (Dirname(Norm(p)) == [] || IsDir(fs, Dirname(Norm(p)))) && !IsDir(fs, p)
    ensures r.Success? ==> Lookup(r.value, p) == Some(File(c)) && AgreeExcept(fs, r.value, Norm(p))
    // an existing directory is never replaced by a file
    ensures r.Success? ==> forall k :: k in fs && fs[k].Dir? ==> k in r.value && r.value[k] == Dir
  {
    var q := Norm(p);
    var parent := Dirname(q);
    if q == [] then Failure(FileNotFound)
    else if parent != [] && !Exists(fs, parent) then Failure(FileNotFound)
    else if parent != [] && !IsDir(fs, parent) then Failure(NotADirectory)
    else if q in fs && fs[q].Dir? then Failure(IsADirectory)
    else Success(fs[q := File(c)])
  }

  /** `os.remove(p)`: removes a file. */
  function RemoveFile(fs: FS, p: string): (r: Result<FS, Error>)
    ensures r.Success? <==> IsFile(fs, p)
    ensures r.Success? ==> !Exists(r.value, p) && AgreeExcept(fs, r.value, Norm(p))
  {
    var q := Norm(p);
    if q !in fs then Failure(FileNotFound)
    else if fs[q].Dir? then Failure(IsADirectory)
    else Success(fs - {q})
  }

  /** `shutil.rmtree(p)`: removes a directory and everything below it. */
  function RemoveTree(fs: FS, p: string): (r: Result<FS, Error>)
    ensures r.Success? <==> IsDir(fs, p)
    // nothing of the tree survives ...
    ensures r.Success? ==> forall k :: k in r.value ==> !Under(k, Norm(p))
    // ... and everything outside it does
    ensures r.Success? ==> forall k :: k in fs && !Under(k, Norm(p)) ==> k in r.value && r.value[k] == fs[k]
  {
    var q := Norm(p);
    if q !in fs then Failure(FileNotFound)
    else if fs[q].File? then Failure(NotADirectory)
    else Success(map k | k in fs && !Under(k, q) :: fs[k])
  }

  /** `os.makedirs(q, exist_ok=True)` for a path without a trailing '/':
      creates the missing ancestors, then `q`. */
  function EnsureDir(fs: FS, q: string): (r: Result<FS, Error>)
    ensures r.Success? ==> IsDir(r.value, q) && Keeps(fs, r.value)
    // only directories are created
    ensures r.Success? ==> forall k :: k in r.value && k !in fs ==> r.value[k] == Dir
    // ... and only at `q` or above it
    ensures r.Success? ==> forall k :: k in r.value && k !in fs ==> |k| <= |Norm(q)|
    decreases |q|
  {
    var head := Dirname(q);
    var made := if head != [] && !Exists(fs, head) then EnsureDir(fs, Norm(head)) else Success(fs);
    match made
    case Failure(e) => Failure(e)
    case Success(fs1) =>
      if Norm(q) in fs1 then (if fs1[Norm(q)].Dir? then Success(fs1) else Failure(FileExists))
      else if q == [] then Failure(FileNotFound)
      else if head != [] && !IsDir(fs1, head) then Failure(NotADirectory)
      else Success(fs1[Norm(q) := Dir])
  }

  /** `os.makedirs(p)`: like `EnsureDir`, but an existing `p` is an error. */
  function MakeDirs(fs: FS, p: string): (r: Result<FS, Error>)
    ensures Exists(fs, p) ==> r == Failure(FileExists)
    ensures r.Success? ==> IsDir(r.value, p) && Keeps(fs, r.value)
    ensures r.Success? ==> forall k :: k in r.value && k !in fs ==> r.value[k] == Dir
    // nothing is created strictly below `p`
    ensures r.Success? ==> forall k :: k in r.value && k !in fs ==> |k| <= |Norm(p)|
  {
    if Exists(fs, p) then Failure(FileExists) else EnsureDir(fs, p)
  }

  /** The entries of the tree at `src`, moved to `dst`. */
  function Rebased(fs: FS, src: string, dst: string): (m: FS)
    ensures forall q :: q in fs && Under(q, src) ==> Rebase(q, src, dst) in m && m[Rebase(q, src, dst)] == fs[q]
    ensures forall t :: t in m ==> Under(t, dst)
    ensures forall t :: t in m ==> exists q :: q in fs && Under(q, src) && t == Rebase(q, src, dst) && m[t] == fs[q]
  {
    assert forall q1, q2 | q1 in fs && q2 in fs && Under(q1, src) && Under(q2, src)
                           && Rebase(q1, src, dst) == Rebase(q2, src, dst) :: q1 == q2 by {
      forall q1, q2 | q1 in fs && q2 in fs && Under(q1, src) && Under(q2, src)
                      && Rebase(q1, src, dst) == Rebase(q2, src, dst)
        ensures q1 == q2
      {
        RebaseInjective(q1, q2, src, dst);
      }
    }
    forall q | q in fs && Under(q, src)
      ensures Under(Rebase(q, src, dst), dst)
    {
      RebaseUnder(q, src, dst);
    }
    map q | q in fs && Under(q, src) :: Rebase(q, src, dst) := fs[q]
  }

  /** `shutil.copytree(src, dst)`: `dst` must not exist; it is created with
      its missing ancestors, and every entry below `src` is copied to the
      same place below `dst`. */
  function CopyTree(fs: FS, src: string, dst: string): (r: Result<FS, Error>)
    ensures !IsDir(fs, src) || Exists(fs, dst) ==> r.Failure?
    // the copy mirrors its source ...
    ensures r.Success? ==> forall q :: q in fs && Under(q, Norm(src)) ==>
              Rebase(q, Norm(src), Norm(dst)) in r.value && r.value[Rebase(q, Norm(src), Norm(dst))] == fs[q]
    // ... and every entry outside `dst` is left as it was
    ensures r.Success? ==> forall k :: k in fs && !Under(k, Norm(dst)) ==> k in r.value && r.value[k] == fs[k]
    // below `dst` there is only the copy and what was there before
    ensures r.Success? ==> forall k :: k in r.value && Under(k, Norm(dst)) ==>
              (k in fs && r.value[k] == fs[k])
              || exists q :: q in fs && Under(q, Norm(src)) && k == Rebase(q, Norm(src), Norm(dst)) && r.value[k] == fs[q]
    // so a copy to a target with nothing below it is exact
    ensures r.Success? && (forall k :: k in fs ==> !Under(k, Norm(dst))) ==>
              Replica(fs, Norm(src), r.value, Norm(dst))
  {
    var s, d := Norm(src), Norm(dst);
    if s !in fs then Failure(FileNotFound)
    else if fs[s].File? then Failure(NotADirectory)
    else match MakeDirs(fs, dst)
      case Failure(e) => Failure(e)
      case Success(fs1) =>
        var m := Rebased(fs, s, d);
        assert Rebase(s, s, d) == d;
        Success(fs1 + m)
  }

  /** Where `shutil.copy(src, dst)` writes: into `dst` under the source's
      base name when `dst` is a directory, else to `dst` itself. */
  function CopyTarget(fs: FS, src: string, dst: string): string
  {
    if IsDir(fs, dst) then Join(dst, Basename(Norm(src))) else dst
  }

  /** A copy to `dst` writes at `dst` or directly below it. */
  lemma CopyTargetUnder(fs: FS, src: string, dst: string)
    requires dst != []
    ensures Under(Norm(CopyTarget(fs, src, dst)), Norm(dst))
  {
    if IsDir(fs, dst) {
      var b := Basename(Norm(src));
      var t := Join(dst, b);
      if b != [] {
        assert b[|b| - 1] in b;
        assert t[|t| - 1] == b[|b| - 1];
        if dst[|dst| - 1] == '/' {
          assert t == dst[..|dst| - 1] + "/" + b;
        } else {
          assert t == dst + "/" + b;
        }
      } else if dst[|dst| - 1] != '/' {
        assert t == dst + "/";
      }
    }
  }

  /** `shutil.copy(src, dst)`: the target holds what the source held. */
  function CopyFile(fs: FS, src: string, dst: string): (r: Result<FS, Error>)
    ensures !IsFile(fs, src) ==> r.Failure?
    ensures r.Success? ==> Lookup(r.value, CopyTarget(fs, src, dst)) == Lookup(fs, src)
    ensures r.Success? ==> AgreeExcept(fs, r.value, Norm(CopyTarget(fs, src, dst)))
    ensures r.Success? ==> forall k :: k in fs && fs[k].Dir? ==> k in r.value && r.value[k] == Dir
  {
    match ReadFile(fs, src)
    case Failure(e) => Failure(e)
    case Success(c) => WriteFile(fs, CopyTarget(fs, src, dst), c)
  }

  /** Removes whatever is at `p`: a directory with everything below it, or
      a file; a missing `p` is left alone. */
  function RemoveExisting(fs: FS, p: string): (r: FS)
    ensures !Exists(r, p)
    ensures forall k :: k in fs && !Under(k, Norm(p)) ==> k in r && r[k] == fs[k]
    ensures Keeps(r, fs)
    // a directory goes with everything below it
    ensures IsDir(fs, p) ==> forall k :: k in r ==> !Under(k, Norm(p))
    ensures TreeAt(fs, p) ==> forall k :: k in r ==> !Under(k, Norm(p))
  {
    if !Exists(fs, p) then fs
    else if IsDir(fs, p) then RemoveTree(fs, p).value
    else RemoveFile(fs, p).value
  }

  // ---------------------------------------------------------------------
  // Putting an entry into a directory

  /** With nothing at or below `Join(d, name)`, a write there puts the
      file directly into the existing directory `d`. */
  lemma WriteInto(fs: FS, d: string, name: string, c: string)
    requires '/' !in name && name != []
    requires IsDir(fs, d) && Canonical(d)
    requires forall k :: k in fs ==> !Under(k, Join(d, name))
    ensures WriteFile(fs, Join(d, name), c) == Success(fs[Join(d, name) := File(c)])
  {
    var t := Join(d, name);
    assert t[|t| - 1] == name[|name| - 1];
    assert name[|name| - 1] in name;
    JoinSplit(d, name);
  }

  /** With nothing at or below `Join(d, name)`, `copytree` creates that
      path directly in the existing directory `d`, copies exactly the tree
      below `src` there, and keeps every old entry. */
  lemma CopyTreeInto(fs: FS, src: string, d: string, name: string)
    requires '/' !in name && name != []
    requires IsDir(fs, d) && Canonical(d) && IsDir(fs, src)
    requires forall k :: k in fs ==> !Under(k, Join(d, name))
    ensures var r := CopyTree(fs, src, Join(d, name));
            && r.Success?
            && Replica(fs, Norm(src), r.value, Join(d, name))
            && Keeps(fs, r.value)
  {
    var t := Join(d, name);
    assert t[|t| - 1] == name[|name| - 1];
    assert name[|name| - 1] in name;
    JoinSplit(d, name);
    assert EnsureDir(fs, t) == Success(fs[t := Dir]);
  }

  /** A file with nothing below it, written to a path with nothing at or
      below it, is an exact replica there. */
  lemma FileReplica(fs: FS, s: string, t: string)
    requires s in fs && fs[s].File? && Norm(s) == s && TreeAt(fs, s)
    requires forall k :: k in fs ==> !Under(k, t)
    ensures Replica(fs, s, fs[t := fs[s]], t)
  {
    assert Rebase(s, s, t) == t;
  }

  /** A replica of `a1` is one of `a` when `a1` keeps what `a` has below
      the source and adds nothing. */
  lemma ReplicaFrom(a: FS, a1: FS, s: string, b: FS, d: string)
    requires Keeps(a1, a)
    requires forall q :: q in a && Under(q, s) ==> q in a1
    requires Replica(a1, s, b, d)
    ensures Replica(a, s, b, d)
  {
  }
}
