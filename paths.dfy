/**
 The part of Rust's `std::path` that the simulation launcher relies on, for
 a Unix host. A path is kept as the sequence of components that
 `Path::components` yields: a leading root or `.`, then normal names and
 `..`, with repeated separators, trailing separators and interior `.`
 already dropped. `file_name`, `file_stem`, `extension`, `set_extension` and
 `join` are stated over that sequence.
 */
module Paths {
  import opened Text
  import opened Results

  datatype Component = RootDir | CurDir | ParentDir | Normal(name: Bytes)

  /** The names `.` and `..`. */
  const CUR: Bytes := [DOT]
  const PARENT: Bytes := [DOT, DOT]

  predicate NoSlash(s: Bytes)
  {
    forall i :: 0 <= i < |s| ==> s[i] != SLASH
  }

  predicate NoDot(s: Bytes)
  {
    forall i :: 0 <= i < |s| ==> s[i] != DOT
  }

  /** A name that `components` reports as `Normal`. */
  predicate IsNormalName(s: Bytes)
  {
    s != [] && NoSlash(s) && s != CUR && s != PARENT
  }

  /** The shape of what `components` yields: a root or `.` may only come first. */
  predicate Normalized(cs: seq<Component>)
  {
    && (forall i :: 0 <= i < |cs| && cs[i].Normal? ==> IsNormalName(cs[i].name))
    && (forall i :: 0 < i < |cs| ==> cs[i].Normal? || cs[i].ParentDir?)
  }

  type Path = cs: seq<Component> | Normalized(cs) witness []

  /** `Path::file_name`: the last component when it is a normal name. */
  function FileName(p: Path): Option<Bytes>
  {
    if p != [] && p[|p| - 1].Normal? then Some(p[|p| - 1].name) else None
  }

  /** Index of the last `.` in `s`, or -1 when there is none. */
  function LastDot(s: Bytes): (k: int)
    ensures -1 <= k < |s|
    ensures k >= 0 ==> s[k] == DOT
    ensures forall j :: k < j < |s| ==> s[j] != DOT
  {
    if s == [] then -1
    else if s[|s| - 1] == DOT then |s| - 1
    else LastDot(s[..|s| - 1])
  }

  /**
   `rsplit_file_at_dot`: a file name split at its last dot into the part
   before and the part after; `..` and names whose only dot leads stay whole.
   */
  datatype Split = Split(before: Option<Bytes>, after: Option<Bytes>)

  function SplitAtDot(file: Bytes): Split
  {
    if file == PARENT then Split(Some(file), None)
    else
      var k := LastDot(file);
      if k < 0 then Split(None, Some(file))
      else if k == 0 then Split(Some(file), None)
      else Split(Some(file[..k]), Some(file[k + 1..]))
  }

  /** The stem of a file name: `before.or(after)`. */
  function StemOf(file: Bytes): Bytes
  {
    var s := SplitAtDot(file);
    if s.before.Some? then s.before.value
    else if s.after.Some? then s.after.value
    else []
  }

  /** The extension of a file name: `before.and(after)`. */
  function ExtensionOf(file: Bytes): Option<Bytes>
  {
    var s := SplitAtDot(file);
    if s.before.Some? then s.after else None
  }

  /** `Path::file_stem`. */
  function FileStem(p: Path): Option<Bytes>
  {
    match FileName(p)
    case None => None
    case Some(f) => Some(StemOf(f))
  }

  /** `Path::extension`. */
  function Extension(p: Path): Option<Bytes>
  {
    match FileName(p)
    case None => None
    case Some(f) => ExtensionOf(f)
  }

  /**
   `PathBuf::push` of one slash-free name (what `Path::join` does for a run
   name): an empty name adds only a separator, `.` is dropped by
   `components` except on an empty path, `..` stays.
   */
  function Join(p: Path, name: Bytes): (r: Path)
    requires NoSlash(name)
  {
    if name == [] then p
    else if name == CUR then (if p == [] then [CurDir] else p)
    else if name == PARENT then p + [ParentDir]
    else p + [Normal(name)]
  }

  /**
   `PathBuf::set_extension`: when there is a file stem, the path is cut right
   after it and `.ext` is appended (nothing for an empty extension); without
   a file name the path stays as it is. Extensions holding a separator make
   Rust panic, so they are excluded here.
   */
  function SetExtension(p: Path, ext: Bytes): Path
    requires NoSlash(ext)
  {
    match FileStem(p)
    case None => p
    case Some(stem) =>
      var newName := if ext == [] then stem else stem + [DOT] + ext;
      SplitNameHasNoSlash(p[|p| - 1].name);
      Join(p[..|p| - 1], newName)
  }

  /** The bytes `Display` shows for a path: its components joined by `/`. */
  function Render(p: seq<Component>): Bytes
  {
    if p == [] then []
    else if |p| == 1 then ComponentBytes(p[0])
    else Render(p[..|p| - 1]) + (if p[|p| - 2].RootDir? then [] else [SLASH]) + ComponentBytes(p[|p| - 1])
  }

  function ComponentBytes(c: Component): Bytes
  {
    match c
    case RootDir => [SLASH]
    case CurDir => CUR
    case ParentDir => PARENT
    case Normal(n) => n
  }

  /**
   `join(&name)` followed by `file_name` gives the name back, and a path with
   a file name is its parent joined with that name: the two are inverse.
   */
  lemma FileNameOfJoin(p: Path, name: Bytes)
    requires IsNormalName(name)
    ensures FileName(Join(p, name)) == Some(name)
    ensures FileName(p).Some? ==> IsNormalName(FileName(p).value)
    ensures FileName(p).Some? ==> Join(p[..|p| - 1], FileName(p).value) == p
  {
    if FileName(p).Some? {
      assert p == p[..|p| - 1] + [p[|p| - 1]];
    }
  }

  /** Stems of slash-free names are slash-free. */
  lemma SplitNameHasNoSlash(file: Bytes)
    requires NoSlash(file)
    ensures NoSlash(StemOf(file))
    ensures ExtensionOf(file).Some? ==> NoSlash(ExtensionOf(file).value)
  {
  }

  /**
   How a file name decomposes: without an extension the stem is the whole
   name; with one, the name is the non-empty stem, a dot and a dot-free
   extension.
   */
  lemma SplitName(file: Bytes)
    requires IsNormalName(file)
    ensures StemOf(file) != []
    ensures ExtensionOf(file).None? ==> StemOf(file) == file
    ensures ExtensionOf(file).Some? ==>
      var e := ExtensionOf(file).value;
      file == StemOf(file) + [DOT] + e && NoDot(e)
  {
    var k := LastDot(file);
    if k > 0 {
      assert file == file[..k] + [DOT] + file[k + 1..];
    }
  }

  /** The converse of SplitName: a dot-free tail after a non-empty stem is the extension. */
  lemma SplitNameUnique(stem: Bytes, ext: Bytes)
    requires stem != [] && NoDot(ext)
    requires stem + [DOT] + ext != PARENT
    ensures StemOf(stem + [DOT] + ext) == stem
    ensures ExtensionOf(stem + [DOT] + ext) == Some(ext)
  {
    var f := stem + [DOT] + ext;
    var k := LastDot(f);
    assert f[|stem|] == DOT;
    assert forall j :: |stem| < j < |f| ==> f[j] == ext[j - |stem| - 1];
    assert k == |stem|;
    assert f[..k] == stem && f[k + 1..] == ext;
  }

  /**
   With a file name and a non-empty dot-free extension, `set_extension`
   replaces only the last component: it keeps the parent and the stem, and
   reading the extension back gives what was set.
   */
  lemma SetExtensionReplacesLastDotSegment(p: Path, ext: Bytes)
    requires FileName(p).Some?
    requires ext != [] && NoSlash(ext) && NoDot(ext)
    ensures var r := SetExtension(p, ext);
      && |r| == |p|
      && r[..|r| - 1] == p[..|p| - 1]
      && FileName(r) == Some(FileStem(p).value + [DOT] + ext)
      && FileStem(r) == FileStem(p)
      && Extension(r) == Some(ext)
  {
    var stem := FileStem(p).value;
    SplitName(p[|p| - 1].name);
    assert |stem + [DOT] + ext| >= 3;
    SplitNameUnique(stem, ext);
    var newName := stem + [DOT] + ext;
    assert |newName| >= 3;
  }

  /** `set_extension` on a path without a file name changes nothing. */
  lemma SetExtensionWithoutFileName(p: Path, ext: Bytes)
    requires FileName(p).None? && NoSlash(ext)
    ensures SetExtension(p, ext) == p
  {
  }

  /** Setting an extension twice is setting the second one: the first leaves the stem intact. */
  lemma SetExtensionTwice(p: Path, first: Bytes, second: Bytes)
    requires first != [] && NoSlash(first) && NoDot(first)
    requires NoSlash(second)
    ensures SetExtension(SetExtension(p, first), second) == SetExtension(p, second)
  {
    if FileName(p).Some? {
      SetExtensionReplacesLastDotSegment(p, first);
    }
  }
}
