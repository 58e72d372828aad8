/**
 * The parts of `std::filesystem::path` the program relies on, for POSIX paths with '/'
 * as the only separator: the filename, its extension, the parent directory, absoluteness
 * and the `/` join. Repeated separators and root names are not modelled.
 */
module Paths {
  import opened Wrappers

  /** The filename part of a path: everything after the last '/'. */
  function FileName(path: string): (r: string)
    ensures |r| <= |path| && r == path[|path| - |r|..]
    ensures '/' !in r
  {
    if path == [] then []
    else if path[|path| - 1] == '/' then []
    else FileName(path[..|path| - 1]) + [path[|path| - 1]]
  }

  /** The position of the last '.' in `s`, if any. */
  function LastDot(s: string): (r: Option<nat>)
    ensures r.Some? ==> r.value < |s| && s[r.value] == '.' && '.' !in s[r.value + 1..]
    ensures r.None? ==> '.' !in s
  {
    if s == [] then None
    else if s[|s| - 1] == '.' then Some(|s| - 1)
    else LastDot(s[..|s| - 1])
  }

  /**
   * `fs::path::extension`: from the last '.' of the filename to its end; empty for
   * "." and "..", for a filename without '.', and for a filename whose only '.' leads it.
   */
  function Extension(path: string): string
  {
    NameExtension(FileName(path))
  }

  /** The extension of a filename. */
  function NameExtension(name: string): string
  {
    if name == "." || name == ".." then ""
    else match LastDot(name)
      case None => ""
      case Some(p) => if p == 0 then "" else name[p..]
  }

  /** The extension of "dir/stem.ext" is ".ext", so "shaders/basic.glsl" is GLSL and "shaders/basic.hlsl" is HLSL. */
  lemma ExtensionOfFile(dir: string, stem: string, ext: string)
    requires stem != [] && '/' !in stem && '.' !in stem && '/' !in ext && '.' !in ext
    ensures Extension(dir + "/" + stem + "." + ext) == "." + ext
  {
    var name := stem + ['.'] + ext;
    assert dir + "/" + stem + "." + ext == (dir + "/") + name;
    assert '/' !in name by {
      assert forall i :: 0 <= i < |name| ==> name[i] == (if i < |stem| then stem[i] else if i == |stem| then '.' else ext[i - |stem| - 1]);
    }
    FileNameOfSuffix(dir + "/", name);
    NameExtensionAfterDot(stem, ext);
  }

  lemma NameExtensionAfterDot(stem: string, ext: string)
    requires stem != [] && '.' !in stem && '.' !in ext
    ensures NameExtension(stem + ['.'] + ext) == "." + ext
  {
    var name := stem + ['.'] + ext;
    LastDotAfter(stem, ext);
    assert name[0] == stem[0] && stem[0] != '.';
    assert name != "." && name != "..";
    assert name[|stem|..] == "." + ext;
  }

  lemma {:induction false} LastDotAfter(a: string, b: string)
    requires '.' !in b
    ensures LastDot(a + ['.'] + b) == Some(|a|)
  {
    if b != [] {
      assert (a + ['.'] + b)[..|a + ['.'] + b| - 1] == a + ['.'] + b[..|b| - 1];
      LastDotAfter(a, b[..|b| - 1]);
    } else {
      assert a + ['.'] + b == a + ['.'];
    }
  }

  lemma {:induction false} FileNameOfSuffix(dir: string, name: string)
    requires dir != [] && dir[|dir| - 1] == '/' && '/' !in name
    ensures FileName(dir + name) == name
  {
    if name == [] {
      assert dir + name == dir;
    } else {
      assert (dir + name)[..|dir + name| - 1] == dir + name[..|name| - 1];
      FileNameOfSuffix(dir, name[..|name| - 1]);
      assert name[..|name| - 1] + [name[|name| - 1]] == name;
    }
  }

  /** `is_absolute`: the path starts at the root. */
  predicate IsAbsolute(path: string)
  {
    |path| > 0 && path[0] == '/'
  }

  /** The position of the last '/' in `s`, if any. */
  function LastSlash(s: string): (r: Option<nat>)
    ensures r.Some? ==> r.value < |s| && s[r.value] == '/' && '/' !in s[r.value + 1..]
    ensures r.None? ==> '/' !in s
  {
    if s == [] then None
    else if s[|s| - 1] == '/' then Some(|s| - 1)
    else LastSlash(s[..|s| - 1])
  }

  /** `parent_path`: the path without its last element; the root for a file directly under it, empty for a bare filename. */
  function ParentPath(path: string): (r: string)
    ensures |r| <= |path|
  {
    match LastSlash(path)
    case None => ""
    case Some(p) => if p == 0 then "/" else path[..p]
  }

  /** `operator/`: an absolute right operand replaces the left one; otherwise it is appended after one separator. */
  function Join(base: string, relative: string): (r: string)
    ensures IsAbsolute(relative) ==> r == relative
    ensures !IsAbsolute(relative) ==> |r| >= |relative| && r[|r| - |relative|..] == relative
  {
    if IsAbsolute(relative) || base == [] then relative
    else if base[|base| - 1] == '/' then base + relative
    else base + "/" + relative
  }

  lemma {:induction false} LastSlashAfter(a: string, b: string)
    requires '/' !in b
    ensures LastSlash(a + ['/'] + b) == Some(|a|)
  {
    if b != [] {
      assert (a + ['/'] + b)[..|a + ['/'] + b| - 1] == a + ['/'] + b[..|b| - 1];
      LastSlashAfter(a, b[..|b| - 1]);
    } else {
      assert a + ['/'] + b == a + ['/'];
    }
  }

  /** The parent of "dir/name" is "dir", and joining "dir" with a relative path puts it under "dir". */
  lemma ParentOfChild(dir: string, name: string, relative: string)
    requires dir != [] && dir[|dir| - 1] != '/' && '/' !in name && !IsAbsolute(relative)
    ensures ParentPath(dir + "/" + name) == dir
    ensures Join(ParentPath(dir + "/" + name), relative) == dir + "/" + relative
  {
    LastSlashAfter(dir, name);
    assert dir + "/" + name == dir + ['/'] + name;
    assert (dir + ['/'] + name)[..|dir|] == dir;
  }
}
