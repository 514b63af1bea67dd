/** The parts of System.IO.Path that name files, with Windows conventions:
    both '\' and '/' separate directories, '\' is the one Combine inserts. */
module Paths {

  predicate IsSeparator(c: char) {
    c == '\\' || c == '/'
  }

  const Separators: set<char> := {'\\', '/'}

  /** The index of the last character of `s` that is in `cs`, or -1. */
  function LastIndexIn(s: string, cs: set<char>): (i: int)
    ensures -1 <= i < |s|
    ensures i >= 0 ==> s[i] in cs
    ensures forall j :: i < j < |s| ==> s[j] !in cs
  {
    if s == [] then -1
    else if s[|s| - 1] in cs then |s| - 1
    else LastIndexIn(s[..|s| - 1], cs)
  }

  /** Path.GetFileName: what follows the last separator. */
  function GetFileName(path: string): (name: string)
    ensures |name| <= |path| && name == path[|path| - |name|..]
    ensures forall j :: 0 <= j < |name| ==> !IsSeparator(name[j])
  {
    path[LastIndexIn(path, Separators) + 1..]
  }

  /** Path.GetExtension: from the last '.' of the file name on, or "" when
      the name has no '.' or ends with it. */
  function GetExtension(path: string): (ext: string)
    ensures ext == [] || (ext[0] == '.' && |ext| >= 2)
    ensures |ext| <= |GetFileName(path)|
    ensures ext == GetFileName(path)[|GetFileName(path)| - |ext|..]
  {
    var name := GetFileName(path);
    var dot := LastIndexIn(name, {'.'});
    if dot < 0 || dot == |name| - 1 then "" else name[dot..]
  }

  /** An extension holds no separator. */
  lemma ExtensionPlain(path: string)
    ensures var ext := GetExtension(path); forall j :: 0 <= j < |ext| ==> !IsSeparator(ext[j])
  {
    var ext := GetExtension(path);
    var name := GetFileName(path);
    forall j | 0 <= j < |ext| ensures !IsSeparator(ext[j]) {
      assert ext[j] == name[|name| - |ext| + j];
    }
  }

  /** An extension holds no '.' after its first character. */
  lemma ExtensionHasOneDot(path: string)
    ensures var ext := GetExtension(path); forall j :: 0 < j < |ext| ==> ext[j] != '.'
  {
  }

  /** Path.GetFileNameWithoutExtension: the file name up to its last '.'
      (a trailing '.' is dropped too). */
  function GetFileNameWithoutExtension(path: string): (stem: string)
    ensures stem <= GetFileName(path)
  {
    var name := GetFileName(path);
    var dot := LastIndexIn(name, {'.'});
    if dot < 0 then name else name[..dot]
  }

  /** Path.GetDirectoryName: everything before the last separator, "" for
      a bare file name. */
  function GetDirectoryName(path: string): (dir: string)
    ensures dir <= path
  {
    var i := LastIndexIn(path, Separators);
    if i < 0 then "" else path[..i]
  }

  /** A directory spelled without its trailing separator, if it has one. */
  function DropLastSeparator(path: string): (r: string)
    ensures r <= path
  {
    if path != [] && IsSeparator(path[|path| - 1]) then path[..|path| - 1] else path
  }

  /** Path.IsPathRooted on Windows. */
  predicate IsRooted(path: string) {
    (|path| >= 1 && IsSeparator(path[0]))
    || (|path| >= 2 && path[1] == ':' && (('a' <= path[0] <= 'z') || ('A' <= path[0] <= 'Z')))
  }

  /** Path.Combine(a, b) */
  function Combine(a: string, b: string): (r: string)
    ensures |b| <= |r| && r[|r| - |b|..] == b
  {
    if b == [] then a
    else if a == [] || IsRooted(b) then b
    else if IsSeparator(a[|a| - 1]) then a + b
    else a + "\\" + b
  }

  /** The name of a file and its extension give back the file name, unless
      the name ends with '.', which GetFileNameWithoutExtension drops. */
  lemma StemAndExtension(path: string)
    requires var n := GetFileName(path); n == [] || n[|n| - 1] != '.'
    ensures GetFileNameWithoutExtension(path) + GetExtension(path) == GetFileName(path)
  {
    var name := GetFileName(path);
    var dot := LastIndexIn(name, {'.'});
    if 0 <= dot {
      assert name[..dot] + name[dot..] == name;
    } else {
      assert name + [] == name;
    }
  }

  /** A file name taken twice is the file name. */
  lemma {:induction false} FileNameIdempotent(path: string)
    ensures GetFileName(GetFileName(path)) == GetFileName(path)
  {
    var n := GetFileName(path);
    NoneIn(n, Separators);
  }

  lemma {:induction false} NoneIn(s: string, cs: set<char>)
    requires forall j :: 0 <= j < |s| ==> s[j] !in cs
    ensures LastIndexIn(s, cs) == -1
  {
    if s != [] {
      NoneIn(s[..|s| - 1], cs);
    }
  }

  /** Combining a directory with a plain name (nonempty, no separator, not
      rooted) puts the name after exactly one separator. */
  lemma CombinePlainName(dir: string, name: string)
    requires dir != [] && name != [] && !IsRooted(name)
    ensures var r := Combine(dir, name);
      r == (if IsSeparator(dir[|dir| - 1]) then dir else dir + "\\") + name
  {
  }

  /** A plain name put into a folder lies in that folder. */
  lemma {:induction false} DirectoryOfCombine(dir: string, name: string)
    requires name != [] && !IsRooted(name)
    requires forall j :: 0 <= j < |name| ==> !IsSeparator(name[j])
    ensures GetDirectoryName(Combine(dir, name)) == (if dir == [] then "" else DropLastSeparator(dir))
  {
    if dir == [] {
      NoneIn(name, Separators);
    } else {
      CombinePlainName(dir, name);
      if IsSeparator(dir[|dir| - 1]) {
        DirectoryAfter(dir, name);
      } else {
        DirectoryAfter(dir + "\\", name);
        assert (dir + "\\")[..|dir|] == dir;
      }
    }
  }

  /** The folder of a plain name after a separator is what precedes the
      separator. */
  lemma DirectoryAfter(pre: string, name: string)
    requires pre != [] && IsSeparator(pre[|pre| - 1])
    requires forall j :: 0 <= j < |name| ==> !IsSeparator(name[j])
    ensures GetDirectoryName(pre + name) == pre[..|pre| - 1]
  {
    LastIndexAfter(pre, name, Separators);
    assert (pre + name)[..|pre| - 1] == pre[..|pre| - 1];
  }

  /** The last separator of `a + b` is the last character of `a` when `b`
      has none. */
  lemma {:induction false} LastIndexAfter(a: string, b: string, cs: set<char>)
    requires a != [] && a[|a| - 1] in cs
    requires forall j :: 0 <= j < |b| ==> b[j] !in cs
    ensures LastIndexIn(a + b, cs) == |a| - 1
    decreases |b|
  {
    if b == [] {
      assert a + b == a;
    } else {
      var b' := b[..|b| - 1];
      assert (a + b)[..|a + b| - 1] == a + b';
      LastIndexAfter(a, b', cs);
    }
  }
}
