/** The two pieces of `pathlib.PurePosixPath` the client uses: `Path(p).name`
    (the last component) and `Path(p).stem` (that component without its
    final suffix). */
module Paths {
  import opened Wrappers
  import opened Strings

  predicate NoSlash(s: string) {
    forall k :: 0 <= k < |s| ==> s[k] != '/'
  }

  /** The position just after the last `/` of `s`, or 0 when it has none. */
  function AfterLastSlash(s: string): (i: nat)
    ensures i <= |s|
    ensures i > 0 ==> s[i - 1] == '/'
    ensures NoSlash(s[i..])
  {
    if s == [] then 0
    else if s[|s| - 1] == '/' then |s|
    else AfterLastSlash(s[..|s| - 1])
  }

  /** `PurePosixPath(p).name`: trailing separators are ignored and `.`
      components are dropped; the path `""` or `"/"` has the empty name. */
  function Name(p: string): (r: string)
    ensures NoSlash(r) && r != "."
    decreases |p|
  {
    var t := RStrip(p, '/');
    var i := AfterLastSlash(t);
    if t[i..] == "." then Name(t[..i]) else t[i..]
  }

  /** The last position of `c` in `s`, if any (Python's `s.rfind(c)`). */
  function RFind(s: string, c: char): (r: Option<nat>)
    ensures r.Some? ==> r.value < |s| && s[r.value] == c
    ensures r.Some? ==> forall k :: r.value < k < |s| ==> s[k] != c
    ensures r.None? ==> forall k :: 0 <= k < |s| ==> s[k] != c
  {
    if s == [] then None
    else if s[|s| - 1] == c then Some(|s| - 1)
    else RFind(s[..|s| - 1], c)
  }

  /** `PurePosixPath(p).stem`: the name without its last `.suffix`; a name
      whose only dot is its first or last character keeps it. */
  function Stem(p: string): (r: string)
    ensures |r| <= |Name(p)| && r == Name(p)[..|r|]
  {
    var name := Name(p);
    var i := RFind(name, '.');
    if i.Some? && 0 < i.value < |name| - 1 then name[..i.value] else name
  }

  /** A plain file name is its own name. */
  lemma {:induction false} NameOfPlain(s: string)
    requires s != [] && NoSlash(s) && s != "."
    ensures Name(s) == s
  {
    assert RStrip(s, '/') == s;
    assert AfterLastSlash(s) == 0;
  }

  /** Directories in front of a file name do not change its name. */
  lemma {:induction false} NameAfterDirectory(dir: string, s: string)
    requires s != [] && NoSlash(s) && s != "."
    ensures Name(dir + "/" + s) == s
  {
    var p := dir + "/" + s;
    assert RStrip(p, '/') == p;
    assert p[..|p| - 1] == dir + "/" + s[..|s| - 1];
    AfterLastSlashOfTail(dir + "/", s);
    assert p[|dir| + 1..] == s;
  }

  lemma {:induction false} AfterLastSlashOfTail(front: string, s: string)
    requires |front| > 0 && front[|front| - 1] == '/' && NoSlash(s)
    ensures AfterLastSlash(front + s) == |front|
    decreases |s|
  {
    if s == [] {
      assert front + s == front;
    } else {
      var p := front + s;
      assert p[..|p| - 1] == front + s[..|s| - 1];
      AfterLastSlashOfTail(front, s[..|s| - 1]);
    }
  }

  /** The last dot of `base.ext` is the one between them when `ext` has none. */
  lemma {:induction false} RFindSuffixDot(base: string, ext: string)
    requires forall k :: 0 <= k < |ext| ==> ext[k] != '.'
    ensures RFind(base + "." + ext, '.') == Some(|base|)
  {
    var file := base + "." + ext;
    var r := RFind(file, '.');
    assert file[|base|] == '.';
    forall k | |base| < k < |file| ensures file[k] != '.' {
      assert file[k] == ext[k - |base| - 1];
    }
  }

  lemma {:induction false} NoSlashJoin(base: string, ext: string)
    requires NoSlash(base) && NoSlash(ext)
    ensures NoSlash(base + "." + ext)
  {
    var file := base + "." + ext;
    forall k | 0 <= k < |file| ensures file[k] != '/' {
      if k < |base| { assert file[k] == base[k]; }
      else if k > |base| { assert file[k] == ext[k - |base| - 1]; }
    }
  }

  /** The stem of `dir/base.ext` is `base` when `ext` has no dot. */
  lemma {:induction false} StemOfFileName(dir: string, base: string, ext: string)
    requires base != [] && NoSlash(base)
    requires ext != [] && NoSlash(ext) && forall k :: 0 <= k < |ext| ==> ext[k] != '.'
    ensures Name(dir + "/" + base + "." + ext) == base + "." + ext
    ensures Stem(dir + "/" + base + "." + ext) == base
  {
    var file := base + "." + ext;
    NoSlashJoin(base, ext);
    assert |file| >= 3;
    assert dir + "/" + base + "." + ext == dir + "/" + file;
    NameAfterDirectory(dir, file);
    RFindSuffixDot(base, ext);
    assert file[..|base|] == base;
  }

  /** `Path(dir, name)` as a string: an absolute name replaces the
      directory, and the directories `""` and `.` add nothing. */
  function JoinPath(dir: string, name: string): (r: string)
    ensures |r| >= |name| && r[|r| - |name|..] == name
    ensures |name| > 0 && name[0] == '/' ==> r == name
  {
    if |name| > 0 && name[0] == '/' then name
    else if dir == "" || dir == "." then name
    else if dir[|dir| - 1] == '/' then dir + name
    else dir + "/" + name
  }

  /** A plain file name saved into any directory keeps its name. */
  lemma {:induction false} NameOfJoin(dir: string, name: string)
    requires name != [] && NoSlash(name) && name != "."
    ensures Name(JoinPath(dir, name)) == name
  {
    if dir == "" || dir == "." {
      NameOfPlain(name);
    } else if dir[|dir| - 1] == '/' {
      assert dir + name == dir[..|dir| - 1] + "/" + name;
      NameAfterDirectory(dir[..|dir| - 1], name);
    } else {
      NameAfterDirectory(dir, name);
    }
  }
}
