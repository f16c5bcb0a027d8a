/**
 * The path operations the program uses, with POSIX semantics (one separator, '/'):
 * `os.path.dirname`, `os.path.join` of two parts, and `Path(p).name` / `Path(p).stem`.
 */
module Paths {
  import opened Text

  const Sep: char := '/'

  /** `s.rfind(c)`: the last index holding `c`, or -1 when there is none. */
  function LastIndexOf(s: string, c: char): (r: int)
    ensures -1 <= r < |s|
    ensures r >= 0 ==> s[r] == c
    ensures forall i :: r < i < |s| ==> s[i] != c
  {
    if |s| == 0 then -1
    else if s[|s| - 1] == c then |s| - 1
    else LastIndexOf(s[..|s| - 1], c)
  }

  /** An occurrence with none after it is the last one. */
  lemma LastIndexOfAt(s: string, c: char, i: nat)
    requires i < |s| && s[i] == c
    requires forall j :: i < j < |s| ==> s[j] != c
    ensures LastIndexOf(s, c) == i
  {
  }

  /** `Path(p).name`: the part after the last separator. */
  function Name(p: string): string {
    p[LastIndexOf(p, Sep) + 1..]
  }

  /** A name is the separator-free tail of its path, preceded there by a separator
      unless it is the whole path. */
  lemma NameSpec(p: string)
    ensures var r := Name(p);
      Sep !in r && |r| <= |p| && p[|p| - |r|..] == r &&
      (|r| < |p| ==> p[|p| - |r| - 1] == Sep)
  {
  }

  /** `Path(p).stem` for a final component `name`: drop the last suffix, where a
      suffix starts at the last '.' that is neither the first nor the last character. */
  function Stem(name: string): string {
    var i := LastIndexOf(name, '.');
    if 0 < i < |name| - 1 then name[..i] else name
  }

  /** `s.rstrip('/')`. */
  function StripTrailingSeps(s: string): (r: string)
    ensures |r| <= |s| && r == s[..|r|]
    ensures r == [] || r[|r| - 1] != Sep
    ensures forall i :: |r| <= i < |s| ==> s[i] == Sep
  {
    if |s| > 0 && s[|s| - 1] == Sep then StripTrailingSeps(s[..|s| - 1]) else s
  }

  /** `os.path.dirname(p)`: everything up to the last separator, with the trailing
      separators removed unless the head consists only of separators. */
  function Dirname(p: string): string {
    var head := p[..LastIndexOf(p, Sep) + 1];
    if head != [] && exists i :: 0 <= i < |head| && head[i] != Sep
    then StripTrailingSeps(head)
    else head
  }

  /** `os.path.join(a, b)`: an absolute `b` replaces `a`; otherwise a separator is
      inserted unless `a` is empty or already ends with one. */
  function Join(a: string, b: string): string {
    if IsAbsolute(b) then b
    else if a == [] || EndsWithSep(a) then a + b
    else a + [Sep] + b
  }

  /** `p` starts with the separator. */
  predicate IsAbsolute(p: string) {
    p != [] && p[0] == Sep
  }

  /** `p` ends with the separator. */
  predicate EndsWithSep(p: string) {
    p != [] && p[|p| - 1] == Sep
  }

  /** The last separator of `q + part` is the last character of `q` when `part` has none. */
  lemma LastSepOfAppend(q: string, part: string)
    requires Sep !in part
    ensures LastIndexOf(q + part, Sep) == LastIndexOf(q, Sep)
    ensures q != [] && q[|q| - 1] == Sep ==> LastIndexOf(q, Sep) == |q| - 1
  {
    var p := q + part;
    assert forall i :: |q| <= i < |p| ==> p[i] == part[i - |q|];
    assert forall i :: 0 <= i < |q| ==> p[i] == q[i];
  }

  /** A part without separators is never absolute. */
  lemma NotAbsolute(part: string)
    requires Sep !in part
    ensures !IsAbsolute(part)
  {
    if |part| > 0 {
      assert part[0] in part;
    }
  }

  /** The name of a path joined onto a directory is the joined part itself. */
  lemma NameOfJoin(dir: string, part: string)
    requires Sep !in part
    ensures Name(Join(dir, part)) == part
  {
    var q := if dir == [] || EndsWithSep(dir) then dir else dir + [Sep];
    NotAbsolute(part);
    assert Join(dir, part) == q + part;
    LastSepOfAppend(q, part);
    if q != [] {
      assert q[|q| - 1] == Sep;
    }
    assert (q + part)[LastIndexOf(q, Sep) + 1..] == part;
  }

  /** Joining a plain name onto a directory, then taking the directory, gives the
      directory back, whenever it is not empty and does not end in a separator. */
  lemma DirnameOfJoin(dir: string, part: string)
    requires dir != [] && dir[|dir| - 1] != Sep
    requires Sep !in part
    ensures Dirname(Join(dir, part)) == dir
  {
    var q := dir + [Sep];
    var p := Join(dir, part);
    NotAbsolute(part);
    assert p == q + part;
    LastSepOfAppend(q, part);
    var head := p[..|q|];
    assert head == q;
    assert head[|dir| - 1] != Sep;
    assert StripTrailingSeps(head) == dir;
  }
}
