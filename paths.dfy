/**
 * `path.Base` of Go's `path` package: the last element of a slash-separated
 * path.
 */
module Paths {

  /** Drop every trailing `/`. */
  function TrimTrailingSlashes(p: string): string
    decreases |p|
  {
    if p != [] && p[|p| - 1] == '/' then TrimTrailingSlashes(p[..|p| - 1]) else p
  }

  /** What follows the last `/`, or all of `p` when it has none. */
  function AfterLastSlash(p: string): string
    decreases |p|
  {
    if p == [] then []
    else if p[|p| - 1] == '/' then []
    else AfterLastSlash(p[..|p| - 1]) + [p[|p| - 1]]
  }

  /**
   * `path.Base`: "." for the empty path, "/" for a path of slashes only,
   * otherwise the element after the last slash once trailing slashes are gone.
   */
  function Base(p: string): string
  {
    if p == [] then "."
    else
      var t := TrimTrailingSlashes(p);
      if t == [] then "/" else AfterLastSlash(t)
  }

  /** Trimming leaves no trailing slash. */
  lemma {:induction false} TrimmedEnd(p: string)
    ensures var t := TrimTrailingSlashes(p);
      t == [] || t[|t| - 1] != '/'
    decreases |p|
  {
    if p != [] && p[|p| - 1] == '/' {
      TrimmedEnd(p[..|p| - 1]);
    }
  }

  /** The last element has no slash, and is not empty when the path does not end in one. */
  lemma {:induction false} AfterLastSlashShape(p: string)
    ensures forall i :: 0 <= i < |AfterLastSlash(p)| ==> AfterLastSlash(p)[i] != '/'
    ensures p != [] && p[|p| - 1] != '/' ==> AfterLastSlash(p) != []
    decreases |p|
  {
    if p != [] && p[|p| - 1] != '/' {
      AfterLastSlashShape(p[..|p| - 1]);
    }
  }

  /** A base is never empty, and has no slash unless it is the root. */
  lemma BaseShape(p: string)
    ensures Base(p) != []
    ensures Base(p) == "/" || forall i :: 0 <= i < |Base(p)| ==> Base(p)[i] != '/'
  {
    if p != [] {
      var t := TrimTrailingSlashes(p);
      TrimmedEnd(p);
      AfterLastSlashShape(t);
    }
  }

  lemma {:induction false} AfterLastSlashOfJoin(dir: string, name: string)
    requires dir == [] || dir[|dir| - 1] == '/'
    requires forall i :: 0 <= i < |name| ==> name[i] != '/'
    ensures AfterLastSlash(dir + name) == name
    decreases |name|
  {
    var p := dir + name;
    if name == [] {
      assert p == dir;
    } else {
      var front := name[..|name| - 1];
      assert p[..|p| - 1] == dir + front;
      assert p[|p| - 1] == name[|name| - 1] != '/';
      AfterLastSlashOfJoin(dir, front);
      assert AfterLastSlash(p) == front + [name[|name| - 1]];
      assert front + [name[|name| - 1]] == name;
    }
  }

  /** A name without slashes put after a directory ending in `/` is that path's base. */
  lemma BaseOfJoin(dir: string, name: string)
    requires dir == [] || dir[|dir| - 1] == '/'
    requires name != [] && forall i :: 0 <= i < |name| ==> name[i] != '/'
    ensures Base(dir + name) == name
  {
    var p := dir + name;
    assert p[|p| - 1] == name[|name| - 1];
    assert TrimTrailingSlashes(p) == p;
    AfterLastSlashOfJoin(dir, name);
  }

  /** The base of a base is itself. */
  lemma BaseIdempotent(p: string)
    ensures Base(Base(p)) == Base(p)
  {
    var b := Base(p);
    BaseShape(p);
    if b == "/" {
      assert TrimTrailingSlashes(b) == TrimTrailingSlashes([]);
    } else {
      BaseOfJoin([], b);
      assert [] + b == b;
    }
  }
}
