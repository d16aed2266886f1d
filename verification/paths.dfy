/** Slash-separated paths as Go's `path/filepath` treats them on Unix:
    `Base` follows `filepath.Base` exactly; `Join` joins the non-empty
    elements with "/" but does not apply `filepath.Clean`. */
module Paths {
  import opened Common
  import opened Text

  /** `p` with every trailing '/' removed. */
  function TrimTrailingSlashes(p: string): (r: string)
    ensures |r| <= |p| && r == p[..|r|]
    ensures r == [] || r[|r| - 1] != '/'
    ensures forall i :: |r| <= i < |p| ==> p[i] == '/'
  {
    if p == [] || p[|p| - 1] != '/' then p else TrimTrailingSlashes(p[..|p| - 1])
  }

  /** `filepath.Base`: "." for the empty path, "/" for a path of slashes only,
      otherwise the last element after trailing slashes are removed. */
  function Base(p: string): (r: string)
    ensures r != []
    ensures '/' in r ==> r == "/"
    ensures p == [] ==> r == "."
    ensures p != [] && (forall i :: 0 <= i < |p| ==> p[i] == '/') ==> r == "/"
  {
    if p == [] then "."
    else
      var t := TrimTrailingSlashes(p);
      if t == [] then "/"
      else
        match SplitLast(t, '/')
        case None => t
        case Some((_, last)) => last
  }

  /** The last element of `dir + "/" + name` is `name`, whatever `dir` is. */
  lemma BaseOfChild(dir: string, name: string)
    requires name != [] && '/' !in name
    ensures Base(dir + "/" + name) == name
  {
    var p := dir + "/" + name;
    assert p[|p| - 1] == name[|name| - 1];
    assert TrimTrailingSlashes(p) == p;
    assert p == dir + ['/'] + name;
    SplitLastAt(dir, '/', name);
  }

  /** Two path elements joined by `filepath.Join` (without `Clean`). */
  function Join2(a: string, b: string): (r: string)
    ensures r == [] <==> a == [] && b == []
  {
    if a == [] then b else if b == [] then a else a + "/" + b
  }

  /** `filepath.Join(elems...)` without `Clean`: empty elements are skipped,
      the others are separated by one "/". */
  function Join(elems: seq<string>): (r: string)
    ensures r == [] <==> forall i :: 0 <= i < |elems| ==> elems[i] == []
  {
    if elems == [] then []
    else Join2(Join(elems[..|elems| - 1]), elems[|elems| - 1])
  }

  /** A joined path ends in its last element, when that element is a single
      non-empty name. */
  lemma JoinLast(elems: seq<string>)
    requires |elems| >= 1
    requires elems[|elems| - 1] != [] && '/' !in elems[|elems| - 1]
    ensures Base(Join(elems)) == elems[|elems| - 1]
  {
    var front := Join(elems[..|elems| - 1]);
    var last := elems[|elems| - 1];
    if front == [] {
      assert TrimTrailingSlashes(last) == last;
    } else {
      BaseOfChild(front, last);
    }
  }
}
