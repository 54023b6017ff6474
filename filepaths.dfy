/** The lexical path operations of Go's `path/filepath` on a system whose
    separator is '/': `IsAbs`, `Clean` and `Join`. */
module FilePaths {
  import opened Text

  /** `filepath.IsAbs`: the path starts at the root. */
  predicate IsAbs(p: string) { |p| > 0 && p[0] == '/' }

  /** The element-by-element rewriting `filepath.Clean` performs: empty and
      `.` elements vanish; `..` removes the element before it, is dropped at
      the root of an absolute path, and is kept at the start of a relative
      one. `stack` holds the elements kept so far. */
  function Resolve(stack: seq<string>, elems: seq<string>, rooted: bool): seq<string>
    decreases |elems|
  {
    if elems == [] then stack
    else
      var e := elems[0];
      if e == "" || e == "." then Resolve(stack, elems[1..], rooted)
      else if e == ".." then
        if |stack| > 0 && stack[|stack| - 1] != ".." then Resolve(stack[..|stack| - 1], elems[1..], rooted)
        else if rooted then Resolve(stack, elems[1..], rooted)
        else Resolve(stack + [".."], elems[1..], rooted)
      else Resolve(stack + [e], elems[1..], rooted)
  }

  /** The elements of the cleaned form of `p`. */
  function CleanElements(p: string): seq<string> {
    Resolve([], Split(p, '/'), IsAbs(p))
  }

  /** `filepath.Clean`: the shortest path naming the same file by purely
      lexical processing; "." for an empty result. */
  function Clean(p: string): (r: string)
    ensures r != ""
    ensures IsAbs(p) ==> IsAbs(r)
  {
    if p == "" then "."
    else
      var body := Join(CleanElements(p), '/');
      if IsAbs(p) then "/" + body
      else if body == "" then "."
      else body
  }

  /** `filepath.Join(dir, name)`: the non-empty arguments joined by '/' and
      cleaned; "" when both are empty. */
  function JoinPath(dir: string, name: string): (r: string)
    ensures r == "" <==> dir == "" && name == ""
    ensures IsAbs(dir) ==> IsAbs(r)
  {
    if dir != "" then Clean(dir + "/" + name)
    else if name != "" then Clean(name)
    else ""
  }

  /** Every element is a proper name: not empty, not `.`, free of '/', and
      not `..` either when the path is absolute. */
  predicate ProperNames(elems: seq<string>, rooted: bool) {
    forall i :: 0 <= i < |elems| ==>
      elems[i] != "" && elems[i] != "." && '/' !in elems[i] && (rooted ==> elems[i] != "..")
  }

  lemma {:induction false} ResolveKeepsProperNames(stack: seq<string>, elems: seq<string>, rooted: bool)
    requires ProperNames(stack, rooted)
    requires forall i :: 0 <= i < |elems| ==> '/' !in elems[i]
    ensures ProperNames(Resolve(stack, elems, rooted), rooted)
    decreases |elems|
  {
    if elems != [] {
      var e := elems[0];
      assert forall i :: 0 <= i < |elems[1..]| ==> elems[1..][i] == elems[i + 1];
      if e == "" || e == "." {
        ResolveKeepsProperNames(stack, elems[1..], rooted);
      } else if e == ".." {
        if |stack| > 0 && stack[|stack| - 1] != ".." {
          ResolveKeepsProperNames(stack[..|stack| - 1], elems[1..], rooted);
        } else if rooted {
          ResolveKeepsProperNames(stack, elems[1..], rooted);
        } else {
          ResolveKeepsProperNames(stack + [".."], elems[1..], rooted);
        }
      } else {
        ResolveKeepsProperNames(stack + [e], elems[1..], rooted);
      }
    }
  }

  /** Cleaning an absolute path yields an absolute path made of the root
      followed by proper names, none of which is `..`. */
  lemma CleanAbsolute(p: string)
    requires IsAbs(p)
    ensures Clean(p) == "/" + Join(CleanElements(p), '/')
    ensures ProperNames(CleanElements(p), true)
  {
    ResolveKeepsProperNames([], Split(p, '/'), true);
  }

  /** The '/'-separated segments of a cleaned absolute path: the empty
      segment before the root, then the proper names (or one empty segment
      for the root itself). None is `..`, whatever `..` the input held. */
  lemma CleanAbsoluteSegments(p: string)
    requires IsAbs(p)
    ensures IsAbs(Clean(p))
    ensures Split(Clean(p), '/') ==
            if CleanElements(p) == [] then ["", ""] else [""] + CleanElements(p)
    ensures forall i :: 0 <= i < |Split(Clean(p), '/')| ==> Split(Clean(p), '/')[i] != ".."
  {
    CleanAbsolute(p);
    var elems := CleanElements(p);
    var body := Join(elems, '/');
    SplitAfterPiece("", body, '/');
    assert "" + ['/'] + body == "/" + body;
    if elems != [] {
      SplitJoin(elems, '/');
    }
  }

  /** Joining onto an absolute directory gives an absolute path. */
  lemma JoinPathAbsolute(dir: string, name: string)
    requires IsAbs(dir)
    ensures IsAbs(JoinPath(dir, name))
  {
    assert IsAbs(dir + "/" + name);
    CleanAbsolute(dir + "/" + name);
  }
}
