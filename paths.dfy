/**
 * Go's lexical path handling (`path.Clean`, `path.Join`, and `filepath.Join` and
 * `filepath.Clean`, which behave the same with '/' as separator), stated over the
 * '/'-separated elements of a path.
 */
module Paths {
  import opened Text

  /** One element of a cleaned path: neither empty, nor ".", nor "..", nor holding '/'. */
  predicate IsName(seg: string)
  {
    seg != "" && seg != "." && seg != ".." && '/' !in seg
  }

  /**
   * The effect of one element on the stack of resolved elements: empty and "." elements
   * vanish, ".." cancels the previous name, is dropped at the root of a rooted path and
   * is kept at the front of a relative one.
   */
  function StepElement(stack: seq<string>, seg: string, rooted: bool): seq<string>
  {
    if seg == "" || seg == "." then stack
    else if seg == ".." then
      if |stack| > 0 && stack[|stack| - 1] != ".." then stack[..|stack| - 1]
      else if rooted then stack
      else stack + [".."]
    else stack + [seg]
  }

  /** The resolved elements of a '/'-separated element list, processed left to right. */
  function Resolve(segs: seq<string>, rooted: bool): (out: seq<string>)
    decreases |segs|
  {
    if segs == [] then [] else StepElement(Resolve(segs[..|segs| - 1], rooted), segs[|segs| - 1], rooted)
  }

  /** `path.Clean(p)`. */
  function Clean(p: string): (r: string)
    ensures r != ""
    ensures (|p| > 0 && p[0] == '/') <==> r[0] == '/'
  {
    if p == "" then "."
    else
      var rooted := p[0] == '/';
      var out := Resolve(Split(p, '/'), rooted);
      SplitPiecesFree(p, '/');
      ResolvedAreElements(Split(p, '/'), rooted);
      var body := Join(out, "/");
      if rooted then "/" + body
      else if body == "" then "."
      else JoinStartsWithFirst(out, "/"); body
  }

  /** Every resolved element is non-empty and free of '/'. */
  lemma {:induction false} ResolvedAreElements(segs: seq<string>, rooted: bool)
    requires forall i :: 0 <= i < |segs| ==> '/' !in segs[i]
    ensures forall i :: 0 <= i < |Resolve(segs, rooted)| ==>
      Resolve(segs, rooted)[i] != "" && '/' !in Resolve(segs, rooted)[i]
    decreases |segs|
  {
    if segs != [] {
      ResolvedAreElements(segs[..|segs| - 1], rooted);
    }
  }

  /** A join whose first piece is non-empty starts with that piece's first character. */
  lemma JoinStartsWithFirst(parts: seq<string>, sep: string)
    requires |parts| > 0 && parts[0] != ""
    ensures Join(parts, sep) != "" && Join(parts, sep)[0] == parts[0][0]
  {
  }

  /**
   * `path.Join(elems...)`: leading empty elements are skipped, an all-empty list gives "",
   * and otherwise the elements are joined with '/' and cleaned.
   */
  function JoinPath(elems: seq<string>): string
    decreases |elems|
  {
    if elems == [] then ""
    else if elems[0] == "" then JoinPath(elems[1..])
    else Clean(Join(elems, "/"))
  }

  /** `filepath.Abs(p)` with the working directory `cwd`: relative paths are joined onto it. */
  function Abs(cwd: string, p: string): string
  {
    if |p| > 0 && p[0] == '/' then Clean(p) else JoinPath([cwd, p])
  }

  // ---------------------------------------------------------------------------
  // Spellings of one path
  // ---------------------------------------------------------------------------

  /** A separator between two strings separates their pieces. */
  lemma {:induction false} SplitConcat(x: string, sep: char, y: string)
    ensures Split(x + [sep] + y, sep) == Split(x, sep) + Split(y, sep)
    decreases |x|
  {
    var s := x + [sep] + y;
    if x != [] {
      assert s[1..] == x[1..] + [sep] + y;
      SplitConcat(x[1..], sep, y);
    } else {
      assert s[1..] == y;
    }
  }

  /** Resolving further elements onto an already resolved stack. */
  function ResolveFrom(stack: seq<string>, segs: seq<string>, rooted: bool): seq<string>
    decreases |segs|
  {
    if segs == [] then stack else StepElement(ResolveFrom(stack, segs[..|segs| - 1], rooted), segs[|segs| - 1], rooted)
  }

  /** Resolution is a left fold: a list's tail resolves onto what its head resolved to. */
  lemma {:induction false} ResolveAppend(a: seq<string>, b: seq<string>, rooted: bool)
    ensures Resolve(a + b, rooted) == ResolveFrom(Resolve(a, rooted), b, rooted)
    decreases |b|
  {
    if b == [] {
      assert a + b == a;
    } else {
      assert (a + b)[..|a + b| - 1] == a + b[..|b| - 1];
      ResolveAppend(a, b[..|b| - 1], rooted);
    }
  }

  /** An empty element between two parts of a path changes nothing. */
  lemma ResolveSkipsEmpty(a: seq<string>, b: seq<string>, rooted: bool)
    ensures Resolve(a + [""] + b, rooted) == Resolve(a + b, rooted)
  {
    ResolveAppend(a + [""], b, rooted);
    ResolveAppend(a, b, rooted);
    assert (a + [""])[..|a|] == a;
  }

  /** `//` spells the same path as `/`. */
  lemma CleanDoubleSlash(a: string, b: string)
    requires a != ""
    ensures Clean(a + "//" + b) == Clean(a + "/" + b)
  {
    SplitDoubleSlash(a, b);
    ResolveSkipsEmpty(Split(a, '/'), Split(b, '/'), a[0] == '/');
    CleanBySplit(a + "//" + b, a + "/" + b);
  }

  /** The pieces of `a//b` are those of `a/b` with an empty one between. */
  lemma SplitDoubleSlash(a: string, b: string)
    ensures Split(a + "//" + b, '/') == Split(a, '/') + [""] + Split(b, '/')
    ensures Split(a + "/" + b, '/') == Split(a, '/') + Split(b, '/')
  {
    assert a + "//" + b == a + ['/'] + ("" + ['/'] + b);
    SplitConcat(a, '/', "" + ['/'] + b);
    SplitConcat("", '/', b);
    assert "" + ['/'] + b == "/" + b;
    SplitConcat(a, '/', b);
    assert a + "/" + b == a + ['/'] + b;
  }

  /** Two paths rooted alike whose pieces resolve alike clean to the same path. */
  lemma CleanBySplit(x: string, y: string)
    requires x != "" && y != "" && x[0] == y[0]
    requires Resolve(Split(x, '/'), x[0] == '/') == Resolve(Split(y, '/'), y[0] == '/')
    ensures Clean(x) == Clean(y)
  {
  }

  /** A trailing '/' spells the same path. */
  lemma CleanTrailingSlash(a: string)
    requires a != ""
    ensures Clean(a + "/") == Clean(a)
  {
    SplitConcat(a, '/', "");
    assert a + "/" == a + ['/'] + "";
    ResolveSkipsEmpty(Split(a, '/'), [], a[0] == '/');
    assert Split(a, '/') + [""] + [] == Split(a, '/') + [""];
    assert Split(a, '/') + [] == Split(a, '/');
  }

  /** The elements a rooted path resolves to are all names. */
  lemma {:induction false} ResolvedRootedAreNames(segs: seq<string>)
    requires forall i :: 0 <= i < |segs| ==> '/' !in segs[i]
    ensures forall i :: 0 <= i < |Resolve(segs, true)| ==> IsName(Resolve(segs, true)[i])
    decreases |segs|
  {
    if segs != [] {
      ResolvedRootedAreNames(segs[..|segs| - 1]);
    }
  }

  /** Names resolve onto a stack by being pushed on it. */
  lemma {:induction false} ResolveNames(stack: seq<string>, names: seq<string>)
    requires forall i :: 0 <= i < |names| ==> IsName(names[i])
    ensures ResolveFrom(stack, names, true) == stack + names
    decreases |names|
  {
    if names != [] {
      ResolveNames(stack, names[..|names| - 1]);
      assert names[..|names| - 1] + [names[|names| - 1]] == names;
    }
  }

  /** A rooted path made of names is already clean. */
  lemma CleanOfNames(names: seq<string>)
    requires |names| >= 1
    requires forall i :: 0 <= i < |names| ==> IsName(names[i])
    ensures Clean("/" + Join(names, "/")) == "/" + Join(names, "/")
  {
    SplitRootedNames(names);
    ResolveRootedNames(names);
    assert ("/" + Join(names, "/"))[0] == '/';
  }

  /** The pieces of `/` followed by joined names: an empty one, then the names. */
  lemma SplitRootedNames(names: seq<string>)
    requires |names| >= 1
    requires forall i :: 0 <= i < |names| ==> IsName(names[i])
    ensures Split("/" + Join(names, "/"), '/') == [""] + names
  {
    var body := Join(names, "/");
    assert "/" + body == "" + ['/'] + body;
    SplitConcat("", '/', body);
    SplitJoin(names, '/');
  }

  /** Rooted, an empty piece followed by names resolves to the names. */
  lemma ResolveRootedNames(names: seq<string>)
    requires forall i :: 0 <= i < |names| ==> IsName(names[i])
    ensures Resolve([""] + names, true) == names
  {
    ResolveAppend([""], names, true);
    assert Resolve([""], true) == [] by {
      assert [""][..0] == [];
    }
    ResolveNames([], names);
  }

  /** A rooted path, once cleaned, stays as it is when cleaned again. */
  lemma CleanIdempotent(p: string)
    requires p != "" && p[0] == '/'
    ensures Clean(Clean(p)) == Clean(p)
  {
    var segs := Split(p, '/');
    var r := Resolve(segs, true);
    SplitPiecesFree(p, '/');
    ResolvedRootedAreNames(segs);
    var body := Join(r, "/");
    assert Clean(p) == "/" + body;
    assert "/" + body == "" + ['/'] + body;
    SplitConcat("", '/', body);
    if r == [] {
      assert Split("/" + body, '/') == ["", ""];
      assert Resolve(["", ""], true) == [] by {
        assert ["", ""][..1] == [""];
        assert Resolve([""], true) == [] by {
          assert [""][..0] == [];
        }
      }
      assert Join([], "/") == "";
    } else {
      SplitJoin(r, '/');
      assert Split("/" + body, '/') == [""] + r;
      ResolveAppend([""], r, true);
      ResolveNames([], r);
      assert Resolve(Split("/" + body, '/'), true) == r;
    }
  }

  // ---------------------------------------------------------------------------
  // Characters of a cleaned path
  // ---------------------------------------------------------------------------

  /** A character absent from a string is absent from every piece of its split. */
  lemma {:induction false} SplitKeepsAbsent(s: string, sep: char, c: char)
    requires c !in s
    ensures forall i :: 0 <= i < |Split(s, sep)| ==> c !in Split(s, sep)[i]
    decreases |s|
  {
    if s != [] {
      SplitKeepsAbsent(s[1..], sep, c);
      var rest := Split(s[1..], sep);
      assert s[0] != c;
      if s[0] != sep {
        assert c !in [s[0]] + rest[0];
      }
    }
  }

  /** Resolving only ever keeps elements it was given, or "..". */
  lemma {:induction false} ResolveKeepsAbsent(segs: seq<string>, rooted: bool, c: char)
    requires c != '.'
    requires forall i :: 0 <= i < |segs| ==> c !in segs[i]
    ensures forall i :: 0 <= i < |Resolve(segs, rooted)| ==> c !in Resolve(segs, rooted)[i]
    decreases |segs|
  {
    if segs != [] {
      ResolveKeepsAbsent(segs[..|segs| - 1], rooted, c);
    }
  }

  lemma {:induction false} JoinKeepsAbsent(parts: seq<string>, sep: string, c: char)
    requires c !in sep
    requires forall i :: 0 <= i < |parts| ==> c !in parts[i]
    ensures c !in Join(parts, sep)
    decreases |parts|
  {
    if |parts| > 1 {
      JoinKeepsAbsent(parts[1..], sep, c);
    }
  }

  /** Cleaning introduces no character other than '/' and '.'. */
  lemma CleanKeepsAbsent(p: string, c: char)
    requires c !in p && c != '/' && c != '.'
    ensures c !in Clean(p)
  {
    if p != "" {
      var rooted := p[0] == '/';
      SplitKeepsAbsent(p, '/', c);
      ResolveKeepsAbsent(Split(p, '/'), rooted, c);
      JoinKeepsAbsent(Resolve(Split(p, '/'), rooted), "/", c);
    }
  }

  /** Joining elements introduces no character other than '/' and '.'. */
  lemma {:induction false} JoinPathKeepsAbsent(elems: seq<string>, c: char)
    requires c != '/' && c != '.'
    requires forall i :: 0 <= i < |elems| ==> c !in elems[i]
    ensures c !in JoinPath(elems)
    decreases |elems|
  {
    if elems != [] {
      if elems[0] == "" {
        JoinPathKeepsAbsent(elems[1..], c);
      } else {
        JoinKeepsAbsent(elems, "/", c);
        CleanKeepsAbsent(Join(elems, "/"), c);
      }
    }
  }
}
