/**
 * String and path filters: a set of accepted values, where an empty filter
 * accepts everything until it is made strict. A path filter can also accept
 * every path below one of its members, comparing whole path components.
 */
module Filter {
  import opened Common

  /** The distinct values of a slice, as the constructors' map keys. */
  ghost function Members(items: seq<string>): set<string>
  {
    set x | x in items
  }

  /** No value occurs twice. */
  predicate Distinct(items: seq<string>)
  {
    forall i, j :: 0 <= i < j < |items| ==> items[i] != items[j]
  }

  /**
   * Duplicates collapse: a filter holds at most as many values as it was
   * given, and exactly as many when they are distinct.
   */
  lemma {:induction false} MembersCount(items: seq<string>)
    ensures |Members(items)| <= |items|
    ensures Distinct(items) ==> |Members(items)| == |items|
  {
    if items != [] {
      var n := |items| - 1;
      var front := items[..n];
      MembersCount(front);
      assert Members(items) == Members(front) + {items[n]};
      if Distinct(items) {
        assert Distinct(front);
        assert items[n] !in Members(front);
      }
    }
  }

  /** The slice with a value repeated holds one value fewer than its length. */
  lemma DuplicateCollapses()
    ensures |Members(["item1", "item1", "item2"])| == 2
  {
    assert Members(["item1", "item1", "item2"]) == {"item1", "item2"};
  }

  /** The map filled by a constructor's loop over the slice. */
  method FillContents(items: seq<string>) returns (contents: set<string>)
    ensures contents == Members(items)
  {
    contents := {};
    for i := 0 to |items|
      invariant contents == Members(items[..i])
    {
      assert items[..i + 1] == items[..i] + [items[i]];
      contents := contents + {items[i]};
    }
    assert items[..|items|] == items;
  }

  /* ---------------------------------------------------------------------- */
  /* StringFilter                                                           */
  /* ---------------------------------------------------------------------- */

  class StringFilter {
    const contents: set<string>
    var emptyIsAny: bool

    /** NewStringFilterFromSlice: the given values as a set, not strict. */
    constructor FromSlice(items: seq<string>)
      ensures contents == Members(items) && emptyIsAny
    {
      var c := FillContents(items);
      contents := c;
      emptyIsAny := true;
    }

    /** SetStrict: from now on an empty filter accepts nothing. */
    method SetStrict()
      modifies this
      ensures !emptyIsAny
    {
      emptyIsAny := false;
    }

    /** Match: an empty filter answers emptyIsAny; otherwise exact membership. */
    predicate Match(s: string)
      reads this
    {
      if |contents| == 0 then emptyIsAny else s in contents
    }

    /** MatchAny: an empty filter answers emptyIsAny; otherwise some item is a member. */
    predicate MatchAny(items: seq<string>)
      reads this
    {
      if |contents| == 0 then emptyIsAny else AnyIn(items, contents)
    }
  }

  /** Some item of the list is in the set; the list is searched from the front. */
  predicate AnyIn(items: seq<string>, contents: set<string>)
  {
    items != [] && (items[0] in contents || AnyIn(items[1..], contents))
  }

  lemma {:induction false} AnyInIff(items: seq<string>, contents: set<string>)
    ensures AnyIn(items, contents) <==> exists i :: 0 <= i < |items| && items[i] in contents
  {
    if items != [] {
      AnyInIff(items[1..], contents);
      if !(items[0] in contents) && (exists i :: 0 <= i < |items| && items[i] in contents) {
        var i :| 0 <= i < |items| && items[i] in contents;
        assert items[1..][i - 1] == items[i];
      }
    }
  }

  /**
   * The string filter accepts exactly its members, with case kept, and
   * everything or nothing when empty depending on strictness; a list
   * matches iff some element of it matches, except that an empty lenient
   * filter accepts any list.
   */
  lemma StringFilterMeaning(f: StringFilter, s: string, items: seq<string>)
    ensures f.contents == {} ==> (f.Match(s) <==> f.emptyIsAny) && (f.MatchAny(items) <==> f.emptyIsAny)
    ensures f.contents != {} ==> (f.Match(s) <==> s in f.contents)
    ensures f.contents != {} ==>
              (f.MatchAny(items) <==> exists i :: 0 <= i < |items| && f.Match(items[i]))
  {
    AnyInIff(items, f.contents);
  }

  /* ---------------------------------------------------------------------- */
  /* Paths                                                                  */
  /* ---------------------------------------------------------------------- */

  /** The components of a path, split at every '/' (strings.Split). */
  function SplitPath(s: string): (r: seq<string>)
    ensures |r| >= 1
  {
    if s == [] then [""]
    else
      var rest := SplitPath(s[1..]);
      if s[0] == '/' then [""] + rest
      else [[s[0]] + rest[0]] + rest[1..]
  }

  /**
   * pathIsBase: the components of `base` are the leading components of
   * `path`.
   */
  predicate PathIsBase(base: string, path: string)
  {
    var b := SplitPath(base);
    var p := SplitPath(path);
    |b| <= |p| && p[..|b|] == b
  }

  /** Joining the components with '/' gives the path back. */
  lemma {:induction false} SplitJoin(s: string)
    ensures Join(SplitPath(s), "/") == s
  {
    if s != [] {
      var rest := SplitPath(s[1..]);
      SplitJoin(s[1..]);
      if s[0] == '/' {
        assert ([""] + rest)[1..] == rest;
      } else if |rest| > 1 {
        var r := [[s[0]] + rest[0]] + rest[1..];
        assert r[1..] == rest[1..];
      }
    }
  }

  /** Splitting at a '/' splits the components there. */
  lemma {:induction false} SplitAppend(x: string, y: string)
    ensures SplitPath(x + "/" + y) == SplitPath(x) + SplitPath(y)
  {
    var s := x + "/" + y;
    if x == [] {
      assert s[1..] == y;
    } else {
      assert s[0] == x[0] && s[1..] == x[1..] + "/" + y;
      SplitAppend(x[1..], y);
      var a, b := SplitPath(x[1..]), SplitPath(y);
      assert SplitPath(s[1..]) == a + b;
      if x[0] != '/' {
        assert (a + b)[0] == a[0] && (a + b)[1..] == a[1..] + b;
      }
    }
  }

  /** Join of two non-empty lists puts one separator between their joins. */
  lemma {:induction false} JoinAppend(xs: seq<string>, ys: seq<string>, sep: string)
    requires xs != [] && ys != []
    ensures Join(xs + ys, sep) == Join(xs, sep) + sep + Join(ys, sep)
  {
    assert (xs + ys)[1..] == xs[1..] + ys;
    if |xs| > 1 {
      JoinAppend(xs[1..], ys, sep);
    }
  }

  /**
   * A base is the path itself or a prefix of it that ends just before a
   * '/': "a/b/c" is a base of "a/b/c/d/e" but not of "a/b/cd/e".
   */
  lemma PathIsBaseIff(base: string, path: string)
    ensures PathIsBase(base, path) <==> path == base || StartsWith(path, base + "/")
  {
    var b := SplitPath(base);
    var p := SplitPath(path);
    if StartsWith(path, base + "/") {
      var y := path[|base| + 1..];
      assert path == base + "/" + y;
      SplitAppend(base, y);
      assert p[..|b|] == b;
    }
    if PathIsBase(base, path) {
      SplitJoin(base);
      SplitJoin(path);
      if |p| == |b| {
        assert p == b;
      } else {
        var rest := p[|b|..];
        assert p == b + rest;
        JoinAppend(b, rest, "/");
        assert path == base + "/" + Join(rest, "/");
      }
    }
  }

  /** A base longer than the path never matches, and a path is its own base. */
  lemma BaseNoLongerThanPath(base: string, path: string)
    ensures |base| > |path| ==> !PathIsBase(base, path)
    ensures PathIsBase(path, path)
  {
    PathIsBaseIff(base, path);
  }

  /* ---------------------------------------------------------------------- */
  /* PathFilter                                                             */
  /* ---------------------------------------------------------------------- */

  class PathFilter {
    const contents: set<string>
    var emptyIsAny: bool
    const recursive: bool

    /** NewPathFilterFromSlice: the given paths as a set, not strict, recursive as given. */
    constructor FromSlice(items: seq<string>, recursive: bool)
      ensures contents == Members(items) && emptyIsAny && this.recursive == recursive
    {
      var c := FillContents(items);
      contents := c;
      emptyIsAny := true;
      this.recursive := recursive;
    }

    /** SetStrict: from now on an empty filter accepts nothing. */
    method SetStrict()
      modifies this
      ensures !emptyIsAny
    {
      emptyIsAny := false;
    }

    /**
     * Match: an empty filter answers emptyIsAny; a non-recursive one accepts
     * its members; a recursive one accepts every path some member is a base of.
     */
    predicate Match(p: string)
      reads this
    {
      if |contents| == 0 then emptyIsAny
      else if recursive then exists b :: b in contents && PathIsBase(b, p)
      else p in contents
    }

    /** MatchAny: an empty filter answers emptyIsAny; otherwise some path matches. */
    predicate MatchAny(paths: seq<string>)
      reads this
    {
      if |contents| == 0 then emptyIsAny else AnyMatches(this, paths)
    }
  }

  /** Some path of the list matches the non-empty filter; searched from the front. */
  predicate AnyMatches(f: PathFilter, paths: seq<string>)
    reads f
  {
    paths != [] && (f.Match(paths[0]) || AnyMatches(f, paths[1..]))
  }

  lemma {:induction false} AnyMatchesIff(f: PathFilter, paths: seq<string>)
    ensures AnyMatches(f, paths) <==> exists i :: 0 <= i < |paths| && f.Match(paths[i])
  {
    if paths != [] {
      AnyMatchesIff(f, paths[1..]);
      if !f.Match(paths[0]) && (exists i :: 0 <= i < |paths| && f.Match(paths[i])) {
        var i :| 0 <= i < |paths| && f.Match(paths[i]);
        assert paths[1..][i - 1] == paths[i];
      }
    }
  }

  /**
   * The path filter: empty means everything or nothing by strictness; a
   * non-recursive filter accepts exactly its members; a recursive one
   * accepts a path iff it equals a member or lies below one ('/' after the
   * member), so it accepts every member and never a parent of one; a list
   * matches iff some path in it matches.
   */
  lemma PathFilterMeaning(f: PathFilter, p: string, paths: seq<string>)
    ensures f.contents == {} ==> (f.Match(p) <==> f.emptyIsAny) && (f.MatchAny(paths) <==> f.emptyIsAny)
    ensures f.contents != {} && !f.recursive ==> (f.Match(p) <==> p in f.contents)
    ensures f.contents != {} && f.recursive ==>
              (f.Match(p) <==> exists b :: b in f.contents && (p == b || StartsWith(p, b + "/")))
    ensures f.contents != {} && p in f.contents ==> f.Match(p)
    ensures f.contents != {} ==>
              (f.MatchAny(paths) <==> exists i :: 0 <= i < |paths| && f.Match(paths[i]))
  {
    AnyMatchesIff(f, paths);
    if f.contents != {} && f.recursive {
      forall b | b in f.contents
        ensures PathIsBase(b, p) <==> (p == b || StartsWith(p, b + "/"))
      {
        PathIsBaseIff(b, p);
      }
      if p in f.contents {
        assert PathIsBase(p, p);
      }
    }
  }

  /** A member is a base of its descendants, whatever the length of its name. */
  lemma ChildPathExamples()
    ensures PathIsBase("a/b/c", "a/b/c/d/e") && PathIsBase("a", "a/b/c")
  {
    PathIsBaseIff("a/b/c", "a/b/c/d/e");
    assert StartsWith("a/b/c/d/e", "a/b/c" + "/");
    PathIsBaseIff("a", "a/b/c");
    assert StartsWith("a/b/c", "a" + "/");
  }

  /** A shared prefix of characters is not enough: whole components must agree. */
  lemma CommonPrefixExample()
    ensures !PathIsBase("a/b/c", "a/b/cd/e")
  {
    PathIsBaseIff("a/b/c", "a/b/cd/e");
    assert ("a/b/cd/e")[5] != '/';
  }

}
