/**
 * java.nio.file.Path on a Unix file system: an optional root and a sequence
 * of names, with the handful of operations the persister uses.
 */
module Paths {
  import opened Wrappers
  import opened Strings

  datatype Path = Path(absolute: bool, names: seq<string>)

  /** Every name is non-empty and free of '/', as in any path Paths.get produces. */
  predicate WellFormed(p: Path) {
    forall k :: 0 <= k < |p.names| ==> p.names[k] != "" && '/' !in p.names[k]
  }

  function NonEmptyPieces(pieces: seq<string>): seq<string> {
    if pieces == [] then []
    else NonEmptyPieces(pieces[..|pieces| - 1])
         + (if pieces[|pieces| - 1] == "" then [] else [pieces[|pieces| - 1]])
  }

  /** Paths.get(s): absolute when s starts with '/', redundant slashes ignored. */
  function ParsePath(s: string): Path {
    Path(|s| > 0 && s[0] == '/', NonEmptyPieces(SplitAll(s, '/')))
  }

  /** Path.resolve: an absolute argument wins, otherwise the names are appended. */
  function Resolve(base: Path, other: Path): Path {
    if other.absolute then other else Path(base.absolute, base.names + other.names)
  }

  /** Path.getParent: null for the root, the empty path and a single relative name. */
  function Parent(p: Path): Option<Path> {
    if |p.names| == 0 then None
    else if |p.names| == 1 then (if p.absolute then Some(Path(true, [])) else None)
    else Some(Path(p.absolute, p.names[..|p.names| - 1]))
  }

  /**
   * The string `"" + p.getFileName()`: the last name; for the empty path the
   * empty string; for the root Java's rendering of null.
   */
  function FileNameString(p: Path): string {
    if p.names != [] then p.names[|p.names| - 1]
    else if p.absolute then "null"
    else ""
  }

  /** Path.toString(). */
  function PathString(p: Path): string {
    if p.names == [] then (if p.absolute then "/" else "")
    else (if p.absolute then "/" else "") + Join(p.names, '/')
  }

  lemma {:induction false} NonEmptyPiecesAppend(a: seq<string>, b: seq<string>)
    ensures NonEmptyPieces(a + b) == NonEmptyPieces(a) + NonEmptyPieces(b)
  {
    if b == [] {
      assert a + b == a;
    } else {
      assert (a + b)[..|a + b| - 1] == a + b[..|b| - 1];
      assert (a + b)[|a + b| - 1] == b[|b| - 1];
      NonEmptyPiecesAppend(a, b[..|b| - 1]);
    }
  }

  lemma {:induction false} NonEmptyPiecesOfNonEmpty(pieces: seq<string>)
    requires forall k :: 0 <= k < |pieces| ==> pieces[k] != ""
    ensures NonEmptyPieces(pieces) == pieces
  {
    if pieces != [] {
      NonEmptyPiecesOfNonEmpty(pieces[..|pieces| - 1]);
    }
  }

  lemma {:induction false} NonEmptyPiecesAreNames(pieces: seq<string>)
    requires forall k :: 0 <= k < |pieces| ==> '/' !in pieces[k]
    ensures forall k :: 0 <= k < |NonEmptyPieces(pieces)| ==>
              NonEmptyPieces(pieces)[k] != "" && '/' !in NonEmptyPieces(pieces)[k]
  {
    if pieces != [] {
      NonEmptyPiecesAreNames(pieces[..|pieces| - 1]);
    }
  }

  /** Paths.get yields a well-formed path. */
  lemma ParsedPathWellFormed(s: string)
    ensures WellFormed(ParsePath(s))
  {
    SplitPiecesAvoidSeparator(s, '/');
    NonEmptyPiecesAreNames(SplitAll(s, '/'));
  }

  /** A slash-free non-empty string is a single relative name. */
  lemma ParseSingleName(s: string)
    requires s != "" && '/' !in s
    ensures ParsePath(s) == Path(false, [s])
  {
    SplitOfSeparatorFree(s, '/');
    assert NonEmptyPieces([s]) == NonEmptyPieces([s][..0]) + [s];
  }

  /** Printing a well-formed path and parsing it back gives the path. */
  lemma PathStringRoundTrip(p: Path)
    requires WellFormed(p)
    ensures ParsePath(PathString(p)) == p
  {
    if p.names == [] {
      if p.absolute {
        RootParses();
      }
    } else {
      JoinParses(p.names);
      if p.absolute {
        assert PathString(p) == ['/'] + Join(p.names, '/');
        AbsoluteParses(Join(p.names, '/'));
      } else {
        assert PathString(p) == Join(p.names, '/');
      }
    }
  }

  lemma RootParses()
    ensures ParsePath("/") == Path(true, [])
  {
    assert SplitAll("/", '/') == ["", ""];
    assert NonEmptyPieces(["", ""]) == NonEmptyPieces([""]) == [];
  }

  /** The names joined with '/' parse back as the relative path of those names. */
  lemma JoinParses(names: seq<string>)
    requires |names| >= 1
    requires forall k :: 0 <= k < |names| ==> names[k] != "" && '/' !in names[k]
    ensures ParsePath(Join(names, '/')) == Path(false, names)
  {
    SplitJoin(names, '/');
    NonEmptyPiecesOfNonEmpty(names);
    JoinStartsWithFirstName(names);
  }

  lemma JoinStartsWithFirstName(names: seq<string>)
    requires |names| >= 1 && names[0] != ""
    ensures Join(names, '/') != [] && Join(names, '/')[0] == names[0][0]
  {
    if |names| > 1 {
      assert Join(names, '/') == names[0] + ['/'] + Join(names[1..], '/');
    }
  }

  /** A leading '/' makes a path absolute and adds no name. */
  lemma AbsoluteParses(s: string)
    ensures ParsePath(['/'] + s) == Path(true, ParsePath(s).names)
  {
    assert ['/'] + s == [] + ['/'] + s;
    SplitConcat([], s, '/');
    assert SplitAll([], '/') == [""];
    NonEmptyPiecesAppend([""], SplitAll(s, '/'));
    assert NonEmptyPieces([""]) == NonEmptyPieces([]) + [];
  }

  lemma ResolveWellFormed(base: Path, other: Path)
    requires WellFormed(base) && WellFormed(other)
    ensures WellFormed(Resolve(base, other))
  {
    if !other.absolute {
      var r := base.names + other.names;
      forall k | 0 <= k < |r| ensures r[k] != "" && '/' !in r[k] {
        if k < |base.names| { assert r[k] == base.names[k]; } else { assert r[k] == other.names[k - |base.names|]; }
      }
    }
  }

  lemma ParseTwoNames(a: string, b: string)
    requires a != "" && '/' !in a && b != "" && '/' !in b
    ensures ParsePath(a + "/" + b) == Path(false, [a, b])
  {
    assert a + "/" + b == a + ['/'] + b;
    SplitConcat(a, b, '/');
    SplitOfSeparatorFree(a, '/');
    SplitOfSeparatorFree(b, '/');
    NonEmptyPiecesOfNonEmpty([a, b]);
  }

  /** "rds/rds-data.json" is the two names rds and rds-data.json. */
  lemma DefaultTargetNames()
    ensures ParsePath("rds/rds-data.json") == Path(false, ["rds", "rds-data.json"])
  {
    assert "rds/rds-data.json" == "rds" + "/" + "rds-data.json";
    ParseTwoNames("rds", "rds-data.json");
  }
}
