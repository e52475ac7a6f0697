/**
 * The category list of the fetcher: the configured comma-separated string,
 * split at commas, each piece trimmed, blank pieces dropped, order and
 * repetitions kept.
 */
module Categories {
  import opened Wrappers
  import opened Strings

  /** The piece a non-blank trimmed piece contributes to the list: itself, or nothing. */
  function Keep(trimmed: string): seq<string> {
    if trimmed == "" then [] else [trimmed]
  }

  /** The trimmed, non-empty pieces, in order. */
  function CleanPieces(pieces: seq<string>): seq<string> {
    if pieces == [] then []
    else CleanPieces(pieces[..|pieces| - 1]) + Keep(Trim(pieces[|pieces| - 1]))
  }

  /** The category names configured by `config`. */
  function ParseCategories(config: string): seq<string> {
    CleanPieces(JavaSplit(config, ','))
  }

  /** The configuration lookup with its default: a missing value reads as "". */
  function ConfiguredCategories(config: Option<string>): seq<string> {
    ParseCategories(config.GetOr(""))
  }

  function Count(names: seq<string>, name: string): nat {
    if names == [] then 0
    else Count(names[..|names| - 1], name) + (if names[|names| - 1] == name then 1 else 0)
  }

  /** Cleaning distributes over concatenation: order and repetitions survive. */
  lemma {:induction false} CleanAppend(a: seq<string>, b: seq<string>)
    ensures CleanPieces(a + b) == CleanPieces(a) + CleanPieces(b)
  {
    if b == [] {
      assert a + b == a;
    } else {
      var b' := b[..|b| - 1];
      assert (a + b)[..|a + b| - 1] == a + b';
      assert (a + b)[|a + b| - 1] == b[|b| - 1];
      CleanAppend(a, b');
    }
  }

  lemma {:induction false} CleanDropsTrailingEmpty(pieces: seq<string>)
    ensures CleanPieces(DropTrailingEmpty(pieces)) == CleanPieces(pieces)
  {
    if pieces != [] && pieces[|pieces| - 1] == "" {
      CleanDropsTrailingEmpty(pieces[..|pieces| - 1]);
    }
  }

  /** Every stored name is non-empty and has no leading or trailing whitespace. */
  lemma {:induction false} CleanPiecesAreTrimmed(pieces: seq<string>)
    ensures forall k :: 0 <= k < |CleanPieces(pieces)| ==> IsTrimmedNonEmpty(CleanPieces(pieces)[k])
  {
    if pieces != [] {
      CleanPiecesAreTrimmed(pieces[..|pieces| - 1]);
      TrimShape(pieces[|pieces| - 1]);
    }
  }

  lemma CategoriesAreTrimmed(config: string)
    ensures forall k :: 0 <= k < |ParseCategories(config)| ==> IsTrimmedNonEmpty(ParseCategories(config)[k])
  {
    CleanPiecesAreTrimmed(JavaSplit(config, ','));
  }

  /**
   * Java's removal of trailing empty pieces makes no difference: the list is
   * the cleaned form of all comma-separated pieces.
   */
  lemma CategoriesOfAllPieces(config: string)
    ensures ParseCategories(config) == CleanPieces(SplitAll(config, ','))
  {
    if ',' in config {
      CleanDropsTrailingEmpty(SplitAll(config, ','));
    } else {
      SplitOfSeparatorFree(config, ',');
    }
  }

  /** A configuration without a comma names at most its own trimmed self. */
  lemma CategoriesOfOnePiece(config: string)
    requires ',' !in config
    ensures ParseCategories(config) == Keep(Trim(config))
  {
    assert JavaSplit(config, ',') == [config];
    assert CleanPieces([config]) == CleanPieces([config][..0]) + Keep(Trim([config][0]));
  }

  /**
   * The list of `a,b` is the list of `a` followed by the list of `b`: the
   * original order is kept and a name configured twice is listed twice.
   */
  lemma CategoriesOfConcat(a: string, b: string)
    ensures ParseCategories(a + "," + b) == ParseCategories(a) + ParseCategories(b)
  {
    CategoriesOfAllPieces(a + "," + b);
    CategoriesOfAllPieces(a);
    CategoriesOfAllPieces(b);
    SplitConcat(a, b, ',');
    assert a + "," + b == a + [','] + b;
    CleanAppend(SplitAll(a, ','), SplitAll(b, ','));
  }

  lemma {:induction false} CountAppend(a: seq<string>, b: seq<string>, name: string)
    ensures Count(a + b, name) == Count(a, name) + Count(b, name)
  {
    if b == [] {
      assert a + b == a;
    } else {
      assert (a + b)[..|a + b| - 1] == a + b[..|b| - 1];
      assert (a + b)[|a + b| - 1] == b[|b| - 1];
      CountAppend(a, b[..|b| - 1], name);
    }
  }

  /** Duplicates are not removed: a name occurs as often as in the two halves together. */
  lemma CategoryCountOfConcat(a: string, b: string, name: string)
    ensures Count(ParseCategories(a + "," + b), name)
            == Count(ParseCategories(a), name) + Count(ParseCategories(b), name)
  {
    CategoriesOfConcat(a, b);
    CountAppend(ParseCategories(a), ParseCategories(b), name);
  }

  predicate PiecesBlank(pieces: seq<string>) {
    forall k :: 0 <= k < |pieces| ==> AllTrimmable(pieces[k])
  }

  /** Cleaning leaves nothing exactly when every piece is blank. */
  lemma {:induction false} CleanEmptyIff(pieces: seq<string>)
    ensures CleanPieces(pieces) == [] <==> PiecesBlank(pieces)
  {
    if pieces != [] {
      var init, last := pieces[..|pieces| - 1], pieces[|pieces| - 1];
      CleanEmptyIff(init);
      TrimEmptyIff(last);
      assert pieces == init + [last];
      PiecesBlankConcat(init, [last]);
      PiecesBlankSingle(last);
      EmptyAppendIff(CleanPieces(init), Keep(Trim(last)));
    }
  }

  lemma EmptyAppendIff(a: seq<string>, b: seq<string>)
    ensures a + b == [] <==> a == [] && b == []
  {
    assert |a + b| == |a| + |b|;
  }

  predicate CommasAndBlanks(s: string) {
    forall i :: 0 <= i < |s| ==> s[i] == ',' || IsTrimmable(s[i])
  }

  lemma PiecesBlankConcat(a: seq<string>, b: seq<string>)
    ensures PiecesBlank(a + b) <==> PiecesBlank(a) && PiecesBlank(b)
  {
    if PiecesBlank(a) && PiecesBlank(b) {
      forall k | 0 <= k < |a + b| ensures AllTrimmable((a + b)[k]) {
        if k < |a| { assert (a + b)[k] == a[k]; } else { assert (a + b)[k] == b[k - |a|]; }
      }
    }
    if PiecesBlank(a + b) {
      forall k | 0 <= k < |a| ensures AllTrimmable(a[k]) { assert (a + b)[k] == a[k]; }
      forall k | 0 <= k < |b| ensures AllTrimmable(b[k]) { assert (a + b)[k + |a|] == b[k]; }
    }
  }

  lemma PiecesBlankSingle(p: string)
    ensures PiecesBlank([p]) <==> AllTrimmable(p)
  {
    assert [p][0] == p;
  }

  lemma CommasAndBlanksCons(s: string)
    requires s != []
    ensures CommasAndBlanks(s) <==> (s[0] == ',' || IsTrimmable(s[0])) && CommasAndBlanks(s[1..])
  {
    if (s[0] == ',' || IsTrimmable(s[0])) && CommasAndBlanks(s[1..]) {
      forall i | 0 <= i < |s| ensures s[i] == ',' || IsTrimmable(s[i]) {
        if i > 0 { assert s[i] == s[1..][i - 1]; }
      }
    }
  }

  lemma {:induction false} PiecesBlankIff(s: string)
    ensures PiecesBlank(SplitAll(s, ',')) <==> CommasAndBlanks(s)
  {
    if s != [] {
      PiecesBlankIff(s[1..]);
      CommasAndBlanksCons(s);
      var rest := SplitAll(s[1..], ',');
      assert rest == [rest[0]] + rest[1..];
      PiecesBlankConcat([rest[0]], rest[1..]);
      if s[0] == ',' {
        PiecesBlankConcat([""], rest);
        PiecesBlankSingle("");
      } else {
        assert SplitAll(s, ',') == [[s[0]] + rest[0]] + rest[1..];
        PiecesBlankConcat([[s[0]] + rest[0]], rest[1..]);
        AllTrimmableCons(s[0], rest[0]);
        PiecesBlankSingle([s[0]] + rest[0]);
        PiecesBlankSingle(rest[0]);
      }
    }
  }

  /**
   * The list is empty exactly when the configuration holds nothing but
   * commas and whitespace (the empty and blank configurations among them).
   */
  lemma NoCategoriesIff(config: string)
    ensures ParseCategories(config) == []
            <==> forall i :: 0 <= i < |config| ==> config[i] == ',' || IsTrimmable(config[i])
  {
    CategoriesOfAllPieces(config);
    CleanEmptyIff(SplitAll(config, ','));
    PiecesBlankIff(config);
  }

  /** A missing configuration value gives the empty list. */
  lemma MissingConfigHasNoCategories()
    ensures ConfiguredCategories(None) == []
  {
    NoCategoriesIff("");
  }

  lemma TrimExamples()
    ensures Trim("   foo  ") == "foo" && Trim(" bar") == "bar"
  {
    assert TrimStart("   foo  ") == TrimStart("  foo  ") == TrimStart(" foo  ") == "foo  ";
    assert TrimEnd("foo  ") == TrimEnd("foo ") == "foo";
    assert TrimStart(" bar") == "bar";
  }

  /** Seven comma-separated pieces name the categories of each piece, in order. */
  lemma SevenPieces(a: string, b: string, c: string, d: string, e: string, f: string, g: string)
    ensures ParseCategories(a + "," + b + "," + c + "," + d + "," + e + "," + f + "," + g)
            == ParseCategories(a) + ParseCategories(b) + ParseCategories(c) + ParseCategories(d)
               + ParseCategories(e) + ParseCategories(f) + ParseCategories(g)
  {
    CategoriesOfConcat(a, b);
    CategoriesOfConcat(a + "," + b, c);
    CategoriesOfConcat(a + "," + b + "," + c, d);
    CategoriesOfConcat(a + "," + b + "," + c + "," + d, e);
    CategoriesOfConcat(a + "," + b + "," + c + "," + d + "," + e, f);
    CategoriesOfConcat(a + "," + b + "," + c + "," + d + "," + e + "," + f, g);
  }

  lemma MixedConfigPieces()
    ensures ",   foo  ,, bar,,," == "" + "," + "   foo  " + "," + "" + "," + " bar" + "," + "" + "," + "" + "," + ""
  {
  }

  lemma PieceExamples()
    ensures ParseCategories("") == [] && ParseCategories("   foo  ") == ["foo"] && ParseCategories(" bar") == ["bar"]
  {
    CategoriesOfOnePiece("");
    CategoriesOfOnePiece("   foo  ");
    CategoriesOfOnePiece(" bar");
    TrimExamples();
    assert Trim("") == "";
  }

  lemma MixedConfigShape(e: string, foo: string, bar: string)
    requires ParseCategories(e) == [] && ParseCategories(foo) == ["foo"] && ParseCategories(bar) == ["bar"]
    ensures ParseCategories(e + "," + foo + "," + e + "," + bar + "," + e + "," + e + "," + e) == ["foo", "bar"]
  {
    SevenPieces(e, foo, e, bar, e, e, e);
  }

  /** The configuration ",   foo  ,, bar,,," names exactly foo and bar. */
  lemma MixedConfigExample()
    ensures ParseCategories(",   foo  ,, bar,,,") == ["foo", "bar"]
  {
    MixedConfigPieces();
    PieceExamples();
    MixedConfigShape("", "   foo  ", " bar");
  }
}
