/**
 * The fetcher: the category list read from configuration, and one call of
 * the reference-data client per category, each answer wrapped as the
 * single-member object {category: answer}.
 */
module Fetcher {
  import opened Wrappers
  import opened Json
  import opened Exceptions
  import opened Strings
  import opened Categories

  /**
   * The reference-data client.  Its answer to the k-th call of one fetch
   * for a category: the identifiers, or the exception the call throws.
   */
  type Client = (nat, string) -> Result<Json, Exc>

  /** The single-member object {name: identifiers}. */
  function Wrap(name: string, identifiers: Json): Json {
    JsonObject([JsonMember(name, identifiers)])
  }

  function FirstFailureFrom(names: seq<string>, client: Client, from: nat): (k: nat)
    requires from <= |names|
    ensures from <= k <= |names|
    ensures forall j :: from <= j < k ==> client(j, names[j]).Ok?
    ensures k < |names| ==> client(k, names[k]).Err?
    decreases |names| - from
  {
    if from == |names| || client(from, names[from]).Err? then from
    else FirstFailureFrom(names, client, from + 1)
  }

  /** The index of the first call that throws, or |names| if none does. */
  function FirstFailure(names: seq<string>, client: Client): (k: nat)
    ensures k <= |names|
    ensures forall j :: 0 <= j < k ==> client(j, names[j]).Ok?
    ensures k < |names| ==> client(k, names[k]).Err?
  {
    FirstFailureFrom(names, client, 0)
  }

  /** The first failing call is the only index with no failure before it and a failure at it. */
  lemma FirstFailureUnique(names: seq<string>, client: Client, k: nat)
    requires k <= |names|
    requires forall j :: 0 <= j < k ==> client(j, names[j]).Ok?
    requires k < |names| ==> client(k, names[k]).Err?
    ensures FirstFailure(names, client) == k
  {
  }

  /**
   * What a fetch over `names` returns: the exception of the first failing
   * call, or the array of all wrapped answers in category order.
   */
  function FetchResult(names: seq<string>, client: Client): Result<Json, Exc> {
    var k := FirstFailure(names, client);
    if k < |names| then Err(client(k, names[k]).error)
    else Ok(JsonArray(seq(|names|, i requires 0 <= i < |names| && client(i, names[i]).Ok? =>
                                     Wrap(names[i], client(i, names[i]).value))))
  }

  /** The categories the client is asked for: all of them, up to and including the first failure. */
  function FetchCalls(names: seq<string>, client: Client): seq<string> {
    var k := FirstFailure(names, client);
    if k < |names| then names[..k + 1] else names
  }

  class RdsDataFetcher {
    const refDataClient: Client
    var enumTypes: seq<string>

    /** Reads the category list from the configuration value (missing reads as ""). */
    constructor (enumTypesConfig: Option<string>, refDataClient: Client)
      ensures this.refDataClient == refDataClient
      ensures enumTypes == ConfiguredCategories(enumTypesConfig)
    {
      this.refDataClient := refDataClient;
      enumTypes := [];
      new;
      var enumTypesString := enumTypesConfig.GetOr("");
      var pieces := JavaSplit(enumTypesString, ',');
      var i := 0;
      while i < |pieces|
        invariant 0 <= i <= |pieces|
        invariant enumTypes == CleanPieces(pieces[..i])
      {
        var cleanEnumType := Trim(pieces[i]);
        if cleanEnumType != "" {
          enumTypes := enumTypes + [cleanEnumType];
        }
        assert pieces[..i + 1][..i] == pieces[..i];
        i := i + 1;
      }
      assert pieces[..i] == pieces;
    }

    /**
     * Calls the client once per category, in order, and returns the wrapped
     * answers, or the first exception (no retry).  `calls` is the sequence of
     * categories the client was asked for.
     */
    method Fetch() returns (r: Result<Json, Exc>, calls: seq<string>)
      ensures r == FetchResult(enumTypes, refDataClient)
      ensures calls == FetchCalls(enumTypes, refDataClient)
    {
      var ret: seq<Json> := [];
      calls := [];
      var i := 0;
      while i < |enumTypes|
        invariant 0 <= i <= |enumTypes|
        invariant forall j :: 0 <= j < i ==> refDataClient(j, enumTypes[j]).Ok?
        invariant |ret| == i
        invariant forall j :: 0 <= j < i ==> ret[j] == Wrap(enumTypes[j], refDataClient(j, enumTypes[j]).value)
        invariant calls == enumTypes[..i]
      {
        var identifiers := refDataClient(i, enumTypes[i]);
        calls := calls + [enumTypes[i]];
        assert calls == enumTypes[..i + 1];
        if identifiers.Err? {
          FirstFailureUnique(enumTypes, refDataClient, i);
          r := Err(identifiers.error);
          assert r == FetchResult(enumTypes, refDataClient);
          return;
        }
        ret := ret + [Wrap(enumTypes[i], identifiers.value)];
        i := i + 1;
      }
      FirstFailureUnique(enumTypes, refDataClient, |enumTypes|);
      assert calls == enumTypes;
      r := Ok(JsonArray(ret));
      ghost var expected := FetchResult(enumTypes, refDataClient).value.elements;
      assert |expected| == |ret|;
      assert forall j :: 0 <= j < |ret| ==> expected[j] == ret[j];
      assert expected == ret;
    }
  }

  /**
   * A successful fetch has one element per category, and element i is the
   * object mapping category i to the client's answer for it.
   */
  lemma FetchShape(names: seq<string>, client: Client)
    requires FetchResult(names, client).Ok?
    ensures FetchResult(names, client).value.JsonArray?
    ensures |FetchResult(names, client).value.elements| == |names|
    ensures forall i :: 0 <= i < |names| ==>
              client(i, names[i]).Ok? &&
              FetchResult(names, client).value.elements[i] == Wrap(names[i], client(i, names[i]).value)
  {
  }

  /**
   * The client is asked for the categories in list order, each once; the
   * fetch fails exactly when one call fails, and then the first failure's
   * exception escapes and no later category is asked for.
   */
  lemma FetchCallsInOrder(names: seq<string>, client: Client)
    ensures FetchResult(names, client).Ok? <==> forall i :: 0 <= i < |names| ==> client(i, names[i]).Ok?
    ensures FetchResult(names, client).Ok? ==> FetchCalls(names, client) == names
    ensures FetchResult(names, client).Err? ==>
              var k := |FetchCalls(names, client)| - 1;
              0 <= k < |names| && FetchCalls(names, client) == names[..k + 1] &&
              (forall j :: 0 <= j < k ==> client(j, names[j]).Ok?) &&
              client(k, names[k]) == Err(FetchResult(names, client).error)
  {
  }

  /** With no categories configured, fetch returns the empty array without calling the client. */
  lemma EmptyConfigFetchesNothing(config: Option<string>, client: Client)
    requires config.None? || forall i :: 0 <= i < |config.value| ==> config.value[i] == ',' || IsTrimmable(config.value[i])
    ensures ConfiguredCategories(config) == []
    ensures FetchResult(ConfiguredCategories(config), client) == Ok(JsonArray([]))
    ensures FetchCalls(ConfiguredCategories(config), client) == []
  {
    NoCategoriesIff(config.GetOr(""));
    assert |FetchResult([], client).value.elements| == 0;
  }

  lemma TwoCategoryFetch(client: Client)
    requires client(0, "foo") == Ok(JsonPrimitive("42"))
    requires client(1, "bar") == Ok(JsonPrimitive("\"baz\""))
    ensures FetchResult(["foo", "bar"], client)
            == Ok(JsonArray([Wrap("foo", JsonPrimitive("42")), Wrap("bar", JsonPrimitive("\"baz\""))]))
    ensures FetchCalls(["foo", "bar"], client) == ["foo", "bar"]
  {
    var names := ["foo", "bar"];
    FirstFailureUnique(names, client, 2);
    var elements := FetchResult(names, client).value.elements;
    assert |elements| == 2;
    assert elements[0] == Wrap("foo", JsonPrimitive("42"));
    assert elements[1] == Wrap("bar", JsonPrimitive("\"baz\""));
    assert elements == [Wrap("foo", JsonPrimitive("42")), Wrap("bar", JsonPrimitive("\"baz\""))];
  }

  /** ",   foo  ,, bar,,," with answers 42 and "baz" gives [{foo: 42}, {bar: "baz"}]. */
  lemma MixedConfigFetchExample(client: Client)
    requires client(0, "foo") == Ok(JsonPrimitive("42"))
    requires client(1, "bar") == Ok(JsonPrimitive("\"baz\""))
    ensures FetchResult(ParseCategories(",   foo  ,, bar,,,"), client)
            == Ok(JsonArray([Wrap("foo", JsonPrimitive("42")), Wrap("bar", JsonPrimitive("\"baz\""))]))
    ensures FetchCalls(ParseCategories(",   foo  ,, bar,,,"), client) == ["foo", "bar"]
  {
    MixedConfigExample();
    TwoCategoryFetch(client);
  }
}
