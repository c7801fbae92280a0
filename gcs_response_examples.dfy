/**
 * Concrete response bodies of the shapes the collection tests use, and what
 * `data` and `full_data` give for them.  The bodies are representative:
 * only the keys the tests look at are filled in.
 */
module GcsResponseExamples {
  import opened Wrappers
  import opened JsonValues
  import opened GcsResponse

  const CollectionTag: string := "collection#1.0.0"
  const ResultTag: string := "result#1.0.0"

  /** A collection document as the API returns it inside the envelope. */
  const Collection: Json := JObject(map[
    DataTypeKey := JStr(CollectionTag),
    "display_name" := JStr("Happy Fun Collection Name")])

  /** The usual `result#1.0.0` envelope around a collection. */
  const Enveloped: Json := JObject(map[
    DataTypeKey := JStr(ResultTag),
    "detail" := JStr("success"),
    DataKey := JArray([Collection])])

  /** A `result#1.0.0` envelope around the given "data" list. */
  function Envelope(items: seq<Json>): Json
  {
    JObject(map[DataTypeKey := JStr(ResultTag), "detail" := JStr("success"),
                DataKey := JArray(items)])
  }

  /** get_collection, enveloped: `data` is the collection, `full_data` keeps "detail" and "data". */
  lemma GetCollectionEnveloped(pattern: string, fullmatch: Fullmatch)
    requires fullmatch(pattern, CollectionTag)
    ensures var view := DataView(Some(Enveloped), MatchFuncOf(Pattern(pattern), fullmatch));
      && view == Some(Collection)
      && Lookup(view, DataTypeKey) == Some(JStr(CollectionTag))
      && Lookup(view, "display_name") == Some(JStr("Happy Fun Collection Name"))
      && Lookup(view, "detail") == None
      && Lookup(Some(Enveloped), DataTypeKey) == Some(JStr(ResultTag))
      && Lookup(Some(Enveloped), "detail") == Some(JStr("success"))
      && Lookup(Some(Enveloped), DataKey).Some?
  {
    var m := MatchFuncOf(Pattern(pattern), fullmatch);
    assert FirstAcceptedAt([Collection], m, 0);
    DataViewIsFirstAccepted(Some(Enveloped), m, 0);
  }

  /** get_collection, unexpectedly flat: a body without "data" is `data` as it is. */
  lemma GetCollectionFlat(m: Predicate)
    ensures DataView(Some(Collection), m) == Some(Collection)
    ensures Lookup(DataView(Some(Collection), m), DataTypeKey) == Some(JStr(CollectionTag))
  {
    DataViewPassesThroughFlat(Some(Collection), m);
  }

  /** get_collection, bad version: no element matches, so `data` is the whole envelope. */
  lemma GetCollectionBadVersion(pattern: string, fullmatch: Fullmatch)
    requires !fullmatch(pattern, "collection#2.0.0")
    ensures var body := Envelope([JObject(map[DataTypeKey := JStr("collection#2.0.0"),
                                              "foo" := JStr("bar")])]);
      && DataView(Some(body), MatchFuncOf(Pattern(pattern), fullmatch)) == Some(body)
      && Lookup(Some(body), "detail") == Some(JStr("success"))
      && Lookup(Some(body), "foo") == None
  {
  }

  /** get_collection with side-loaded data: an earlier non-matching element is skipped. */
  lemma GetCollectionSideloaded(pattern: string, fullmatch: Fullmatch)
    requires fullmatch(pattern, CollectionTag) && !fullmatch(pattern, "endpoint#1.0.0")
    ensures var body := Envelope([JObject(map[DataTypeKey := JStr("endpoint#1.0.0")]),
                                  Collection]);
      DataView(Some(body), MatchFuncOf(Pattern(pattern), fullmatch)) == Some(Collection)
  {
    var items := [JObject(map[DataTypeKey := JStr("endpoint#1.0.0")]), Collection];
    var m := MatchFuncOf(Pattern(pattern), fullmatch);
    assert FirstAcceptedAt(items, m, 1);
    DataViewIsFirstAccepted(Some(Envelope(items)), m, 1);
  }

  /** An integer "DATA_TYPE" never matches: `data` keeps "detail", whatever the pattern. */
  lemma GetCollectionIntegerTag(pattern: string, fullmatch: Fullmatch)
    ensures var body := Envelope([JObject(map[DataTypeKey := JNum(1),
                                              "display_name" := JStr("x")])]);
      && DataView(Some(body), MatchFuncOf(Pattern(pattern), fullmatch)) == Some(body)
      && Lookup(Some(body), "detail") == Some(JStr("success"))
  {
    var body := Envelope([JObject(map[DataTypeKey := JNum(1), "display_name" := JStr("x")])]);
    DataViewIgnoresNonStringTags(Some(body), pattern, fullmatch);
  }

  /** delete_collection: an empty "data" list gives the envelope, "detail" included. */
  lemma DeleteCollectionEmptyData(m: Predicate)
    ensures DataView(Some(Envelope([])), m) == Some(Envelope([]))
    ensures Lookup(DataView(Some(Envelope([])), m), "detail") == Some(JStr("success"))
  {
  }

  /** The first of two matching elements wins, and a non-dict element is skipped. */
  lemma FirstOfTwoMatchesWins(pattern: string, fullmatch: Fullmatch)
    requires fullmatch(pattern, "b") && !fullmatch(pattern, "a")
    ensures var second := JObject(map[DataTypeKey := JStr("b"), "n" := JNum(2)]);
            var third := JObject(map[DataTypeKey := JStr("b"), "n" := JNum(3)]);
            var items := [JStr("not-a-mapping"), JObject(map[DataTypeKey := JStr("a")]),
                          second, third];
      DataView(Some(Envelope(items)), MatchFuncOf(Pattern(pattern), fullmatch)) == Some(second)
  {
    var second := JObject(map[DataTypeKey := JStr("b"), "n" := JNum(2)]);
    var third := JObject(map[DataTypeKey := JStr("b"), "n" := JNum(3)]);
    var items := [JStr("not-a-mapping"), JObject(map[DataTypeKey := JStr("a")]), second, third];
    var m := MatchFuncOf(Pattern(pattern), fullmatch);
    assert FirstAcceptedAt(items, m, 2);
    DataViewIsFirstAccepted(Some(Envelope(items)), m, 2);
  }

  /** An unparsable body: `data` is the same absent value as `full_data`. */
  lemma UnparsableBody(m: Predicate)
    ensures DataView(None, m) == None
  {
  }
}
