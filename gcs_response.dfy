/**
 * Response unpacking for the Globus Connect Server API
 * (src/globus_sdk/services/gcs/response.py).
 *
 * The API sometimes returns a resource flat and sometimes wraps it in a
 * `result#...` envelope whose "data" list holds typed sub-objects.  An
 * unpacking response finds the first sub-object accepted by a match
 * predicate and presents it as `data`; if there is none, `data` is the whole
 * parsed body, exactly as `full_data`.
 */
module GcsResponse {
  import opened Wrappers
  import opened JsonValues

  /** Key of the envelope's list of sub-objects. */
  const DataKey: string := "data"

  /** Key of the type tag of a sub-object. */
  const DataTypeKey: string := "DATA_TYPE"

  /** `IterableGCSResponse.default_iter_key`: iteration walks this key. */
  const DefaultIterKey: string := "data"

  /** A match predicate over one element mapping. */
  type Predicate = Object -> bool

  /**
   * Full-string regular-expression matching, `re.compile(pattern).fullmatch(subject)`
   * taken as truthy: the first argument is the pattern, the second the subject.
   */
  type Fullmatch = (string, string) -> bool

  /** What a caller passes as `match`: a pattern string or a callable. */
  datatype MatchSpec = Pattern(pattern: string) | Callable(pred: Predicate)

  // ---------------------------------------------------------------------------
  // _default_unpacking_match / match_func
  // ---------------------------------------------------------------------------

  /** The predicate `_default_unpacking_match(pattern)` returns. */
  function DefaultUnpackingMatch(fullmatch: Fullmatch, pattern: string): Predicate
  {
    (item: Object) =>
      if DataTypeKey !in item then false
      else if !item[DataTypeKey].JStr? then false
      else fullmatch(pattern, item[DataTypeKey].s)
  }

  /** Without a "DATA_TYPE" key an element never matches, whatever the pattern. */
  lemma DefaultMatchNeedsTag(fullmatch: Fullmatch, pattern: string, item: Object)
    requires DataTypeKey !in item
    ensures !DefaultUnpackingMatch(fullmatch, pattern)(item)
  {
  }

  /** A "DATA_TYPE" that is not a string (an integer, say) never matches. */
  lemma DefaultMatchNeedsStringTag(fullmatch: Fullmatch, pattern: string, item: Object)
    requires DataTypeKey in item && !item[DataTypeKey].JStr?
    ensures !DefaultUnpackingMatch(fullmatch, pattern)(item)
  {
  }

  /** A string tag matches exactly when the whole tag fullmatches the pattern. */
  lemma DefaultMatchIsFullmatch(fullmatch: Fullmatch, pattern: string, item: Object)
    requires DataTypeKey in item && item[DataTypeKey].JStr?
    ensures DefaultUnpackingMatch(fullmatch, pattern)(item)
            == fullmatch(pattern, item[DataTypeKey].s)
  {
  }

  /** The default matcher looks at the "DATA_TYPE" entry and at nothing else. */
  lemma DefaultMatchReadsOnlyTag(fullmatch: Fullmatch, pattern: string, a: Object, b: Object)
    requires (DataTypeKey in a) == (DataTypeKey in b)
    requires DataTypeKey in a ==> a[DataTypeKey] == b[DataTypeKey]
    ensures DefaultUnpackingMatch(fullmatch, pattern)(a)
            == DefaultUnpackingMatch(fullmatch, pattern)(b)
  {
  }

  /**
   * The `_match_func` that `__init__` stores: a callable is used unchanged,
   * a string is compiled into the default matcher.
   */
  function MatchFuncOf(spec: MatchSpec, fullmatch: Fullmatch): (p: Predicate)
    ensures spec.Callable? ==> p == spec.pred
    ensures spec.Pattern? ==>
      forall item: Object :: p(item) <==>
        (DataTypeKey in item && item[DataTypeKey].JStr?
         && fullmatch(spec.pattern, item[DataTypeKey].s))
  {
    match spec
    case Callable(pred) => pred
    case Pattern(pattern) => DefaultUnpackingMatch(fullmatch, pattern)
  }

  // ---------------------------------------------------------------------------
  // _unpack
  // ---------------------------------------------------------------------------

  /** `isinstance(item, dict) and match_func(item)`. */
  predicate Accepts(m: Predicate, e: Json)
  {
    e.JObject? && m(e.fields)
  }

  /** Position `i` holds the first element of `items` that `m` accepts. */
  predicate FirstAcceptedAt(items: seq<Json>, m: Predicate, i: int)
  {
    && 0 <= i < |items|
    && Accepts(m, items[i])
    && forall j :: 0 <= j < i ==> !Accepts(m, items[j])
  }

  /** The scan of `_unpack` over the "data" list, as a recursive first-match search. */
  ghost function FirstMatch(items: seq<Json>, m: Predicate): (r: Option<Object>)
    ensures r.Some? ==> JObject(r.value) in items && m(r.value)
    ensures r.None? <==> forall i :: 0 <= i < |items| ==> !Accepts(m, items[i])
  {
    if |items| == 0 then None
    else if Accepts(m, items[0]) then Some(items[0].fields)
    else
      assert forall i :: 1 <= i < |items| ==> items[i] == items[1..][i - 1];
      FirstMatch(items[1..], m)
  }

  /** The first accepted element is the one returned: ties go to the earliest position. */
  lemma {:induction false} FirstMatchIsFirst(items: seq<Json>, m: Predicate, i: int)
    requires FirstAcceptedAt(items, m, i)
    ensures FirstMatch(items, m) == Some(items[i].fields)
  {
    if i > 0 {
      assert !Accepts(m, items[0]);
      assert items[1..][i - 1] == items[i];
      forall j | 0 <= j < i - 1 ensures !Accepts(m, items[1..][j]) {
        assert items[1..][j] == items[j + 1];
      }
      FirstMatchIsFirst(items[1..], m, i - 1);
    }
  }

  /** A returned element sits at the first accepted position of the list. */
  lemma {:induction false} FirstMatchHasPosition(items: seq<Json>, m: Predicate)
    requires FirstMatch(items, m).Some?
    ensures exists i :: FirstAcceptedAt(items, m, i)
                        && items[i] == JObject(FirstMatch(items, m).value)
  {
    if Accepts(m, items[0]) {
      assert FirstAcceptedAt(items, m, 0);
    } else {
      FirstMatchHasPosition(items[1..], m);
      var i :| FirstAcceptedAt(items[1..], m, i)
               && items[1..][i] == JObject(FirstMatch(items[1..], m).value);
      assert items[i + 1] == items[1..][i];
      forall j | 0 <= j < i + 1 ensures !Accepts(m, items[j]) {
        if j > 0 { assert items[j] == items[1..][j - 1]; }
      }
      assert FirstAcceptedAt(items, m, i + 1);
    }
  }

  /** First-match, both directions: `e` is returned exactly when it is at the first accepted position. */
  lemma FirstMatchSpec(items: seq<Json>, m: Predicate, e: Object)
    ensures FirstMatch(items, m) == Some(e) <==>
            exists i :: FirstAcceptedAt(items, m, i) && items[i] == JObject(e)
  {
    if FirstMatch(items, m) == Some(e) {
      FirstMatchHasPosition(items, m);
    }
    if i :| FirstAcceptedAt(items, m, i) && items[i] == JObject(e) {
      FirstMatchIsFirst(items, m, i);
    }
  }

  /** The scan stops at the first match: later elements matter only when no earlier one matched. */
  lemma {:induction false} FirstMatchAppend(a: seq<Json>, b: seq<Json>, m: Predicate)
    ensures FirstMatch(a + b, m)
            == if FirstMatch(a, m).Some? then FirstMatch(a, m) else FirstMatch(b, m)
  {
    if |a| == 0 {
      assert a + b == b;
    } else {
      assert (a + b)[0] == a[0];
      assert (a + b)[1..] == a[1..] + b;
      FirstMatchAppend(a[1..], b, m);
    }
  }

  /** `parsed_json["data"]` when the body is a dict whose "data" value is a list. */
  ghost function DataList(parsed: Option<Json>): Option<seq<Json>>
  {
    if parsed.Some? && parsed.value.JObject? && DataKey in parsed.value.fields
       && parsed.value.fields[DataKey].JArray?
    then Some(parsed.value.fields[DataKey].items)
    else None
  }

  /** The value `_unpack` returns for the parsed body and the stored predicate. */
  ghost function Unpacked(parsed: Option<Json>, m: Predicate): (r: Option<Object>)
    ensures r.Some? ==> DataList(parsed).Some?
    ensures r.Some? ==> JObject(r.value) in DataList(parsed).value && m(r.value)
    ensures DataList(parsed).Some? ==>
      (r.None? <==> forall i :: 0 <= i < |DataList(parsed).value|
                               ==> !Accepts(m, DataList(parsed).value[i]))
  {
    match DataList(parsed)
    case None => None
    case Some(items) => FirstMatch(items, m)
  }

  /** Nothing but the "data" value of the body decides the outcome of unpacking. */
  lemma UnpackedReadsOnlyDataList(p: Option<Json>, q: Option<Json>, m: Predicate)
    requires p.Some? && p.value.JObject? && q.Some? && q.value.JObject?
    requires (DataKey in p.value.fields) == (DataKey in q.value.fields)
    requires DataKey in p.value.fields ==> p.value.fields[DataKey] == q.value.fields[DataKey]
    ensures Unpacked(p, m) == Unpacked(q, m)
  {
  }

  // ---------------------------------------------------------------------------
  // data / response[key]
  // ---------------------------------------------------------------------------

  /** What the `data` property resolves to: the unpacked element, or the whole body. */
  ghost function DataView(parsed: Option<Json>, m: Predicate): (r: Option<Json>)
    ensures r == parsed || (r.Some? && DataList(parsed).Some?
                            && r.value in DataList(parsed).value && Accepts(m, r.value))
  {
    match Unpacked(parsed, m)
    case Some(e) => Some(JObject(e))
    case None => parsed
  }

  /** A body that is not a dict with a "data" list is passed through unchanged. */
  lemma DataViewPassesThroughFlat(parsed: Option<Json>, m: Predicate)
    requires DataList(parsed).None?
    ensures DataView(parsed, m) == parsed
  {
  }

  /** When no dict element of "data" is accepted, `data` is the envelope itself. */
  lemma DataViewFallsBack(parsed: Option<Json>, m: Predicate)
    requires DataList(parsed).Some?
    requires forall i :: 0 <= i < |DataList(parsed).value|
                         ==> !Accepts(m, DataList(parsed).value[i])
    ensures DataView(parsed, m) == parsed
  {
  }

  /** In the enveloped case, `data` is the element at the first accepted position. */
  lemma DataViewIsFirstAccepted(parsed: Option<Json>, m: Predicate, i: int)
    requires DataList(parsed).Some? && FirstAcceptedAt(DataList(parsed).value, m, i)
    ensures DataView(parsed, m) == Some(DataList(parsed).value[i])
  {
    FirstMatchIsFirst(DataList(parsed).value, m, i);
  }

  /**
   * With a pattern matcher, a "data" list none of whose dict elements has a
   * string "DATA_TYPE" always falls back to the envelope, whatever the pattern.
   */
  lemma DataViewIgnoresNonStringTags(parsed: Option<Json>, pattern: string,
                                      fullmatch: Fullmatch)
    requires DataList(parsed).Some?
    requires forall i :: 0 <= i < |DataList(parsed).value| && DataList(parsed).value[i].JObject?
               ==> (DataTypeKey !in DataList(parsed).value[i].fields
                    || !DataList(parsed).value[i].fields[DataTypeKey].JStr?)
    ensures DataView(parsed, MatchFuncOf(Pattern(pattern), fullmatch)) == parsed
  {
    var items := DataList(parsed).value;
    var m := MatchFuncOf(Pattern(pattern), fullmatch);
    forall i | 0 <= i < |items| ensures !Accepts(m, items[i]) {
      if items[i].JObject? {
        assert !m(items[i].fields);
      }
    }
  }

  /** `response[key]`: lookup in whatever `data` resolves to; `None` for a missing key or a non-dict. */
  function Lookup(view: Option<Json>, key: string): Option<Json>
  {
    if view.Some? && view.value.JObject? && key in view.value.fields
    then Some(view.value.fields[key])
    else None
  }

  // ---------------------------------------------------------------------------
  // UnpackingGCSResponse
  // ---------------------------------------------------------------------------

  /** A response holding a parsed body and a memo of the one unpacking scan. */
  class UnpackingResponse {
    /** The base response's parsed JSON (`_parsed_json`); `None` if unparsable. */
    const parsedJson: Option<Json>
    /** `_match_func`, resolved once at construction. */
    const matchFunc: Predicate
    /** `_did_unpack` */
    var didUnpack: bool
    /** `_unpacked_data` */
    var unpackedData: Option<Object>
    /** How many times the scan has run. */
    ghost var unpackCount: nat

    /** The two memo states: not yet unpacked, or unpacked exactly once with the scan's result. */
    ghost predicate Valid()
      reads this
    {
      if didUnpack then unpackedData == Unpacked(parsedJson, matchFunc) && unpackCount == 1
      else unpackedData == None && unpackCount == 0
    }

    constructor (parsed: Option<Json>, spec: MatchSpec, fullmatch: Fullmatch)
      ensures Valid()
      ensures parsedJson == parsed && matchFunc == MatchFuncOf(spec, fullmatch)
      ensures !didUnpack && unpackedData == None
    {
      parsedJson := parsed;
      matchFunc := MatchFuncOf(spec, fullmatch);
      unpackedData := None;
      didUnpack := false;
      unpackCount := 0;
    }

    /** `full_data`: the parsed body as received; reading it changes nothing. */
    function FullData(): (r: Option<Json>)
      ensures r == parsedJson
    {
      parsedJson
    }

    /**
     * `_unpack`: scans "data" in order and returns the first accepted dict
     * element.  Each run of the scan is recorded in `unpackCount`.
     */
    method Unpack() returns (r: Option<Object>)
      modifies this`unpackCount
      ensures r == Unpacked(parsedJson, matchFunc)
      ensures unpackCount == old(unpackCount) + 1
    {
      unpackCount := unpackCount + 1;
      if parsedJson.Some? && parsedJson.value.JObject? && DataKey in parsedJson.value.fields
         && parsedJson.value.fields[DataKey].JArray? {
        var items := parsedJson.value.fields[DataKey].items;
        for i := 0 to |items|
          invariant FirstMatch(items, matchFunc) == FirstMatch(items[i..], matchFunc)
        {
          var item := items[i];
          if item.JObject? && matchFunc(item.fields) {
            return Some(item.fields);
          }
          assert items[i..][1..] == items[i + 1..];
        }
      }
      return None;
    }

    /** The `data` property: unpacks on first access only, then resolves the memo. */
    method Data() returns (r: Option<Json>)
      requires Valid()
      modifies this
      ensures Valid() && didUnpack
      ensures r == DataView(parsedJson, matchFunc)
      ensures old(didUnpack) ==> unpackedData == old(unpackedData)
      ensures unpackCount == if old(didUnpack) then old(unpackCount) else old(unpackCount) + 1
      ensures unpackCount == 1
    {
      if !didUnpack {
        unpackedData := Unpack();
        didUnpack := true;
      }
      if unpackedData.Some? {
        r := Some(JObject(unpackedData.value));
      } else {
        r := parsedJson;
      }
    }

    /** `response[key]`, read through `data`. */
    method Get(key: string) returns (r: Option<Json>)
      requires Valid()
      modifies this
      ensures Valid() && didUnpack && unpackCount == 1
      ensures old(didUnpack) ==> unpackedData == old(unpackedData)
      ensures unpackCount == if old(didUnpack) then old(unpackCount) else old(unpackCount) + 1
      ensures r == Lookup(DataView(parsedJson, matchFunc), key)
    {
      var view := Data();
      r := Lookup(view, key);
    }
  }

  /**
   * A caller's view of one response: `full_data` before and after, and `data`
   * read twice.  Both reads of `data` agree, `full_data` is unaffected, and
   * the scan ran once over both reads (`scans`).
   */
  method ReadTwice(parsed: Option<Json>, spec: MatchSpec, fullmatch: Fullmatch)
    returns (fullBefore: Option<Json>, first: Option<Json>, second: Option<Json>,
             fullAfter: Option<Json>, ghost scans: nat)
    ensures fullBefore == parsed && fullAfter == parsed
    ensures first == second
    ensures first == DataView(parsed, MatchFuncOf(spec, fullmatch))
    ensures scans == 1
  {
    var resp := new UnpackingResponse(parsed, spec, fullmatch);
    fullBefore := resp.FullData();
    first := resp.Data();
    second := resp.Data();
    fullAfter := resp.FullData();
    scans := resp.unpackCount;
  }
}
