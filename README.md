# Unpacking responses of the Globus Connect Server API

A Dafny model of `src/globus_sdk/services/gcs/response.py` from the Globus SDK
for Python. The Globus Connect Server (GCS) API sometimes returns a resource
flat. At other times it wraps the resource in a `result#1.0.0` envelope whose
`"data"` list holds typed sub-objects, each tagged with a `"DATA_TYPE"` string.
`UnpackingGCSResponse` has these parts:

- a match predicate. It is either compiled from a regular expression that must
  match the whole `"DATA_TYPE"` tag, or it is a callable given by the caller;
- `_unpack`, which returns the first dict in `"data"` that the predicate
  accepts, or `None`;
- a memo, `_did_unpack` and `_unpacked_data`, so that the scan runs at most once;
- `data`, which is the unpacked element, or else the whole parsed body;
- `full_data`, which is always the parsed body.

Files:

- `json_values.dfy`: module `Wrappers` (`Option`) and module `JsonValues`. The
  `Json` datatype covers null, booleans, numbers, strings, arrays (Python
  `list`) and objects (Python `dict`, `map<string, Json>`).
- `gcs_response.dfy`: module `GcsResponse`. It holds the default matcher, the
  resolution of the `match` argument, the first-match search as a recursive
  function with its lemmas, the `data` view, and the class
  `UnpackingResponse`. The class's `Unpack` method is the `for` loop of
  `_unpack`, proved equal to the recursive function. `Data` is the memoised
  property.
- `gcs_response_examples.dfy`: module `GcsResponseExamples`. It gives concrete
  bodies with the shapes used in `tests/functional/services/gcs/test_collections.py`
  and proves what `data` and `full_data` are for each one.

How this model represents the source:

- The parsed body is an `Option<Json>`. `None` means the body could not be
  parsed. A JSON `null` is `Some(JNull)`; Python represents both as `None`,
  and `data` passes either through unchanged.
- Regular-expression matching is a parameter `fullmatch(pattern, subject)` of
  type `(string, string) -> bool`. It stands for
  `bool(re.compile(pattern).fullmatch(subject))`. The model proves that the
  whole tag string is what gets passed to `fullmatch`.
- A caller-supplied predicate is a Dafny total function `map<string, Json> -> bool`.
- The ghost field `unpackCount` counts how many times the scan has run. `Unpack`
  (the scan) increases it by one, and the object invariant allows it only 0
  before the first `data` access and 1 after. That is how the model states
  "computed at most once". The specification functions of the scan (`FirstMatch`,
  `DataList`, `Unpacked`, `DataView`) are ghost, so `Unpack` is the only
  executable scan. The count is ghost bookkeeping: the verifier checks it
  against the code as written, but a method with `modifies this` could assign
  it directly, so it is not a guarantee the verifier enforces on every
  possible body.
- `response[key]` belongs to the base class, which is not part of this model.
  It is modelled as a lookup in `data`, because that is what the tests observe.

## Model

| member | source | states |
|---|---|---|
| `GcsResponse.DefaultIterKey` | src/globus_sdk/services/gcs/response.py:20 | the constant `"data"`, the key that `IterableGCSResponse` iterates over |
| `GcsResponse.DefaultUnpackingMatch` | src/globus_sdk/services/gcs/response.py:23-33 | defines the default matcher: false without a `"DATA_TYPE"` key, false for a tag that is not a string, else `fullmatch(pattern, tag)` (its properties are the four lemmas below) |
| `GcsResponse.DefaultMatchNeedsTag` | src/globus_sdk/services/gcs/response.py:26-28 | with no `"DATA_TYPE"` key the default matcher is false, for every pattern and every regex engine |
| `GcsResponse.DefaultMatchNeedsStringTag` | src/globus_sdk/services/gcs/response.py:29-30 | a present but non-string `"DATA_TYPE"` (number, bool, null, list, dict) never matches |
| `GcsResponse.DefaultMatchIsFullmatch` | src/globus_sdk/services/gcs/response.py:31 | for a string tag, the match result is `fullmatch(pattern, tag)` on the whole tag |
| `GcsResponse.DefaultMatchReadsOnlyTag` | src/globus_sdk/services/gcs/response.py:23-33 | two elements that agree on `"DATA_TYPE"` get the same answer, so no other field is looked at |
| `GcsResponse.MatchFuncOf` | src/globus_sdk/services/gcs/response.py:59-62 | a callable `match` is stored unchanged; a string gives the predicate "tag present, a string, and fullmatched by the pattern" |
| `GcsResponse.Accepts` | src/globus_sdk/services/gcs/response.py:84 | defines the element test `isinstance(item, dict) and match_func(item)` |
| `GcsResponse.FirstMatch` | src/globus_sdk/services/gcs/response.py:83-86 | a returned value is a dict element of the list that the predicate accepts; `None` exactly when no dict element is accepted (non-dicts are skipped) |
| `GcsResponse.FirstMatchIsFirst` | src/globus_sdk/services/gcs/response.py:83-85 | the element at the first accepted position is the one returned |
| `GcsResponse.FirstMatchHasPosition` | src/globus_sdk/services/gcs/response.py:83-85 | a returned value sits at a position where it is accepted and where no earlier element is accepted |
| `GcsResponse.FirstMatchSpec` | src/globus_sdk/services/gcs/response.py:83-86 | both directions: `e` is returned if and only if it is the element at the first accepted position |
| `GcsResponse.FirstMatchAppend` | src/globus_sdk/services/gcs/response.py:83-85 | the scan short-circuits: on `a + b`, `b` is consulted only when nothing in `a` matched |
| `GcsResponse.DataList` | src/globus_sdk/services/gcs/response.py:80-82 | defines the shape guard: the `"data"` list when the body is a dict whose `"data"` value is a list, else `None` |
| `GcsResponse.Unpacked` | src/globus_sdk/services/gcs/response.py:80-86 | any result comes from a body that is a dict whose `"data"` is a list, and the result is an accepted dict element of that list; with such a list, `None` exactly when no element is accepted |
| `GcsResponse.UnpackedReadsOnlyDataList` | src/globus_sdk/services/gcs/response.py:80-86 | two dict bodies with the same `"data"` entry unpack alike, so nothing else in the body is inspected |
| `GcsResponse.DataView` | src/globus_sdk/services/gcs/response.py:95-97 | `data` is the parsed body itself, or else an accepted element of its `"data"` list |
| `GcsResponse.DataViewPassesThroughFlat` | src/globus_sdk/services/gcs/response.py:44-45 | a body that is not a dict with a `"data"` list (flat, unparsable, non-list `"data"`) is `data` unchanged |
| `GcsResponse.DataViewFallsBack` | src/globus_sdk/services/gcs/response.py:95-97 | when no dict element of `"data"` is accepted, `data` is the whole envelope |
| `GcsResponse.DataViewIsFirstAccepted` | src/globus_sdk/services/gcs/response.py:38-40 | in the enveloped case `data` is the element at the first accepted position |
| `GcsResponse.DataViewIgnoresNonStringTags` | src/globus_sdk/services/gcs/response.py:29-30 | with a pattern matcher, a list none of whose dicts has a string tag falls back to the envelope, whatever the pattern |
| `GcsResponse.Lookup` | tests/functional/services/gcs/test_collections.py:10-16 | defines `response[key]` on a resolved view: the key's value in a dict view, else `None` |
| `GcsResponse.UnpackingResponse.Valid` | src/globus_sdk/services/gcs/response.py:64-65 | defines the two memo states: unset with no stored result and no scan yet, or set with the result of `Unpacked(body, predicate)` and exactly one scan (set at response.py:91-93) |
| `GcsResponse.UnpackingResponse.constructor` | src/globus_sdk/services/gcs/response.py:52-65 | stores the body and the resolved predicate; starts in the "not yet unpacked" state with no stored result |
| `GcsResponse.UnpackingResponse.FullData` | src/globus_sdk/services/gcs/response.py:67-73 | `full_data` is the body as received; it is a function, so reading it changes no memo field |
| `GcsResponse.UnpackingResponse.Unpack` | src/globus_sdk/services/gcs/response.py:75-86 | the in-order loop with early return computes exactly `Unpacked(body, predicate)`; each run adds one to the scan count |
| `GcsResponse.UnpackingResponse.Data` | src/globus_sdk/services/gcs/response.py:88-97 | returns `DataView(body, predicate)` and leaves the memo set. The scan count goes up by one when the memo was unset and is unchanged otherwise, so it is 1 after every access (`FirstMatch`, `DataList`, `Unpacked` and `DataView` are ghost, so in this model `Unpack` is the only code that scans and the only code that increments `unpackCount`; the count is ghost bookkeeping that a method with `modifies this` could also assign). After the first access, the stored value is kept |
| `GcsResponse.UnpackingResponse.Get` | tests/functional/services/gcs/test_collections.py:10-16 | `response[key]` is the key's value in what `data` resolves to, or `None` if `data` is not a dict or has no such key |
| `GcsResponse.ReadTwice` | src/globus_sdk/services/gcs/response.py:88-97 | on one response, two reads of `data` agree and equal the pure view, and the scan ran once over both reads; `full_data` is the same before and after |
| `GcsResponseExamples.GetCollectionEnveloped` | tests/functional/services/gcs/test_collections.py:5-16 | enveloped collection: `data` is the collection without `"detail"`; `full_data` has `result#1.0.0`, `"detail"` and `"data"` |
| `GcsResponseExamples.GetCollectionFlat` | tests/functional/services/gcs/test_collections.py:19-28 | a flat collection is passed through as it is |
| `GcsResponseExamples.GetCollectionBadVersion` | tests/functional/services/gcs/test_collections.py:31-44 | no matching version: `data` is the envelope, with `"detail"` and without the element's `"foo"` |
| `GcsResponseExamples.GetCollectionSideloaded` | tests/functional/services/gcs/test_collections.py:47-58 | a non-matching side-loaded element ahead of the collection is skipped |
| `GcsResponseExamples.GetCollectionIntegerTag` | tests/functional/services/gcs/test_collections.py:61-71 | an integer `"DATA_TYPE"` falls back to the envelope whatever the pattern, and `"detail"` stays visible |
| `GcsResponseExamples.DeleteCollectionEmptyData` | tests/functional/services/gcs/test_collections.py:74-81 | an empty `"data"` list gives the envelope, so `data["detail"]` is `"success"` |
| `GcsResponseExamples.FirstOfTwoMatchesWins` | src/globus_sdk/services/gcs/response.py:83-85 | after skipping a non-dict and a non-match, the first of two matching elements is returned, not the second |
| `GcsResponseExamples.UnparsableBody` | src/globus_sdk/services/gcs/response.py:69-73 | an unparsable body gives an absent `data`, the same as `full_data` |

## Left out

- Regular-expression compilation and matching (`re.compile`, `fullmatch`) are library calls. They are the abstract parameter `fullmatch`. An invalid pattern, which raises at construction, is not modelled.
- A caller-supplied callable in the source may have side effects or raise exceptions. Here it is a pure total function.
- Numbers are integers only. Floats never matter here, because the code only asks whether a value is a string, a dict or a list.
- `GlobusHTTPResponse` and `IterableResponse` (`globus_sdk.response`) are not part of this model. That covers body parsing, status and headers, `__getitem__` beyond a lookup in `data`, and `__iter__`. `IterableGCSResponse` appears only as its constant `DefaultIterKey`.
- `GcsResponse.UnpackingResponse.Data`: "computed once" rests on the ghost counter `unpackCount`, which only `Unpack` increments in this model. Dafny cannot keep a method that has `modifies this` from assigning the counter itself, or from running its own loop over `"data"`. So the counter records the scans of the code as written; it is not a frame-enforced bound.
- `GcsResponse.UnpackingResponse.Get`: does not distinguish the source's `KeyError` from a `TypeError` on a non-dict `data`. Both are `None`.
- `src/globus_sdk/paging/base.py` is left out. It is pagination plumbing driven by network calls and reflection, and it lies outside the unpacking core.
- Python object identity is left out. The source returns the very same object as `full_data` on fallback. The model states value equality.
- Thread safety of the memo is left out. The source is single-threaded and takes no lock.
- The tests' fixture files are not part of this model. The example bodies are representative and hold the keys that the tests check.
