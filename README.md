# Chuck Norris jokes CLI, modelled in Dafny

A model of a small Python command-line client for the chucknorris.io joke
service. It covers three parts of the program:

- the three API calls (`src/api.py`):
  - `get_random_joke`, with its category parameter, its fixed order of error classification and its response shape check;
  - `get_categories`, which passes the response through;
  - `search_jokes`, which cuts the "result" list client-side with a Python slice.
- the record mapping of `src/models.py` (`Joke.from_dict`, `SearchResults.from_dict`);
- the command front end of `src/main.py`:
  - `print_joke`;
  - the three subcommand handlers;
  - `main`, which turns an `AttributeError` into the help text and exit code 1.

Modelling choices:

- **Decoded JSON** (`PyJson.Json`). A dict is an ordered list of members, because Python dicts keep document order and both `str()` and iteration of a dict depend on that order.
- **Python built-ins**. The ones the program applies to decoded values are written out:
  - truthiness, `dict.get`, `in` and iteration;
  - `str()` and `repr()`;
  - `str.join`;
  - the whitespace test behind `strip()`.
- **Transport**. The HTTP call is replaced by an `Api.Outcome`: a timeout, another request error, an undecodable body, or a decoded body. Each API call is split into the `Api.Request` it would send and what it makes of the outcome.
- **Handlers**. Each handler returns a `Cli.Run`: the request sent (if any), the lines printed to standard output, the lines printed to standard error, and how it ended (an exit code, or an exception that nothing caught).
- **Verbose joke output**. `print_joke` prints its verbose header with one `print` of a newline-joined list. The model writes it as one line per part, which gives the same text.
- **Loops**. The two printing loops (categories, search results) and the loop of `SearchResults.from_dict` are methods. The printing loops are proved equal to the functions that specify them (`Cli.CategoryLines`, `Cli.Enumerate`); the `SearchResults.from_dict` loop is proved to give one `JokeFromDict` per item, in order.
- **In-place update**. `search_jokes` updates the response dict in place. `Api.TrimResultInPlace` does that on a `Dict` object, and `Api.TrimResult` is the value it leaves.

Some behaviours of the program worth knowing:

- Verbose joke output prints the joke's text last, after the blank line.
- Falsy categories (missing, null, empty) print no categories line at all.
- Failures of `get_categories` and `search_jokes` reach standard error with the transport's own message, unwrapped.
- An uncaught `TypeError` while printing ends the program after the lines already printed.

## Model

| member | source | states |
|---|---|---|
| PyJson.Lookup | src/models.py:23-27 | `d.get(key)` finds a value exactly when the key is in the dict, and the value it finds is the one stored under that key |
| PyJson.Iterate | src/main.py:57 | a list yields its items, a string its one-character strings, a dict its keys, in order; iterating anything else (None, a bool, an int) raises TypeError |
| PyJson.LStrip | src/main.py:64 | the leading whitespace removed: a suffix whose dropped characters are all whitespace and whose first character is not |
| PyJson.RStrip | src/main.py:64 | the trailing whitespace removed: a prefix whose dropped characters are all whitespace and whose last character is not |
| PyJson.StripEmptyIffAllSpace | src/main.py:64 | `s.strip()` is empty exactly when every character of `s` is whitespace |
| PyJson.Blank | src/main.py:64 | the empty-query test holds exactly when the query is empty or whitespace only |
| PyJson.JoinItemsOk | src/main.py:29 | `', '.join` succeeds exactly when every item is a string, and then it is the plain join of those strings |
| Api.EffectiveTimeout | src/api.py:46 | a missing or zero timeout means the configured default; any other timeout is used as given |
| Api.Raw | src/api.py:69-71 | a failed request that is not wrapped raises the transport's own exception, whose text is the transport's detail |
| Api.RandomJokeRequest | src/api.py:43-46 | the random request goes to /jokes/random with a `category` parameter exactly when the category is non-empty, and with no parameters otherwise |
| Api.RandomJoke | src/api.py:45-63 | the payload is returned unchanged exactly when it is a dict holding "value"; every other outcome is an APIError, in order: timed out, network error with the detail, invalid JSON, unexpected shape |
| Api.CategoriesRequest | src/api.py:68-69 | the categories request goes to /jokes/categories with no parameters |
| Api.Categories | src/api.py:66-71 | the decoded body is returned as it is, order included; a failed request raises the transport's exception unwrapped |
| Api.SearchRequest | src/api.py:76-78 | the search request sends only the query; the limit is not sent |
| Api.SearchJokes | src/api.py:74-84 | a decoded body comes back trimmed by `TrimResult`; a failed request raises the transport's exception unwrapped |
| Api.SliceTo | src/api.py:83 | a slice `s[:limit]` is a prefix of `s`, of length min(limit, len) for limit >= 0, and drops the last -limit items (clamped at empty) for a negative limit |
| Api.SetMember | src/api.py:83 | assigning a key keeps the keys and their order, makes the key map to the new value, and leaves every other key's value alone |
| Api.TrimResult | src/api.py:82-84 | a response that is not a dict with a list "result" is left unchanged; otherwise only "result" changes, to its slice, and every other member ("total" included) and the key order stay |
| Api.TrimResultInPlace | src/api.py:82-83 | the in-place update leaves the dict holding exactly what `TrimResult` describes |
| Api.SetMemberTwice | src/api.py:83 | assigning a key twice leaves what the second assignment wrote |
| Api.TrimResultIdempotent | src/api.py:82-83 | for a non-negative limit, trimming an already trimmed response changes nothing |
| Api.NegativeLimitShrinksAgain | src/api.py:83 | for a negative limit and a list of at least -2*limit items, slicing the slice `[:limit]` again drops another -limit items, so the cut is not idempotent |
| Api.SearchRespectsLimit | src/api.py:81-84 | a search shows at most `limit` results for a non-negative limit, and the service's "total" comes through unchanged |
| Models.JokeFromDict | src/models.py:21-28 | id and value are copied verbatim or default to ""; url and icon_url are copied or default to None; falsy categories (absent, null, empty) become [] and truthy ones are copied |
| Models.JokeRoundTrip | src/models.py:21-28 | a joke whose categories are truthy or [] survives the trip through its dict unchanged |
| Models.JokeFromDictNormalises | src/models.py:21-28 | mapping the dict of a mapped joke gives back the same joke |
| Models.JokesFromItems | src/models.py:38-40 | the loop yields one joke per item, in order, the i-th being `JokeFromDict` of the i-th item, exactly when every item is a dict; otherwise an AttributeError |
| Models.SearchResultsFromDict | src/models.py:36-41 | the result has one joke per input item, in order, the i-th being `JokeFromDict` of the i-th item; a missing "result" gives []; total is the given total or the item count; a non-iterable result is a TypeError and a non-dict item an AttributeError |
| Cli.PrintJoke | src/main.py:20-33 | JSON mode prints only the dump and ignores verbose; plain mode prints only the value (or "(no joke returned)"); verbose prints ID, URL, a Categories line only for truthy categories, a blank line, and the value last; unjoinable categories raise TypeError before any output |
| Cli.HandleRandom | src/main.py:36-44 | exit code 2 exactly when the API call fails, with the error on standard error and nothing on standard output; after a successful fetch the joke as `PrintJoke` renders it and exit code 0, or, exactly when its categories do not join, a TypeError with nothing printed |
| Cli.CategoryLines | src/main.py:57-58 | exactly one line per category, in received order, each the category's `str()` |
| Cli.PrintCategories | src/main.py:57-58 | the printing loop writes exactly `CategoryLines` |
| Cli.HandleCategories | src/main.py:47-59 | exit code 2 with the transport error exactly when the request fails; JSON mode prints the dump; otherwise one line per category and exit code 0, or TypeError for a body that cannot be iterated |
| Cli.ItemLines | src/main.py:84-89 | a result that is not a dict raises AttributeError before any output; without verbose a dict result prints exactly its numbered line |
| Cli.VerboseItemLines | src/main.py:85-89 | in verbose mode a result prints its numbered line and its "   id:" line, then a categories line only for truthy categories that join; a failed join raises TypeError after the id line |
| Cli.PrintResults | src/main.py:83-89 | the listing loop prints each result's lines in turn, numbering from 1, and stops at the first exception, exactly as `Enumerate` specifies |
| Cli.EnumerateFaultFree | src/main.py:83-89 | the listing ends without an exception exactly when no result's lines raise one |
| Cli.EnumerateAppend | src/main.py:83 | listing two runs of results is listing the first and then the second, numbered on from where the first stopped |
| Cli.EnumerateStopsAt | src/main.py:83-89 | a listing cut short at the j-th result keeps every earlier result's lines and the part of the j-th printed before the exception |
| Cli.ListingStopsAt | src/main.py:83-89 | the same for the search listing and the exception `ItemLines` raises |
| Cli.EnumerateSingles | src/main.py:83-84 | when each result prints exactly one line and raises nothing, the listing is those lines in result order |
| Cli.PlainListing | src/main.py:83-84 | without verbose, and with every result a dict, line k is "k. <value>" of the k-th result, in result order |
| Cli.ListingIsText | src/main.py:83-89 | the search listing never prints the help text |
| Cli.HandleSearch | src/main.py:62-90 | an empty or whitespace query gives exit code 2 and the error, with no request; a failed request gives exit code 2 and nothing on standard output; JSON mode prints the whole trimmed response and exit code 0; no results print "No jokes found." and exit code 0; otherwise the listing, ending as the listing ends |
| Cli.SearchListsResults | src/main.py:79-90 | a plain search with a non-empty list of dict results prints exactly one "k. <value>" line per result, in order, and exits 0 |
| Cli.Dispatch | src/main.py:119-121 | the subcommand runs its own handler with the parsed arguments (category, query and limit, verbose, json); handlers only end with exit code 0 or 2, never print the help text, write one error line and no output exactly on exit code 2, and raise only TypeError outside the search listing |
| Cli.Main | src/main.py:115-124 | exit code 1 exactly when the handler raised AttributeError, and then its request, standard error and output followed by the help text; otherwise the handler's run unchanged; exit codes are 0, 1 or 2, 2 exactly for a refused query or a failed API call with one error line and no output; only TypeError escapes; no request exactly for a refused query; JSON output is one dump |
| Cli.SearchNonDictRaises | src/main.py:83-84 | a plain search whose first failing result is not a dict prints the earlier results' lines and ends with an AttributeError |
| Cli.SearchNonDictShowsHelp | src/main.py:120-124 | a plain search whose first failing result is not a dict prints the earlier results' lines, then the help text, and exits 1 |
| Cli.JsonOverridesVerbose | src/main.py:21-23 | with --json the verbose flag changes nothing in any command |
| Cli.EmptyQueryMakesNoRequest | src/main.py:63-66 | a blank query is refused with exit code 2 whatever the service would have answered, and nothing is sent |
| Cli.RandomJokeScenario | src/main.py:36-44 | a random joke {"id": "1", "value": "a funny joke"} prints "a funny joke" alone and exits 0, with no category sent |

## Left out

- HTTP transport. `requests.get`, `raise_for_status`, the base URL and the socket-level failures are all left out: they are network I/O, and their outcome is an input.
- Environment. Reading `CHUCK_API_BASE_URL` and `CHUCK_CLI_TIMEOUT` at import time is ambient configuration; the default timeout is a parameter.
- Argument parsing. `build_parser` and `argparse` parsing (including argparse's own usage errors and exit code 2) belong to a library; parsed arguments are an `Args` record. The help text is the opaque line `Help`.
- `json.dumps`. Its formatting (`indent=2`, `ensure_ascii=False`) belongs to a foreign library; a dump is the opaque line `Dump(v)`.
- Floats. JSON numbers are integers in the model; floats and their `str()` are not modelled.
- `repr` escaping. `repr` of strings escapes ASCII and Latin-1 control characters only; other non-printable Unicode characters are shown as themselves.
- Duplicate keys. Decoded dicts are assumed to hold each key once; lookups take the first member with a key.
- Aliasing. `Api.SearchJokes` returns the trimmed value; aliasing of the response object beyond `Api.TrimResultInPlace` is not modelled, as nothing else holds it.
- Uncaught exceptions. The traceback and exit status of an uncaught exception are represented by the `Raised` status only.
- Models.SearchResultsFromDict: requires "total" to be an int when present; `int()` coercion of other values (strings, floats, bools) is not modelled.
- `src/__init__.py` only re-exports modules and is not part of this model.
