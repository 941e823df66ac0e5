# Place search over OpenStreetMap's Overpass API — a Dafny model

This project models the two query helpers of a city-exploration web app and
proves properties of them.

- `lib/overpass.ts` holds the place-search pipeline, in three parts:
  - `buildOverpassQuery` turns interest categories into Overpass QL
    statements. It uses the table `CATEGORY_TO_FILTERS` and falls back to
    one generic `node["amenity"]` statement when no category matches.
  - `callOverpass` posts the query to four mirror endpoints in a fixed
    order. It returns the first parsed body and otherwise throws the last
    recorded error.
  - `searchPlaces` maps the answer's `elements` into places and drops
    those without coordinates.
- `lib/osm.ts` holds `buildOverpassAround`, a second query builder. It has
  its own table `TAGS_MAP`, takes a radius in kilometres with a 2 km
  default, uses the topic `lecture` by default, writes `*` values as
  presence filters, and has no fallback statement.

Modules, one per file:

- `Wrappers` (`wrappers.dfy`): `Option` (JavaScript `undefined`) and
  `Result` (a value or a thrown error).
- `Text` (`text.dfy`): `Array.prototype.join`, and the decimal text of
  integers as a template literal prints them below 10^21 (JavaScript
  switches to exponent form from there on), with its inverse.
- `QueryLang` (`query_lang.dfy`): the statement records both builders
  emit. Each is a kind (node, way, relation), a tag filter and an
  `around:radius,lat,lon` constraint. `Blocks` gives the three statements
  per filter that both builders push, and `TableFilters` the filters of a
  list of names looked up in a table, which both builders share with their
  own rule for turning a pair into a filter.
- `Overpass` (`overpass.dfy`): `buildOverpassQuery`, `callOverpass` and
  `searchPlaces`. The builder and the fallback loop are methods with loops,
  proved against the functions `QueryClauses`/`QueryText` and
  `TryEndpoints`.
- `Places` (`places.dfy`): the normalisation inside `searchPlaces`. It is
  a `map` plus a `filter`, modelled as functions.
- `Osm` (`osm.dfy`): `TAGS_MAP` and `buildOverpassAround`. Its nested
  `forEach` loops are methods proved against `AroundClauses`/`AroundQuery`.

Both builders return the statement records they pushed together with the
query text; the text is a function of the records. Coordinates are opaque
text, because the query writes them as JavaScript prints a number. Radii are
integers, written in decimal.

Three behaviours of the code worth knowing:

- The `sport=*` entry of `CATEGORY_TO_FILTERS` becomes the equality filter
  `["sport"="*"]`, not a presence filter (`Overpass.SportWildcardText`). In
  `lib/osm.ts`, `*` does give a presence filter (`Osm.SportPresence`).
- The name of an unnamed place is `(sans nom)`. It is also used when the
  `name` tag is the empty string (`Places.PlaceNameRule`).
- `Overpass: no endpoint available` is only thrown when there is no
  endpoint to try, which never happens with the four mirrors
  (`Overpass.NoEndpointRetried`).

## Model

| member | source | states |
|---|---|---|
| Text.ParseNatToString | lib/overpass.ts:53-55 | reading back the decimal text of a natural number gives the number |
| Text.ParseIntToString | lib/overpass.ts:53-55 | reading back the text of any integer gives the integer, so distinct radii and statuses are written differently |
| QueryLang.Blocks | lib/overpass.ts:51-56 | pushing three statements per filter gives three times as many statements as filters |
| QueryLang.BlocksAt | lib/overpass.ts:53-55 | statement `3j+t` is the node, way or relation statement (t = 0, 1, 2) for the `j`-th filter: filters keep their order and each gets all three kinds |
| QueryLang.BlocksMembers | lib/osm.ts:18-20 | every statement pushed carries the one `around` constraint and one of the given filters |
| QueryLang.BlocksAppend | lib/osm.ts:15-22 | the statements for two runs of filters are those of the first run followed by those of the second |
| QueryLang.BlocksSnoc | lib/overpass.ts:51-56 | one more pair adds exactly its node, way and relation statements at the end |
| Overpass.IndexFromFinds | lib/overpass.ts:52 | no `=` lies before the found position, and the found position holds `=` unless it is the end |
| Overpass.SplitJoin | lib/overpass.ts:52 | `split("=")` of `k=v` gives back `k` and `v` when neither contains `=` |
| Overpass.PushPairs | lib/overpass.ts:51-56 | the inner loop appends the node, way and relation statements of every entry of a category, in table order, after what was already pushed |
| Overpass.BuildOverpassQuery | lib/overpass.ts:45-70 | the statements pushed are the blocks of all listed categories, or the single generic statement when there are none, and the query is their wrapped text |
| Overpass.TableHasNoEquals | lib/overpass.ts:15-43 | no key or value of the category table contains `=` |
| Overpass.CategoryFiltersVerbatim | lib/overpass.ts:50-53 | every category's filters are equality filters on its table keys and values, verbatim and in table order |
| Overpass.LectureTable | lib/overpass.ts:22-25 | `lecture` gives `amenity=library` then `shop=books` |
| Overpass.SportWildcardText | lib/overpass.ts:28 | the `sport=*` entry gives the equality filter `["sport"="*"]`, not a presence filter |
| QueryLang.TableFiltersAppend | lib/overpass.ts:49-57 | for any table and filter rule, the filters of two name lists are those of the first followed by those of the second; as in the category loop and in the topic loop at lib/osm.ts:15-22 |
| QueryLang.UnknownNameIgnored | lib/overpass.ts:50 | a name missing from the table (a category, or a topic at lib/osm.ts:16) looks up no pairs and adds nothing, wherever it stands |
| QueryLang.SingleName | lib/overpass.ts:49-50 | a one-name list gives exactly that name's filters |
| QueryLang.DuplicateNameRepeated | lib/overpass.ts:49-50 | a name listed twice contributes its filters twice: nothing is de-duplicated |
| QueryLang.TableFiltersCount | lib/overpass.ts:49-57 | one filter per table pair of the listed names, for both builders (lib/osm.ts:15-21) |
| QueryLang.OnlyUnknownNames | lib/osm.ts:16 | a list made only of names missing from the table gives no filter |
| Overpass.TagFiltersAreEquals | lib/overpass.ts:52-55 | every filter pushed for a category is an equality filter |
| Overpass.QueryClauseCount | lib/overpass.ts:49-61 | three statements per table pair when there is at least one pair; otherwise exactly the generic `node["amenity"]` statement, so the list is never empty |
| Overpass.QueryClauseOrder | lib/overpass.ts:49-57 | statement `3j+t` is the node, way or relation statement for the `j`-th pair over the categories in list order and pairs in table order |
| Overpass.QueryClausesShareAround | lib/overpass.ts:53-60 | all statements share one `around:radius,lat,lon`, and only the generic statement uses a presence filter |
| Overpass.LectureExample | lib/overpass.ts:22-25 | `lecture` alone gives six statements: node, way and relation for `library`, then for `books` |
| Overpass.QueryShape | lib/overpass.ts:63-69 | the query opens with `[out:json][timeout:25];` and `(`, closes with `);` and `out center 60;`, and its body starts with a node statement |
| Overpass.AttemptRules | lib/overpass.ts:87-100 | a thrown `fetch` and an unparsable body are recorded as thrown errors, a status that is not ok is recorded as that status, and only an ok response with a parsed body ends the call |
| Overpass.StatusMessage | lib/overpass.ts:94 | the recorded message is `Overpass ` followed by the status, which can be read back from it |
| Overpass.CallEndpoints | lib/overpass.ts:85-102 | the loop returns, and posts to exactly the endpoints, that the reference definition of the fallback gives |
| Overpass.CallOverpass | lib/overpass.ts:79-103 | `callOverpass` is the fallback loop over the four mirrors |
| Overpass.TriedIsPrefix | lib/overpass.ts:86 | endpoints are posted to in list order, a prefix of the list, and at least one when the list is not empty |
| Overpass.FirstSuccessWins | lib/overpass.ts:86-97 | when the first `k` endpoints fail and endpoint `k` succeeds, its body is returned after exactly `k+1` attempts |
| Overpass.AllFail | lib/overpass.ts:86-102 | when every endpoint fails all are tried, and the last endpoint's error is thrown |
| Overpass.SucceedsIff | lib/overpass.ts:86-102 | the call succeeds exactly when some endpoint's attempt succeeds |
| Overpass.NoEndpointOnlyWhenEmpty | lib/overpass.ts:102 | `no endpoint available` is thrown only when nothing was tried and no error was recorded |
| Overpass.EndpointsDistinct | lib/overpass.ts:72-77 | the four mirrors are distinct URLs |
| Overpass.NoEndpointRetried | lib/overpass.ts:72-102 | one call makes one to four attempts, never posts to an endpoint twice, and never throws `no endpoint available` |
| Overpass.SearchPlaces | lib/overpass.ts:105-118 | the result is the normalised body of the call for the built query, or the call's error unchanged; every place returned is located and named |
| Places.KeepLocated | lib/overpass.ts:116 | the filter never lengthens the list |
| Places.KeepLocatedAppend | lib/overpass.ts:116 | the filter keeps order: filtering two runs gives the kept places of the first followed by those of the second |
| Places.KeepLocatedMembers | lib/overpass.ts:116 | a place is kept exactly when it is in the input and both coordinates are truthy |
| Places.MissingElementsGiveNoPlaces | lib/overpass.ts:109 | an answer without `elements`, or with none, gives no places rather than an error |
| Places.NormaliseByElement | lib/overpass.ts:109-116 | normalisation goes element by element in answer order: one element gives its place or nothing, and two runs give their places in sequence |
| Places.NormalisedPlaces | lib/overpass.ts:109-117 | every place returned comes from an element, is located and has a non-empty name, and there are no more places than elements |
| Places.PlaceNameRule | lib/overpass.ts:112 | a non-empty `name` tag is the name; when the tag is absent or empty the name is `(sans nom)`; so the name is never empty |
| Places.PlacePositionRule | lib/overpass.ts:111-115 | `id` is copied, missing tags become `{}`, a node takes its own coordinates and anything else its `center`; without a `center` it is not located |
| Places.WayExample | lib/overpass.ts:110-116 | a named way with a centre becomes one place at that centre |
| Places.DroppedExamples | lib/overpass.ts:116 | an element without coordinates, and a node at latitude 0, are both dropped |
| Osm.RadiusMetres | lib/osm.ts:12 | a missing or zero radius gives 2000 m; otherwise the metres are the kilometres times 1000 rounded down |
| Osm.PushPairs | lib/osm.ts:16-21 | the inner loop appends the node, way and relation statements of every pair of a topic, in table order, after what was already pushed |
| Osm.PushTopics | lib/osm.ts:15-22 | the outer loop pushes the blocks of every selected topic, in list order |
| Osm.BuildOverpassAround | lib/osm.ts:11-29 | the statements pushed are the blocks of the selected topics around the converted radius, and the query is their wrapped text |
| Osm.OnlyUnknownTopics | lib/osm.ts:16-28 | a non-empty list of unknown topics gives no statement (no fallback) and a query with an empty line between its parentheses |
| Osm.EmptyQuery | lib/osm.ts:23-28 | the query for no statements is exactly `[out:json][timeout:25];`, `(`, an empty line, `);`, `out center;` |
| Osm.BlockCount | lib/osm.ts:15-21 | three statements per table pair of the selected topics, and none at all exactly when they have no pairs (no fallback statement) |
| Osm.BlockOrder | lib/osm.ts:15-21 | three statements per table pair of the selected topics; statement `3j+t` is the node, way or relation statement for the `j`-th pair |
| Osm.BlocksShareAround | lib/osm.ts:12-20 | every statement carries `around:radiusM,lat,lon` with the converted radius, and a filter of a selected topic |
| Osm.DefaultTopics | lib/osm.ts:13 | a missing or empty topic list behaves as `['lecture']`; any other list is used as given |
| Osm.TableStars | lib/osm.ts:1-9 | in the topic table, `*` appears only as a whole value |
| Osm.FilterRule | lib/osm.ts:17 | a `*` value gives the presence filter `[k]`, any other value `[k="v"]`, and neither contains `*` when the pair has none apart from a whole `*` value |
| Osm.NoStarInFilters | lib/osm.ts:16-17 | no filter written for any topic list contains `*` |
| Osm.SportPresence | lib/osm.ts:4 | `sport` gives two equality filters and the presence filter `[sport]` |
| Osm.LectureExample | lib/osm.ts:2 | the default topic gives `library`, `books` and `public_bookcase`, so nine statements |
| Osm.AroundQueryShape | lib/osm.ts:24-28 | the query opens with `[out:json][timeout:25];` and `(` and closes with `);` and `out center;`, with no result cap |

## Left out

- The React components, the Leaflet map and its tile-provider fallback, and
  geocoding: they are user interface and network code.
- `haversineKm` in `lib/osm.ts`: it is floating-point trigonometry.
- The HTTP request of `callOverpass`, its headers and form encoding. The
  network is a function from endpoint and query to an outcome: a thrown
  error, or a status with a body that parses or not. The call is not
  asynchronous in the model.
- JSON parsing: a body either parses to the fields `searchPlaces` reads or
  it does not. Fields of unexpected JavaScript types, and a `null` body, are
  not modelled.
- How JavaScript prints a number: coordinates stay as given text, and
  `radiusMeters` is an integer. Text.IntToString writes every digit, while
  a template literal prints an integer of magnitude 10^21 or more in
  exponent form (`1e+21`); such radii (`radiusKm` of 10^18 km or more in
  `lib/osm.ts`) and statuses are written differently in the model.
- `NaN` and non-numeric radii or coordinates. The truthiness checks cover
  missing and zero values only.
- Osm.RadiusMetres: multiplies exact reals, not IEEE doubles, so a product
  that a double rounds across an integer may floor differently.
- Table lookups by inherited object keys (`toString` and the like): a name
  missing from a table gives no pairs.
- A thrown value that is `null` or `undefined`, which `lastError ?? …`
  would replace by the `no endpoint available` error: the model records
  thrown errors with a message.
- Both builders return the pushed statements as records next to the query
  text. `callOverpass` also returns the list of endpoints it posted to.
  These are observations for the proofs; the source returns only the text
  or the body.
