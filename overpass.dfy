/** The place-search pipeline of lib/overpass.ts: building an Overpass QL
    query from interest categories, posting it to a list of mirror endpoints
    until one answers, and normalising the answer's elements into places. */
module Overpass {
  import opened Wrappers
  import opened Text
  import opened QueryLang
  import opened Places

  // ---------------------------------------------------------------------
  // Query building
  // ---------------------------------------------------------------------

  /** The category table. The source writes each entry as one `key=value`
      string; `EntryText` gives that string back. */
  const CategoryToFilters: map<string, seq<TagPair>> := map[
    "musique" := [TagPair("amenity", "music_school"), TagPair("amenity", "theatre"),
                  TagPair("amenity", "arts_centre"), TagPair("shop", "musical_instrument")],
    "lecture" := [TagPair("amenity", "library"), TagPair("shop", "books")],
    "sport" := [TagPair("leisure", "fitness_centre"), TagPair("sport", "*"),
                TagPair("amenity", "dojo"), TagPair("leisure", "sports_centre")],
    "art" := [TagPair("tourism", "museum"), TagPair("amenity", "arts_centre"),
              TagPair("amenity", "theatre"), TagPair("amenity", "community_centre")],
    "nature" := [TagPair("leisure", "park"), TagPair("natural", "wood"), TagPair("leisure", "garden")]
  ]

  /** A table entry as the source spells it. */
  function EntryText(p: TagPair): string {
    p.key + "=" + p.value
  }

  datatype Center = Center(lat: Coord, lon: Coord)

  /** The search request: a city centre, a radius in metres and the selected
      category names, in the order the caller lists them. */
  datatype Filters = Filters(cityCenter: Center, radiusMeters: int, categories: seq<string>)

  function AroundOf(filters: Filters): Around {
    Around(filters.radiusMeters, filters.cityCenter.lat, filters.cityCenter.lon)
  }

  /** The first index at or after `i` where `s` holds `c`, or `|s|`. */
  function IndexFrom(s: string, c: char, i: nat): (j: nat)
    requires i <= |s|
    ensures i <= j <= |s|
    decreases |s| - i
  {
    if i == |s| || s[i] == c then i else IndexFrom(s, c, i + 1)
  }

  lemma {:induction false} IndexFromFinds(s: string, c: char, i: nat)
    requires i <= |s|
    ensures var j := IndexFrom(s, c, i);
            (forall m :: i <= m < j ==> s[m] != c) && (j < |s| ==> s[j] == c)
    decreases |s| - i
  {
    if i < |s| && s[i] != c {
      IndexFromFinds(s, c, i + 1);
    }
  }

  /** `const [k, v] = pair.split("=")`: the text before the first `=` and the
      text between it and the next `=` (or the end). Without any `=` there is
      no second piece, and the template literal then prints "undefined". */
  function SplitPair(s: string): TagPair {
    var e := IndexFrom(s, '=', 0);
    if e == |s| then TagPair(s, "undefined")
    else TagPair(s[..e], s[e + 1..IndexFrom(s, '=', e + 1)])
  }

  /** Splitting undoes writing a pair as `key=value` whenever neither side
      contains `=`. */
  lemma SplitJoin(k: string, v: string)
    requires '=' !in k && '=' !in v
    ensures SplitPair(k + "=" + v) == TagPair(k, v)
  {
    var s := k + "=" + v;
    assert forall m :: 0 <= m < |k| ==> s[m] == k[m];
    assert forall m :: |k| < m < |s| ==> s[m] == v[m - |k| - 1];
    assert s[|k|] == '=';
    IndexFromFinds(s, '=', 0);
    var e := IndexFrom(s, '=', 0);
    assert e == |k|;
    IndexFromFinds(s, '=', e + 1);
    assert IndexFrom(s, '=', e + 1) == |s|;
    assert s[..e] == k && s[e + 1..|s|] == v;
  }

  /** The filter pushed for a table entry: its `key=value` text is split
      again at `=`, and the two pieces make an equality filter. */
  function EntryFilter(p: TagPair): TagFilter {
    var kv := SplitPair(EntryText(p));
    Equals(kv.key, kv.value)
  }

  /** `CATEGORY_TO_FILTERS[cat] || []`. */
  function RawPairs(cat: string): seq<TagPair> {
    Lookup(CategoryToFilters, cat)
  }

  /** The generic statement used when no category contributes anything. */
  function GenericClause(a: Around): Clause {
    Clause(Node, Present("amenity"), a)
  }

  /** The statements of the query for `cats`. */
  function QueryClauses(table: Table, cats: seq<string>, a: Around): seq<Clause> {
    var tagged := Blocks(TableFilters(table, EntryFilter, cats), a);
    if |tagged| == 0 then [GenericClause(a)] else tagged
  }

  /** `["k"="v"]` and `["k"]`. */
  function FilterText(f: TagFilter): string {
    match f
    case Equals(k, v) => "[\"" + k + "\"=\"" + v + "\"]"
    case Present(k) => "[\"" + k + "\"]"
  }

  function ClauseText(c: Clause): string {
    KindName(c.kind) + FilterText(c.filter) + "(" + AroundText(c.around) + ");"
  }

  function ClauseTexts(cs: seq<Clause>): seq<string> {
    seq(|cs|, i requires 0 <= i < |cs| => ClauseText(cs[i]))
  }

  const Prologue := "\n  [out:json][timeout:25];\n  (\n    "
  const Separator := "\n    "
  const Epilogue := "\n  );\n  out center 60;\n  "

  function QueryText(cs: seq<Clause>): string {
    Prologue + Join(ClauseTexts(cs), Separator) + Epilogue
  }

  /** The `for…of` loop of `buildOverpassQuery` over the entries of one
      category: pushes a node, a way and a relation statement for each
      entry, in table order. */
  method PushPairs(tagClauses: seq<Clause>, pairs: seq<TagPair>, a: Around) returns (pushed: seq<Clause>)
    ensures pushed == tagClauses + Blocks(PairFilters(EntryFilter, pairs), a)
  {
    pushed := tagClauses;
    for j := 0 to |pairs|
      invariant pushed == tagClauses + Blocks(PairFilters(EntryFilter, pairs[..j]), a)
    {
      ghost var before := pushed;
      var p := SplitPair(EntryText(pairs[j]));
      var f := Equals(p.key, p.value);
      pushed := pushed + [Clause(Node, f, a)];
      pushed := pushed + [Clause(Way, f, a)];
      pushed := pushed + [Clause(Relation, f, a)];
      assert pushed == before + Block(f, a);
      PushPair(EntryFilter, pairs, j, a);
    }
    assert pairs[..|pairs|] == pairs;
  }

  /** `buildOverpassQuery`: pushes three statements per pair of each listed
      category, falls back to the generic statement when none was pushed,
      and wraps the statements into the query text. */
  method BuildOverpassQuery(filters: Filters) returns (tagClauses: seq<Clause>, query: string)
    ensures tagClauses == QueryClauses(CategoryToFilters, filters.categories, AroundOf(filters))
    ensures query == QueryText(tagClauses)
  {
    var a := AroundOf(filters);
    var cats := filters.categories;
    tagClauses := [];
    for i := 0 to |cats|
      invariant tagClauses == Blocks(TableFilters(CategoryToFilters, EntryFilter, cats[..i]), a)
    {
      var pairs := Lookup(CategoryToFilters, cats[i]);
      tagClauses := PushPairs(tagClauses, pairs, a);
      TableFiltersPrefix(CategoryToFilters, EntryFilter, cats, i);
      BlocksAppend(TableFilters(CategoryToFilters, EntryFilter, cats[..i]), NameFilters(CategoryToFilters, EntryFilter, cats[i]), a);
    }
    assert cats[..|cats|] == cats;
    if |tagClauses| == 0 {
      tagClauses := [GenericClause(a)];
    }
    query := QueryText(tagClauses);
  }

  predicate NoEquals(ps: seq<TagPair>) {
    forall i :: 0 <= i < |ps| ==> '=' !in ps[i].key && '=' !in ps[i].value
  }

  /** No key or value of the table contains `=`. */
  lemma TableHasNoEquals(cat: string)
    ensures NoEquals(RawPairs(cat))
  {
    if cat == "musique" {
      MusiqueNoEquals();
    } else if cat == "lecture" {
      LectureNoEquals();
    } else if cat == "sport" {
      SportNoEquals();
    } else if cat == "art" {
      ArtNoEquals();
    } else if cat == "nature" {
      NatureNoEquals();
    } else {
      assert cat !in CategoryToFilters;
    }
  }

  /** Since no entry of the table contains `=`, splitting each `key=value`
      entry gives back its key and value: a category's filters are equality
      filters on its keys and values, verbatim and in table order. */
  lemma CategoryFiltersVerbatim(cat: string)
    ensures |NameFilters(CategoryToFilters, EntryFilter, cat)| == |RawPairs(cat)|
    ensures forall i :: 0 <= i < |RawPairs(cat)| ==>
              NameFilters(CategoryToFilters, EntryFilter, cat)[i] == Equals(RawPairs(cat)[i].key, RawPairs(cat)[i].value)
  {
    TableHasNoEquals(cat);
    var raw := RawPairs(cat);
    forall i | 0 <= i < |raw|
      ensures NameFilters(CategoryToFilters, EntryFilter, cat)[i] == Equals(raw[i].key, raw[i].value)
    {
      assert NameFilters(CategoryToFilters, EntryFilter, cat)[i] == EntryFilter(raw[i]);
      SplitJoin(raw[i].key, raw[i].value);
    }
  }

  /** The `lecture` entries give equality filters on `amenity=library` and
      `shop=books`. */
  lemma LectureTable()
    ensures NameFilters(CategoryToFilters, EntryFilter, "lecture") == [Equals("amenity", "library"), Equals("shop", "books")]
  {
    CategoryFiltersVerbatim("lecture");
  }

  /** The `sport=*` entry gives the equality filter `["sport"="*"]`, which
      asks for the literal value `*`, not a presence filter. */
  lemma SportWildcardText()
    ensures NameFilters(CategoryToFilters, EntryFilter, "sport")[1] == Equals("sport", "*")
    ensures FilterText(NameFilters(CategoryToFilters, EntryFilter, "sport")[1]) == "[\"sport\"=\"*\"]"
  {
    CategoryFiltersVerbatim("sport");
    assert RawPairs("sport")[1] == TagPair("sport", "*");
  }

  /** Every filter pushed for a category is an equality filter. */
  lemma {:induction false} TagFiltersAreEquals(table: Table, cats: seq<string>)
    ensures forall f :: f in TableFilters(table, EntryFilter, cats) ==> f.Equals?
    decreases |cats|
  {
    if cats != [] {
      TagFiltersAreEquals(table, cats[..|cats| - 1]);
      var last := NameFilters(table, EntryFilter, cats[|cats| - 1]);
      assert forall f :: f in last ==> f.Equals?;
    }
  }

  /** The statement count is three per table pair of the listed categories
      when that is positive; otherwise the query holds exactly the generic
      `node["amenity"]` statement, so it is never empty. */
  lemma QueryClauseCount(table: Table, cats: seq<string>, a: Around)
    ensures TotalPairs(table, cats) > 0 ==> |QueryClauses(table, cats, a)| == 3 * TotalPairs(table, cats)
    ensures TotalPairs(table, cats) == 0 ==> QueryClauses(table, cats, a) == [GenericClause(a)]
  {
    TableFiltersCount(table, EntryFilter, cats);
  }

  /** Statement `3 * j + t` is the `t`-th kind (node, way, relation) for the
      `j`-th pair over the categories in list order, each pair in table
      order. */
  lemma QueryClauseOrder(table: Table, cats: seq<string>, a: Around, j: nat, t: nat)
    requires j < TotalPairs(table, cats) && t < 3
    ensures j < |TableFilters(table, EntryFilter, cats)| && 3 * j + t < |QueryClauses(table, cats, a)|
    ensures QueryClauses(table, cats, a)[3 * j + t] == Clause(KindAt(t), TableFilters(table, EntryFilter, cats)[j], a)
  {
    TableFiltersCount(table, EntryFilter, cats);
    BlocksAt(TableFilters(table, EntryFilter, cats), a, j, t);
  }

  /** All statements share one `around:radius,lat,lon`, and only the generic
      statement uses a presence filter. */
  lemma QueryClausesShareAround(table: Table, cats: seq<string>, a: Around)
    ensures forall c :: c in QueryClauses(table, cats, a) ==> c.around == a
    ensures forall c :: c in QueryClauses(table, cats, a) && c.filter.Present? ==> c == GenericClause(a)
  {
    BlocksMembers(TableFilters(table, EntryFilter, cats), a);
    TagFiltersAreEquals(table, cats);
  }

  /** `lecture` alone, around (48.0061, 0.1996) within 3000 m: a node, a way
      and a relation statement for `amenity=library`, then for `shop=books`. */
  lemma LectureExample()
    ensures var a := Around(3000, "48.0061", "0.1996");
            QueryClauses(CategoryToFilters, ["lecture"], a)
            == [Clause(Node, Equals("amenity", "library"), a), Clause(Way, Equals("amenity", "library"), a),
                Clause(Relation, Equals("amenity", "library"), a),
                Clause(Node, Equals("shop", "books"), a), Clause(Way, Equals("shop", "books"), a),
                Clause(Relation, Equals("shop", "books"), a)]
  {
    var a := Around(3000, "48.0061", "0.1996");
    LectureTable();
    assert ["lecture"][..0] == [];
    var fs := NameFilters(CategoryToFilters, EntryFilter, "lecture");
    assert TableFilters(CategoryToFilters, EntryFilter, ["lecture"]) == fs;
    assert fs[..1][..0] == [];
    assert fs[..|fs| - 1] == fs[..1];
    assert Blocks(fs, a) == Block(fs[0], a) + Block(fs[1], a);
    assert QueryClauses(CategoryToFilters, ["lecture"], a) == Blocks(fs, a);
  }

  /** The query text opens with `[out:json][timeout:25];` and `(`, closes with
      `);` and `out center 60;`, and what stands between them starts with a
      node statement, so it is never empty. */
  lemma QueryShape(table: Table, cats: seq<string>, a: Around)
    ensures var q := QueryText(QueryClauses(table, cats, a));
            |Prologue| + 4 + |Epilogue| <= |q|
            && q[..|Prologue|] == Prologue
            && q[|q| - |Epilogue|..] == Epilogue
            && q[|Prologue|..|Prologue| + 4] == "node"
  {
    var cs := QueryClauses(table, cats, a);
    QueryClauseCount(table, cats, a);
    if TotalPairs(table, cats) > 0 {
      QueryClauseOrder(table, cats, a, 0, 0);
    }
    TextShape(cs);
  }

  lemma TextShape(cs: seq<Clause>)
    requires |cs| >= 1 && cs[0].kind == Node
    ensures var q := QueryText(cs);
            |Prologue| + 4 + |Epilogue| <= |q|
            && q[..|Prologue|] == Prologue
            && q[|q| - |Epilogue|..] == Epilogue
            && q[|Prologue|..|Prologue| + 4] == "node"
  {
    var body := Join(ClauseTexts(cs), Separator);
    BodyStartsWithNode(cs);
    Wrapped(Prologue, body, Epilogue, 4);
  }

  lemma BodyStartsWithNode(cs: seq<Clause>)
    requires |cs| >= 1 && cs[0].kind == Node
    ensures var body := Join(ClauseTexts(cs), Separator);
            4 <= |body| && body[..4] == "node"
  {
    var texts := ClauseTexts(cs);
    var body := Join(texts, Separator);
    var t0 := texts[0];
    assert t0[..4] == "node" by {
      assert t0 == "node" + (FilterText(cs[0].filter) + "(" + AroundText(cs[0].around) + ");");
    }
    JoinStartsWithFirst(texts, Separator);
    PrefixOfPrefix(body, t0, 4);
  }

  lemma PrefixOfPrefix(s: string, t: string, n: nat)
    requires |t| <= |s| && s[..|t|] == t && n <= |t|
    ensures s[..n] == t[..n]
  {
    assert s[..n] == s[..|t|][..n];
  }

  // ---------------------------------------------------------------------
  // Per-category facts behind `TableHasNoEquals`: each category's entries,
  // and the strings in them, are checked in lemmas of their own so that no
  // proof has the whole literal table in view.
  // ---------------------------------------------------------------------

  lemma MusiqueNoEquals()
    ensures NoEquals(RawPairs("musique"))
  {
    assert RawPairs("musique") == [TagPair("amenity", "music_school"), TagPair("amenity", "theatre"), TagPair("amenity", "arts_centre"), TagPair("shop", "musical_instrument")];
    MusiqueText();
  }

  lemma MusiqueText()
    ensures '=' !in "amenity" && '=' !in "music_school" && '=' !in "theatre" && '=' !in "arts_centre" && '=' !in "shop" && '=' !in "musical_instrument"
  {
  }

  lemma LectureNoEquals()
    ensures NoEquals(RawPairs("lecture"))
  {
    assert RawPairs("lecture") == [TagPair("amenity", "library"), TagPair("shop", "books")];
    LectureText();
  }

  lemma LectureText()
    ensures '=' !in "amenity" && '=' !in "library" && '=' !in "shop" && '=' !in "books"
  {
  }

  lemma SportNoEquals()
    ensures NoEquals(RawPairs("sport"))
  {
    assert RawPairs("sport") == [TagPair("leisure", "fitness_centre"), TagPair("sport", "*"), TagPair("amenity", "dojo"), TagPair("leisure", "sports_centre")];
    SportText();
  }

  lemma SportText()
    ensures '=' !in "leisure" && '=' !in "fitness_centre" && '=' !in "sport" && '=' !in "*" && '=' !in "amenity" && '=' !in "dojo" && '=' !in "sports_centre"
  {
  }

  lemma ArtNoEquals()
    ensures NoEquals(RawPairs("art"))
  {
    assert RawPairs("art") == [TagPair("tourism", "museum"), TagPair("amenity", "arts_centre"), TagPair("amenity", "theatre"), TagPair("amenity", "community_centre")];
    ArtText();
  }

  lemma ArtText()
    ensures '=' !in "tourism" && '=' !in "museum" && '=' !in "amenity" && '=' !in "arts_centre" && '=' !in "theatre" && '=' !in "community_centre"
  {
  }

  lemma NatureNoEquals()
    ensures NoEquals(RawPairs("nature"))
  {
    assert RawPairs("nature") == [TagPair("leisure", "park"), TagPair("natural", "wood"), TagPair("leisure", "garden")];
    NatureText();
  }

  lemma NatureText()
    ensures '=' !in "leisure" && '=' !in "park" && '=' !in "natural" && '=' !in "wood" && '=' !in "garden"
  {
  }

  // ---------------------------------------------------------------------
  // Endpoint fallback
  // ---------------------------------------------------------------------

  /** The mirrors of the Overpass service, in the order they are tried. */
  const OverpassEndpoints: seq<string> := [
    "https://overpass.kumi.systems/api/interpreter",
    "https://overpass.openstreetmap.ru/api/interpreter",
    "https://overpass-api.nextzen.org/api/interpreter",
    "https://overpass-api.de/api/interpreter"
  ]

  /** An error recorded for an endpoint (`Thrown` carries what `fetch` or
      `res.json()` threw), or the one raised when none was recorded. */
  datatype Error = Thrown(message: string) | HttpStatus(status: int) | NoEndpoint

  function ErrorMessage(e: Error): string {
    match e
    case Thrown(m) => m
    case HttpStatus(status) => "Overpass " + IntToString(status)
    case NoEndpoint => "Overpass: no endpoint available"
  }

  /** What `res.json()` makes of a response body. */
  datatype Json = Parsed(body: Body) | Unparsable(message: string)

  /** What posting the query to one endpoint ends in: `fetch` throws, or a
      response arrives with a status and a body. */
  datatype Outcome = NetworkFailure(message: string) | Response(status: int, json: Json)

  /** The network, as the outcome of posting a query to an endpoint. For a
      list without repeated URLs, which `EndpointsDistinct` shows of the four
      mirrors, each endpoint is posted to at most once per call, so a
      function of the URL and the query covers every behaviour one call can
      see; a URL listed twice gets the same outcome both times. */
  type Network = (string, string) -> Outcome

  /** `res.ok`. */
  predicate IsOk(status: int) {
    200 <= status <= 299
  }

  /** The `try` block for one endpoint: the parsed body it returns, or the
      error it records — `Overpass <status>` for a response that is not ok,
      and what `fetch` or `res.json()` threw otherwise. */
  function Attempt(o: Outcome): Result<Body, Error> {
    match o
    case NetworkFailure(m) => Failure(Thrown(m))
    case Response(status, json) =>
      if !IsOk(status) then Failure(HttpStatus(status))
      else match json
        case Parsed(b) => Success(b)
        case Unparsable(m) => Failure(Thrown(m))
  }

  predicate Fails(o: Outcome) {
    Attempt(o).Failure?
  }

  /** What a call returns or throws, and the endpoints it posted to. */
  datatype Call = Call(result: Result<Body, Error>, tried: seq<string>)

  /** What one attempt records: a thrown `fetch` error and a body that
      `res.json()` cannot parse are both recorded as thrown (the parse sits
      inside the `try`), a response that is not ok records its status, and
      only an ok response with a parsed body ends the call. */
  lemma AttemptRules(o: Outcome)
    ensures o.NetworkFailure? ==> Attempt(o) == Failure(Thrown(o.message))
    ensures o.Response? && !IsOk(o.status) ==> Attempt(o) == Failure(HttpStatus(o.status))
    ensures o.Response? && IsOk(o.status) && o.json.Unparsable? ==> Attempt(o) == Failure(Thrown(o.json.message))
    ensures !Fails(o) <==> o.Response? && IsOk(o.status) && o.json.Parsed?
    ensures !Fails(o) ==> Attempt(o) == Success(o.json.body)
  {
  }

  /** The message recorded for a response that is not ok is `Overpass `
      followed by the status, which can be read back from it. */
  lemma StatusMessage(status: int)
    ensures var m := ErrorMessage(HttpStatus(status));
            |m| > 9 && m[..9] == "Overpass "
            && (m[9] == '-' ==> AllDigits(m[10..])) && (m[9] != '-' ==> AllDigits(m[9..]))
            && ParseInt(m[9..]) == status
  {
    var m := ErrorMessage(HttpStatus(status));
    assert m[9..] == IntToString(status);
    ParseIntToString(status);
  }

  /** The fallback loop over the endpoints `eps` still to try, with the last
      error recorded so far. */
  function TryEndpoints(eps: seq<string>, query: string, fetch: Network, lastError: Option<Error>): Call
    decreases |eps|
  {
    if eps == [] then Call(Failure(lastError.GetOr(NoEndpoint)), [])
    else
      match Attempt(fetch(eps[0], query))
      case Success(b) => Call(Success(b), [eps[0]])
      case Failure(e) =>
        var rest := TryEndpoints(eps[1..], query, fetch, Some(e));
        Call(rest.result, [eps[0]] + rest.tried)
  }

  /** The loop of `callOverpass` over a list of endpoints: posts the query
      to each in turn, returns the first parsed body of an ok response, and
      otherwise the last recorded error. `tried` lists the endpoints posted
      to, in order. */
  method CallEndpoints(endpoints: seq<string>, query: string, fetch: Network)
    returns (result: Result<Body, Error>, tried: seq<string>)
    ensures Call(result, tried) == TryEndpoints(endpoints, query, fetch, None)
  {
    var lastError: Option<Error> := None;
    tried := [];
    for i := 0 to |endpoints|
      invariant tried == endpoints[..i]
      invariant var rest := TryEndpoints(endpoints[i..], query, fetch, lastError);
                TryEndpoints(endpoints, query, fetch, None) == Call(rest.result, tried + rest.tried)
    {
      var url := endpoints[i];
      assert endpoints[i..][1..] == endpoints[i + 1..];
      ghost var before := tried;
      tried := tried + [url];
      var attempt := Attempt(fetch(url, query));
      match attempt {
        case Success(body) =>
          result := Success(body);
          return;
        case Failure(e) =>
          lastError := Some(e);
      }
      ghost var rest := TryEndpoints(endpoints[i + 1..], query, fetch, lastError);
      assert before + [url] + rest.tried == before + ([url] + rest.tried);
    }
    assert endpoints[|endpoints|..] == [];
    result := Failure(lastError.GetOr(NoEndpoint));
  }

  /** `callOverpass`: the loop over the four mirrors; a thrown error is a
      `Failure`. */
  method CallOverpass(query: string, fetch: Network) returns (result: Result<Body, Error>, tried: seq<string>)
    ensures Call(result, tried) == TryEndpoints(OverpassEndpoints, query, fetch, None)
  {
    result, tried := CallEndpoints(OverpassEndpoints, query, fetch);
  }

  /** Endpoints are posted to in list order, each at most once, and at
      least one is tried when the list is not empty. */
  lemma {:induction false} TriedIsPrefix(eps: seq<string>, query: string, fetch: Network, lastError: Option<Error>)
    ensures var c := TryEndpoints(eps, query, fetch, lastError);
            |c.tried| <= |eps| && c.tried == eps[..|c.tried|] && (eps != [] ==> |c.tried| >= 1)
    decreases |eps|
  {
    if eps != [] && Fails(fetch(eps[0], query)) {
      TriedIsPrefix(eps[1..], query, fetch, Some(Attempt(fetch(eps[0], query)).error));
    }
  }

  /** When the first `k` endpoints fail and endpoint `k` succeeds, the call
      returns that endpoint's body after exactly `k + 1` attempts. */
  lemma {:induction false} FirstSuccessWins(eps: seq<string>, query: string, fetch: Network,
                                            lastError: Option<Error>, k: nat)
    requires k < |eps|
    requires forall j :: 0 <= j < k ==> Fails(fetch(eps[j], query))
    requires !Fails(fetch(eps[k], query))
    ensures TryEndpoints(eps, query, fetch, lastError) == Call(Attempt(fetch(eps[k], query)), eps[..k + 1])
    decreases k
  {
    if k > 0 {
      assert Fails(fetch(eps[0], query));
      var e := Attempt(fetch(eps[0], query)).error;
      forall j | 0 <= j < k - 1 ensures Fails(fetch(eps[1..][j], query)) {
        assert eps[1..][j] == eps[j + 1];
      }
      FirstSuccessWins(eps[1..], query, fetch, Some(e), k - 1);
      assert [eps[0]] + eps[1..][..k] == eps[..k + 1];
    }
  }

  /** When every endpoint fails, all are tried and the last recorded error
      is thrown; `NoEndpoint` only when there was nothing to try. */
  lemma {:induction false} AllFail(eps: seq<string>, query: string, fetch: Network, lastError: Option<Error>)
    requires forall j :: 0 <= j < |eps| ==> Fails(fetch(eps[j], query))
    ensures var c := TryEndpoints(eps, query, fetch, lastError);
            c.tried == eps
            && c.result == (if eps == [] then Failure(lastError.GetOr(NoEndpoint))
                            else Attempt(fetch(eps[|eps| - 1], query)))
    decreases |eps|
  {
    if eps != [] {
      assert Fails(fetch(eps[0], query));
      forall j | 0 <= j < |eps| - 1 ensures Fails(fetch(eps[1..][j], query)) {
        assert eps[1..][j] == eps[j + 1];
      }
      AllFail(eps[1..], query, fetch, Some(Attempt(fetch(eps[0], query)).error));
      if |eps| > 1 {
        assert eps[1..][|eps[1..]| - 1] == eps[|eps| - 1];
      }
      assert [eps[0]] + eps[1..] == eps;
    }
  }

  /** The call succeeds exactly when some endpoint would have succeeded. */
  lemma {:induction false} SucceedsIff(eps: seq<string>, query: string, fetch: Network, lastError: Option<Error>)
    ensures TryEndpoints(eps, query, fetch, lastError).result.Success?
        <==> exists j :: 0 <= j < |eps| && !Fails(fetch(eps[j], query))
    decreases |eps|
  {
    if eps != [] && Fails(fetch(eps[0], query)) {
      SucceedsIff(eps[1..], query, fetch, Some(Attempt(fetch(eps[0], query)).error));
      if exists j :: 0 <= j < |eps[1..]| && !Fails(fetch(eps[1..][j], query)) {
        var j :| 0 <= j < |eps[1..]| && !Fails(fetch(eps[1..][j], query));
        assert eps[1..][j] == eps[j + 1];
      }
      if exists j :: 0 <= j < |eps| && !Fails(fetch(eps[j], query)) {
        var j :| 0 <= j < |eps| && !Fails(fetch(eps[j], query));
        if j > 0 {
          assert eps[1..][j - 1] == eps[j];
        }
      }
    }
  }

  /** A failed call over a non-empty endpoint list throws an error recorded
      for an endpoint, never the `no endpoint available` one. */
  lemma {:induction false} NoEndpointOnlyWhenEmpty(eps: seq<string>, query: string, fetch: Network, lastError: Option<Error>)
    requires eps != [] || lastError.Some?
    requires lastError != Some(NoEndpoint)
    ensures TryEndpoints(eps, query, fetch, lastError).result != Failure(NoEndpoint)
    decreases |eps|
  {
    if eps != [] && Fails(fetch(eps[0], query)) {
      NoEndpointOnlyWhenEmpty(eps[1..], query, fetch, Some(Attempt(fetch(eps[0], query)).error));
    }
  }

  lemma EndpointsDistinct()
    ensures |OverpassEndpoints| == 4
    ensures forall i, j :: 0 <= i < j < 4 ==> OverpassEndpoints[i] != OverpassEndpoints[j]
  {
    var e := OverpassEndpoints;
    assert e[0][16] == '.' && e[1][16] == '.' && e[2][16] == '-' && e[3][16] == '-';
    assert e[0][17] == 'k' && e[1][17] == 'o';
    assert e[2][21] == 'n' && e[3][21] == 'd';
  }

  /** The four mirrors are distinct, so no endpoint is posted to twice. */
  lemma NoEndpointRetried(query: string, fetch: Network)
    ensures var c := TryEndpoints(OverpassEndpoints, query, fetch, None);
            1 <= |c.tried| <= 4
            && (forall i, j :: 0 <= i < j < |c.tried| ==> c.tried[i] != c.tried[j])
            && c.result != Failure(NoEndpoint)
  {
    TriedIsPrefix(OverpassEndpoints, query, fetch, None);
    NoEndpointOnlyWhenEmpty(OverpassEndpoints, query, fetch, None);
    EndpointsDistinct();
  }

  /** `searchPlaces`: builds the query, calls the endpoints and normalises
      the answer; a failed call is passed on unchanged. */
  method SearchPlaces(filters: Filters, fetch: Network) returns (r: Result<seq<Place>, Error>)
    ensures var call := TryEndpoints(OverpassEndpoints, QueryText(QueryClauses(CategoryToFilters, filters.categories, AroundOf(filters))),
                                     fetch, None);
            r == match call.result
                 case Success(data) => Success(Normalise(data))
                 case Failure(e) => Failure(e)
    ensures r.Success? ==> forall p :: p in r.value ==> Located(p) && p.name != ""
  {
    var _, query := BuildOverpassQuery(filters);
    var data, _ := CallOverpass(query, fetch);
    match data {
      case Failure(e) =>
        r := Failure(e);
      case Success(body) =>
        NormalisedPlaces(body);
        r := Success(Normalise(body));
    }
  }
}
