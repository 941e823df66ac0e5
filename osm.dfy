/** The alternative query builder of lib/osm.ts: from a point, a radius in
    kilometres and a list of topics, three statements per tag pair of each
    topic, wrapped into an Overpass QL query without a result cap. */
module Osm {
  import opened Wrappers
  import opened Text
  import opened QueryLang

  /** The topic table. */
  const TagsMap: map<string, seq<TagPair>> := map[
    "lecture" := [TagPair("amenity", "library"), TagPair("shop", "books"), TagPair("amenity", "public_bookcase")],
    "musique" := [TagPair("amenity", "music_school"), TagPair("amenity", "theatre"),
                  TagPair("amenity", "arts_centre"), TagPair("shop", "musical_instrument")],
    "sport" := [TagPair("leisure", "sports_centre"), TagPair("leisure", "fitness_centre"), TagPair("sport", "*")],
    "sante" := [TagPair("amenity", "hospital"), TagPair("amenity", "clinic"), TagPair("amenity", "pharmacy")],
    "etudes" := [TagPair("amenity", "school"), TagPair("amenity", "college"), TagPair("amenity", "university")],
    "loisirs" := [TagPair("amenity", "community_centre"), TagPair("leisure", "park"), TagPair("amenity", "arts_centre")],
    "nature" := [TagPair("leisure", "park"), TagPair("leisure", "garden"), TagPair("natural", "woods")]
  ]

  /** `TAGS_MAP[key] || []`. */
  function TopicPairs(topic: string): seq<TagPair> {
    Lookup(TagsMap, topic)
  }

  /** JavaScript falsiness of an optional number: missing or zero (NaN is
      not modelled). */
  predicate Falsy(x: Option<real>) {
    x.None? || x.value == 0.0
  }

  /** `Math.floor((radiusKm || 2) * 1000)`: a falsy radius means 2 km, and
      otherwise the radius in metres is rounded down. */
  function RadiusMetres(radiusKm: Option<real>): (m: int)
    ensures Falsy(radiusKm) ==> m == 2000
    ensures !Falsy(radiusKm) ==> m as real <= radiusKm.value * 1000.0 < m as real + 1.0
  {
    ((if Falsy(radiusKm) then 2.0 else radiusKm.value) * 1000.0).Floor
  }

  /** `topics?.length ? topics : ['lecture']`. */
  function SelectedTopics(topics: Option<seq<string>>): seq<string> {
    if topics.Some? && |topics.value| > 0 then topics.value else ["lecture"]
  }

  /** The filter written for a pair: a presence filter for the value `*`,
      an equality filter otherwise. */
  function OsmFilter(p: TagPair): TagFilter {
    if p.value == "*" then Present(p.key) else Equals(p.key, p.value)
  }

  /** The filters of one topic. */
  function TopicFilter(topic: string): seq<TagFilter> {
    NameFilters(TagsMap, OsmFilter, topic)
  }

  /** The filters of every listed topic, topic after topic. */
  function TopicFilters(topics: seq<string>): seq<TagFilter> {
    TableFilters(TagsMap, OsmFilter, topics)
  }

  function AroundOf(lat: Coord, lon: Coord, radiusKm: Option<real>): Around {
    Around(RadiusMetres(radiusKm), lat, lon)
  }

  /** The statements of the query for the given arguments. */
  function AroundClauses(lat: Coord, lon: Coord, radiusKm: Option<real>, topics: Option<seq<string>>): seq<Clause> {
    Blocks(TopicFilters(SelectedTopics(topics)), AroundOf(lat, lon, radiusKm))
  }

  /** `[k]` and `[k="v"]`. */
  function FilterText(f: TagFilter): string {
    match f
    case Present(k) => "[" + k + "]"
    case Equals(k, v) => "[" + k + "=\"" + v + "\"]"
  }

  function BlockText(c: Clause): string {
    KindName(c.kind) + "(" + AroundText(c.around) + ")" + FilterText(c.filter) + ";"
  }

  function BlockTexts(cs: seq<Clause>): seq<string> {
    seq(|cs|, i requires 0 <= i < |cs| => BlockText(cs[i]))
  }

  const Head := "[out:json][timeout:25];\n(\n  "
  const Separator := "\n  "
  const Tail := "\n);\nout center;"

  function AroundQuery(cs: seq<Clause>): string {
    Head + Join(BlockTexts(cs), Separator) + Tail
  }

  /** The inner `forEach` of `buildOverpassAround` over the pairs of one
      topic: pushes a node, a way and a relation statement for each pair,
      in table order. */
  method PushPairs(blocks: seq<Clause>, pairs: seq<TagPair>, a: Around) returns (pushed: seq<Clause>)
    ensures pushed == blocks + Blocks(PairFilters(OsmFilter, pairs), a)
  {
    pushed := blocks;
    for j := 0 to |pairs|
      invariant pushed == blocks + Blocks(PairFilters(OsmFilter, pairs[..j]), a)
    {
      ghost var before := pushed;
      var k, v := pairs[j].key, pairs[j].value;
      var f := if v == "*" then Present(k) else Equals(k, v);
      pushed := pushed + [Clause(Node, f, a)];
      pushed := pushed + [Clause(Way, f, a)];
      pushed := pushed + [Clause(Relation, f, a)];
      assert pushed == before + Block(f, a);
      PushPair(OsmFilter, pairs, j, a);
    }
    assert pairs[..|pairs|] == pairs;
  }

  /** The outer `forEach` of `buildOverpassAround` over the selected
      topics, in list order. */
  method PushTopics(selected: seq<string>, a: Around) returns (blocks: seq<Clause>)
    ensures blocks == Blocks(TopicFilters(selected), a)
  {
    blocks := [];
    for i := 0 to |selected|
      invariant blocks == Blocks(TopicFilters(selected[..i]), a)
    {
      var pairs := TopicPairs(selected[i]);
      blocks := PushPairs(blocks, pairs, a);
      TableFiltersPrefix(TagsMap, OsmFilter, selected, i);
      BlocksAppend(TopicFilters(selected[..i]), TopicFilter(selected[i]), a);
    }
    assert selected[..|selected|] == selected;
  }

  /** `buildOverpassAround`: converts the radius, picks the topics, pushes
      three statements per pair of each topic and wraps them into the query
      text. */
  method BuildOverpassAround(lat: Coord, lon: Coord, radiusKm: Option<real>, topics: Option<seq<string>>)
    returns (blocks: seq<Clause>, query: string)
    ensures blocks == AroundClauses(lat, lon, radiusKm, topics)
    ensures query == AroundQuery(blocks)
  {
    var radiusM := RadiusMetres(radiusKm);
    var selected := if topics.Some? && |topics.value| > 0 then topics.value else ["lecture"];
    blocks := PushTopics(selected, Around(radiusM, lat, lon));
    query := AroundQuery(blocks);
  }

  /** A non-empty list of unknown topics gives no statement at all (there is
      no generic fallback): the query has an empty line between its
      parentheses. */
  lemma OnlyUnknownTopics(lat: Coord, lon: Coord, radiusKm: Option<real>, topics: seq<string>)
    requires topics != []
    requires forall i :: 0 <= i < |topics| ==> topics[i] !in TagsMap
    ensures AroundClauses(lat, lon, radiusKm, Some(topics)) == []
    ensures AroundQuery(AroundClauses(lat, lon, radiusKm, Some(topics))) == "[out:json][timeout:25];\n(\n  \n);\nout center;"
  {
    OnlyUnknownNames(TagsMap, OsmFilter, topics);
    EmptyQuery();
  }

  lemma EmptyQuery()
    ensures AroundQuery([]) == "[out:json][timeout:25];\n(\n  \n);\nout center;"
  {
    assert BlockTexts([]) == [];
  }

  /** Three statements per table pair of the selected topics, none when they
      have no pairs: there is no fallback statement. */
  lemma BlockCount(lat: Coord, lon: Coord, radiusKm: Option<real>, topics: Option<seq<string>>)
    ensures |AroundClauses(lat, lon, radiusKm, topics)| == 3 * TotalPairs(TagsMap, SelectedTopics(topics))
    ensures TotalPairs(TagsMap, SelectedTopics(topics)) == 0 <==> AroundClauses(lat, lon, radiusKm, topics) == []
  {
    TableFiltersCount(TagsMap, OsmFilter, SelectedTopics(topics));
  }

  /** Three statements per table pair of the selected topics, and statement
      `3 * j + t` is the `t`-th kind (node, way, relation) for the `j`-th
      pair, topics in list order and pairs in table order. */
  lemma BlockOrder(lat: Coord, lon: Coord, radiusKm: Option<real>, topics: Option<seq<string>>, j: nat, t: nat)
    requires j < TotalPairs(TagsMap, SelectedTopics(topics)) && t < 3
    ensures |AroundClauses(lat, lon, radiusKm, topics)| == 3 * TotalPairs(TagsMap, SelectedTopics(topics))
    ensures j < |TopicFilters(SelectedTopics(topics))|
    ensures AroundClauses(lat, lon, radiusKm, topics)[3 * j + t]
            == Clause(KindAt(t), TopicFilters(SelectedTopics(topics))[j], AroundOf(lat, lon, radiusKm))
  {
    BlockCount(lat, lon, radiusKm, topics);
    TableFiltersCount(TagsMap, OsmFilter, SelectedTopics(topics));
    BlocksAt(TopicFilters(SelectedTopics(topics)), AroundOf(lat, lon, radiusKm), j, t);
  }

  /** Every statement carries `around:radiusM,lat,lon` with the converted
      radius, and a filter of one of the selected topics. */
  lemma BlocksShareAround(lat: Coord, lon: Coord, radiusKm: Option<real>, topics: Option<seq<string>>)
    ensures forall c :: c in AroundClauses(lat, lon, radiusKm, topics) ==>
              c.around == Around(RadiusMetres(radiusKm), lat, lon) && c.filter in TopicFilters(SelectedTopics(topics))
  {
    BlocksMembers(TopicFilters(SelectedTopics(topics)), AroundOf(lat, lon, radiusKm));
  }

  /** A missing or empty topic list behaves as `['lecture']`; any other list
      is used as given. */
  lemma DefaultTopics(lat: Coord, lon: Coord, radiusKm: Option<real>, topics: seq<string>)
    ensures AroundClauses(lat, lon, radiusKm, None) == AroundClauses(lat, lon, radiusKm, Some(["lecture"]))
    ensures AroundClauses(lat, lon, radiusKm, Some([])) == AroundClauses(lat, lon, radiusKm, Some(["lecture"]))
    ensures topics != [] ==>
              AroundClauses(lat, lon, radiusKm, Some(topics)) == Blocks(TopicFilters(topics), AroundOf(lat, lon, radiusKm))
  {
  }

  /** Neither side of a pair contains `*`, except a value that is exactly
      `*`. */
  predicate StarOnlyAsValue(ps: seq<TagPair>) {
    forall i :: 0 <= i < |ps| ==> '*' !in ps[i].key && (ps[i].value == "*" || '*' !in ps[i].value)
  }

  /** In the whole table `*` appears only as a complete value. */
  lemma TableStars(topic: string)
    ensures StarOnlyAsValue(TopicPairs(topic))
  {
    if topic == "lecture" {
      LectureStars();
    } else if topic == "musique" {
      MusiqueStars();
    } else if topic == "sport" {
      SportStars();
    } else if topic == "sante" {
      SanteStars();
    } else if topic == "etudes" {
      EtudesStars();
    } else if topic == "loisirs" {
      LoisirsStars();
    } else if topic == "nature" {
      NatureStars();
    } else {
      assert topic !in TagsMap;
    }
  }

  /** A pair whose value is `*` gives the presence filter `[k]`, and any
      other pair `[k="v"]`; for pairs where `*` appears only as a complete
      value, the filter text never contains `*`. */
  lemma FilterRule(p: TagPair)
    ensures OsmFilter(p).Present? <==> p.value == "*"
    ensures p.value == "*" ==> FilterText(OsmFilter(p)) == "[" + p.key + "]"
    ensures p.value != "*" ==> FilterText(OsmFilter(p)) == "[" + p.key + "=\"" + p.value + "\"]"
    ensures '*' !in p.key && (p.value == "*" || '*' !in p.value) ==> '*' !in FilterText(OsmFilter(p))
  {
  }

  /** No filter the builder writes, for any topic list, contains `*`. */
  lemma {:induction false} NoStarInFilters(topics: seq<string>)
    ensures forall f :: f in TopicFilters(topics) ==> '*' !in FilterText(f)
    decreases |topics|
  {
    if topics != [] {
      NoStarInFilters(topics[..|topics| - 1]);
      var last := topics[|topics| - 1];
      TableStars(last);
      var ps := TopicPairs(last);
      forall f | f in TopicFilter(last)
        ensures '*' !in FilterText(f)
      {
        var i :| 0 <= i < |ps| && PairFilters(OsmFilter, ps)[i] == f;
        FilterRule(ps[i]);
      }
    }
  }

  /** The `sport` topic's `*` entry becomes the presence filter `[sport]`. */
  lemma SportPresence()
    ensures TopicFilter("sport") == [Equals("leisure", "sports_centre"), Equals("leisure", "fitness_centre"), Present("sport")]
    ensures FilterText(TopicFilter("sport")[2]) == "[sport]"
  {
    var ps := TopicPairs("sport");
    assert ps == [TagPair("leisure", "sports_centre"), TagPair("leisure", "fitness_centre"), TagPair("sport", "*")];
    assert TopicFilter("sport") == [OsmFilter(ps[0]), OsmFilter(ps[1]), OsmFilter(ps[2])];
  }

  /** The default topic `lecture` gives nine statements: node, way and
      relation for `library`, `books` and `public_bookcase`. */
  lemma LectureExample(lat: Coord, lon: Coord, radiusKm: Option<real>)
    ensures TopicFilters(SelectedTopics(None))
            == [Equals("amenity", "library"), Equals("shop", "books"), Equals("amenity", "public_bookcase")]
    ensures |AroundClauses(lat, lon, radiusKm, None)| == 9
  {
    SingleName(TagsMap, OsmFilter, "lecture");
    var ps := TopicPairs("lecture");
    assert ps == [TagPair("amenity", "library"), TagPair("shop", "books"), TagPair("amenity", "public_bookcase")];
    assert TopicFilter("lecture") == [OsmFilter(ps[0]), OsmFilter(ps[1]), OsmFilter(ps[2])];
  }

  /** The query text opens with `[out:json][timeout:25];` and `(` and closes
      with `);` and `out center;`. */
  lemma AroundQueryShape(cs: seq<Clause>)
    ensures var q := AroundQuery(cs);
            |Head| + |Tail| <= |q| && q[..|Head|] == Head && q[|q| - |Tail|..] == Tail
  {
    Wrapped(Head, Join(BlockTexts(cs), Separator), Tail, 0);
  }

  // ---------------------------------------------------------------------
  // Per-topic facts behind `TableStars`: each topic's pairs, and the
  // strings in them, are checked in lemmas of their own so that no proof
  // has the whole literal table in view.
  // ---------------------------------------------------------------------

  lemma LectureStars()
    ensures StarOnlyAsValue(TopicPairs("lecture"))
  {
    assert TopicPairs("lecture") == [TagPair("amenity", "library"), TagPair("shop", "books"), TagPair("amenity", "public_bookcase")];
    LectureText();
  }

  lemma LectureText()
    ensures '*' !in "amenity" && '*' !in "library" && '*' !in "shop" && '*' !in "books" && '*' !in "public_bookcase"
  {
  }

  lemma MusiqueStars()
    ensures StarOnlyAsValue(TopicPairs("musique"))
  {
    assert TopicPairs("musique") == [TagPair("amenity", "music_school"), TagPair("amenity", "theatre"), TagPair("amenity", "arts_centre"), TagPair("shop", "musical_instrument")];
    MusiqueText();
  }

  lemma MusiqueText()
    ensures '*' !in "amenity" && '*' !in "music_school" && '*' !in "theatre" && '*' !in "arts_centre" && '*' !in "shop" && '*' !in "musical_instrument"
  {
  }

  lemma SportStars()
    ensures StarOnlyAsValue(TopicPairs("sport"))
  {
    assert TopicPairs("sport") == [TagPair("leisure", "sports_centre"), TagPair("leisure", "fitness_centre"), TagPair("sport", "*")];
    SportText();
  }

  lemma SportText()
    ensures '*' !in "leisure" && '*' !in "sports_centre" && '*' !in "fitness_centre" && '*' !in "sport"
  {
  }

  lemma SanteStars()
    ensures StarOnlyAsValue(TopicPairs("sante"))
  {
    assert TopicPairs("sante") == [TagPair("amenity", "hospital"), TagPair("amenity", "clinic"), TagPair("amenity", "pharmacy")];
    SanteText();
  }

  lemma SanteText()
    ensures '*' !in "amenity" && '*' !in "hospital" && '*' !in "clinic" && '*' !in "pharmacy"
  {
  }

  lemma EtudesStars()
    ensures StarOnlyAsValue(TopicPairs("etudes"))
  {
    assert TopicPairs("etudes") == [TagPair("amenity", "school"), TagPair("amenity", "college"), TagPair("amenity", "university")];
    EtudesText();
  }

  lemma EtudesText()
    ensures '*' !in "amenity" && '*' !in "school" && '*' !in "college" && '*' !in "university"
  {
  }

  lemma LoisirsStars()
    ensures StarOnlyAsValue(TopicPairs("loisirs"))
  {
    assert TopicPairs("loisirs") == [TagPair("amenity", "community_centre"), TagPair("leisure", "park"), TagPair("amenity", "arts_centre")];
    LoisirsText();
  }

  lemma LoisirsText()
    ensures '*' !in "amenity" && '*' !in "community_centre" && '*' !in "leisure" && '*' !in "park" && '*' !in "arts_centre"
  {
  }

  lemma NatureStars()
    ensures StarOnlyAsValue(TopicPairs("nature"))
  {
    assert TopicPairs("nature") == [TagPair("leisure", "park"), TagPair("leisure", "garden"), TagPair("natural", "woods")];
    NatureText();
  }

  lemma NatureText()
    ensures '*' !in "leisure" && '*' !in "park" && '*' !in "garden" && '*' !in "natural" && '*' !in "woods"
  {
  }
}
