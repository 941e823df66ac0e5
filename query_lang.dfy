/** The Overpass QL statements both query builders emit, as records: a feature
    kind, a tag filter and an `around:` proximity constraint. Both builders
    emit one node, one way and one relation statement per tag filter. */
module QueryLang {
  import opened Text

  /** A coordinate as it is written into the query text. How a JavaScript
      number is formatted is not modelled: the text is taken as given. */
  type Coord = string

  /** The three feature kinds, in the order the builders emit them. */
  datatype Kind = Node | Way | Relation

  /** A `key=value` pair of a category table. */
  datatype TagPair = TagPair(key: string, value: string)

  /** A table from names to their pairs, in table order. */
  type Table = map<string, seq<TagPair>>

  /** `table[name] || []`: the pairs of a name, none for a name the table
      lacks. */
  function Lookup(table: Table, name: string): seq<TagPair> {
    if name in table then table[name] else []
  }

  /** `Equals(k, v)` selects features whose tag `k` is exactly `v`;
      `Present(k)` selects features that have tag `k` with any value. */
  datatype TagFilter = Equals(key: string, value: string) | Present(key: string)

  /** `around:radius,lat,lon` with the radius in metres. */
  datatype Around = Around(radius: int, lat: Coord, lon: Coord)

  datatype Clause = Clause(kind: Kind, filter: TagFilter, around: Around)

  /** The kind of the `t`-th statement of a block. */
  function KindAt(t: nat): Kind
    requires t < 3
  {
    if t == 0 then Node else if t == 1 then Way else Relation
  }

  function KindName(k: Kind): string {
    match k
    case Node => "node"
    case Way => "way"
    case Relation => "relation"
  }

  function AroundText(a: Around): string {
    "around:" + IntToString(a.radius) + "," + a.lat + "," + a.lon
  }

  /** The three statements pushed for one tag filter. */
  function Block(f: TagFilter, a: Around): seq<Clause> {
    [Clause(Node, f, a), Clause(Way, f, a), Clause(Relation, f, a)]
  }

  /** The statements pushed for a sequence of tag filters, in order. */
  function Blocks(fs: seq<TagFilter>, a: Around): (r: seq<Clause>)
    ensures |r| == 3 * |fs|
    decreases |fs|
  {
    if fs == [] then []
    else Blocks(fs[..|fs| - 1], a) + Block(fs[|fs| - 1], a)
  }

  /** Statement `3 * j + t` is the `t`-th kind (node, way, relation) for
      filter `j`: filters keep their order and each gets all three kinds. */
  lemma {:induction false} BlocksAt(fs: seq<TagFilter>, a: Around, j: nat, t: nat)
    requires j < |fs| && t < 3
    ensures 3 * j + t < |Blocks(fs, a)|
    ensures Blocks(fs, a)[3 * j + t] == Clause(KindAt(t), fs[j], a)
    decreases |fs|
  {
    var init := fs[..|fs| - 1];
    if j < |fs| - 1 {
      BlocksAt(init, a, j, t);
      assert init[j] == fs[j];
    }
  }

  /** Every statement carries the same `around` constraint and one of the
      given filters. */
  lemma {:induction false} BlocksMembers(fs: seq<TagFilter>, a: Around)
    ensures forall c :: c in Blocks(fs, a) ==> c.around == a && c.filter in fs
    decreases |fs|
  {
    if fs != [] {
      var init := fs[..|fs| - 1];
      BlocksMembers(init, a);
      forall c | c in Blocks(fs, a)
        ensures c.around == a && c.filter in fs
      {
        if c in Blocks(init, a) {
          assert c.filter in init;
        }
      }
    }
  }

  /** The statements for two filter lists are those of the first followed by
      those of the second. */
  lemma {:induction false} BlocksAppend(fs: seq<TagFilter>, gs: seq<TagFilter>, a: Around)
    ensures Blocks(fs + gs, a) == Blocks(fs, a) + Blocks(gs, a)
    decreases |gs|
  {
    if gs == [] {
      assert fs + gs == fs;
    } else {
      var init := gs[..|gs| - 1];
      assert (fs + gs)[..|fs + gs| - 1] == fs + init;
      assert (fs + gs)[|fs + gs| - 1] == gs[|gs| - 1];
      BlocksAppend(fs, init, a);
    }
  }

  /** One more filter adds exactly its block at the end (what each round of
      the builders' inner loops does). */
  lemma BlocksSnoc(fs: seq<TagFilter>, f: TagFilter, a: Around)
    ensures Blocks(fs + [f], a) == Blocks(fs, a) + Block(f, a)
  {
    assert (fs + [f])[..|fs|] == fs;
  }

  // ---------------------------------------------------------------------
  // Filters of a table, shared by both builders. Each builder looks up the
  // pairs of every listed name (`table[name] || []`) and writes one filter
  // per pair by its own rule.
  // ---------------------------------------------------------------------

  /** The filters written for a run of pairs, one per pair, in order. */
  function PairFilters(rule: TagPair -> TagFilter, ps: seq<TagPair>): seq<TagFilter> {
    seq(|ps|, i requires 0 <= i < |ps| => rule(ps[i]))
  }

  /** The filters of one name of the table. */
  function NameFilters(table: Table, rule: TagPair -> TagFilter, name: string): seq<TagFilter> {
    PairFilters(rule, Lookup(table, name))
  }

  /** The filters of every listed name, name after name. */
  function TableFilters(table: Table, rule: TagPair -> TagFilter, names: seq<string>): seq<TagFilter>
    decreases |names|
  {
    if names == [] then []
    else TableFilters(table, rule, names[..|names| - 1]) + NameFilters(table, rule, names[|names| - 1])
  }

  /** Number of table pairs over the listed names (unknown ones count 0). */
  function TotalPairs(table: Table, names: seq<string>): nat
    decreases |names|
  {
    if names == [] then 0
    else TotalPairs(table, names[..|names| - 1]) + |Lookup(table, names[|names| - 1])|
  }

  /** One more pair adds exactly the block of its filter at the end. */
  lemma PushPair(rule: TagPair -> TagFilter, ps: seq<TagPair>, j: nat, a: Around)
    requires j < |ps|
    ensures Blocks(PairFilters(rule, ps[..j + 1]), a) == Blocks(PairFilters(rule, ps[..j]), a) + Block(rule(ps[j]), a)
  {
    assert PairFilters(rule, ps[..j + 1]) == PairFilters(rule, ps[..j]) + [rule(ps[j])];
    BlocksSnoc(PairFilters(rule, ps[..j]), rule(ps[j]), a);
  }

  lemma TableFiltersPrefix(table: Table, rule: TagPair -> TagFilter, names: seq<string>, i: nat)
    requires i < |names|
    ensures TableFilters(table, rule, names[..i + 1])
         == TableFilters(table, rule, names[..i]) + NameFilters(table, rule, names[i])
  {
    assert names[..i + 1][..i] == names[..i];
  }

  /** Each name contributes its filters after those of the names before it:
      the list's order is kept and nothing is merged. */
  lemma {:induction false} TableFiltersAppend(table: Table, rule: TagPair -> TagFilter, xs: seq<string>, ys: seq<string>)
    ensures TableFilters(table, rule, xs + ys) == TableFilters(table, rule, xs) + TableFilters(table, rule, ys)
    decreases |ys|
  {
    if ys == [] {
      assert xs + ys == xs;
    } else {
      var init := ys[..|ys| - 1];
      assert (xs + ys)[..|xs + ys| - 1] == xs + init;
      assert (xs + ys)[|xs + ys| - 1] == ys[|ys| - 1];
      TableFiltersAppend(table, rule, xs, init);
      AppendAssoc(TableFilters(table, rule, xs), TableFilters(table, rule, init), NameFilters(table, rule, ys[|ys| - 1]));
    }
  }

  lemma SingleName(table: Table, rule: TagPair -> TagFilter, name: string)
    ensures TableFilters(table, rule, [name]) == NameFilters(table, rule, name)
  {
    assert [name][..0] == [];
  }

  /** A name missing from the table contributes nothing, wherever it stands
      in the list. */
  lemma UnknownNameIgnored(table: Table, rule: TagPair -> TagFilter, xs: seq<string>, name: string, ys: seq<string>)
    requires name !in table
    ensures TableFilters(table, rule, xs + [name] + ys) == TableFilters(table, rule, xs + ys)
  {
    SingleName(table, rule, name);
    assert Lookup(table, name) == [];
    TableFiltersAppend(table, rule, xs + [name], ys);
    TableFiltersAppend(table, rule, xs, [name]);
    TableFiltersAppend(table, rule, xs, ys);
  }

  /** A list made only of names missing from the table gives no filter. */
  lemma {:induction false} OnlyUnknownNames(table: Table, rule: TagPair -> TagFilter, names: seq<string>)
    requires forall i :: 0 <= i < |names| ==> names[i] !in table
    ensures TableFilters(table, rule, names) == []
    decreases |names|
  {
    if names != [] {
      OnlyUnknownNames(table, rule, names[..|names| - 1]);
      assert Lookup(table, names[|names| - 1]) == [];
    }
  }

  /** A name listed twice contributes its filters twice: there is no
      de-duplication. */
  lemma DuplicateNameRepeated(table: Table, rule: TagPair -> TagFilter, name: string)
    ensures TableFilters(table, rule, [name, name]) == NameFilters(table, rule, name) + NameFilters(table, rule, name)
  {
    assert [name, name] == [name] + [name];
    TableFiltersAppend(table, rule, [name], [name]);
    SingleName(table, rule, name);
  }

  /** One filter per table pair of the listed names. */
  lemma {:induction false} TableFiltersCount(table: Table, rule: TagPair -> TagFilter, names: seq<string>)
    ensures |TableFilters(table, rule, names)| == TotalPairs(table, names)
    decreases |names|
  {
    if names != [] {
      TableFiltersCount(table, rule, names[..|names| - 1]);
    }
  }

  /** Concatenation is associative (stated once so that list-level proofs
      need not reason about elements). */
  lemma AppendAssoc<T>(a: seq<T>, b: seq<T>, c: seq<T>)
    ensures (a + b) + c == a + (b + c)
  {
  }
}
