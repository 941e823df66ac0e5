/** The normalisation step of `searchPlaces`: each element of an Overpass
    answer becomes a place, and places without both coordinates are dropped. */
module Places {
  import opened Wrappers

  datatype LatLon = LatLon(lat: Option<real>, lon: Option<real>)

  /** One element of the answer: `type`, `id`, optional `lat`/`lon` (given
      for nodes), optional `center` (given for ways and relations) and
      optional `tags`. */
  datatype Element = Element(kind: string, id: int, lat: Option<real>, lon: Option<real>,
                             center: Option<LatLon>, tags: Option<map<string, string>>)

  /** The parsed answer; `elements` may be absent. */
  datatype Body = Body(elements: Option<seq<Element>>)

  /** A place as the mapping step builds it; `lat` and `lon` are absent when
      the element did not carry them. */
  datatype Place = Place(id: int, name: string, lat: Option<real>, lon: Option<real>,
                         tags: map<string, string>)

  const Unnamed := "(sans nom)"

  /** `el.tags?.name || "(sans nom)"`. */
  function PlaceName(tags: Option<map<string, string>>): string {
    if tags.Some? && "name" in tags.value && tags.value["name"] != "" then tags.value["name"] else Unnamed
  }

  /** The mapping step of `searchPlaces` for one element. */
  function ToPlace(el: Element): Place {
    var position := if el.kind == "node" then LatLon(el.lat, el.lon)
                    else if el.center.Some? then el.center.value
                    else LatLon(None, None);
    Place(el.id, PlaceName(el.tags), position.lat, position.lon, el.tags.GetOr(map[]))
  }

  /** JavaScript truthiness of an optional number (NaN is not modelled). */
  predicate Truthy(x: Option<real>) {
    x.Some? && x.value != 0.0
  }

  /** The filter step of `searchPlaces`: `p.lat && p.lon`. */
  predicate Located(p: Place) {
    Truthy(p.lat) && Truthy(p.lon)
  }

  function KeepLocated(ps: seq<Place>): (r: seq<Place>)
    ensures |r| <= |ps|
    decreases |ps|
  {
    if ps == [] then []
    else (if Located(ps[0]) then [ps[0]] else []) + KeepLocated(ps[1..])
  }

  /** `elements.map(...)`: one place per element, in order. */
  function ToPlaces(els: seq<Element>): seq<Place> {
    seq(|els|, i requires 0 <= i < |els| => ToPlace(els[i]))
  }

  /** `(data.elements || []).map(...).filter(...)`. */
  function Normalise(data: Body): seq<Place> {
    KeepLocated(ToPlaces(data.elements.GetOr([])))
  }

  /** Filtering keeps the order: the places kept from two runs of input are
      those kept from the first followed by those kept from the second. */
  lemma {:induction false} KeepLocatedAppend(xs: seq<Place>, ys: seq<Place>)
    ensures KeepLocated(xs + ys) == KeepLocated(xs) + KeepLocated(ys)
    decreases |xs|
  {
    if xs == [] {
      assert xs + ys == ys;
    } else {
      assert (xs + ys)[0] == xs[0] && (xs + ys)[1..] == xs[1..] + ys;
      KeepLocatedAppend(xs[1..], ys);
      var head := if Located(xs[0]) then [xs[0]] else [];
      calc {
        KeepLocated(xs + ys);
        head + KeepLocated(xs[1..] + ys);
        head + (KeepLocated(xs[1..]) + KeepLocated(ys));
        (head + KeepLocated(xs[1..])) + KeepLocated(ys);
      }
    }
  }

  /** A place is kept exactly when it is in the input and both of its
      coordinates are truthy. */
  lemma {:induction false} KeepLocatedMembers(ps: seq<Place>)
    ensures forall p :: p in KeepLocated(ps) <==> p in ps && Located(p)
    decreases |ps|
  {
    if ps != [] {
      KeepLocatedMembers(ps[1..]);
      assert forall p :: p in ps <==> p == ps[0] || p in ps[1..];
    }
  }

  /** An answer without `elements` gives no places, not an error. */
  lemma MissingElementsGiveNoPlaces()
    ensures Normalise(Body(None)) == []
    ensures Normalise(Body(Some([]))) == []
  {
  }

  /** Normalisation works element by element and keeps the answer's order:
      one element gives its place when both coordinates are truthy and
      nothing otherwise, and two runs of elements give their places in
      sequence. */
  lemma NormaliseByElement(xs: seq<Element>, ys: seq<Element>, el: Element)
    ensures Normalise(Body(Some(xs + ys))) == Normalise(Body(Some(xs))) + Normalise(Body(Some(ys)))
    ensures Normalise(Body(Some([el]))) == if Located(ToPlace(el)) then [ToPlace(el)] else []
  {
    assert ToPlaces(xs + ys) == ToPlaces(xs) + ToPlaces(ys);
    KeepLocatedAppend(ToPlaces(xs), ToPlaces(ys));
    assert ToPlaces([el]) == [ToPlace(el)];
    assert [ToPlace(el)][1..] == [];
  }

  /** Every place returned comes from an element of the answer, has both
      coordinates present and non-zero, and has a non-empty name; no longer
      list comes out than went in. */
  lemma NormalisedPlaces(data: Body)
    ensures |Normalise(data)| <= |data.elements.GetOr([])|
    ensures forall p :: p in Normalise(data) ==>
              Located(p) && p.name != "" && exists el :: el in data.elements.GetOr([]) && p == ToPlace(el)
  {
    var els := data.elements.GetOr([]);
    KeepLocatedMembers(ToPlaces(els));
    forall p | p in Normalise(data)
      ensures Located(p) && p.name != "" && exists el :: el in els && p == ToPlace(el)
    {
      var i :| 0 <= i < |ToPlaces(els)| && ToPlaces(els)[i] == p;
      assert els[i] in els;
    }
  }

  /** The name is the element's non-empty `name` tag, or `(sans nom)`. */
  lemma PlaceNameRule(el: Element)
    ensures ToPlace(el).name != ""
    ensures ToPlace(el).name == Unnamed
            || (el.tags.Some? && "name" in el.tags.value && ToPlace(el).name == el.tags.value["name"])
    ensures (el.tags.None? || "name" !in el.tags.value || el.tags.value["name"] == "") ==> ToPlace(el).name == Unnamed
    ensures el.tags.Some? && "name" in el.tags.value && el.tags.value["name"] != "" ==> ToPlace(el).name == el.tags.value["name"]
  {
  }

  /** A node takes its own coordinates, anything else its `center`; `id`
      is copied and absent tags become the empty map. */
  lemma PlacePositionRule(el: Element)
    ensures ToPlace(el).id == el.id
    ensures ToPlace(el).tags == (if el.tags.Some? then el.tags.value else map[])
    ensures el.kind == "node" ==> ToPlace(el).lat == el.lat && ToPlace(el).lon == el.lon
    ensures el.kind != "node" && el.center.Some? ==>
              ToPlace(el).lat == el.center.value.lat && ToPlace(el).lon == el.center.value.lon
    ensures el.kind != "node" && el.center.None? ==> !Located(ToPlace(el))
  {
  }

  /** A way with a named centre becomes a place at that centre. */
  lemma WayExample()
    ensures var tags := map["name" := "Biblioth\U{e8}que"];
            Normalise(Body(Some([Element("way", 42, None, None, Some(LatLon(Some(48.01), Some(0.20))), Some(tags))])))
            == [Place(42, "Biblioth\U{e8}que", Some(48.01), Some(0.20), tags)]
  {
    var tags := map["name" := "Biblioth\U{e8}que"];
    NormaliseByElement([], [], Element("way", 42, None, None, Some(LatLon(Some(48.01), Some(0.20))), Some(tags)));
  }

  /** An element without coordinates, and a node on the equator, are both
      dropped: a coordinate equal to 0 counts as missing. */
  lemma DroppedExamples(id: int)
    ensures Normalise(Body(Some([Element("way", id, None, None, None, None)]))) == []
    ensures Normalise(Body(Some([Element("node", id, Some(0.0), Some(0.1996), None, None)]))) == []
  {
    NormaliseByElement([], [], Element("way", id, None, None, None, None));
    NormaliseByElement([], [], Element("node", id, Some(0.0), Some(0.1996), None, None));
  }
}
