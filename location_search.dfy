/**
 * The location search box: geocoder results classified into cities, airports and
 * stations, labelled, deduplicated, filtered and ranked against the query; and the
 * picker that keeps the chosen place.
 */
module LocationSearch {
  import opened Wrappers
  import opened Text

  /** `Suggestion["kind"]`. */
  datatype Kind = Airport | City | Station | Address

  /** A place offered to the user. A coordinate that is not a number (NaN) is `None`. */
  datatype Suggestion = Suggestion(id: string, labelText: string, lat: Option<real>, lon: Option<real>, kind: Kind)

  // ---------------------------------------------------------------------------
  // One geocoder result
  // ---------------------------------------------------------------------------

  /** The address parts of a geocoder result that the label uses. */
  datatype Addr = Addr(city: Option<string>, town: Option<string>, village: Option<string>,
                       hamlet: Option<string>, municipality: Option<string>, country: Option<string>)

  /**
   * One geocoder result. `placeId` is the text of `place_id` when present; `lat` and
   * `lon` are the coordinate texts.
   */
  datatype Item = Item(placeId: Option<string>, cls: Option<string>, typ: Option<string>,
                       addresstype: Option<string>, address: Option<Addr>, name: Option<string>,
                       displayName: Option<string>, lat: string, lon: string)

  /** `x === s` for an optional string. */
  predicate Is(x: Option<string>, s: string) {
    x == Some(s)
  }

  /**
   * `mapSuggestion`'s classification: places that are cities, towns, villages or
   * hamlets and administrative city or town boundaries are cities, aerodromes and
   * terminals airports, railway and public-transport stations stations; anything else
   * is dropped.
   */
  function KindOf(item: Item): (r: Option<Kind>)
    ensures r != Some(Address)
  {
    var typ := item.typ.GetOr("");
    if Is(item.cls, "place") && typ in ["city", "town", "village", "hamlet"] then Some(City)
    else if Is(item.cls, "boundary") && Is(item.typ, "administrative") && item.addresstype.GetOr("") in ["city", "town"] then Some(City)
    else if Is(item.cls, "aeroway") && (Is(item.typ, "aerodrome") || Is(item.typ, "terminal")) then Some(Airport)
    else if (Is(item.cls, "railway") && Is(item.typ, "station")) || (Is(item.cls, "public_transport") && Is(item.typ, "station")) then Some(Station)
    else None
  }

  /** The class filter applied to the merged results before mapping. */
  predicate IsSupported(item: Item) {
    var isPlaceCity := Is(item.cls, "place") && item.typ.GetOr("") in ["city", "town", "village", "hamlet"];
    var isAdminCity := Is(item.cls, "boundary") && Is(item.typ, "administrative") && item.addresstype.GetOr("") in ["city", "town"];
    var isAirport := Is(item.cls, "aeroway") && item.typ.GetOr("") in ["aerodrome", "terminal"];
    var isStation := (Is(item.cls, "railway") && Is(item.typ, "station")) || (Is(item.cls, "public_transport") && Is(item.typ, "station"));
    isPlaceCity || isAdminCity || isAirport || isStation
  }

  /** The class filter accepts exactly the results that the classification keeps. */
  lemma SupportedIffClassified(item: Item)
    ensures IsSupported(item) <==> KindOf(item).Some?
  {
  }

  /** `item.address ?? {}`. */
  function AddrOf(item: Item): Addr {
    if item.address.Some? then item.address.value else Addr(None, None, None, None, None, None)
  }

  /** The place name: city, town, village, hamlet, municipality, and at last the result's name. */
  function CityOf(item: Item): Option<string> {
    var a := AddrOf(item);
    Or(Or(Or(Or(Or(a.city, a.town), a.village), a.hamlet), a.municipality), item.name)
  }

  /** `[city, country].filter(Boolean).join(", ")`. */
  function PlaceLabel(city: Option<string>, country: Option<string>): (r: string)
    ensures r == "" <==> !Truthy(city) && !Truthy(country)
    ensures Truthy(city) && Truthy(country) ==> r == city.value + ", " + country.value
    ensures Truthy(city) && !Truthy(country) ==> r == city.value
    ensures !Truthy(city) && Truthy(country) ==> r == country.value
  {
    if Truthy(city) && Truthy(country) then city.value + ", " + country.value
    else if Truthy(city) then city.value
    else if Truthy(country) then country.value
    else ""
  }

  /** The shown label: the place label, else the display name, else the name, else "Unknown". */
  function LabelOf(item: Item): (r: string)
    ensures r != ""
    ensures PlaceLabel(CityOf(item), AddrOf(item).country) != "" ==> r == PlaceLabel(CityOf(item), AddrOf(item).country)
  {
    var l := PlaceLabel(CityOf(item), AddrOf(item).country);
    if l != "" then l
    else if Truthy(item.displayName) then item.displayName.value
    else if Truthy(item.name) then item.name.value
    else "Unknown"
  }

  /**
   * `mapSuggestion(item, idx)`: a suggestion for a result the classification keeps, with
   * the place id (else the index) as id and the coordinates read by `number`
   * (JavaScript's `Number`); `None` for any other result.
   */
  function MapSuggestion(item: Item, idx: nat, number: string -> Option<real>): (r: Option<Suggestion>)
    ensures r.Some? <==> KindOf(item).Some?
    ensures r.Some? ==> r.value.kind == KindOf(item).value && r.value.labelText == LabelOf(item)
                        && r.value.labelText != ""
    ensures r.Some? ==> r.value.id == (if item.placeId.Some? then item.placeId.value else NatToString(idx))
  {
    match KindOf(item)
    case None => None
    case Some(kind) =>
      Some(Suggestion(if item.placeId.Some? then item.placeId.value else NatToString(idx),
                      LabelOf(item), number(item.lat), number(item.lon), kind))
  }

  /** `.filter(Boolean)` on optional suggestions: the present ones, in order. */
  function Somes(xs: seq<Option<Suggestion>>): (r: seq<Suggestion>)
    ensures |r| <= |xs|
    ensures forall i | 0 <= i < |r| :: Some(r[i]) in xs
  {
    if xs == [] then [] else (if xs[0].Some? then [xs[0].value] else []) + Somes(xs[1..])
  }

  /** When every entry is present, nothing is dropped and the order is kept. */
  lemma {:induction false} SomesAll(xs: seq<Option<Suggestion>>)
    requires forall i | 0 <= i < |xs| :: xs[i].Some?
    ensures |Somes(xs)| == |xs| && forall i | 0 <= i < |xs| :: Some(Somes(xs)[i]) == xs[i]
  {
    if xs != [] {
      var tail := xs[1..];
      SomesAll(tail);
      var r := Somes(xs);
      assert r == [xs[0].value] + Somes(tail);
      forall i | 1 <= i < |xs|
        ensures Some(r[i]) == xs[i]
      {
        assert r[i] == Somes(tail)[i - 1] && tail[i - 1] == xs[i];
      }
    }
  }

  /** `items.map(mapSuggestion).filter(Boolean)`: each result mapped with its index, the unclassified ones dropped. */
  function MapAll(items: seq<Item>, number: string -> Option<real>): (r: seq<Suggestion>)
    ensures |r| <= |items|
    ensures forall i | 0 <= i < |r| :: r[i].kind != Address && r[i].labelText != ""
    ensures (forall i | 0 <= i < |items| :: IsSupported(items[i])) ==>
              |r| == |items| && forall i | 0 <= i < |r| :: Some(r[i]) == MapSuggestion(items[i], i, number)
  {
    var mapped := seq(|items|, i requires 0 <= i < |items| => MapSuggestion(items[i], i, number));
    var r := Somes(mapped);
    assert forall i | 0 <= i < |r| :: r[i].kind != Address && r[i].labelText != "" by {
      forall i | 0 <= i < |r|
        ensures r[i].kind != Address && r[i].labelText != ""
      {
        var j :| 0 <= j < |mapped| && mapped[j] == Some(r[i]);
        assert MapSuggestion(items[j], j, number) == Some(r[i]);
      }
    }
    if forall i | 0 <= i < |items| :: IsSupported(items[i]) then
      assert forall i | 0 <= i < |mapped| :: mapped[i].Some? by {
        forall i | 0 <= i < |mapped|
          ensures mapped[i].Some?
        {
          SupportedIffClassified(items[i]);
        }
      }
      SomesAll(mapped);
      r
    else r
  }

  // ---------------------------------------------------------------------------
  // Merging and deduplication
  // ---------------------------------------------------------------------------

  /** The dedupe key: the place id, else "lat,lon". */
  function Key(item: Item): string {
    if item.placeId.Some? then item.placeId.value else item.lat + "," + item.lon
  }

  /** One entry of a JavaScript `Map`, in insertion order. */
  datatype Entry = Entry(key: string, item: Item)

  function Keys(entries: seq<Entry>): (r: seq<string>)
    ensures |r| == |entries| && forall i | 0 <= i < |r| :: r[i] == entries[i].key
  {
    seq(|entries|, i requires 0 <= i < |entries| => entries[i].key)
  }

  predicate UniqueKeys(entries: seq<Entry>) {
    forall i, j | 0 <= i < j < |entries| :: entries[i].key != entries[j].key
  }

  /**
   * `Map.set` on a map, whose keys are unique: an existing key keeps its position and
   * takes the new value; a new key goes at the end.
   */
  function Put(entries: seq<Entry>, k: string, it: Item): (r: seq<Entry>)
    requires UniqueKeys(entries)
    ensures UniqueKeys(r)
    ensures k in Keys(entries) ==> Keys(r) == Keys(entries)
    ensures k !in Keys(entries) ==> Keys(r) == Keys(entries) + [k]
    ensures forall i | 0 <= i < |r| :: r[i].key == k ==> r[i].item == it
    ensures forall i | 0 <= i < |r| :: r[i].key != k ==> r[i] in entries
  {
    var j := FindKey(entries, k);
    if j.Some? then
      var r := entries[j.value := Entry(k, it)];
      assert Keys(r) == Keys(entries);
      r
    else
      var r := entries + [Entry(k, it)];
      assert Keys(r) == Keys(entries) + [k];
      r
  }

  /** The position of key `k`, if present. */
  function FindKey(entries: seq<Entry>, k: string): (j: Option<nat>)
    ensures j.Some? ==> j.value < |entries| && entries[j.value].key == k
    ensures j.None? <==> k !in Keys(entries)
  {
    if entries == [] then None
    else if entries[|entries| - 1].key == k then Some(|entries| - 1)
    else
      assert Keys(entries) == Keys(entries[..|entries| - 1]) + [entries[|entries| - 1].key];
      FindKey(entries[..|entries| - 1], k)
  }

  /** The last of `items` with key `k`, if any. */
  function LastWithKey(items: seq<Item>, k: string): Option<Item> {
    if items == [] then None
    else if Key(items[|items| - 1]) == k then Some(items[|items| - 1])
    else LastWithKey(items[..|items| - 1], k)
  }

  /** `new Map(all.map(it => [Key(it), it]))`, entry by entry: unique keys, no more entries than results. */
  function Dedupe(items: seq<Item>): (r: seq<Entry>)
    ensures UniqueKeys(r)
    ensures |r| <= |items|
  {
    if items == [] then []
    else
      var prev := Dedupe(items[..|items| - 1]);
      var last := items[|items| - 1];
      var r := Put(prev, Key(last), last);
      assert |Keys(r)| <= |Keys(prev)| + 1;
      r
  }

  /** Every result's key is among the deduplicated entries. */
  lemma {:induction false} DedupeCovers(items: seq<Item>)
    ensures forall it | it in items :: Key(it) in Keys(Dedupe(items))
  {
    if items != [] {
      var init := items[..|items| - 1];
      var last := items[|items| - 1];
      DedupeCovers(init);
      var prev := Dedupe(init);
      var r := Dedupe(items);
      assert r == Put(prev, Key(last), last);
      forall it | it in items
        ensures Key(it) in Keys(r)
      {
        if it != last {
          assert it in init;
          assert Key(it) in Keys(prev);
        }
        assert Key(it) in Keys(prev) + [Key(last)];
      }
    }
  }

  /** A later duplicate wins: each entry holds the last result with its key. */
  lemma {:induction false} DedupeLast(items: seq<Item>)
    ensures forall i | 0 <= i < |Dedupe(items)| :: Some(Dedupe(items)[i].item) == LastWithKey(items, Dedupe(items)[i].key)
  {
    if items != [] {
      var init := items[..|items| - 1];
      var last := items[|items| - 1];
      DedupeLast(init);
      var prev := Dedupe(init);
      var r := Dedupe(items);
      assert r == Put(prev, Key(last), last);
      forall i | 0 <= i < |r|
        ensures Some(r[i].item) == LastWithKey(items, r[i].key)
      {
        if r[i].key != Key(last) {
          var j :| 0 <= j < |prev| && prev[j] == r[i];
        }
      }
    }
  }

  /** `Array.from(map.values())`. */
  function Values(entries: seq<Entry>): (r: seq<Item>)
    ensures |r| == |entries| && forall i | 0 <= i < |r| :: r[i] == entries[i].item
  {
    seq(|entries|, i requires 0 <= i < |entries| => entries[i].item)
  }

  /** `arr.filter(isSupported)`. */
  function Supported(items: seq<Item>): (r: seq<Item>)
    ensures |r| <= |items|
    ensures forall i | 0 <= i < |r| :: IsSupported(r[i]) && r[i] in items
  {
    if items == [] then []
    else (if IsSupported(items[0]) then [items[0]] else []) + Supported(items[1..])
  }

  /** The geocoder's two replies, or a failure of either request or its JSON. */
  datatype Reply = Failed | Data(byQuery: Option<seq<Item>>, byCity: Option<seq<Item>>)

  /**
   * The suggestions before ranking: both replies merged, deduplicated, narrowed to
   * supported results and mapped.
   */
  function Candidates(byQuery: Option<seq<Item>>, byCity: Option<seq<Item>>, number: string -> Option<real>): (r: seq<Suggestion>)
    ensures |r| <= |byQuery.GetOr([])| + |byCity.GetOr([])|
    ensures |r| == |Supported(Values(Dedupe(byQuery.GetOr([]) + byCity.GetOr([]))))|
    ensures var results := Supported(Values(Dedupe(byQuery.GetOr([]) + byCity.GetOr([]))));
            forall i | 0 <= i < |r| :: Some(r[i]) == MapSuggestion(results[i], i, number)
  {
    var all := byQuery.GetOr([]) + byCity.GetOr([]);
    var cityResults := Supported(Values(Dedupe(all)));
    MapAll(cityResults, number)
  }

  // ---------------------------------------------------------------------------
  // Ranking
  // ---------------------------------------------------------------------------

  /** 1 when the condition holds, else 0. */
  function Flag(b: bool): int {
    if b then 1 else 0
  }

  /** The ranking comparator for the lower-cased query `q`. */
  function Compare(q: string, a: Suggestion, b: Suggestion): int {
    var aLabel := Lower(a.labelText);
    var bLabel := Lower(b.labelText);
    var aStarts := Flag(StartsWith(aLabel, q));
    var bStarts := Flag(StartsWith(bLabel, q));
    if aStarts != bStarts then bStarts - aStarts
    else
      var aIncludes := Flag(Contains(aLabel, q));
      var bIncludes := Flag(Contains(bLabel, q));
      if aIncludes != bIncludes then bIncludes - aIncludes
      else |aLabel| - |bLabel|
  }

  /** The tier of a label: 0 when it starts with the query, 1 when it only contains it, else 2. */
  function Tier(q: string, s: Suggestion): (t: nat)
    ensures t <= 2
  {
    var l := Lower(s.labelText);
    if StartsWith(l, q) then 0 else if Contains(l, q) then 1 else 2
  }

  /** The ranking key of a suggestion: its tier and its label's length. */
  datatype RankKey = RankKey(tier: nat, len: nat)

  function KeyOf(q: string, s: Suggestion): RankKey {
    RankKey(Tier(q, s), |s.labelText|)
  }

  /** Keys in order: a better tier, or the same tier and a length no greater. */
  predicate KeyLe(a: RankKey, b: RankKey) {
    a.tier < b.tier || (a.tier == b.tier && a.len <= b.len)
  }

  /** `a` may come before `b`: a better tier, or the same tier and a label no longer. */
  predicate RankLe(q: string, a: Suggestion, b: Suggestion) {
    KeyLe(KeyOf(q, a), KeyOf(q, b))
  }

  /** A label that starts with the query also contains it. */
  lemma StartsThenContains(l: string, q: string)
    requires StartsWith(l, q)
    ensures Contains(l, q)
  {
    assert OccursAt(l, q, 0);
  }

  /**
   * The comparator orders by tier and then by label length: it says `a` first or a tie
   * exactly when `RankLe` holds, and it is antisymmetric.
   */
  lemma CompareIsRank(q: string, a: Suggestion, b: Suggestion)
    ensures Compare(q, a, b) <= 0 <==> RankLe(q, a, b)
    ensures Compare(q, a, b) == -Compare(q, b, a)
  {
    if StartsWith(Lower(a.labelText), q) {
      StartsThenContains(Lower(a.labelText), q);
    }
    if StartsWith(Lower(b.labelText), q) {
      StartsThenContains(Lower(b.labelText), q);
    }
  }

  predicate Ranked(q: string, s: seq<Suggestion>) {
    forall i, j | 0 <= i < j < |s| :: RankLe(q, s[i], s[j])
  }

  /** The keys of `a[lo..hi]` are in order. */
  predicate KeysSorted(a: array<Suggestion>, key: Suggestion -> RankKey, lo: int, hi: int)
    reads a
    requires 0 <= lo <= hi <= a.Length
  {
    forall x, y | lo <= x < y < hi :: KeyLe(key(a[x]), key(a[y]))
  }

  /** Moves `a[i]` down into the sorted `a[..i]`, so that `a[..i + 1]` is sorted. */
  method InsertAt(a: array<Suggestion>, key: Suggestion -> RankKey, i: nat)
    requires i < a.Length && KeysSorted(a, key, 0, i)
    modifies a
    ensures KeysSorted(a, key, 0, i + 1)
    ensures multiset(a[..]) == multiset(old(a[..]))
  {
    var j := i;
    while j > 0 && !KeyLe(key(a[j - 1]), key(a[j]))
      invariant 0 <= j <= i
      invariant forall x, y | 0 <= x < y <= i && x != j && y != j :: KeyLe(key(a[x]), key(a[y]))
      invariant forall y | j < y <= i :: KeyLe(key(a[j]), key(a[y]))
      invariant multiset(a[..]) == multiset(old(a[..]))
    {
      a[j - 1], a[j] := a[j], a[j - 1];
      j := j - 1;
    }
  }

  /**
   * `mappedSuggestions.sort(compare)`, in place, with the comparator given by its key
   * (`CompareIsRank`): afterwards the keys are in order and the array holds the same
   * suggestions.
   */
  method SortByKey(a: array<Suggestion>, key: Suggestion -> RankKey)
    modifies a
    ensures KeysSorted(a, key, 0, a.Length)
    ensures multiset(a[..]) == multiset(old(a[..]))
  {
    if a.Length == 0 {
      return;
    }
    for i := 1 to a.Length
      invariant KeysSorted(a, key, 0, i)
      invariant multiset(a[..]) == multiset(old(a[..]))
    {
      InsertAt(a, key, i);
    }
  }

  /** The suggestions ranked against the lower-cased query `q`: the same suggestions, in rank order. */
  method Rank(mapped: seq<Suggestion>, q: string) returns (ranked: seq<Suggestion>)
    ensures Ranked(q, ranked)
    ensures multiset(ranked) == multiset(mapped)
  {
    var arr := new Suggestion[|mapped|](i requires 0 <= i < |mapped| => mapped[i]);
    assert arr[..] == mapped;
    SortByKey(arr, s => KeyOf(q, s));
    ranked := arr[..];
  }

  // ---------------------------------------------------------------------------
  // The picker
  // ---------------------------------------------------------------------------

  /** The shortest trimmed query that is looked up. */
  const MinQuery := 2

  class LocationPicker {
    var query: string
    var suggestions: seq<Suggestion>
    var loading: bool
    var visible: bool
    var selected: Option<Suggestion>

    constructor()
      ensures query == "" && suggestions == [] && !loading && !visible && selected.None?
    {
      query := "";
      suggestions := [];
      loading := false;
      visible := false;
      selected := None;
    }

    /**
     * The lookup effect, once its timer fires with the geocoder's `reply`: nothing while
     * the picker is closed; no suggestions for a trimmed query shorter than 2; otherwise
     * the candidates ranked against the lower-cased query, or none when the lookup fails.
     */
    method OnQueryEffect(reply: Reply, number: string -> Option<real>)
      modifies this
      ensures !old(visible) ==> suggestions == old(suggestions) && loading == old(loading)
      ensures old(visible) && |Trim(query)| < MinQuery ==> suggestions == [] && loading == old(loading)
      ensures old(visible) && |Trim(query)| >= MinQuery && reply.Failed? ==> suggestions == [] && !loading
      ensures old(visible) && |Trim(query)| >= MinQuery && reply.Data? ==>
                !loading && Ranked(Lower(Trim(query)), suggestions)
                && multiset(suggestions) == multiset(Candidates(reply.byQuery, reply.byCity, number))
      ensures query == old(query) && visible == old(visible) && selected == old(selected)
    {
      if !visible {
        return;
      }
      if |Trim(query)| < MinQuery {
        suggestions := [];
        return;
      }
      loading := true;
      if reply.Failed? {
        suggestions := [];
      } else {
        suggestions := Rank(Candidates(reply.byQuery, reply.byCity, number), Lower(Trim(query)));
      }
      loading := false;
    }

    /** `setQuery` from the text box. */
    method SetQuery(text: string)
      modifies this
      ensures query == text
      ensures suggestions == old(suggestions) && visible == old(visible) && selected == old(selected) && loading == old(loading)
    {
      query := text;
    }

    /** Opening the picker. */
    method Open()
      modifies this
      ensures visible
      ensures query == old(query) && suggestions == old(suggestions) && selected == old(selected) && loading == old(loading)
    {
      visible := true;
    }

    /** Closing the picker with its close button or the back gesture. */
    method Close()
      modifies this
      ensures !visible
      ensures query == old(query) && suggestions == old(suggestions) && selected == old(selected) && loading == old(loading)
    {
      visible := false;
    }

    /** The initial place, when given, becomes the selection and the query. */
    method SeedInitial(initial: Option<Suggestion>)
      modifies this
      ensures initial.Some? ==> selected == initial && query == initial.value.labelText
      ensures initial.None? ==> selected == old(selected) && query == old(query)
      ensures suggestions == old(suggestions) && visible == old(visible) && loading == old(loading)
    {
      if initial.Some? {
        selected := initial;
        query := initial.value.labelText;
      }
    }

    /** `handleSelect`: the place is selected, shown in the box and passed on; the picker closes. */
    method HandleSelect(s: Suggestion) returns (chosen: Suggestion)
      modifies this
      ensures chosen == s && selected == Some(s) && query == s.labelText && !visible
      ensures suggestions == old(suggestions) && loading == old(loading)
    {
      selected := Some(s);
      query := s.labelText;
      visible := false;
      chosen := s;
    }
  }
}
