/**
 * The training-locations page: the search and province filters, the province
 * drop-down, the share text and the submit guard.
 */
module Locations {
  import opened Wrappers
  import opened Text
  import opened Sequences

  /** A stored location; the optional columns are null when left empty. */
  datatype Location = Location(
    id: string,
    name: string,
    description: Option<string>,
    address: Option<string>,
    city: Option<string>,
    province: Option<string>,
    imageUrl: Option<string>,
    createdAt: string)

  /** JavaScript truthiness of an optional text column: present and non-empty. */
  predicate Truthy(f: Option<string>) {
    f.Some? && f.value != ""
  }

  /** `f?.toLowerCase().includes(query)`: false for a null column. */
  predicate FieldContains(f: Option<string>, query: string) {
    f.Some? && Includes(Lower(f.value), query)
  }

  /** The search stage's test: the lower-cased query occurs in the name, province, city, address or description. */
  predicate SearchHit(loc: Location, query: string) {
    || Includes(Lower(loc.name), query)
    || FieldContains(loc.province, query)
    || FieldContains(loc.city, query)
    || FieldContains(loc.address, query)
    || FieldContains(loc.description, query)
  }

  /** The search stage lets a location through: a blank query keeps all, otherwise the lower-cased, untrimmed query must hit. */
  predicate SearchOk(loc: Location, searchQuery: string) {
    IsBlank(searchQuery) || SearchHit(loc, Lower(searchQuery))
  }

  /** The province stage lets a location through: "all", or the province column equals the selection. */
  predicate ProvinceOk(loc: Location, filterProvince: string) {
    filterProvince == "all" || loc.province == Some(filterProvince)
  }

  predicate Matches(loc: Location, searchQuery: string, filterProvince: string) {
    SearchOk(loc, searchQuery) && ProvinceOk(loc, filterProvince)
  }

  /** The locations the page lists: those passing both stages, in the loaded order. */
  function Shown(locations: seq<Location>, searchQuery: string, filterProvince: string): (r: seq<Location>)
    ensures forall loc :: loc in r <==> loc in locations && SearchOk(loc, searchQuery) && ProvinceOk(loc, filterProvince)
    ensures forall loc :: multiset(r)[loc] == if Matches(loc, searchQuery, filterProvince) then multiset(locations)[loc] else 0
    ensures IsSubsequence(r, locations)
  {
    FilterMultiplicity(locations, (loc: Location) => Matches(loc, searchQuery, filterProvince));
    FilterMembers(locations, (loc: Location) => Matches(loc, searchQuery, filterProvince));
    FilterIsSubsequence(locations, (loc: Location) => Matches(loc, searchQuery, filterProvince));
    Filter(locations, (loc: Location) => Matches(loc, searchQuery, filterProvince))
  }

  /** The filter effect: a search stage when the trimmed query is non-empty, then a province stage unless "all" is selected. */
  method FilterLocations(locations: seq<Location>, searchQuery: string, filterProvince: string) returns (filtered: seq<Location>)
    ensures filtered == Shown(locations, searchQuery, filterProvince)
  {
    filtered := locations;

    if !IsBlank(searchQuery) {
      var query := Lower(searchQuery);
      filtered := Filter(filtered, (loc: Location) => SearchHit(loc, query));
      FilterExt(locations, (loc: Location) => SearchHit(loc, query), loc => SearchOk(loc, searchQuery));
    } else {
      FilterKeepsAll(locations, loc => SearchOk(loc, searchQuery));
    }

    ghost var before := filtered;
    if filterProvince != "all" {
      filtered := Filter(filtered, (loc: Location) => loc.province == Some(filterProvince));
      FilterStage(locations, before, filtered, loc => SearchOk(loc, searchQuery),
        (loc: Location) => loc.province == Some(filterProvince), loc => Matches(loc, searchQuery, filterProvince));
    } else {
      FilterExt(locations, loc => SearchOk(loc, searchQuery), loc => Matches(loc, searchQuery, filterProvince));
    }
    FilterExt(locations, loc => Matches(loc, searchQuery, filterProvince), (loc: Location) => Matches(loc, searchQuery, filterProvince));
  }

  /** With a blank query and "all" provinces every loaded location is listed. */
  lemma NoFilterShowsAll(locations: seq<Location>, searchQuery: string)
    requires IsBlank(searchQuery)
    ensures Shown(locations, searchQuery, "all") == locations
  {
    FilterKeepsAll(locations, (loc: Location) => Matches(loc, searchQuery, "all"));
  }

  /** The query is lower-cased: "PARK" finds a location named "Park". */
  lemma QueryIsCaseFolded(loc: Location)
    requires loc.name == "Park"
    ensures SearchOk(loc, "PARK")
  {
    assert Lower("PARK") == "park" && Lower(loc.name) == "park";
    assert OccursAt(Lower(loc.name), Lower("PARK"), 0);
  }

  /** The query is not trimmed: " park" does not find a location named "Park" that has no other text. */
  lemma QueryIsNotTrimmed(loc: Location)
    requires loc.name == "Park" && loc.description.None? && loc.address.None?
    requires loc.city.None? && loc.province.None?
    ensures !SearchOk(loc, " park")
  {
    NotBlank(" park", 1);
    LongerNotIncluded(Lower(loc.name), Lower(" park"));
  }

  /** Elements in strictly ascending `Less` order: what `sort()` makes of distinct strings. */
  predicate StrictlyAscending(xs: seq<string>) {
    forall i, j :: 0 <= i < j < |xs| ==> Less(xs[i], xs[j])
  }

  /** Some loaded location has province `p`. */
  predicate HasProvince(locations: seq<Location>, p: string) {
    exists i :: 0 <= i < |locations| && locations[i].province == Some(p)
  }

  /** An element below the head of an ascending list is below all of it. */
  lemma {:induction false} BelowHeadBelowAll(p: string, xs: seq<string>)
    requires StrictlyAscending(xs) && xs != [] && Less(p, xs[0])
    ensures forall j :: 0 <= j < |xs| ==> Less(p, xs[j])
  {
    forall j | 0 < j < |xs|
      ensures Less(p, xs[j])
    {
      LessTransitive(p, xs[0], xs[j]);
    }
  }

  /** Adds `p` to an ascending list of distinct strings, keeping it ascending and distinct. */
  function Insert(xs: seq<string>, p: string): (r: seq<string>)
    requires StrictlyAscending(xs)
    ensures StrictlyAscending(r)
    ensures forall x :: x in r <==> x in xs || x == p
  {
    if xs == [] then [p]
    else if xs[0] == p then xs
    else if Less(p, xs[0]) then
      BelowHeadBelowAll(p, xs);
      [p] + xs
    else
      LessTotal(p, xs[0]);
      var rest := Insert(xs[1..], p);
      assert forall k :: 0 <= k < |rest| ==> Less(xs[0], rest[k]) by {
        forall k | 0 <= k < |rest|
          ensures Less(xs[0], rest[k])
        {
          assert rest[k] in rest;
          if rest[k] != p {
            var j :| 1 <= j < |xs| && xs[j] == rest[k];
          }
        }
      }
      [xs[0]] + rest
  }

  /**
   * The province drop-down: the distinct non-empty province values of the
   * loaded locations, sorted.
   */
  function ProvinceOptions(locations: seq<Location>): (r: seq<string>)
    ensures StrictlyAscending(r)
    ensures forall p :: p in r <==> p != "" && HasProvince(locations, p)
  {
    if locations == [] then []
    else
      var rest := ProvinceOptions(locations[1..]);
      assert forall p :: HasProvince(locations, p) <==> locations[0].province == Some(p) || HasProvince(locations[1..], p) by {
        forall p
          ensures HasProvince(locations, p) ==> locations[0].province == Some(p) || HasProvince(locations[1..], p)
        {
          if HasProvince(locations, p) && locations[0].province != Some(p) {
            var i :| 0 <= i < |locations| && locations[i].province == Some(p);
            assert locations[1..][i - 1] == locations[i];
          }
        }
        forall p | HasProvince(locations[1..], p)
          ensures HasProvince(locations, p)
        {
          var i :| 0 <= i < |locations[1..]| && locations[1..][i].province == Some(p);
          assert locations[i + 1] == locations[1..][i];
        }
      }
      if Truthy(locations[0].province) then Insert(rest, locations[0].province.value) else rest
  }

  /** Two ascending lists of distinct strings with the same elements are equal: the sorted order of a set is unique. */
  lemma {:induction false} AscendingUnique(a: seq<string>, b: seq<string>)
    requires StrictlyAscending(a) && StrictlyAscending(b)
    requires forall x :: x in a <==> x in b
    ensures a == b
  {
    if a != [] {
      assert a[0] in a;
    }
    if b != [] {
      assert b[0] in b;
    }
    if a != [] {
      if a[0] != b[0] {
        assert a[0] in b && b[0] in a;
        var i :| 0 <= i < |a| && a[i] == b[0];
        var j :| 0 <= j < |b| && b[j] == a[0];
        assert Less(b[0], a[0]) && Less(a[0], b[0]);
        LessTransitive(a[0], b[0], a[0]);
        LessIrreflexive(a[0]);
        assert false;
      }
      forall x
        ensures x in a[1..] <==> x in b[1..]
      {
        if x in a[1..] {
          var i :| 0 <= i < |a[1..]| && a[1..][i] == x;
          assert Less(a[0], a[i + 1]);
          LessIrreflexive(a[0]);
          assert x in b;
          var j :| 0 <= j < |b| && b[j] == x;
          assert b[1..][j - 1] == x;
        }
        if x in b[1..] {
          var j :| 0 <= j < |b[1..]| && b[1..][j] == x;
          assert Less(b[0], b[j + 1]);
          LessIrreflexive(b[0]);
          assert x in a;
          var i :| 0 <= i < |a| && a[i] == x;
          assert a[1..][i - 1] == x;
        }
      }
      AscendingUnique(a[1..], b[1..]);
      assert a == [a[0]] + a[1..] && b == [b[0]] + b[1..];
    }
  }

  /** The drop-down is the one sorted list of the distinct non-empty province values, whatever the loading order. */
  lemma ProvinceOptionsIsSortedSet(locations: seq<Location>, others: seq<Location>, sorted: seq<string>)
    requires StrictlyAscending(sorted)
    requires forall p :: p in sorted <==> p != "" && HasProvince(locations, p)
    requires forall p :: HasProvince(others, p) <==> HasProvince(locations, p)
    ensures ProvinceOptions(locations) == sorted
    ensures ProvinceOptions(others) == sorted
  {
    AscendingUnique(ProvinceOptions(locations), sorted);
    AscendingUnique(ProvinceOptions(others), sorted);
  }

  /** The values of columns already known to be present, in order. */
  function Values(present: seq<Option<string>>): (r: seq<string>)
    requires forall i :: 0 <= i < |present| ==> present[i].Some?
    ensures |r| == |present| && forall i :: 0 <= i < |r| ==> present[i] == Some(r[i])
  {
    seq(|present|, i requires 0 <= i < |present| => present[i].value)
  }

  /** `[...].filter(Boolean)` over text columns: the truthy columns kept in order, then their values. */
  function TruthyValues(fields: seq<Option<string>>): (r: seq<string>)
    ensures forall v :: v in r <==> v != "" && Some(v) in fields
  {
    var kept := Filter(fields, Truthy);
    FilterMembers(fields, Truthy);
    assert forall i :: 0 <= i < |kept| ==> kept[i] in kept;
    var r := Values(kept);
    assert forall v :: v in r <==> Some(v) in kept by {
      forall v | Some(v) in kept
        ensures v in r
      {
        var i :| 0 <= i < |kept| && kept[i] == Some(v);
        assert r[i] == v;
      }
    }
    r
  }

  /** The value list of one column: its value when it is truthy, nothing otherwise. */
  function Part(f: Option<string>): seq<string> {
    if Truthy(f) then [f.value] else []
  }

  /** Collecting values commutes with concatenating the columns, so the values stay in column order. */
  lemma TruthyValuesAppend(a: seq<Option<string>>, b: seq<Option<string>>)
    ensures TruthyValues(a + b) == TruthyValues(a) + TruthyValues(b)
  {
    FilterAppend(a, b, Truthy);
  }

  /** A single column contributes its value exactly when it is truthy. */
  lemma TruthyValuesOne(f: Option<string>)
    ensures TruthyValues([f]) == Part(f)
  {
    assert [f][1..] == [];
  }

  /** The values of three columns are the three columns' parts one after another. */
  lemma TruthyValuesThree(a: Option<string>, b: Option<string>, c: Option<string>)
    ensures TruthyValues([a, b, c]) == Part(a) + Part(b) + Part(c)
  {
    assert [a, b, c] == [a] + [b] + [c];
    TruthyValuesAppend([a] + [b], [c]);
    TruthyValuesAppend([a], [b]);
    TruthyValuesOne(a);
    TruthyValuesOne(b);
    TruthyValuesOne(c);
  }

  /** The address line of the share text: province, city and address, the empty ones skipped, joined by spaces. */
  function AddressPart(loc: Location): (r: string)
    ensures r == "" <==> !Truthy(loc.province) && !Truthy(loc.city) && !Truthy(loc.address)
  {
    var parts := TruthyValues([loc.province, loc.city, loc.address]);
    TruthyValuesThree(loc.province, loc.city, loc.address);
    if parts == [] then ""
    else
      JoinNonEmpty(parts, " ");
      Join(parts, " ")
  }

  /** Two parts are joined by one space. */
  lemma JoinTwo(x: string, y: string)
    ensures Join([x, y], " ") == x + " " + y
  {
    assert [x, y][1..] == [y];
  }

  /** Present columns are joined by single spaces, in province, city, address order; empty ones leave no gap. */
  lemma AddressPartJoinsPresentColumns(loc: Location)
    ensures Truthy(loc.province) && Truthy(loc.city) && Truthy(loc.address) ==>
      AddressPart(loc) == loc.province.value + " " + loc.city.value + " " + loc.address.value
    ensures Truthy(loc.province) && Truthy(loc.city) && !Truthy(loc.address) ==>
      AddressPart(loc) == loc.province.value + " " + loc.city.value
    ensures Truthy(loc.province) && !Truthy(loc.city) && Truthy(loc.address) ==>
      AddressPart(loc) == loc.province.value + " " + loc.address.value
    ensures !Truthy(loc.province) && Truthy(loc.city) && Truthy(loc.address) ==>
      AddressPart(loc) == loc.city.value + " " + loc.address.value
    ensures Truthy(loc.province) && !Truthy(loc.city) && !Truthy(loc.address) ==>
      AddressPart(loc) == loc.province.value
    ensures !Truthy(loc.province) && Truthy(loc.city) && !Truthy(loc.address) ==>
      AddressPart(loc) == loc.city.value
    ensures !Truthy(loc.province) && !Truthy(loc.city) && Truthy(loc.address) ==>
      AddressPart(loc) == loc.address.value
  {
    var p, c, a := loc.province, loc.city, loc.address;
    AddressPartIsJoinOfParts(loc);
    if Truthy(p) && Truthy(c) && Truthy(a) {
      JoinTwo(c.value, a.value);
      assert [p.value, c.value, a.value][1..] == [c.value, a.value];
    } else if Truthy(p) && Truthy(c) {
      JoinTwo(p.value, c.value);
    } else if Truthy(p) && Truthy(a) {
      JoinTwo(p.value, a.value);
    } else if Truthy(c) && Truthy(a) {
      JoinTwo(c.value, a.value);
    }
  }

  /** The address part is the join of the three columns' parts. */
  lemma AddressPartIsJoinOfParts(loc: Location)
    ensures AddressPart(loc) == Join(Part(loc.province) + Part(loc.city) + Part(loc.address), " ")
  {
    TruthyValuesThree(loc.province, loc.city, loc.address);
  }

  const ShareTitle := "🏋️ 发现单杠训练点："
  const AddressLabel := "\n📍 地址："
  const NoAddress := "暂无详细地址"
  const DescriptionLabel := "💬 描述："
  const MoreLabel := "🔗 查看更多单杠位置："

  /** The description line: present only for a truthy description. */
  function DescriptionLine(description: Option<string>): (r: string)
    ensures r == "" <==> !Truthy(description)
    ensures Truthy(description) ==> r == DescriptionLabel + description.value + "\n"
  {
    if Truthy(description) then DescriptionLabel + description.value + "\n" else ""
  }

  /**
   * The text `handleShare` copies: title and name, the address line (or the
   * no-address placeholder), the description line when there is a description,
   * and the link to the page under the site's origin.
   */
  function ShareText(loc: Location, origin: string): (r: string)
    ensures StartsWith(r, ShareTitle + loc.name + AddressLabel)
    ensures |r| >= |MoreLabel + origin + "/locations"|
    ensures r[|r| - |MoreLabel + origin + "/locations"|..] == MoreLabel + origin + "/locations"
  {
    var address := AddressPart(loc);
    var head := ShareTitle + loc.name + AddressLabel;
    var body := (if address == "" then NoAddress else address) + "\n" + DescriptionLine(loc.description);
    var tail := MoreLabel + origin + "/locations";
    assert (head + body + tail)[..|head|] == head;
    assert (head + body + tail)[|head + body|..] == tail;
    head + body + tail
  }

  /** The share text is the head, the address line, the description line and the link, back to back. */
  lemma ShareTextLayout(loc: Location, origin: string)
    ensures var address := AddressPart(loc);
      ShareText(loc, origin)
        == (ShareTitle + loc.name + AddressLabel + (if address == "" then NoAddress else address) + "\n")
           + DescriptionLine(loc.description) + (MoreLabel + origin + "/locations")
  {
  }

  /** With no province, city or address the placeholder stands in the address line. */
  lemma ShareTextNoAddress(loc: Location, origin: string)
    requires !Truthy(loc.province) && !Truthy(loc.city) && !Truthy(loc.address)
    ensures StartsWith(ShareText(loc, origin), ShareTitle + loc.name + AddressLabel + NoAddress + "\n")
  {
    var r := ShareText(loc, origin);
    var p := ShareTitle + loc.name + AddressLabel + NoAddress + "\n";
    assert r == p + DescriptionLine(loc.description) + MoreLabel + origin + "/locations";
    assert r[..|p|] == p;
  }

  /**
   * A location without a description is shared without a description line: the
   * address line is followed directly by the link.
   */
  lemma ShareTextDescription(loc: Location, origin: string)
    ensures Truthy(loc.description) ==> Includes(ShareText(loc, origin), DescriptionLabel + loc.description.value + "\n")
    ensures !Truthy(loc.description) ==>
      var address := AddressPart(loc);
      ShareText(loc, origin)
        == ShareTitle + loc.name + AddressLabel + (if address == "" then NoAddress else address) + "\n"
           + MoreLabel + origin + "/locations"
  {
    var address := AddressPart(loc);
    var head := ShareTitle + loc.name + AddressLabel + (if address == "" then NoAddress else address) + "\n";
    var line := DescriptionLine(loc.description);
    var tail := MoreLabel + origin + "/locations";
    var r := ShareText(loc, origin);
    ShareTextLayout(loc, origin);
    if Truthy(loc.description) {
      assert r[|head|..|head| + |line|] == line;
      assert OccursAt(r, line, |head|);
    }
  }

  /** The add-location form: every field a string, empty when left blank. */
  datatype LocationForm = LocationForm(
    name: string, description: string, address: string, city: string, province: string, imageUrl: string)

  /** The row `handleSubmit` inserts. */
  datatype LocationRow = LocationRow(
    name: string, description: Option<string>, address: Option<string>, city: Option<string>,
    province: Option<string>, imageUrl: Option<string>)

  /**
   * `handleSubmit`: nothing is inserted when the name is blank; otherwise the
   * name as typed (untrimmed) and every other field with empty turned into null.
   */
  function SubmitLocation(form: LocationForm): (r: Option<LocationRow>)
    ensures r.None? <==> forall i :: 0 <= i < |form.name| ==> IsWhitespace(form.name[i])
    ensures r.Some? ==> r.value.name == form.name
    ensures r.Some? ==> (r.value.province.None? <==> form.province == "") && (r.value.city.None? <==> form.city == "")
    ensures r.Some? ==> (r.value.address.None? <==> form.address == "") && (r.value.description.None? <==> form.description == "")
    ensures r.Some? ==> (r.value.imageUrl.None? <==> form.imageUrl == "")
    ensures r.Some? && form.description != "" ==> r.value.description == Some(form.description)
    ensures r.Some? && form.address != "" ==> r.value.address == Some(form.address)
    ensures r.Some? && form.city != "" ==> r.value.city == Some(form.city)
    ensures r.Some? && form.province != "" ==> r.value.province == Some(form.province)
    ensures r.Some? && form.imageUrl != "" ==> r.value.imageUrl == Some(form.imageUrl)
  {
    BlankIffAllWhitespace(form.name);
    if IsBlank(form.name) then None
    else Some(LocationRow(form.name, OrNull(form.description), OrNull(form.address), OrNull(form.city),
      OrNull(form.province), OrNull(form.imageUrl)))
  }

  /** The location the store returns for an inserted row, with the id and timestamp it assigns. */
  function Stored(row: LocationRow, id: string, createdAt: string): (loc: Location)
    ensures loc.name == row.name && loc.province == row.province
  {
    Location(id, row.name, row.description, row.address, row.city, row.province, row.imageUrl, createdAt)
  }

  /**
   * Once a submitted location is loaded, the province drop-down offers its
   * province exactly when the form's province field was filled in.
   */
  lemma SubmittedProvinceOffered(locations: seq<Location>, form: LocationForm, id: string, createdAt: string)
    requires SubmitLocation(form).Some?
    ensures var loc := Stored(SubmitLocation(form).value, id, createdAt);
      form.province in ProvinceOptions(locations + [loc]) <==> form.province != ""
  {
    var loc := Stored(SubmitLocation(form).value, id, createdAt);
    var all := locations + [loc];
    if form.province != "" {
      assert all[|locations|].province == Some(form.province);
    }
  }
}
