/**
 * Location search shared by the report wizard and the police sign-up page:
 * the most-recently-used list of picked places, the merge of the two
 * geocoders' suggestions, the short address builders for each geocoder,
 * and the district/state fallback applied when a police station is picked.
 *
 * The geocoders themselves are not modelled: their decoded answers are
 * inputs here.
 */
module LocationSearch {
  import opened Wrappers
  import opened Text

  /** A place offered to the user (the fields both pages read; "" stands for a missing one). */
  datatype Suggestion = Suggestion(id: string, name: string, shortName: string, lat: real, lng: real,
                                   district: string, state: string)

  /** How many recent searches are kept. */
  const RecentLimit := 5

  /** `a` is `b` with some entries dropped and the rest in their order. */
  predicate IsSubsequence<T(==)>(a: seq<T>, b: seq<T>)
    decreases |b|
  {
    a == [] || (b != [] && if a[0] == b[0] then IsSubsequence(a[1..], b[1..]) else IsSubsequence(a, b[1..]))
  }

  lemma PrefixOfSubsequence<T>(a: seq<T>, b: seq<T>, n: nat)
    requires IsSubsequence(a, b) && n <= |a|
    ensures IsSubsequence(a[..n], b)
    decreases |b|
  {
    if n > 0 {
      if a[0] == b[0] {
        assert a[..n][1..] == a[1..][..n - 1];
        PrefixOfSubsequence(a[1..], b[1..], n - 1);
      } else {
        PrefixOfSubsequence(a, b[1..], n);
      }
    }
  }

  /** `list.filter(item => item.id !== id)`. */
  function WithoutId(s: seq<Suggestion>, id: string): (r: seq<Suggestion>)
    ensures |r| <= |s|
    ensures forall x :: x in r <==> x in s && x.id != id
    ensures IsSubsequence(r, s)
  {
    if s == [] then []
    else if s[0].id == id then WithoutId(s[1..], id)
    else [s[0]] + WithoutId(s[1..], id)
  }

  lemma WithoutAbsentId(s: seq<Suggestion>, id: string)
    requires forall k :: 0 <= k < |s| ==> s[k].id != id
    ensures WithoutId(s, id) == s
  {
  }

  /** No id occurs twice. */
  predicate DistinctIds(s: seq<Suggestion>)
  {
    forall i, j :: 0 <= i < j < |s| ==> s[i].id != s[j].id
  }

  function Min(a: int, b: int): int { if a <= b then a else b }

  /**
   * `saveToRecentSearches`: the picked place goes to the head, any earlier
   * entry with its id is dropped, and the list is cut to five.
   */
  function SaveToRecentSearches(recent: seq<Suggestion>, loc: Suggestion): (r: seq<Suggestion>)
    ensures 1 <= |r| <= RecentLimit && r[0] == loc
    ensures forall k :: 1 <= k < |r| ==> r[k].id != loc.id
    ensures IsSubsequence(r[1..], recent)
    ensures |r| < RecentLimit ==> forall x :: x in recent && x.id != loc.id ==> x in r
    ensures |r| == Min(RecentLimit, 1 + |WithoutId(recent, loc.id)|)
    ensures r[1..] == WithoutId(recent, loc.id)[..|r| - 1]
  {
    var rest := WithoutId(recent, loc.id);
    var all := [loc] + rest;
    var r := all[..Min(RecentLimit, |all|)];
    assert r[1..] == rest[..|r| - 1];
    PrefixOfSubsequence(rest, recent, |r| - 1);
    assert forall k :: 1 <= k < |r| ==> r[k] in rest;
    r
  }

  /** Saving the same place twice in a row leaves the list as saving it once. */
  lemma SaveIdempotent(recent: seq<Suggestion>, loc: Suggestion)
    ensures SaveToRecentSearches(SaveToRecentSearches(recent, loc), loc) == SaveToRecentSearches(recent, loc)
  {
    var once := SaveToRecentSearches(recent, loc);
    assert once == [once[0]] + once[1..];
    WithoutAbsentId(once[1..], loc.id);
    assert WithoutId(once, loc.id) == once[1..];
  }

  lemma {:induction false} WithoutIdDistinct(s: seq<Suggestion>, id: string)
    requires DistinctIds(s)
    ensures DistinctIds(WithoutId(s, id))
  {
    if s != [] {
      var tail := s[1..];
      DistinctTail(s);
      WithoutIdDistinct(tail, id);
      if s[0].id != id {
        var t := WithoutId(tail, id);
        forall x | x in t ensures x.id != s[0].id {
          var k :| 0 <= k < |tail| && tail[k] == x;
          assert s[k + 1] == x;
        }
        DistinctCons(s[0], t);
      }
    }
  }

  /** Dropping the head keeps the ids distinct. */
  lemma DistinctTail(s: seq<Suggestion>)
    requires s != [] && DistinctIds(s)
    ensures DistinctIds(s[1..])
  {
    var tail := s[1..];
    forall i, j | 0 <= i < j < |tail| ensures tail[i].id != tail[j].id {
      assert tail[i] == s[i + 1] && tail[j] == s[j + 1];
    }
  }

  /** A head whose id the distinct tail does not hold keeps the ids distinct. */
  lemma DistinctCons(h: Suggestion, t: seq<Suggestion>)
    requires DistinctIds(t) && forall x :: x in t ==> x.id != h.id
    ensures DistinctIds([h] + t)
  {
    var r := [h] + t;
    forall i, j | 0 <= i < j < |r| ensures r[i].id != r[j].id {
      assert r[j] == t[j - 1];
      if i > 0 {
        assert r[i] == t[i - 1];
      }
    }
  }

  /** A list without repeated ids stays so after a save. */
  lemma SaveKeepsIdsDistinct(recent: seq<Suggestion>, loc: Suggestion)
    requires DistinctIds(recent)
    ensures DistinctIds(SaveToRecentSearches(recent, loc))
  {
    var r := SaveToRecentSearches(recent, loc);
    var rest := WithoutId(recent, loc.id);
    WithoutIdDistinct(recent, loc.id);
    assert r[1..] == rest[..|r| - 1];
    forall i, j | 0 <= i < j < |r| ensures r[i].id != r[j].id {
      if i > 0 {
        assert r[i] == rest[i - 1] && r[j] == rest[j - 1];
      }
    }
  }

  /** The set of short names in a list. */
  function Names(s: seq<Suggestion>): set<string>
  {
    set x | x in s :: x.shortName
  }

  /** No short name occurs twice. */
  predicate DistinctNames(s: seq<Suggestion>)
  {
    forall i, j :: 0 <= i < j < |s| ==> s[i].shortName != s[j].shortName
  }

  /** Every suggestion whose short name is new, in input order: the specification of the merge. */
  function Dedup(s: seq<Suggestion>): seq<Suggestion>
  {
    if s == [] then []
    else
      var d := Dedup(s[..|s| - 1]);
      var x := s[|s| - 1];
      if x.shortName in Names(d) then d else d + [x]
  }

  /** The merge repeats no short name, invents no suggestion, and loses no short name. */
  lemma {:induction false} DedupShape(s: seq<Suggestion>)
    ensures DistinctNames(Dedup(s))
    ensures forall x :: x in Dedup(s) ==> x in s
    ensures Names(Dedup(s)) == Names(s)
  {
    if s != [] {
      var p := s[..|s| - 1];
      var x := s[|s| - 1];
      var d := Dedup(p);
      DedupShape(p);
      assert s == p + [x];
      NamesSnoc(p, x);
      if x.shortName !in Names(d) {
        NamesSnoc(d, x);
        forall k | 0 <= k < |d| ensures d[k].shortName != x.shortName {
          assert d[k] in d;
        }
      }
    }
  }

  /**
   * The merge loop of `fetchLocationSuggestions`: Nominatim results first,
   * then Photon results, each kept only when its short name was not yet added.
   */
  method MergeSuggestions(nominatim: seq<Suggestion>, photon: seq<Suggestion>) returns (combined: seq<Suggestion>)
    ensures combined == Dedup(nominatim + photon)
  {
    combined := [];
    var added: set<string> := {};
    for i := 0 to |nominatim|
      invariant combined == Dedup(nominatim[..i]) && added == Names(combined)
    {
      DedupSnoc(nominatim[..i], nominatim[i]);
      assert nominatim[..i + 1] == nominatim[..i] + [nominatim[i]];
      if nominatim[i].shortName !in added {
        NamesSnoc(combined, nominatim[i]);
        combined := combined + [nominatim[i]];
        added := added + {nominatim[i].shortName};
      }
    }
    assert nominatim[..|nominatim|] == nominatim + photon[..0];
    for j := 0 to |photon|
      invariant combined == Dedup(nominatim + photon[..j]) && added == Names(combined)
    {
      DedupSnoc(nominatim + photon[..j], photon[j]);
      assert nominatim + photon[..j + 1] == (nominatim + photon[..j]) + [photon[j]];
      if photon[j].shortName !in added {
        NamesSnoc(combined, photon[j]);
        combined := combined + [photon[j]];
        added := added + {photon[j].shortName};
      }
    }
    assert photon[..|photon|] == photon;
  }

  lemma DedupSnoc(s: seq<Suggestion>, x: Suggestion)
    ensures Dedup(s + [x]) == if x.shortName in Names(Dedup(s)) then Dedup(s) else Dedup(s) + [x]
  {
    assert (s + [x])[..|s|] == s;
  }

  lemma NamesSnoc(s: seq<Suggestion>, x: Suggestion)
    ensures Names(s + [x]) == Names(s) + {x.shortName}
  {
    forall n | n in Names(s) ensures n in Names(s + [x]) {
      var y :| y in s && y.shortName == n;
      assert y in s + [x];
    }
  }

  /** `s[i]` is the first suggestion in `s` with its short name. */
  predicate FirstOfName(s: seq<Suggestion>, i: int)
    requires 0 <= i < |s|
  {
    forall j :: 0 <= j < i ==> s[j].shortName != s[i].shortName
  }

  /** The merge keeps exactly the first suggestion of each short name. */
  lemma {:induction false} DedupKeepsFirst(s: seq<Suggestion>, x: Suggestion)
    ensures x in Dedup(s) <==> exists i :: 0 <= i < |s| && s[i] == x && FirstOfName(s, i)
  {
    if s != [] {
      var p := s[..|s| - 1];
      var last := s[|s| - 1];
      DedupKeepsFirst(p, x);
      DedupShape(p);
      assert s == p + [last];
      assert forall i :: 0 <= i < |p| ==> (FirstOfName(p, i) <==> FirstOfName(s, i));
      if x in Dedup(s) && x !in Dedup(p) {
        assert x == last && last.shortName !in Names(p);
        forall j | 0 <= j < |s| - 1 ensures s[j].shortName != last.shortName {
          assert p[j] in p;
        }
        assert FirstOfName(s, |s| - 1);
      }
      if exists i :: 0 <= i < |s| && s[i] == x && FirstOfName(s, i) {
        var i :| 0 <= i < |s| && s[i] == x && FirstOfName(s, i);
        if i == |s| - 1 {
          forall y | y in p ensures y.shortName != last.shortName {
            var j :| 0 <= j < |p| && p[j] == y;
            assert s[j] == y;
          }
        }
      }
    }
  }

  /** Every Nominatim entry of the merge comes before every Photon entry. */
  lemma {:induction false} DedupAppend(a: seq<Suggestion>, b: seq<Suggestion>)
    ensures |Dedup(a)| <= |Dedup(a + b)| && Dedup(a + b)[..|Dedup(a)|] == Dedup(a)
    ensures forall k :: |Dedup(a)| <= k < |Dedup(a + b)| ==> Dedup(a + b)[k] in b
  {
    if b == [] {
      assert a + b == a;
    } else {
      var b' := b[..|b| - 1];
      DedupAppend(a, b');
      assert (a + b)[..|a + b| - 1] == a + b';
      var d' := Dedup(a + b');
      var d := Dedup(a + b);
      assert d == d' || d == d' + [b[|b| - 1]];
      assert forall k :: |Dedup(a)| <= k < |d'| ==> d'[k] in b;
    }
  }

  /** The merge of two lists holds every short name from either and no other. */
  lemma MergeNames(nominatim: seq<Suggestion>, photon: seq<Suggestion>)
    ensures Names(Dedup(nominatim + photon)) == Names(nominatim) + Names(photon)
  {
    var s := nominatim + photon;
    DedupShape(s);
    forall n | n in Names(s) ensures n in Names(nominatim) + Names(photon) {
      var x :| x in s && x.shortName == n;
    }
    forall n | n in Names(nominatim) + Names(photon) ensures n in Names(s) {
      if n in Names(nominatim) {
        var x :| x in nominatim && x.shortName == n;
        assert x in s;
      } else {
        var x :| x in photon && x.shortName == n;
        assert x in s;
      }
    }
  }

  /** What `formatDisplayName` reads of a Nominatim result. */
  datatype NominatimItem = NominatimItem(displayName: string, name: string, kind: string,
                                         address: Option<map<string, string>>)

  /** The address keys tried, from most to least specific. */
  const AddressPriority: seq<string> :=
    ["road", "neighbourhood", "suburb", "quarter", "city_district", "village", "town", "city",
     "county", "state_district", "state"]

  /** `address[key]`, with a missing key read as "". */
  function Field(address: map<string, string>, key: string): string
  {
    if key in address then address[key] else ""
  }

  /** JavaScript `a || b` on strings. */
  function Or(a: string, b: string): (r: string)
    ensures r == a || r == b
    ensures r == "" <==> a == "" && b == ""
  {
    if a != "" then a else b
  }

  /** The values of `keys` in `address`, in key order. */
  function Values(address: map<string, string>, keys: seq<string>): (r: seq<string>)
    ensures |r| == |keys| && forall i :: 0 <= i < |keys| ==> r[i] == Field(address, keys[i])
  {
    if keys == [] then [] else Values(address, keys[..|keys| - 1]) + [Field(address, keys[|keys| - 1])]
  }

  lemma ValuesSnoc(address: map<string, string>, keys: seq<string>, key: string)
    ensures Values(address, keys + [key]) == Values(address, keys) + [Field(address, key)]
  {
    assert (keys + [key])[..|keys|] == keys;
  }

  predicate NoBlank(parts: seq<string>) { forall k :: 0 <= k < |parts| ==> parts[k] != "" }

  predicate NoDuplicates(parts: seq<string>) { forall i, j :: 0 <= i < j < |parts| ==> parts[i] != parts[j] }

  /** `if (v && !parts.includes(v)) parts.push(v)` for each of `vs` in turn. */
  function AddEach(parts: seq<string>, vs: seq<string>): seq<string>
  {
    if vs == [] then parts
    else
      var p := AddEach(parts, vs[..|vs| - 1]);
      var v := vs[|vs| - 1];
      if v != "" && v !in p then p + [v] else p
  }

  /**
   * The pushes keep what was there as a prefix, add exactly the non-blank
   * new values, and so never introduce a blank or a repeated part.
   */
  lemma {:induction false} AddEachShape(parts: seq<string>, vs: seq<string>)
    ensures |parts| <= |AddEach(parts, vs)| && AddEach(parts, vs)[..|parts|] == parts
    ensures forall v :: v in AddEach(parts, vs) <==> v in parts || (v in vs && v != "")
    ensures NoBlank(parts) && NoDuplicates(parts) ==> NoBlank(AddEach(parts, vs)) && NoDuplicates(AddEach(parts, vs))
  {
    if vs != [] {
      var vs' := vs[..|vs| - 1];
      AddEachShape(parts, vs');
      assert vs == vs' + [vs[|vs| - 1]];
    }
  }

  /** The item's own name, pushed first unless the place is an administrative area. */
  function Lead(item: NominatimItem): seq<string>
  {
    if item.kind != "administrative" && item.name != "" then [item.name] else []
  }

  /** `item.address.city || item.address.town || item.address.village`. */
  function CityValue(address: map<string, string>): string
  {
    Or(Or(Field(address, "city"), Field(address, "town")), Field(address, "village"))
  }

  /** The parts `formatDisplayName` joins: the lead, the priority keys, then city and state again. */
  function DisplayParts(item: NominatimItem, address: map<string, string>): seq<string>
  {
    AddEach(Lead(item), Values(address, AddressPriority) + [CityValue(address), Field(address, "state")])
  }

  /** The loop over the priority keys: push each key's value unless blank or already present. */
  method AddFields(parts0: seq<string>, address: map<string, string>, keys: seq<string>) returns (parts: seq<string>)
    ensures parts == AddEach(parts0, Values(address, keys))
  {
    parts := parts0;
    for i := 0 to |keys|
      invariant parts == AddEach(parts0, Values(address, keys[..i]))
    {
      assert keys[..i + 1] == keys[..i] + [keys[i]];
      ValuesSnoc(address, keys[..i], keys[i]);
      var v := Field(address, keys[i]);
      if v != "" && v !in parts {
        parts := parts + [v];
      }
    }
    assert keys[..|keys|] == keys;
  }

  /** `formatDisplayName`: the raw display name without an address, else the joined part list. */
  method FormatDisplayName(item: NominatimItem) returns (r: string)
    ensures item.address.None? ==> r == item.displayName
    ensures item.address.Some? ==> r == Join(DisplayParts(item, item.address.value), ", ")
  {
    if item.address.None? {
      return item.displayName;
    }
    var address := item.address.value;
    var parts: seq<string> := [];
    if item.kind != "administrative" && item.name != "" {
      parts := parts + [item.name];
    }
    assert parts == Lead(item);
    parts := AddFields(parts, address, AddressPriority);
    var city := CityValue(address);
    if city != "" && city !in parts {
      parts := parts + [city];
    }
    var state := Field(address, "state");
    if state != "" && state !in parts {
      parts := parts + [state];
    }
    AddEachSnoc2(Lead(item), Values(address, AddressPriority), city, state);
    r := Join(parts, ", ");
  }

  lemma AddEachSnoc2(parts: seq<string>, vs: seq<string>, a: string, b: string)
    ensures AddEach(parts, vs + [a, b]) ==
      var p := AddEach(parts, vs);
      var pa := if a != "" && a !in p then p + [a] else p;
      if b != "" && b !in pa then pa + [b] else pa
  {
    assert (vs + [a, b])[..|vs| + 1] == vs + [a];
    assert (vs + [a])[..|vs|] == vs;
  }

  /** The parts never repeat, are never blank, and the item's own name leads when it was pushed. */
  lemma DisplayPartsShape(item: NominatimItem, address: map<string, string>)
    ensures NoBlank(DisplayParts(item, address)) && NoDuplicates(DisplayParts(item, address))
    ensures item.kind != "administrative" && item.name != "" ==>
      |DisplayParts(item, address)| >= 1 && DisplayParts(item, address)[0] == item.name
  {
    AddEachShape(Lead(item), Values(address, AddressPriority) + [CityValue(address), Field(address, "state")]);
  }

  /**
   * The trailing city and state pushes never add a part: both values were
   * already offered by the priority keys. So the parts are the item's own
   * name (when pushed) and every non-blank address value, and nothing else.
   */
  lemma TrailingPushesRedundant(item: NominatimItem, address: map<string, string>)
    ensures DisplayParts(item, address) == AddEach(Lead(item), Values(address, AddressPriority))
    ensures forall v :: v in DisplayParts(item, address) <==>
      v in Lead(item) || (v != "" && v in Values(address, AddressPriority))
  {
    var ps := Values(address, AddressPriority);
    var p := AddEach(Lead(item), ps);
    assert ps[5] == Field(address, "village") && ps[6] == Field(address, "town") && ps[7] == Field(address, "city");
    assert ps[10] == Field(address, "state");
    var city := CityValue(address);
    var state := Field(address, "state");
    AddEachSnoc2(Lead(item), ps, city, state);
    AddEachShape(Lead(item), ps);
    assert city == "" || city in p;
    assert state == "" || state in p;
  }

  /** What `formatPhotonResult` reads of a Photon result. */
  datatype PhotonProps = PhotonProps(name: string, street: string, district: string, neighbourhood: string,
                                     suburb: string, city: string, town: string, village: string, state: string)

  /** `vs` without its blank entries. */
  function NonBlank(vs: seq<string>): seq<string>
  {
    if vs == [] then [] else if vs[0] == "" then NonBlank(vs[1..]) else [vs[0]] + NonBlank(vs[1..])
  }

  /** `if (v) parts.push(v)`. */
  function PushIfSet(v: string): seq<string>
  {
    if v != "" then [v] else []
  }

  lemma NonBlankCons(v: string, vs: seq<string>)
    ensures NonBlank([v] + vs) == PushIfSet(v) + NonBlank(vs)
  {
    assert ([v] + vs)[1..] == vs;
  }

  /** The five slots in output order: name, street (long form only), area, city, state. */
  function PhotonSlots(p: PhotonProps, short: bool): seq<string>
  {
    [p.name, if short then "" else p.street, Or(Or(p.district, p.neighbourhood), p.suburb),
     Or(Or(p.city, p.town), p.village), p.state]
  }

  /** The parts `formatPhotonResult` pushes: the non-blank slots, in slot order. */
  function PhotonParts(p: PhotonProps, short: bool): (parts: seq<string>)
    ensures parts == NonBlank(PhotonSlots(p, short))
  {
    PhotonPartsAreSlots(p, short);
    PushIfSet(p.name) +
    ((if short then [] else PushIfSet(p.street)) +
     (PushIfSet(Or(Or(p.district, p.neighbourhood), p.suburb)) +
      (PushIfSet(Or(Or(p.city, p.town), p.village)) +
       PushIfSet(p.state))))
  }

  lemma PhotonPartsAreSlots(p: PhotonProps, short: bool)
    ensures NonBlank(PhotonSlots(p, short)) ==
      PushIfSet(p.name) + ((if short then [] else PushIfSet(p.street)) +
      (PushIfSet(Or(Or(p.district, p.neighbourhood), p.suburb)) + (PushIfSet(Or(Or(p.city, p.town), p.village)) +
      PushIfSet(p.state))))
  {
    var slots := PhotonSlots(p, short);
    var t4 := [slots[4]];
    var t3 := [slots[3]] + t4;
    var t2 := [slots[2]] + t3;
    var t1 := [slots[1]] + t2;
    assert slots == [slots[0]] + t1;
    assert NonBlank(t4) == PushIfSet(slots[4]) by {
      NonBlankCons(slots[4], []);
      assert t4 == [slots[4]] + [];
    }
    assert NonBlank(t3) == PushIfSet(slots[3]) + NonBlank(t4) by { NonBlankCons(slots[3], t4); }
    assert NonBlank(t2) == PushIfSet(slots[2]) + NonBlank(t3) by { NonBlankCons(slots[2], t3); }
    assert NonBlank(t1) == PushIfSet(slots[1]) + NonBlank(t2) by { NonBlankCons(slots[1], t2); }
    NonBlankCons(slots[0], t1);
  }

  /** `formatPhotonResult(props, short)`. */
  function FormatPhotonResult(p: PhotonProps, short: bool): string
  {
    Join(PhotonParts(p, short), ", ")
  }

  /** The short form is the long form with the street taken out. */
  lemma ShortIsLongWithoutStreet(p: PhotonProps)
    ensures p.street == "" ==> PhotonParts(p, false) == PhotonParts(p, true)
    ensures p.street != "" ==>
      var k := if p.name != "" then 1 else 0;
      var short := PhotonParts(p, true);
      k <= |short| && PhotonParts(p, false) == short[..k] + [p.street] + short[k..]
  {
  }

  /** The trimmed comma-separated pieces of a place name. */
  function TrimAll(ps: seq<string>): (r: seq<string>)
    ensures |r| == |ps| && forall k :: 0 <= k < |ps| ==> r[k] == Trim(ps[k])
  {
    if ps == [] then [] else [Trim(ps[0])] + TrimAll(ps[1..])
  }

  /** `(suggestion.name || "").split(",").map(part => part.trim())`. */
  function LocationParts(name: string): (r: seq<string>)
    ensures |r| >= 1
  {
    TrimAll(Split(name, ','))
  }

  const NotSpecified := "Not specified"

  function Last(parts: seq<string>): string
    requires |parts| >= 1
  {
    parts[|parts| - 1]
  }

  /** The district stored when a station is picked: the suggestion's, else the second-to-last name part, else "Not specified". */
  function PickedDistrict(s: Suggestion): (r: string)
    ensures r != ""
    ensures s.district != "" ==> r == s.district
    ensures s.district == "" ==>
      var parts := LocationParts(s.name);
      if |parts| >= 2 && parts[|parts| - 2] != "" then r == parts[|parts| - 2] else r == NotSpecified
  {
    var parts := LocationParts(s.name);
    var fallback := Or(s.district, if |parts| > 1 then parts[|parts| - 2] else "");
    Or(Or(s.district, fallback), NotSpecified)
  }

  /** The state stored when a station is picked: the suggestion's, else the last name part, else "Not specified". */
  function PickedState(s: Suggestion): (r: string)
    ensures r != ""
    ensures s.state != "" ==> r == s.state
    ensures s.state == "" ==> r == Or(Last(LocationParts(s.name)), NotSpecified)
  {
    var parts := LocationParts(s.name);
    var fallback := Or(s.state, if |parts| > 0 then parts[|parts| - 1] else "");
    Or(Or(s.state, fallback), NotSpecified)
  }
}
