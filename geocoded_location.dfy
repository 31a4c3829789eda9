/** The location record (`GeocodedLocation`): its fields, its builder, and the
    display-string ordering used to sort suggestions. */
module GeocodedLocations {
  import opened Wrappers

  /** A Java `String` reference: `None` is `null`. */
  type JavaString = Option<string>

  /** Coarse place classification of a geocoded result. */
  datatype LocationType =
    | Route | Poi | StreetAddress | Locality | AdminLevel1 | AdminLevel2
    | Neighborhood | PostalCode | Country | Unknown

  /** The state of one record. Coordinates are carried as reals: the model never
      does arithmetic on them, it only stores what the number parser produced. */
  datatype Location = Location(
    originalAddress: JavaString,
    geocodedAddress: JavaString,
    streetNumber: JavaString,
    route: JavaString,
    locality: JavaString,
    administrativeAreaLevel1: JavaString,
    administrativeAreaLevel2: JavaString,
    country: JavaString,
    postalCode: JavaString,
    lon: real,
    lat: real,
    ambiguous: bool,
    locationType: Option<LocationType>)

  /** A freshly constructed record: every reference null, numbers zero, flag false. */
  const Blank: Location :=
    Location(None, None, None, None, None, None, None, None, None, 0.0, 0.0, false, None)

  /** `getDisplayString()` as a function of the record's value. */
  function DisplayString(loc: Location): JavaString
  {
    loc.geocodedAddress
  }

  /** A mutable record; its setters change exactly one field. */
  class GeocodedLocation {
    var originalAddress: JavaString
    var geocodedAddress: JavaString
    var streetNumber: JavaString
    var route: JavaString
    var locality: JavaString
    var administrativeAreaLevel1: JavaString
    var administrativeAreaLevel2: JavaString
    var country: JavaString
    var postalCode: JavaString
    var lon: real
    var lat: real
    var ambiguous: bool
    var locationType: Option<LocationType>

    /** The values its getters return. */
    function Value(): Location
      reads this
    {
      Location(originalAddress, geocodedAddress, streetNumber, route, locality,
               administrativeAreaLevel1, administrativeAreaLevel2, country, postalCode,
               lon, lat, ambiguous, locationType)
    }

    constructor ()
      ensures Value() == Blank
    {
      originalAddress, geocodedAddress, streetNumber, route, locality := None, None, None, None, None;
      administrativeAreaLevel1, administrativeAreaLevel2, country, postalCode := None, None, None, None;
      lon, lat, ambiguous, locationType := 0.0, 0.0, false, None;
    }

    method SetOriginalAddress(v: JavaString)
      modifies this
      ensures Value() == old(Value()).(originalAddress := v)
    {
      originalAddress := v;
    }

    method SetGeocodedAddress(v: JavaString)
      modifies this
      ensures Value() == old(Value()).(geocodedAddress := v)
    {
      geocodedAddress := v;
    }

    method SetStreetNumber(v: JavaString)
      modifies this
      ensures Value() == old(Value()).(streetNumber := v)
    {
      streetNumber := v;
    }

    method SetRoute(v: JavaString)
      modifies this
      ensures Value() == old(Value()).(route := v)
    {
      route := v;
    }

    method SetLocality(v: JavaString)
      modifies this
      ensures Value() == old(Value()).(locality := v)
    {
      locality := v;
    }

    method SetAdministrativeAreaLevel1(v: JavaString)
      modifies this
      ensures Value() == old(Value()).(administrativeAreaLevel1 := v)
    {
      administrativeAreaLevel1 := v;
    }

    method SetAdministrativeAreaLevel2(v: JavaString)
      modifies this
      ensures Value() == old(Value()).(administrativeAreaLevel2 := v)
    {
      administrativeAreaLevel2 := v;
    }

    method SetCountry(v: JavaString)
      modifies this
      ensures Value() == old(Value()).(country := v)
    {
      country := v;
    }

    method SetPostalCode(v: JavaString)
      modifies this
      ensures Value() == old(Value()).(postalCode := v)
    {
      postalCode := v;
    }

    method SetLon(v: real)
      modifies this
      ensures Value() == old(Value()).(lon := v)
    {
      lon := v;
    }

    method SetLat(v: real)
      modifies this
      ensures Value() == old(Value()).(lat := v)
    {
      lat := v;
    }

    method SetAmbiguous(v: bool)
      modifies this
      ensures Value() == old(Value()).(ambiguous := v)
    {
      ambiguous := v;
    }

    method SetType(v: Option<LocationType>)
      modifies this
      ensures Value() == old(Value()).(locationType := v)
    {
      locationType := v;
    }

    /** `getDisplayString()`: the text shown for this record in the suggestion list. */
    method GetDisplayString() returns (s: JavaString)
      ensures s == geocodedAddress && s == DisplayString(Value())
    {
      s := geocodedAddress;
    }

    /** `toString()` agrees with the display string. */
    method ToString() returns (s: JavaString)
      ensures s == geocodedAddress && s == DisplayString(Value())
    {
      s := geocodedAddress;
    }
  }

  /** `GeocodedLocation.Builder`: fluent setters, then `Build` copies every field. */
  class Builder {
    var originalAddress: JavaString
    var geocodedAddress: JavaString
    var streetNumber: JavaString
    var route: JavaString
    var locality: JavaString
    var administrativeAreaLevel1: JavaString
    var administrativeAreaLevel2: JavaString
    var country: JavaString
    var postalCode: JavaString
    var lon: real
    var lat: real
    var ambiguous: bool
    var locationType: Option<LocationType>

    /** The record `Build` would produce now. */
    function Value(): Location
      reads this
    {
      Location(originalAddress, geocodedAddress, streetNumber, route, locality,
               administrativeAreaLevel1, administrativeAreaLevel2, country, postalCode,
               lon, lat, ambiguous, locationType)
    }

    /** `GeocodedLocation.newBuilder()`. */
    constructor ()
      ensures Value() == Blank
    {
      originalAddress, geocodedAddress, streetNumber, route, locality := None, None, None, None, None;
      administrativeAreaLevel1, administrativeAreaLevel2, country, postalCode := None, None, None, None;
      lon, lat, ambiguous, locationType := 0.0, 0.0, false, None;
    }

    method WithOriginalAddress(v: JavaString) returns (b: Builder)
      modifies this
      ensures b == this && Value() == old(Value()).(originalAddress := v)
    {
      originalAddress := v;
      b := this;
    }

    method WithGeocodedAddress(v: JavaString) returns (b: Builder)
      modifies this
      ensures b == this && Value() == old(Value()).(geocodedAddress := v)
    {
      geocodedAddress := v;
      b := this;
    }

    method WithStreetNumber(v: JavaString) returns (b: Builder)
      modifies this
      ensures b == this && Value() == old(Value()).(streetNumber := v)
    {
      streetNumber := v;
      b := this;
    }

    method WithRoute(v: JavaString) returns (b: Builder)
      modifies this
      ensures b == this && Value() == old(Value()).(route := v)
    {
      route := v;
      b := this;
    }

    method WithLocality(v: JavaString) returns (b: Builder)
      modifies this
      ensures b == this && Value() == old(Value()).(locality := v)
    {
      locality := v;
      b := this;
    }

    method WithAdministrativeAreaLevel1(v: JavaString) returns (b: Builder)
      modifies this
      ensures b == this && Value() == old(Value()).(administrativeAreaLevel1 := v)
    {
      administrativeAreaLevel1 := v;
      b := this;
    }

    method WithAdministrativeAreaLevel2(v: JavaString) returns (b: Builder)
      modifies this
      ensures b == this && Value() == old(Value()).(administrativeAreaLevel2 := v)
    {
      administrativeAreaLevel2 := v;
      b := this;
    }

    method WithCountry(v: JavaString) returns (b: Builder)
      modifies this
      ensures b == this && Value() == old(Value()).(country := v)
    {
      country := v;
      b := this;
    }

    method WithPostalCode(v: JavaString) returns (b: Builder)
      modifies this
      ensures b == this && Value() == old(Value()).(postalCode := v)
    {
      postalCode := v;
      b := this;
    }

    method WithLon(v: real) returns (b: Builder)
      modifies this
      ensures b == this && Value() == old(Value()).(lon := v)
    {
      lon := v;
      b := this;
    }

    method WithLat(v: real) returns (b: Builder)
      modifies this
      ensures b == this && Value() == old(Value()).(lat := v)
    {
      lat := v;
      b := this;
    }

    method WithAmbiguous(v: bool) returns (b: Builder)
      modifies this
      ensures b == this && Value() == old(Value()).(ambiguous := v)
    {
      ambiguous := v;
      b := this;
    }

    method WithType(v: Option<LocationType>) returns (b: Builder)
      modifies this
      ensures b == this && Value() == old(Value()).(locationType := v)
    {
      locationType := v;
      b := this;
    }

    /** A new record whose every getter returns what this builder holds; the
        builder itself is left as it was. */
    method Build() returns (loc: GeocodedLocation)
      ensures fresh(loc) && loc.Value() == Value()
    {
      loc := new GeocodedLocation();
      loc.SetOriginalAddress(originalAddress);
      loc.SetGeocodedAddress(geocodedAddress);
      loc.SetStreetNumber(streetNumber);
      loc.SetRoute(route);
      loc.SetLocality(locality);
      loc.SetAdministrativeAreaLevel1(administrativeAreaLevel1);
      loc.SetAdministrativeAreaLevel2(administrativeAreaLevel2);
      loc.SetCountry(country);
      loc.SetPostalCode(postalCode);
      loc.SetLon(lon);
      loc.SetLat(lat);
      loc.SetAmbiguous(ambiguous);
      loc.SetType(locationType);
    }
  }

  // ---------------------------------------------------------------------------
  // Ordering

  /** The UTF-16 code units of one character: itself below U+10000, otherwise
      a high surrogate followed by a low surrogate. */
  function CodeUnitsOf(c: char): (u: seq<int>)
    ensures c as int < 0x1_0000 ==> u == [c as int]
    ensures c as int >= 0x1_0000 ==>
      && |u| == 2 && 0xD800 <= u[0] < 0xDC00 && 0xDC00 <= u[1] < 0xE000
      && c as int == 0x1_0000 + (u[0] - 0xD800) * 0x400 + (u[1] - 0xDC00)
    ensures |u| == 1 ==> !(0xD800 <= u[0] < 0xE000)
  {
    if c as int < 0x1_0000 then [c as int]
    else
      var v := c as int - 0x1_0000;
      [0xD800 + v / 0x400, 0xDC00 + v % 0x400]
  }

  /** The UTF-16 code units of a string, which is what a Java `String` holds. */
  function Utf16(s: string): (u: seq<int>)
    ensures |u| >= |s|
    ensures s == [] <==> u == []
  {
    if s == [] then [] else CodeUnitsOf(s[0]) + Utf16(s[1..])
  }

  /** Different strings have different code units. */
  lemma {:induction false} Utf16Injective(a: string, b: string)
    ensures Utf16(a) == Utf16(b) ==> a == b
  {
    if a != [] && b != [] && Utf16(a) == Utf16(b) {
      var ua, ub := CodeUnitsOf(a[0]), CodeUnitsOf(b[0]);
      assert Utf16(a)[0] == ua[0] && Utf16(b)[0] == ub[0];
      assert |ua| == |ub|;
      if |ua| == 2 {
        assert Utf16(a)[1] == ua[1] && Utf16(b)[1] == ub[1];
      }
      assert ua == ub;
      assert a[0] as int == b[0] as int;
      assert Utf16(a[1..]) == Utf16(a)[|ua|..] == Utf16(b)[|ub|..] == Utf16(b[1..]);
      Utf16Injective(a[1..], b[1..]);
      assert a == [a[0]] + a[1..] && b == [b[0]] + b[1..];
    }
  }

  /** Characters below U+10000 are one code unit each, so strings made of them
      compare character by character. */
  lemma {:induction false} Utf16Basic(s: string)
    requires forall i :: 0 <= i < |s| ==> s[i] as int < 0x1_0000
    ensures Utf16(s) == seq(|s|, i requires 0 <= i < |s| => s[i] as int)
  {
    if s != [] {
      Utf16Basic(s[1..]);
    }
  }

  /** The code-unit comparison behind `String.compareTo`: the difference of the
      first differing units, or of the lengths when one is a prefix of the other. */
  function UnitCompare(a: seq<int>, b: seq<int>): (r: int)
    ensures a <= b || b <= a ==> r == |a| - |b|
  {
    if a == [] || b == [] then |a| - |b|
    else if a[0] != b[0] then a[0] - b[0]
    else
      assert a <= b ==> a[1..] <= b[1..];
      assert b <= a ==> b[1..] <= a[1..];
      UnitCompare(a[1..], b[1..])
  }

  /** Lexicographic order on code-unit sequences, stated independently of
      `UnitCompare`: `a` is strictly before `b` when they first differ at a
      smaller unit of `a`, or when `a` is a proper prefix of `b`. */
  ghost predicate LexLess(a: seq<int>, b: seq<int>)
  {
    (exists k :: 0 <= k < |a| && k < |b| && a[..k] == b[..k] && a[k] < b[k])
    || (|a| < |b| && a == b[..|a|])
  }

  /** `String.compareTo`: zero exactly on equal strings, negative exactly when
      the first string's UTF-16 code units come lexicographically first. */
  function StringCompare(a: string, b: string): (r: int)
    ensures r == 0 <==> a == b
    ensures r < 0 <==> LexLess(Utf16(a), Utf16(b))
  {
    UnitCompareZeroIffEqual(Utf16(a), Utf16(b));
    Utf16Injective(a, b);
    UnitCompareIsLexicographic(Utf16(a), Utf16(b));
    UnitCompare(Utf16(a), Utf16(b))
  }

  /** Java orders by code units, not by code points: U+10000 is stored as
      0xD800 0xDC00 and so sorts before U+FFFF. */
  lemma SupplementarySortsBeforeUFFFF()
    ensures StringCompare("\U{10000}", "\U{FFFF}") < 0
  {
    assert Utf16("\U{10000}") == [0xD800, 0xDC00];
    assert Utf16("\U{FFFF}") == [0xFFFF];
  }

  /** `compareTo`: `None` for `o` is a null argument. Records compare by display
      string; a null display string sorts after every non-null one. */
  function CompareTo(self: Location, o: Option<Location>): (r: int)
    ensures o.None? ==> r == -1
    ensures o.Some? && DisplayString(self) == DisplayString(o.value) ==> r == 0
    ensures o.Some? && DisplayString(self).None? && DisplayString(o.value).Some? ==> r == 1
    ensures o.Some? && DisplayString(self).Some? && DisplayString(o.value).None? ==> r == -1
    ensures o.Some? && DisplayString(self).Some? && DisplayString(o.value).Some? ==>
      (r < 0 <==> LexLess(Utf16(DisplayString(self).value), Utf16(DisplayString(o.value).value)))
  {
    if o.None? then -1
    else
      var loc1 := DisplayString(self);
      var loc2 := DisplayString(o.value);
      if loc1 == loc2 then 0
      else if loc1.None? then 1
      else if loc2.None? then -1
      else StringCompare(loc1.value, loc2.value)
  }

  /** Swapping the strings negates `String.compareTo`. */
  lemma StringCompareAntisymmetric(a: string, b: string)
    ensures StringCompare(a, b) == -StringCompare(b, a)
  {
    UnitCompareAntisymmetric(Utf16(a), Utf16(b));
  }

  lemma {:induction false} UnitCompareAntisymmetric(a: seq<int>, b: seq<int>)
    ensures UnitCompare(a, b) == -UnitCompare(b, a)
  {
    if a != [] && b != [] && a[0] == b[0] {
      UnitCompareAntisymmetric(a[1..], b[1..]);
    }
  }

  lemma {:induction false} UnitCompareZeroIffEqual(a: seq<int>, b: seq<int>)
    ensures UnitCompare(a, b) == 0 <==> a == b
  {
    if a != [] && b != [] && a[0] == b[0] {
      UnitCompareZeroIffEqual(a[1..], b[1..]);
      assert a == [a[0]] + a[1..] && b == [b[0]] + b[1..];
    }
  }

  /** `UnitCompare` is negative exactly when `a` is lexicographically before `b`. */
  lemma {:induction false} UnitCompareIsLexicographic(a: seq<int>, b: seq<int>)
    ensures UnitCompare(a, b) < 0 <==> LexLess(a, b)
  {
    LexLessUnfold(a, b);
    if a != [] && b != [] && a[0] == b[0] {
      UnitCompareIsLexicographic(a[1..], b[1..]);
    }
  }

  /** Lexicographic order decided on the first units. */
  lemma LexLessUnfold(a: seq<int>, b: seq<int>)
    ensures LexLess(a, b) <==>
      if a == [] || b == [] then a == [] && b != []
      else a[0] < b[0] || (a[0] == b[0] && LexLess(a[1..], b[1..]))
  {
    if a != [] && b != [] {
      if a[0] < b[0] {
        assert a[..0] == b[..0];
      } else if a[0] > b[0] {
        forall k | 0 < k <= |a| && k <= |b|
          ensures a[..k] == b[..k] ==> a[0] == b[0]
        {
          assert a[..k][0] == a[0] && b[..k][0] == b[0];
        }
        if |a| <= |b| {
          assert b[..|a|][0] == b[0];
        }
      } else {
        LexLessTail(a, b);
      }
    } else if a == [] && b != [] {
      assert a == b[..|a|];
    }
  }

  /** Dropping a shared first unit does not change lexicographic order. */
  lemma LexLessTail(a: seq<int>, b: seq<int>)
    requires a != [] && b != [] && a[0] == b[0]
    ensures LexLess(a, b) <==> LexLess(a[1..], b[1..])
  {
    if LexLess(a, b) {
      LexLessDropFirst(a, b);
    }
    if LexLess(a[1..], b[1..]) {
      LexLessAddFirst(a, b);
    }
  }

  lemma LexLessDropFirst(a: seq<int>, b: seq<int>)
    requires a != [] && b != [] && a[0] == b[0] && LexLess(a, b)
    ensures LexLess(a[1..], b[1..])
  {
    var a', b' := a[1..], b[1..];
    if exists k :: 0 <= k < |a| && k < |b| && a[..k] == b[..k] && a[k] < b[k] {
      var k :| 0 <= k < |a| && k < |b| && a[..k] == b[..k] && a[k] < b[k];
      assert k != 0;
      assert a'[..k-1] == a[1..k] == b[1..k] == b'[..k-1];
      assert a'[k-1] < b'[k-1];
    } else {
      assert forall i :: 0 <= i < |a'| ==> a'[i] == a[i + 1] == b[i + 1] == b'[i];
      assert a' == b'[..|a'|];
    }
  }

  lemma LexLessAddFirst(a: seq<int>, b: seq<int>)
    requires a != [] && b != [] && a[0] == b[0] && LexLess(a[1..], b[1..])
    ensures LexLess(a, b)
  {
    var a', b' := a[1..], b[1..];
    if exists k :: 0 <= k < |a'| && k < |b'| && a'[..k] == b'[..k] && a'[k] < b'[k] {
      var k :| 0 <= k < |a'| && k < |b'| && a'[..k] == b'[..k] && a'[k] < b'[k];
      assert a[..k+1] == [a[0]] + a'[..k] == [b[0]] + b'[..k] == b[..k+1];
      assert a[k+1] < b[k+1];
    } else {
      assert a == [a[0]] + a' == [b[0]] + b'[..|a'|] == b[..|a|];
    }
  }

  lemma {:induction false} UnitCompareTransitive(a: seq<int>, b: seq<int>, c: seq<int>)
    requires UnitCompare(a, b) <= 0 && UnitCompare(b, c) <= 0
    ensures UnitCompare(a, c) <= 0
  {
    if a != [] && b != [] && c != [] && a[0] == b[0] && b[0] == c[0] {
      UnitCompareTransitive(a[1..], b[1..], c[1..]);
    }
  }

  /** Every record compares equal to itself. */
  lemma CompareToReflexive(x: Location)
    ensures CompareTo(x, Some(x)) == 0
  {
  }

  /** Swapping the operands negates the result exactly, so the signs are opposite. */
  lemma CompareToAntisymmetric(x: Location, y: Location)
    ensures CompareTo(x, Some(y)) == -CompareTo(y, Some(x))
  {
    if DisplayString(x).Some? && DisplayString(y).Some? {
      StringCompareAntisymmetric(DisplayString(x).value, DisplayString(y).value);
    }
  }

  /** The result is zero exactly when the display strings agree (both null included). */
  lemma CompareToZeroIff(x: Location, y: Location)
    ensures CompareTo(x, Some(y)) == 0 <==> DisplayString(x) == DisplayString(y)
  {
  }

  /** "Not after" is transitive, so sorting by `CompareTo` is well defined. */
  lemma CompareToTransitive(x: Location, y: Location, z: Location)
    requires CompareTo(x, Some(y)) <= 0 && CompareTo(y, Some(z)) <= 0
    ensures CompareTo(x, Some(z)) <= 0
  {
    var dx, dy, dz := DisplayString(x), DisplayString(y), DisplayString(z);
    if dx.Some? && dy.Some? && dz.Some? && dx != dy && dy != dz {
      UnitCompareTransitive(Utf16(dx.value), Utf16(dy.value), Utf16(dz.value));
    }
  }
}
