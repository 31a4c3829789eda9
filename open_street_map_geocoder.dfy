/** The OpenStreetMap (Nominatim) geocoder: the request URL, the decoding of the
    provider's JSON array into location records, and the place-type table. */
module OpenStreetMap {
  import opened Wrappers
  import opened GeocodedLocations
  import opened LocationProviders

  /** A parsed JSON value, as far as the decoder inspects it. */
  datatype Json = JsonString(s: string) | JsonObject(members: map<string, Json>) | JsonOther

  /** The library calls the geocoder makes and the model does not interpret:
      the JSON array parser (`None` when the text is not a JSON array), the
      floating-point parser (`None` when the text is not a number) and the
      UTF-8 URL encoder. */
  datatype Foreign = Foreign(
    parseArray: string -> Option<seq<Json>>,
    parseDouble: string -> Option<real>,
    urlEncode: string -> string)

  const BaseUrl: string := "http://nominatim.openstreetmap.org/search?format=json&addressdetails=1&q="

  // ---------------------------------------------------------------------------
  // Request URL

  function Digit(d: nat): (c: char)
    requires d < 10
    ensures '0' <= c <= '9'
  {
    "0123456789"[d]
  }

  /** The decimal text of a number, as Java prints an `int`. */
  function DecimalString(n: nat): (r: string)
    ensures |r| >= 1
    ensures forall i :: 0 <= i < |r| ==> '0' <= r[i] <= '9'
    ensures r[0] == '0' ==> n == 0
  {
    if n < 10 then [Digit(n)] else DecimalString(n / 10) + [Digit(n % 10)]
  }

  /** The number a string of decimal digits denotes. */
  function ParseDecimal(s: string): nat
    requires forall i :: 0 <= i < |s| ==> '0' <= s[i] <= '9'
  {
    if s == [] then 0 else ParseDecimal(s[..|s| - 1]) * 10 + (s[|s| - 1] as int - '0' as int)
  }

  /** The printed limit reads back as the limit. */
  lemma {:induction false} DecimalStringRoundTrip(n: nat)
    ensures ParseDecimal(DecimalString(n)) == n
  {
    if n >= 10 {
      var s := DecimalString(n);
      DecimalStringRoundTrip(n / 10);
      assert s[..|s| - 1] == DecimalString(n / 10);
    }
  }

  /** `getURL`: the base URL, the encoded query, and `&limit=N` exactly when the
      limit is positive. Encoding a null query throws. */
  function GetUrl(address: JavaString, limit: int32, urlEncode: string -> string): (r: Result<string, Exception>)
    ensures r.Failure? <==> address.None?
    ensures r.Failure? ==> r.error == NullPointerException
    ensures r.Success? ==> BaseUrl + urlEncode(address.value) <= r.value
    ensures r.Success? ==> (limit > 0 <==> |r.value| > |BaseUrl + urlEncode(address.value)|)
    ensures r.Success? && limit > 0 ==>
      var suffix := r.value[|BaseUrl + urlEncode(address.value)|..];
      && |suffix| > 7 && suffix[..7] == "&limit=" && suffix[7] != '0'
      && (forall i :: 0 <= i < |suffix[7..]| ==> '0' <= suffix[7..][i] <= '9')
      && ParseDecimal(suffix[7..]) == limit
  {
    match address
    case None => Failure(NullPointerException)
    case Some(a) =>
      var url := BaseUrl + urlEncode(a);
      if limit > 0 then
        var suffix := "&limit=" + DecimalString(limit);
        DecimalStringRoundTrip(limit);
        assert (url + suffix)[|url|..] == suffix;
        assert suffix[7..] == DecimalString(limit);
        Success(url + suffix)
      else Success(url)
  }

  // ---------------------------------------------------------------------------
  // Place-type classification

  /** `getLocationType`: a first-match decision on the provider's `class` and
      `type`. The leisure class is matched under the spelling "liesure". */
  function GetLocationType(cls: string, typ: string): (r: LocationType)
    ensures r == Route <==> cls == "highway" || cls == "railway"
    ensures (cls != "highway" && cls != "railway" &&
             (cls in {"amenity", "liesure", "shop", "tourism"} || typ in {"natural", "waterway"})) ==> r == Poi
    ensures cls == "building" && typ !in {"natural", "waterway"} ==> r == StreetAddress
    ensures cls == "boundary" && typ == "administrative" ==> r == AdminLevel1
    ensures (cls !in {"highway", "railway", "amenity", "liesure", "shop", "tourism", "building", "place", "boundary"}
             && typ !in {"natural", "waterway"}) ==> r == Unknown
  {
    if cls == "highway" || cls == "railway" then Route
    else if cls == "amenity" || cls == "liesure" || typ == "natural"
      || cls == "shop" || cls == "tourism" || typ == "waterway" then Poi
    else if cls == "building" then StreetAddress
    else if cls == "place" then
      if typ == "house" || typ == "houses" || typ == "airport" || typ == "farm" then StreetAddress
      else if typ == "city" || typ == "hamlet" || typ == "town" || typ == "unincorporated_area"
        || typ == "locality" || typ == "village" || typ == "municipality" then Locality
      else if typ == "state" || typ == "region" then AdminLevel1
      else if typ == "postcode" then PostalCode
      else if typ == "country" then Country
      else if typ == "county" then AdminLevel2
      else if typ == "subdivision" || typ == "suburb" then Neighborhood
      else if typ == "moor" || typ == "island" || typ == "islet" || typ == "sea" then Poi
      else Unknown
    else if cls == "boundary" && typ == "administrative" then AdminLevel1
    else Unknown
  }

  /** One row of the classification table; `None` matches anything. */
  datatype Rule = Rule(classes: Option<set<string>>, types: Option<set<string>>, result: LocationType)

  predicate Matches(rule: Rule, cls: string, typ: string)
  {
    (rule.classes.None? || cls in rule.classes.value) && (rule.types.None? || typ in rule.types.value)
  }

  /** The result of the first row from `k` on that matches, or `Unknown` when none does. */
  function Classify(rules: seq<Rule>, k: nat, cls: string, typ: string): LocationType
    decreases |rules| - k
  {
    if k >= |rules| then Unknown
    else if Matches(rules[k], cls, typ) then rules[k].result
    else Classify(rules, k + 1, cls, typ)
  }

  /** The place-type table, row by row in priority order. */
  const PlaceRules: seq<Rule> := [
    Rule(Some({"highway", "railway"}), None, Route),
    Rule(Some({"amenity", "liesure", "shop", "tourism"}), None, Poi),
    Rule(None, Some({"natural", "waterway"}), Poi),
    Rule(Some({"building"}), None, StreetAddress),
    Rule(Some({"place"}), Some({"house", "houses", "airport", "farm"}), StreetAddress),
    Rule(Some({"place"}), Some({"city", "hamlet", "town", "unincorporated_area", "locality", "village", "municipality"}), Locality),
    Rule(Some({"place"}), Some({"state", "region"}), AdminLevel1),
    Rule(Some({"place"}), Some({"postcode"}), PostalCode),
    Rule(Some({"place"}), Some({"country"}), Country),
    Rule(Some({"place"}), Some({"county"}), AdminLevel2),
    Rule(Some({"place"}), Some({"subdivision", "suburb"}), Neighborhood),
    Rule(Some({"place"}), Some({"moor", "island", "islet", "sea"}), Poi),
    Rule(Some({"boundary"}), Some({"administrative"}), AdminLevel1)
  ]

  /** The if-chain agrees with the table on every input, so it is total and
      first-match-wins. */
  lemma GetLocationTypeFollowsTable(cls: string, typ: string)
    ensures GetLocationType(cls, typ) == Classify(PlaceRules, 0, cls, typ)
  {
    var P := PlaceRules;
    assert Classify(P, 0, cls, typ) == if Matches(P[0], cls, typ) then P[0].result else Classify(P, 1, cls, typ);
    assert Classify(P, 1, cls, typ) == if Matches(P[1], cls, typ) then P[1].result else Classify(P, 2, cls, typ);
    assert Classify(P, 2, cls, typ) == if Matches(P[2], cls, typ) then P[2].result else Classify(P, 3, cls, typ);
    assert Classify(P, 3, cls, typ) == if Matches(P[3], cls, typ) then P[3].result else Classify(P, 4, cls, typ);
    if cls == "place" && typ != "natural" && typ != "waterway" {
      PlaceRowsFollowTable(typ);
    } else if cls != "place" {
      OtherRowsFollowTable(cls, typ);
    }
  }

  /** Rows 4 to 12 for an entry of class `place`: the first row whose type set
      holds `typ` decides, and no row matches a type outside all of them. */
  lemma PlaceRowsFollowTable(typ: string)
    requires typ != "natural" && typ != "waterway"
    ensures Classify(PlaceRules, 4, "place", typ) == GetLocationType("place", typ)
  {
    if typ in {"house", "houses", "airport", "farm"} {
      PlaceRow(typ, 4);
    } else if typ in {"city", "hamlet", "town", "unincorporated_area", "locality", "village", "municipality"} {
      PlaceRow(typ, 5);
    } else if typ in {"state", "region"} {
      PlaceRow(typ, 6);
    } else {
      PlaceRow(typ, 7);
      LaterPlaceRowsFollowTable(typ);
    }
  }

  /** Rows 7 to 12 for a `place` type that rows 4 to 6 do not list. */
  lemma LaterPlaceRowsFollowTable(typ: string)
    requires typ !in {"natural", "waterway", "house", "houses", "airport", "farm", "state", "region"}
    requires typ !in {"city", "hamlet", "town", "unincorporated_area", "locality", "village", "municipality"}
    ensures Classify(PlaceRules, 7, "place", typ) == GetLocationType("place", typ)
  {
    var P := PlaceRules;
    if typ == "postcode" {
    } else if typ == "country" {
      assert Classify(P, 7, "place", typ) == Classify(P, 8, "place", typ);
    } else if typ == "county" {
      assert Classify(P, 7, "place", typ) == Classify(P, 8, "place", typ) == Classify(P, 9, "place", typ);
    } else {
      assert Classify(P, 7, "place", typ) == Classify(P, 8, "place", typ) == Classify(P, 9, "place", typ)
        == Classify(P, 10, "place", typ);
      LastPlaceRowsFollowTable(typ);
    }
  }

  /** Rows 10 to 12 for a `place` type that rows 4 to 9 do not list. */
  lemma LastPlaceRowsFollowTable(typ: string)
    requires typ !in {"natural", "waterway", "house", "houses", "airport", "farm", "state", "region"}
    requires typ !in {"city", "hamlet", "town", "unincorporated_area", "locality", "village", "municipality"}
    requires typ !in {"postcode", "country", "county"}
    ensures Classify(PlaceRules, 10, "place", typ) == GetLocationType("place", typ)
  {
    var P := PlaceRules;
    if typ !in {"subdivision", "suburb"} {
      assert Classify(P, 10, "place", typ) == Classify(P, 11, "place", typ);
      if typ !in {"moor", "island", "islet", "sea"} {
        assert Classify(P, 11, "place", typ) == Classify(P, 12, "place", typ) == Classify(P, 13, "place", typ);
      }
    }
  }

  /** For class `place`, rows 4 up to `k` do not match a type outside their sets. */
  lemma PlaceRow(typ: string, k: nat)
    requires 4 <= k <= 12
    requires forall j :: 4 <= j < k ==> PlaceRules[j].types.Some? && typ !in PlaceRules[j].types.value
    ensures Classify(PlaceRules, 4, "place", typ) == Classify(PlaceRules, k, "place", typ)
    decreases k
  {
    if k > 4 {
      PlaceRow(typ, k - 1);
    }
  }

  /** Rows 4 to 12 for any other class: only the boundary row can match. */
  lemma OtherRowsFollowTable(cls: string, typ: string)
    requires cls != "place"
    ensures Classify(PlaceRules, 4, cls, typ) ==
      if cls == "boundary" && typ == "administrative" then AdminLevel1 else Unknown
  {
    var P := PlaceRules;
    assert Classify(P, 4, cls, typ) == Classify(P, 5, cls, typ);
    assert Classify(P, 5, cls, typ) == Classify(P, 6, cls, typ);
    assert Classify(P, 6, cls, typ) == Classify(P, 7, cls, typ);
    assert Classify(P, 7, cls, typ) == Classify(P, 8, cls, typ);
    assert Classify(P, 8, cls, typ) == Classify(P, 9, cls, typ);
    assert Classify(P, 9, cls, typ) == Classify(P, 10, cls, typ);
    assert Classify(P, 10, cls, typ) == Classify(P, 11, cls, typ);
    assert Classify(P, 11, cls, typ) == Classify(P, 12, cls, typ);
    assert Classify(P, 12, cls, typ) == if Matches(P[12], cls, typ) then P[12].result else Classify(P, 13, cls, typ);
    assert Classify(P, 13, cls, typ) == Unknown;
  }

  // ---------------------------------------------------------------------------
  // Decoding

  function UpperChar(c: char): char
  {
    if 'a' <= c <= 'z' then (c as int - 32) as char else c
  }

  /** `toUpperCase`, restricted to ASCII letters. */
  function AsciiUpper(s: string): (r: string)
    ensures |r| == |s|
    ensures forall i :: 0 <= i < |s| ==> r[i] == UpperChar(s[i])
    ensures forall i :: 0 <= i < |r| ==> !('a' <= r[i] <= 'z')
    ensures forall i :: 0 <= i < |s| && !('a' <= s[i] <= 'z') ==> r[i] == s[i]
  {
    seq(|s|, i requires 0 <= i < |s| => UpperChar(s[i]))
  }

  /** `JSONObject.getString`: the string under `key`, or a JSON exception. */
  function GetString(members: map<string, Json>, key: string): (r: Result<string, Exception>)
    ensures r.Success? <==> key in members && members[key].JsonString?
    ensures r.Success? ==> r.value == members[key].s
    ensures r.Failure? ==> r.error == JsonException(BadKey(key))
  {
    if key in members && members[key].JsonString? then Success(members[key].s)
    else Failure(JsonException(BadKey(key)))
  }

  /** `if (obj.has(key)) ... obj.getString(key)`: null when absent. */
  function OptionalString(obj: map<string, Json>, key: string): (r: Result<JavaString, Exception>)
    ensures r.Success? <==> key !in obj || obj[key].JsonString?
    ensures r.Success? ==> r.value == if key in obj then Some(obj[key].s) else None
    ensures r.Failure? ==> r.error == JsonException(BadKey(key))
  {
    if key in obj then
      var s :- GetString(obj, key);
      Success(Some(s))
    else Success(None)
  }

  /** The optional address parts, in the order the decoder reads them. */
  datatype Details = Details(
    streetNumber: JavaString, route: JavaString, locality: JavaString,
    administrativeAreaLevel2: JavaString, administrativeAreaLevel1: JavaString,
    postalCode: JavaString, country: JavaString)

  const NoDetails := Details(None, None, None, None, None, None, None)

  /** The keys of the nested `address` object the decoder looks at. */
  const DetailKeys: set<string> := {"house_number", "road", "city", "county", "state", "postcode", "country_code"}

  /** Reading the `address` block: absent, it gives no parts; present, it must
      be an object whose looked-at keys hold strings. Each part is the string
      under its key, and the country is the upper-cased country code. */
  function AddressDetails(m: map<string, Json>): (r: Result<Details, Exception>)
    ensures r.Success? <==> AddressWellFormed(m)
    ensures r.Success? ==>
      && r.value.streetNumber == Detail(m, "house_number")
      && r.value.route == Detail(m, "road")
      && r.value.locality == Detail(m, "city")
      && r.value.administrativeAreaLevel2 == Detail(m, "county")
      && r.value.administrativeAreaLevel1 == Detail(m, "state")
      && r.value.postalCode == Detail(m, "postcode")
    ensures r.Success? ==>
      var code := Detail(m, "country_code");
      r.value.country == if code.Some? then Some(AsciiUpper(code.value)) else None
    ensures r.Failure? ==> r.error.JsonException?
  {
    if "address" !in m then Success(NoDetails)
    else if !m["address"].JsonObject? then Failure(JsonException(BadKey("address")))
    else
      var obj := m["address"].members;
      var houseNumber :- OptionalString(obj, "house_number");
      var road :- OptionalString(obj, "road");
      var city :- OptionalString(obj, "city");
      var county :- OptionalString(obj, "county");
      var state :- OptionalString(obj, "state");
      var postcode :- OptionalString(obj, "postcode");
      var countryCode :- OptionalString(obj, "country_code");
      Success(Details(houseNumber, road, city, county, state, postcode,
                      if countryCode.Some? then Some(AsciiUpper(countryCode.value)) else None))
  }

  /** The raw string of an address part: present only when the entry has an
      `address` object holding a string under `key`. */
  ghost function Detail(m: map<string, Json>, key: string): JavaString
  {
    if "address" in m && m["address"].JsonObject? && key in m["address"].members
       && m["address"].members[key].JsonString?
    then Some(m["address"].members[key].s)
    else None
  }

  /** The entry holds a string under `key`. */
  predicate IsString(m: map<string, Json>, key: string)
  {
    key in m && m[key].JsonString?
  }

  /** An entry carries a string under each key the decoder requires. */
  predicate HasMandatory(m: map<string, Json>)
  {
    && IsString(m, "display_name") && IsString(m, "lat") && IsString(m, "lon")
    && IsString(m, "class") && IsString(m, "type")
  }

  /** No `address` block, or an object whose looked-at keys hold strings. */
  ghost predicate AddressWellFormed(m: map<string, Json>)
  {
    "address" in m ==>
      && m["address"].JsonObject?
      && forall key :: key in DetailKeys && key in m["address"].members ==> m["address"].members[key].JsonString?
  }

  /** Everything one entry needs to become a record. */
  ghost predicate Decodable(m: map<string, Json>, parseDouble: string -> Option<real>)
  {
    && HasMandatory(m)
    && parseDouble(m["lat"].s).Some?
    && parseDouble(m["lon"].s).Some?
    && AddressWellFormed(m)
  }

  /** The entry reaches a coordinate that `Double.parseDouble` rejects before
      any key lookup fails: `display_name` and `lat` are read first, and `lon`
      only once `lat` has parsed. */
  ghost predicate BadNumber(m: map<string, Json>, parseDouble: string -> Option<real>)
  {
    && IsString(m, "display_name") && IsString(m, "lat")
    && (parseDouble(m["lat"].s).None? || (IsString(m, "lon") && parseDouble(m["lon"].s).None?))
  }

  /** One loop iteration of `createLocations`, on values: the record built from
      one array element, or the exception that aborts the loop. */
  function LocationOf(address: string, ambiguous: bool, entry: Json, parseDouble: string -> Option<real>)
    : (r: Result<Location, Exception>)
    ensures r.Success? <==> entry.JsonObject? && Decodable(entry.members, parseDouble)
    ensures r.Failure? ==> r.error.JsonException? || r.error.NumberFormatException?
    ensures r.Success? ==>
      && r.value.lat == parseDouble(entry.members["lat"].s).value
      && r.value.lon == parseDouble(entry.members["lon"].s).value
    ensures entry.JsonObject? && IsString(entry.members, "display_name") && IsString(entry.members, "lat")
            && parseDouble(entry.members["lat"].s).None? ==>
      r == Failure(NumberFormatException(entry.members["lat"].s))
    ensures entry.JsonObject? && IsString(entry.members, "display_name") && IsString(entry.members, "lat")
            && parseDouble(entry.members["lat"].s).Some? && IsString(entry.members, "lon")
            && parseDouble(entry.members["lon"].s).None? ==>
      r == Failure(NumberFormatException(entry.members["lon"].s))
    ensures r.Success? ==> r.value.ambiguous == ambiguous && r.value.originalAddress == Some(address)
    ensures r.Success? ==> r.value.geocodedAddress == Some(entry.members["display_name"].s)
    ensures r.Success? ==>
      r.value.locationType == Some(GetLocationType(entry.members["class"].s, entry.members["type"].s))
    ensures r.Success? ==>
      && r.value.streetNumber == Detail(entry.members, "house_number")
      && r.value.route == Detail(entry.members, "road")
      && r.value.locality == Detail(entry.members, "city")
      && r.value.administrativeAreaLevel2 == Detail(entry.members, "county")
      && r.value.administrativeAreaLevel1 == Detail(entry.members, "state")
      && r.value.postalCode == Detail(entry.members, "postcode")
    ensures r.Success? ==>
      var code := Detail(entry.members, "country_code");
      r.value.country == if code.Some? then Some(AsciiUpper(code.value)) else None
    ensures !entry.JsonObject? ==> r == Failure(JsonException(NotAnObject))
  {
    if !entry.JsonObject? then Failure(JsonException(NotAnObject))
    else
      var m := entry.members;
      var display :- GetString(m, "display_name");
      var latText :- GetString(m, "lat");
      var lat :- if parseDouble(latText).Some? then Success(parseDouble(latText).value)
                 else Failure(NumberFormatException(latText));
      var lonText :- GetString(m, "lon");
      var lon :- if parseDouble(lonText).Some? then Success(parseDouble(lonText).value)
                 else Failure(NumberFormatException(lonText));
      var cls :- GetString(m, "class");
      var typ :- GetString(m, "type");
      var d :- AddressDetails(m);
      Success(Location(Some(address), Some(display), d.streetNumber, d.route, d.locality,
                       d.administrativeAreaLevel1, d.administrativeAreaLevel2, d.country,
                       d.postalCode, lon, lat, ambiguous, Some(GetLocationType(cls, typ))))
  }

  /** Which exception one entry raises: a number format exception exactly when
      a coordinate is reached and does not parse; otherwise a missing or
      non-string key, or a malformed address block, raises a JSON exception,
      and a missing `display_name`, read first, names that key. */
  lemma LocationOfFailures(address: string, ambiguous: bool, entry: Json, parseDouble: string -> Option<real>)
    ensures var r := LocationOf(address, ambiguous, entry, parseDouble);
      && (r.Failure? && r.error.NumberFormatException? <==> entry.JsonObject? && BadNumber(entry.members, parseDouble))
      && (entry.JsonObject? && !Decodable(entry.members, parseDouble) && !BadNumber(entry.members, parseDouble) ==>
            r.Failure? && r.error.JsonException?)
      && (entry.JsonObject? && !IsString(entry.members, "display_name") ==>
            r == Failure(JsonException(BadKey("display_name"))))
  {
  }

  /** `createLocations` rethrows a JSON exception as a geocoding exception; a
      number format exception leaves it unwrapped. */
  function Rethrow(e: Exception): (r: Exception)
    ensures e.JsonException? ==> r.GeocodingException? && r.cause == e
    ensures !e.JsonException? ==> r == e
  {
    if e.JsonException? then GeocodingException(e) else e
  }

  /** The loop of `createLocations` over the first `|es|` entries. */
  function DecodeEntries(address: string, ambiguous: bool, es: seq<Json>, parseDouble: string -> Option<real>)
    : (r: Result<seq<Location>, Exception>)
    ensures r.Success? ==> |r.value| == |es|
    ensures r.Success? ==> forall i :: 0 <= i < |r.value| ==>
      r.value[i].originalAddress == Some(address) && r.value[i].ambiguous == ambiguous
    ensures r.Failure? ==>
      r.error.NumberFormatException? || (r.error.GeocodingException? && r.error.cause.JsonException?)
  {
    if es == [] then Success([])
    else
      var done :- DecodeEntries(address, ambiguous, es[..|es| - 1], parseDouble);
      match LocationOf(address, ambiguous, es[|es| - 1], parseDouble)
      case Failure(e) => Failure(Rethrow(e))
      case Success(loc) => Success(done + [loc])
  }

  /** `createLocations(address, input)` on values. */
  function Decode(address: string, input: string, foreign: Foreign): (r: Result<seq<Location>, Exception>)
    ensures foreign.parseArray(input).None? ==> r == Failure(GeocodingException(JsonException(NotAnArray)))
    ensures r.Success? ==> |r.value| == |foreign.parseArray(input).value|
    ensures r.Success? ==> forall i :: 0 <= i < |r.value| ==>
      r.value[i].originalAddress == Some(address) && r.value[i].ambiguous == (|r.value| > 1)
    ensures r.Failure? ==>
      r.error.NumberFormatException? || (r.error.GeocodingException? && r.error.cause.JsonException?)
  {
    match foreign.parseArray(input)
    case None => Failure(GeocodingException(JsonException(NotAnArray)))
    case Some(results) => DecodeEntries(address, |results| > 1, results, foreign.parseDouble)
  }

  /** Once the loop has thrown, the remaining entries do not matter. */
  lemma {:induction false} DecodeEntriesFailureSticks(
    address: string, ambiguous: bool, es: seq<Json>, parseDouble: string -> Option<real>, j: nat)
    requires j <= |es| && DecodeEntries(address, ambiguous, es[..j], parseDouble).Failure?
    ensures DecodeEntries(address, ambiguous, es, parseDouble) == DecodeEntries(address, ambiguous, es[..j], parseDouble)
    decreases |es|
  {
    if j == |es| {
      assert es[..j] == es;
    } else {
      var init := es[..|es| - 1];
      assert init[..j] == es[..j];
      DecodeEntriesFailureSticks(address, ambiguous, init, parseDouble, j);
    }
  }

  /** The loop succeeds exactly when every entry decodes. */
  lemma {:induction false} DecodeEntriesSucceeds(
    address: string, ambiguous: bool, es: seq<Json>, parseDouble: string -> Option<real>)
    ensures DecodeEntries(address, ambiguous, es, parseDouble).Success? <==>
      forall i :: 0 <= i < |es| ==> LocationOf(address, ambiguous, es[i], parseDouble).Success?
  {
    if es != [] {
      var init := es[..|es| - 1];
      DecodeEntriesSucceeds(address, ambiguous, init, parseDouble);
      assert forall i :: 0 <= i < |init| ==> init[i] == es[i];
    }
  }

  /** Entry `k` is the first entry that fails to decode, and `e` is its
      error as `createLocations` rethrows it. */
  ghost predicate FailsFirstAt(address: string, ambiguous: bool, es: seq<Json>, parseDouble: string -> Option<real>,
                               k: int, e: Exception)
  {
    && 0 <= k < |es|
    && (forall i :: 0 <= i < k ==> LocationOf(address, ambiguous, es[i], parseDouble).Success?)
    && LocationOf(address, ambiguous, es[k], parseDouble).Failure?
    && e == Rethrow(LocationOf(address, ambiguous, es[k], parseDouble).error)
  }

  /** `FailsFirstAt` for the loop of `createLocations`, whose ambiguity flag is
      set when there are two or more entries. */
  ghost predicate LoopFailsFirstAt(address: string, es: seq<Json>, parseDouble: string -> Option<real>, k: int, e: Exception)
  {
    FailsFirstAt(address, |es| > 1, es, parseDouble, k, e)
  }

  /** A failed loop carries the error of its first failing entry, rethrown. */
  lemma {:induction false} DecodeEntriesFirstFailure(
    address: string, ambiguous: bool, es: seq<Json>, parseDouble: string -> Option<real>)
    requires DecodeEntries(address, ambiguous, es, parseDouble).Failure?
    ensures exists k :: FailsFirstAt(address, ambiguous, es, parseDouble, k, DecodeEntries(address, ambiguous, es, parseDouble).error)
  {
    var init := es[..|es| - 1];
    var e := DecodeEntries(address, ambiguous, es, parseDouble).error;
    if DecodeEntries(address, ambiguous, init, parseDouble).Failure? {
      DecodeEntriesFirstFailure(address, ambiguous, init, parseDouble);
      var k :| FailsFirstAt(address, ambiguous, init, parseDouble, k, e);
      assert forall i :: 0 <= i <= k ==> es[i] == init[i];
      assert FailsFirstAt(address, ambiguous, es, parseDouble, k, e);
    } else {
      DecodeEntriesSucceeds(address, ambiguous, init, parseDouble);
      assert forall i :: 0 <= i < |init| ==> es[i] == init[i];
      assert FailsFirstAt(address, ambiguous, es, parseDouble, |es| - 1, e);
    }
  }

  /** A successful loop yields exactly one record per entry, in entry order,
      without merging equal records. */
  lemma {:induction false} DecodeEntriesPointwise(
    address: string, ambiguous: bool, es: seq<Json>, parseDouble: string -> Option<real>)
    requires DecodeEntries(address, ambiguous, es, parseDouble).Success?
    ensures forall i :: 0 <= i < |es| ==>
      LocationOf(address, ambiguous, es[i], parseDouble) == Success(DecodeEntries(address, ambiguous, es, parseDouble).value[i])
  {
    if es != [] {
      var init := es[..|es| - 1];
      var locs := DecodeEntries(address, ambiguous, es, parseDouble).value;
      DecodeEntriesPointwise(address, ambiguous, init, parseDouble);
      assert locs[..|init|] == DecodeEntries(address, ambiguous, init, parseDouble).value;
      forall i | 0 <= i < |init|
        ensures LocationOf(address, ambiguous, es[i], parseDouble) == Success(locs[i])
      {
        assert es[i] == init[i];
      }
    }
  }

  /** What `createLocations` promises: a payload that is not an array, or any
      entry that fails to decode, throws and yields no records; otherwise one
      record per entry, in order, each carrying the query verbatim and the same
      ambiguity flag, which is set exactly when there are two or more entries. */
  lemma DecodeOneRecordPerEntry(address: string, input: string, foreign: Foreign)
    ensures foreign.parseArray(input).None? ==>
      Decode(address, input, foreign) == Failure(GeocodingException(JsonException(NotAnArray)))
    ensures foreign.parseArray(input).Some? ==>
      var es := foreign.parseArray(input).value;
      && (Decode(address, input, foreign).Success? <==>
            forall i :: 0 <= i < |es| ==> LocationOf(address, |es| > 1, es[i], foreign.parseDouble).Success?)
      && (Decode(address, input, foreign).Success? ==>
            var locs := Decode(address, input, foreign).value;
            && |locs| == |es|
            && forall i :: 0 <= i < |locs| ==>
                 && locs[i].originalAddress == Some(address)
                 && locs[i].ambiguous == (|locs| > 1)
                 && LocationOf(address, |es| > 1, es[i], foreign.parseDouble) == Success(locs[i]))
      && (Decode(address, input, foreign).Failure? ==>
            exists k :: LoopFailsFirstAt(address, es, foreign.parseDouble, k, Decode(address, input, foreign).error))
  {
    if foreign.parseArray(input).Some? {
      var es := foreign.parseArray(input).value;
      DecodeEntriesSucceeds(address, |es| > 1, es, foreign.parseDouble);
      if Decode(address, input, foreign).Success? {
        DecodeEntriesPointwise(address, |es| > 1, es, foreign.parseDouble);
      } else {
        DecodeEntriesFirstFailure(address, |es| > 1, es, foreign.parseDouble);
        var k :| FailsFirstAt(address, |es| > 1, es, foreign.parseDouble, k, Decode(address, input, foreign).error);
        assert LoopFailsFirstAt(address, es, foreign.parseDouble, k, Decode(address, input, foreign).error);
      }
    }
  }

  /** The body of the `createLocations` loop: a fresh record filled by its setters. */
  method BuildLocation(address: string, ambiguous: bool, result: Json, parseDouble: string -> Option<real>)
    returns (r: Result<Location, Exception>)
    ensures r == LocationOf(address, ambiguous, result, parseDouble)
  {
    if !result.JsonObject? {
      return Failure(JsonException(NotAnObject));
    }
    var m := result.members;
    var loc := new GeocodedLocation();
    loc.SetAmbiguous(ambiguous);
    loc.SetOriginalAddress(Some(address));
    var display :- GetString(m, "display_name");
    loc.SetGeocodedAddress(Some(display));
    var latText :- GetString(m, "lat");
    if parseDouble(latText).None? {
      return Failure(NumberFormatException(latText));
    }
    loc.SetLat(parseDouble(latText).value);
    var lonText :- GetString(m, "lon");
    if parseDouble(lonText).None? {
      return Failure(NumberFormatException(lonText));
    }
    loc.SetLon(parseDouble(lonText).value);
    var cls :- GetString(m, "class");
    var typ :- GetString(m, "type");
    loc.SetType(Some(GetLocationType(cls, typ)));
    var d :- AddressDetails(m);
    loc.SetStreetNumber(d.streetNumber);
    loc.SetRoute(d.route);
    loc.SetLocality(d.locality);
    loc.SetAdministrativeAreaLevel2(d.administrativeAreaLevel2);
    loc.SetAdministrativeAreaLevel1(d.administrativeAreaLevel1);
    loc.SetPostalCode(d.postalCode);
    loc.SetCountry(d.country);
    r := Success(loc.Value());
  }

  /** `createLocations`: parse the body, then build and collect one record per
      array element, stopping at the first exception. */
  method CreateLocations(address: string, input: string, foreign: Foreign)
    returns (r: Result<seq<Location>, Exception>)
    ensures r == Decode(address, input, foreign)
  {
    var parsed := foreign.parseArray(input);
    if parsed.None? {
      return Failure(GeocodingException(JsonException(NotAnArray)));
    }
    var results := parsed.value;
    var ambiguous := |results| > 1;
    var locations: seq<Location> := [];
    for i := 0 to |results|
      invariant DecodeEntries(address, ambiguous, results[..i], foreign.parseDouble) == Success(locations)
    {
      var loc := BuildLocation(address, ambiguous, results[i], foreign.parseDouble);
      assert results[..i + 1][..i] == results[..i];
      if loc.Failure? {
        DecodeEntriesFailureSticks(address, ambiguous, results, foreign.parseDouble, i + 1);
        return Failure(Rethrow(loc.error));
      }
      locations := locations + [loc.value];
    }
    assert results[..|results|] == results;
    r := Success(locations);
  }
}
