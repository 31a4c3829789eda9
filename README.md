# LocationTextField geocoding core, in Dafny

This project models the server side of the LocationTextField address widget, a Vaadin add-on. The user types an address; the widget sends the query to a location provider and shows the results as suggestions. Picking a suggestion sets the field's location. The model covers four parts:

- **The location record** (`GeocodedLocation` and its `Builder`) and its display-string ordering (`compareTo`).
- **The OpenStreetMap geocoder**. It builds the Nominatim request URL, turns the JSON array from the provider into records, and classifies each result by its `class`/`type` pair.
- **The URL-connection shell.** It reads the response lines, decodes them, keeps at most `limit` records, and wraps every failure in one geocoding exception.
- **The field and its default controller.** The controller sorts the results and lists them as suggestions. The field keeps the text, the suggestion list and the id-to-record map.

How things are modelled:

- Records are values (`GeocodedLocations.Location`). The Java classes that are updated in place (`GeocodedLocation`, `Builder`, `UrlConnectionGeocoder`, `LocationTextField`) are Dafny classes with the fields the model keeps.
- `GeocodedLocation` and `Builder` have the Java fields one for one, and `UrlConnectionGeocoder` has its `limit`. Its extra `foreign` constant holds the JSON parser, `Double.parseDouble` and `URLEncoder.encode`, which stand for library calls.
- `LocationTextField` keeps `items` and the controller, as in Java. Its `text`, `suggestions`, `minimumQueryCharacters` and `delayMillis` are the fields of the shared state object that `getState()` returns. Its `location` stands for the value of the bound `property`. The listener set has no field (see "## Left out").
- A Java `null` reference is `None`.
- Exceptions are a datatype; `GeocodingException(cause)` wraps its cause.
- The network read, the JSON array parser, `Double.parseDouble` and `URLEncoder.encode` are function-valued parameters.

Java's `String.compareTo` compares UTF-16 code units, so the model encodes each display string as UTF-16 before comparing. A character above U+FFFF therefore sorts before U+FFFF, as in Java.

A Dafny `string` holds only Unicode scalar values, while a Java `String` may also hold unpaired surrogates (from a JSON `\ud800` escape, say). So `Utf16`, `StringCompare` and `CompareTo` cover only well-formed strings.

Where the intent and the code differ, the model follows the code:

- **No de-duplication.** `GeocodedLocation` defines neither `equals` nor `hashCode`, so the `LinkedHashSet`s in `createLocations` and `geocode` keep every record, in order.
- **Truncation comes late.** `geocode` cuts to `limit` only after every entry has been decoded. So a bad entry past the limit still fails the whole query.
- **The leisure class is misspelt.** It is matched under the spelling `liesure`, so a result of class `leisure` is not a point of interest.
- **Number errors are not wrapped in `createLocations`.** It rethrows only JSON exceptions as geocoding exceptions. A number-format exception leaves it unwrapped, and `geocode` then wraps it once.

## Model

| member | source | states |
|---|---|---|
| GeocodedLocations.GeocodedLocation.constructor | locationtextfield/src/main/java/org/vaadin/addons/locationtextfield/GeocodedLocation.java:47-48 | a new record has every reference null, both coordinates zero and the ambiguity flag false |
| GeocodedLocations.GeocodedLocation.SetOriginalAddress | locationtextfield/src/main/java/org/vaadin/addons/locationtextfield/GeocodedLocation.java:76-78 | only the original address changes, to the given value |
| GeocodedLocations.GeocodedLocation.SetGeocodedAddress | locationtextfield/src/main/java/org/vaadin/addons/locationtextfield/GeocodedLocation.java:86-88 | only the geocoded address changes |
| GeocodedLocations.GeocodedLocation.SetStreetNumber | locationtextfield/src/main/java/org/vaadin/addons/locationtextfield/GeocodedLocation.java:93-95 | only the street number changes |
| GeocodedLocations.GeocodedLocation.SetRoute | locationtextfield/src/main/java/org/vaadin/addons/locationtextfield/GeocodedLocation.java:103-105 | only the route changes |
| GeocodedLocations.GeocodedLocation.SetLocality | locationtextfield/src/main/java/org/vaadin/addons/locationtextfield/GeocodedLocation.java:113-115 | only the locality changes |
| GeocodedLocations.GeocodedLocation.SetAdministrativeAreaLevel1 | locationtextfield/src/main/java/org/vaadin/addons/locationtextfield/GeocodedLocation.java:123-125 | only the first-level administrative area changes |
| GeocodedLocations.GeocodedLocation.SetAdministrativeAreaLevel2 | locationtextfield/src/main/java/org/vaadin/addons/locationtextfield/GeocodedLocation.java:133-135 | only the second-level administrative area changes |
| GeocodedLocations.GeocodedLocation.SetCountry | locationtextfield/src/main/java/org/vaadin/addons/locationtextfield/GeocodedLocation.java:140-142 | only the country changes |
| GeocodedLocations.GeocodedLocation.SetPostalCode | locationtextfield/src/main/java/org/vaadin/addons/locationtextfield/GeocodedLocation.java:150-152 | only the postal code changes |
| GeocodedLocations.GeocodedLocation.SetLon | locationtextfield/src/main/java/org/vaadin/addons/locationtextfield/GeocodedLocation.java:157-159 | only the longitude changes |
| GeocodedLocations.GeocodedLocation.SetLat | locationtextfield/src/main/java/org/vaadin/addons/locationtextfield/GeocodedLocation.java:164-166 | only the latitude changes |
| GeocodedLocations.GeocodedLocation.SetAmbiguous | locationtextfield/src/main/java/org/vaadin/addons/locationtextfield/GeocodedLocation.java:174-176 | only the ambiguity flag changes |
| GeocodedLocations.GeocodedLocation.SetType | locationtextfield/src/main/java/org/vaadin/addons/locationtextfield/GeocodedLocation.java:181-183 | only the location type changes |
| GeocodedLocations.GeocodedLocation.GetDisplayString | locationtextfield/src/main/java/org/vaadin/addons/locationtextfield/GeocodedLocation.java:185-187 | the display string is the geocoded address |
| GeocodedLocations.GeocodedLocation.ToString | locationtextfield/src/main/java/org/vaadin/addons/locationtextfield/GeocodedLocation.java:189-192 | the string form agrees with the display string |
| GeocodedLocations.Builder.constructor | locationtextfield/src/main/java/org/vaadin/addons/locationtextfield/GeocodedLocation.java:226-227 | a new builder holds null, zero and false everywhere |
| GeocodedLocations.Builder.WithOriginalAddress | locationtextfield/src/main/java/org/vaadin/addons/locationtextfield/GeocodedLocation.java:229-232 | sets the original address, changes nothing else, and returns the same builder |
| GeocodedLocations.Builder.WithGeocodedAddress | locationtextfield/src/main/java/org/vaadin/addons/locationtextfield/GeocodedLocation.java:234-237 | sets the geocoded address only, and returns the same builder |
| GeocodedLocations.Builder.WithStreetNumber | locationtextfield/src/main/java/org/vaadin/addons/locationtextfield/GeocodedLocation.java:239-242 | sets the street number only, and returns the same builder |
| GeocodedLocations.Builder.WithRoute | locationtextfield/src/main/java/org/vaadin/addons/locationtextfield/GeocodedLocation.java:244-247 | sets the route only, and returns the same builder |
| GeocodedLocations.Builder.WithLocality | locationtextfield/src/main/java/org/vaadin/addons/locationtextfield/GeocodedLocation.java:249-252 | sets the locality only, and returns the same builder |
| GeocodedLocations.Builder.WithAdministrativeAreaLevel1 | locationtextfield/src/main/java/org/vaadin/addons/locationtextfield/GeocodedLocation.java:254-257 | sets the first-level area only, and returns the same builder |
| GeocodedLocations.Builder.WithAdministrativeAreaLevel2 | locationtextfield/src/main/java/org/vaadin/addons/locationtextfield/GeocodedLocation.java:259-262 | sets the second-level area only, and returns the same builder |
| GeocodedLocations.Builder.WithCountry | locationtextfield/src/main/java/org/vaadin/addons/locationtextfield/GeocodedLocation.java:264-267 | sets the country only, and returns the same builder |
| GeocodedLocations.Builder.WithPostalCode | locationtextfield/src/main/java/org/vaadin/addons/locationtextfield/GeocodedLocation.java:269-272 | sets the postal code only, and returns the same builder |
| GeocodedLocations.Builder.WithLon | locationtextfield/src/main/java/org/vaadin/addons/locationtextfield/GeocodedLocation.java:274-277 | sets the longitude only, and returns the same builder |
| GeocodedLocations.Builder.WithLat | locationtextfield/src/main/java/org/vaadin/addons/locationtextfield/GeocodedLocation.java:279-282 | sets the latitude only, and returns the same builder |
| GeocodedLocations.Builder.WithAmbiguous | locationtextfield/src/main/java/org/vaadin/addons/locationtextfield/GeocodedLocation.java:284-287 | sets the ambiguity flag only, and returns the same builder |
| GeocodedLocations.Builder.WithType | locationtextfield/src/main/java/org/vaadin/addons/locationtextfield/GeocodedLocation.java:289-292 | sets the location type only, and returns the same builder |
| GeocodedLocations.Builder.Build | locationtextfield/src/main/java/org/vaadin/addons/locationtextfield/GeocodedLocation.java:294-296 | returns a fresh record, built through the private constructor that copies every builder field with the setters; every field of the record is the last value given to the builder, or the default |
| GeocodedLocations.CompareTo | locationtextfield/src/main/java/org/vaadin/addons/locationtextfield/GeocodedLocation.java:194-208 | a null argument gives -1; equal display strings, both null included, give 0; a null display string sorts after a non-null one (1 one way, -1 the other); two non-null display strings give a negative result exactly when the first's UTF-16 code units are lexicographically less |
| GeocodedLocations.CodeUnitsOf | locationtextfield/src/main/java/org/vaadin/addons/locationtextfield/GeocodedLocation.java:207 | a character below U+10000 is one code unit, itself; any other is a high surrogate followed by a low surrogate that together encode it |
| GeocodedLocations.Utf16 | locationtextfield/src/main/java/org/vaadin/addons/locationtextfield/GeocodedLocation.java:207 | a Java string holds at least as many code units as characters, and none exactly when it is empty |
| GeocodedLocations.Utf16Injective | locationtextfield/src/main/java/org/vaadin/addons/locationtextfield/GeocodedLocation.java:207 | different strings have different UTF-16 code units |
| GeocodedLocations.Utf16Basic | locationtextfield/src/main/java/org/vaadin/addons/locationtextfield/GeocodedLocation.java:207 | a string of characters below U+10000 has exactly one code unit per character, so such strings compare character by character |
| GeocodedLocations.UnitCompare | locationtextfield/src/main/java/org/vaadin/addons/locationtextfield/GeocodedLocation.java:207 | the code-unit comparison is the length difference when one sequence is a prefix of the other |
| GeocodedLocations.StringCompare | locationtextfield/src/main/java/org/vaadin/addons/locationtextfield/GeocodedLocation.java:207 | `String.compareTo` is zero exactly on equal strings and negative exactly when the first string's UTF-16 code units are lexicographically before the second's |
| GeocodedLocations.SupplementarySortsBeforeUFFFF | locationtextfield/src/main/java/org/vaadin/addons/locationtextfield/GeocodedLocation.java:207 | the order is by code units, not code points: U+10000 sorts before U+FFFF |
| GeocodedLocations.UnitCompareAntisymmetric | locationtextfield/src/main/java/org/vaadin/addons/locationtextfield/GeocodedLocation.java:207 | swapping the code-unit sequences negates the comparison |
| GeocodedLocations.UnitCompareZeroIffEqual | locationtextfield/src/main/java/org/vaadin/addons/locationtextfield/GeocodedLocation.java:207 | the code-unit comparison is zero exactly on equal sequences |
| GeocodedLocations.UnitCompareIsLexicographic | locationtextfield/src/main/java/org/vaadin/addons/locationtextfield/GeocodedLocation.java:207 | the code-unit comparison is negative exactly when the first sequence is lexicographically before the second (first differing unit, or proper prefix) |
| GeocodedLocations.UnitCompareTransitive | locationtextfield/src/main/java/org/vaadin/addons/locationtextfield/GeocodedLocation.java:207 | "not greater" under the code-unit comparison is transitive |
| GeocodedLocations.StringCompareAntisymmetric | locationtextfield/src/main/java/org/vaadin/addons/locationtextfield/GeocodedLocation.java:207 | swapping the strings negates `String.compareTo` |
| GeocodedLocations.CompareToReflexive | locationtextfield/src/main/java/org/vaadin/addons/locationtextfield/GeocodedLocation.java:200-201 | every record compares equal to itself |
| GeocodedLocations.CompareToAntisymmetric | locationtextfield/src/main/java/org/vaadin/addons/locationtextfield/GeocodedLocation.java:198-207 | swapping two records negates the result, so the signs are opposite |
| GeocodedLocations.CompareToZeroIff | locationtextfield/src/main/java/org/vaadin/addons/locationtextfield/GeocodedLocation.java:198-201 | the result is zero exactly when the display strings agree |
| GeocodedLocations.CompareToTransitive | locationtextfield/src/main/java/org/vaadin/addons/locationtextfield/GeocodedLocation.java:198-207 | "not after" is transitive, so the ordering is a total preorder to sort by |
| OpenStreetMap.DecimalString | locationtextfield/src/main/java/org/vaadin/addons/locationtextfield/OpenStreetMapGeocoder.java:55 | the printed limit is a non-empty run of decimal digits without a leading zero |
| OpenStreetMap.DecimalStringRoundTrip | locationtextfield/src/main/java/org/vaadin/addons/locationtextfield/OpenStreetMapGeocoder.java:55 | reading the printed limit back gives the limit |
| OpenStreetMap.GetUrl | locationtextfield/src/main/java/org/vaadin/addons/locationtextfield/OpenStreetMapGeocoder.java:52-57 | a null query throws; otherwise the URL starts with the base URL and the encoded query, and ends with `&limit=` and the limit's decimal digits, without a leading zero, exactly when the limit is positive |
| OpenStreetMap.GetLocationType | locationtextfield/src/main/java/org/vaadin/addons/locationtextfield/OpenStreetMapGeocoder.java:98-129 | highway or railway classes, and only they, give a route; amenity, liesure, shop, tourism or a natural/waterway type give a point of interest; building gives a street address; boundary with administrative gives the first admin level; any unlisted class and type gives unknown |
| OpenStreetMap.GetLocationTypeFollowsTable | locationtextfield/src/main/java/org/vaadin/addons/locationtextfield/OpenStreetMapGeocoder.java:101-128 | the classifier equals a first-match lookup in a 13-row place-type table, so it is total and first-match-wins for every class and type |
| OpenStreetMap.PlaceRowsFollowTable | locationtextfield/src/main/java/org/vaadin/addons/locationtextfield/OpenStreetMapGeocoder.java:108-128 | for class place, each listed type gets the result of the first row whose type set holds it, and any other type gives unknown |
| OpenStreetMap.PlaceRow | locationtextfield/src/main/java/org/vaadin/addons/locationtextfield/OpenStreetMapGeocoder.java:108-125 | place rows whose type sets miss the type do not change the lookup |
| OpenStreetMap.LaterPlaceRowsFollowTable | locationtextfield/src/main/java/org/vaadin/addons/locationtextfield/OpenStreetMapGeocoder.java:116-128 | for class place and a type the first three place rows do not list, the table from row 7 on agrees with the classifier |
| OpenStreetMap.LastPlaceRowsFollowTable | locationtextfield/src/main/java/org/vaadin/addons/locationtextfield/OpenStreetMapGeocoder.java:122-128 | for class place and a type rows 4 to 9 do not list, the table from row 10 on agrees with the classifier |
| OpenStreetMap.OtherRowsFollowTable | locationtextfield/src/main/java/org/vaadin/addons/locationtextfield/OpenStreetMapGeocoder.java:126-128 | for a class other than place, only boundary with administrative matches among the later rows; everything else gives unknown |
| OpenStreetMap.AsciiUpper | locationtextfield/src/main/java/org/vaadin/addons/locationtextfield/OpenStreetMapGeocoder.java:88 | upper-casing keeps the length, maps each letter a-z to its capital, and leaves no lower-case ASCII letter |
| OpenStreetMap.GetString | locationtextfield/src/main/java/org/vaadin/addons/locationtextfield/OpenStreetMapGeocoder.java:69-100 | reading a key succeeds exactly when the key holds a string, and otherwise throws a JSON exception naming the key |
| OpenStreetMap.OptionalString | locationtextfield/src/main/java/org/vaadin/addons/locationtextfield/OpenStreetMapGeocoder.java:75-88 | an absent key gives null; a present key must hold a string, which is returned, and otherwise throws a JSON exception naming the key |
| OpenStreetMap.AddressDetails | locationtextfield/src/main/java/org/vaadin/addons/locationtextfield/OpenStreetMapGeocoder.java:73-89 | reading the address block succeeds exactly when it is absent, or an object whose looked-at keys hold strings; each part is the string under its key or null, and the country is the upper-cased country code; a failure is a JSON exception |
| OpenStreetMap.LocationOf | locationtextfield/src/main/java/org/vaadin/addons/locationtextfield/OpenStreetMapGeocoder.java:65-89 | an entry decodes exactly when it is an object with string display_name, lat, lon, class and type, both coordinates parse, and its address block is well formed; a lat or lon text that does not parse throws a number-format exception with that text; the record carries the query verbatim, the ambiguity flag, the display name, the parsed coordinates, the classified type, each optional address part exactly when present, and the country code upper-cased; a non-object entry throws a JSON exception |
| OpenStreetMap.LocationOfFailures | locationtextfield/src/main/java/org/vaadin/addons/locationtextfield/OpenStreetMapGeocoder.java:65-89 | an entry throws a number-format exception exactly when it is an object whose display_name and lat are strings and lat does not parse, or lat parses, lon is a string and lon does not parse; any other failure of an object entry, such as a missing or non-string display_name, lat, lon, class or type or a malformed address block, is a JSON exception; a missing display_name, read first, names that key |
| OpenStreetMap.DecodeEntriesFirstFailure | locationtextfield/src/main/java/org/vaadin/addons/locationtextfield/OpenStreetMapGeocoder.java:64-95 | a failed loop stops at an entry k whose predecessors all decode and whose own decoding fails, and carries that entry's error, a JSON exception rethrown as a geocoding exception and a number-format exception as it is |
| OpenStreetMap.Rethrow | locationtextfield/src/main/java/org/vaadin/addons/locationtextfield/OpenStreetMapGeocoder.java:92-94 | a JSON exception is wrapped in a geocoding exception whose cause it is; any other exception passes through unchanged |
| OpenStreetMap.DecodeEntries | locationtextfield/src/main/java/org/vaadin/addons/locationtextfield/OpenStreetMapGeocoder.java:63-94 | the loop yields one record per entry, each with the query verbatim and the given ambiguity flag; it fails with a number-format exception or a geocoding exception wrapping a JSON exception |
| OpenStreetMap.Decode | locationtextfield/src/main/java/org/vaadin/addons/locationtextfield/OpenStreetMapGeocoder.java:59-96 | a body that is not a JSON array throws a wrapped JSON exception; a result has one record per array element, each with the query verbatim and ambiguous exactly when there are two or more; every failure is a number-format exception or a geocoding exception wrapping a JSON exception |
| OpenStreetMap.DecodeEntriesFailureSticks | locationtextfield/src/main/java/org/vaadin/addons/locationtextfield/OpenStreetMapGeocoder.java:64-94 | once an entry throws, no later entry changes the outcome |
| OpenStreetMap.DecodeEntriesSucceeds | locationtextfield/src/main/java/org/vaadin/addons/locationtextfield/OpenStreetMapGeocoder.java:64-94 | the loop succeeds exactly when every entry decodes |
| OpenStreetMap.DecodeEntriesPointwise | locationtextfield/src/main/java/org/vaadin/addons/locationtextfield/OpenStreetMapGeocoder.java:64-91 | a successful loop yields one record per entry, in entry order, each the record its own entry decodes to, with nothing merged |
| OpenStreetMap.DecodeOneRecordPerEntry | locationtextfield/src/main/java/org/vaadin/addons/locationtextfield/OpenStreetMapGeocoder.java:59-96 | a body that is not a JSON array throws a wrapped JSON exception; otherwise decoding succeeds exactly when every entry decodes, with one record per entry, each with the query verbatim and ambiguous exactly when there are two or more; a failure carries the error of the first entry that fails, rethrown, so a missing key raises a geocoding exception wrapping a JSON exception |
| OpenStreetMap.BuildLocation | locationtextfield/src/main/java/org/vaadin/addons/locationtextfield/OpenStreetMapGeocoder.java:65-90 | building one record through a fresh object and its setters gives the record `LocationOf` describes, or the same exception |
| OpenStreetMap.CreateLocations | locationtextfield/src/main/java/org/vaadin/addons/locationtextfield/OpenStreetMapGeocoder.java:59-96 | the loop returns exactly the decoding `Decode` specifies, and so has every property of `DecodeOneRecordPerEntry` |
| UrlConnection.JoinCharacters | modules/locationtextfield/src/main/java/org/vaadin/addons/locationtextfield/URLConnectionGeocoder.java:50-53 | a character is in the body exactly when it is in one of the lines read |
| UrlConnection.Join | modules/locationtextfield/src/main/java/org/vaadin/addons/locationtextfield/URLConnectionGeocoder.java:50-53 | the body is exactly as long as all the lines read, put together |
| UrlConnection.JoinExtends | modules/locationtextfield/src/main/java/org/vaadin/addons/locationtextfield/URLConnectionGeocoder.java:50-53 | the body read after any number of lines is a prefix of the whole body, so reading only appends |
| UrlConnection.GeocodeResult | modules/locationtextfield/src/main/java/org/vaadin/addons/locationtextfield/URLConnectionGeocoder.java:41-73 | a null query gives a geocoding exception wrapping a null-pointer exception; a result is at most `limit` long when the limit is positive, and every record carries the query |
| UrlConnection.Bounded | modules/locationtextfield/src/main/java/org/vaadin/addons/locationtextfield/URLConnectionGeocoder.java:55-60 | the kept records are a prefix of the decoded ones: exactly the first `limit` when the limit is positive and exceeded, all of them otherwise |
| UrlConnection.GeocodeOutcome | modules/locationtextfield/src/main/java/org/vaadin/addons/locationtextfield/URLConnectionGeocoder.java:41-73 | a null query, a failed fetch or an undecodable body each give one geocoding exception wrapping the cause; otherwise the result is exactly the decoded records cut by `Bounded`: the first `limit` of them when the limit is positive and exceeded, all of them otherwise, each carrying the query |
| UrlConnection.GeocodeNoResults | modules/locationtextfield/src/main/java/org/vaadin/addons/locationtextfield/URLConnectionGeocoder.java:54-60 | an empty JSON array gives an empty result, not an error |
| UrlConnection.UrlConnectionGeocoder.constructor | modules/locationtextfield/src/main/java/org/vaadin/addons/locationtextfield/URLConnectionGeocoder.java:39 | the limit starts at zero, meaning unbounded |
| UrlConnection.UrlConnectionGeocoder.GetLimit | modules/locationtextfield/src/main/java/org/vaadin/addons/locationtextfield/URLConnectionGeocoder.java:102-104 | returns the current limit |
| UrlConnection.UrlConnectionGeocoder.SetLimit | modules/locationtextfield/src/main/java/org/vaadin/addons/locationtextfield/URLConnectionGeocoder.java:105-107 | the limit becomes the given value, which `GetLimit` then returns |
| UrlConnection.UrlConnectionGeocoder.ReadBody | modules/locationtextfield/src/main/java/org/vaadin/addons/locationtextfield/URLConnectionGeocoder.java:50-53 | the read loop builds the concatenation of the lines |
| UrlConnection.UrlConnectionGeocoder.Geocode | modules/locationtextfield/src/main/java/org/vaadin/addons/locationtextfield/URLConnectionGeocoder.java:41-73 | the method's result is exactly the outcome `GeocodeOutcome` describes |
| ResultSorting.Insert | locationtextfield/src/main/java/org/vaadin/addons/locationtextfield/AbstractGeocoderController.java:88 | inserting keeps the multiset plus the new record and keeps a sorted list sorted |
| ResultSorting.SortResults | locationtextfield/src/main/java/org/vaadin/addons/locationtextfield/AbstractGeocoderController.java:86-90 | the sorted copy is a permutation of the results (same multiset, same length) and non-decreasing under `compareTo` |
| ResultSorting.SortedPairwise | locationtextfield/src/main/java/org/vaadin/addons/locationtextfield/AbstractGeocoderController.java:88 | in a sorted list every earlier record is not after every later one |
| ResultSorting.SortedDisplayOrder | locationtextfield/src/main/java/org/vaadin/addons/locationtextfield/AbstractGeocoderController.java:88 | in a sorted list the records with a display string come first, and their display strings never descend in UTF-16 code-unit order |
| LocationTextFields.SuggestionsFor | locationtextfield/src/main/java/org/vaadin/addons/locationtextfield/LocationTextField.java:233-242 | one suggestion per record |
| LocationTextFields.SuggestionsForIndexed | locationtextfield/src/main/java/org/vaadin/addons/locationtextfield/LocationTextField.java:233-242 | suggestions built from records have ids 0..n-1, the map holds exactly those ids, and selecting suggestion i finds record i, whose display string it shows |
| LocationTextFields.GeocoderController.constructor | locationtextfield/src/main/java/org/vaadin/addons/locationtextfield/AbstractGeocoderController.java:43-45 | the controller keeps the given provider |
| LocationTextFields.GeocoderController.Geocode | locationtextfield/src/main/java/org/vaadin/addons/locationtextfield/AbstractGeocoderController.java:50-101 | on success the field shows the query and exactly the sorted results; on a geocoding exception the field is left unchanged |
| LocationTextFields.GeocoderController.HandleResults | locationtextfield/src/main/java/org/vaadin/addons/locationtextfield/AbstractGeocoderController.java:72-79 | after clearing, the field's text is the query, and its suggestions and map list the sorted results in order |
| LocationTextFields.GeocoderController.HandleError | locationtextfield/src/main/java/org/vaadin/addons/locationtextfield/AbstractGeocoderController.java:99-101 | the default error handler leaves the field unchanged; it has no `modifies` clause, like the empty Java body |
| LocationTextFields.LocationTextField.constructor | locationtextfield/src/main/java/org/vaadin/addons/locationtextfield/LocationTextField.java:62-69 | the field starts without suggestions, with a 500 ms delay and the given location; its text and minimum query length start at the values the model assumes (null and 0) |
| LocationTextFields.LocationTextField.New | locationtextfield/src/main/java/org/vaadin/addons/locationtextfield/LocationTextField.java:62-69 | a null provider is refused with an illegal-argument exception; otherwise a fresh field with a fresh default controller over that provider |
| LocationTextFields.LocationTextField.SetGeocoderController | locationtextfield/src/main/java/org/vaadin/addons/locationtextfield/LocationTextField.java:94-96 | only the controller changes |
| LocationTextFields.LocationTextField.FireLocationChanged | locationtextfield/src/main/java/org/vaadin/addons/locationtextfield/LocationTextField.java:98-125 | a null record changes nothing; otherwise the bound location becomes the record |
| LocationTextFields.LocationTextField.LocationSelected | locationtextfield/src/main/java/org/vaadin/addons/locationtextfield/LocationTextField.java:77-81 | the text becomes the suggestion's display string; the location becomes the record under its id, and stays as it was when the id is unknown; on an indexed field every id of the list on show finds its record, and the field stays indexed |
| LocationTextFields.LocationTextField.SetLocation | locationtextfield/src/main/java/org/vaadin/addons/locationtextfield/LocationTextField.java:149-155 | null resets the field; any other record becomes the one suggestion (id 0) and the text |
| LocationTextFields.LocationTextField.Reset | locationtextfield/src/main/java/org/vaadin/addons/locationtextfield/LocationTextField.java:160-163 | no suggestions, no records, and empty text |
| LocationTextFields.LocationTextField.ClearChoices | locationtextfield/src/main/java/org/vaadin/addons/locationtextfield/LocationTextField.java:165-168 | no suggestions and no records; the text is kept |
| LocationTextFields.LocationTextField.Geocode | locationtextfield/src/main/java/org/vaadin/addons/locationtextfield/LocationTextField.java:174-176 | an unchanged text does nothing; a changed one is shown and geocoded once, leaving the sorted results or no suggestions at all |
| LocationTextFields.LocationTextField.GetText | locationtextfield/src/main/java/org/vaadin/addons/locationtextfield/LocationTextField.java:178-180 | returns the current text |
| LocationTextFields.LocationTextField.SetText | locationtextfield/src/main/java/org/vaadin/addons/locationtextfield/LocationTextField.java:181-183 | the text changes and the suggestions stay |
| LocationTextFields.LocationTextField.UpdateText | locationtextfield/src/main/java/org/vaadin/addons/locationtextfield/LocationTextField.java:185-193 | an equal text (null-aware) changes nothing; otherwise the text is replaced and, only when asked, the choices are cleared and the controller's outcome is shown; the id invariant is kept |
| LocationTextFields.LocationTextField.GetMinTextLength | locationtextfield/src/main/java/org/vaadin/addons/locationtextfield/LocationTextField.java:198-200 | returns the minimum query length |
| LocationTextFields.LocationTextField.SetMinTextLength | locationtextfield/src/main/java/org/vaadin/addons/locationtextfield/LocationTextField.java:201-205 | only the minimum query length changes, to the given value |
| LocationTextFields.LocationTextField.GetDelay | locationtextfield/src/main/java/org/vaadin/addons/locationtextfield/LocationTextField.java:212-214 | returns the delay |
| LocationTextFields.LocationTextField.SetDelay | locationtextfield/src/main/java/org/vaadin/addons/locationtextfield/LocationTextField.java:215-217 | only the delay changes |
| LocationTextFields.LocationTextField.AddSuggestion | locationtextfield/src/main/java/org/vaadin/addons/locationtextfield/LocationTextField.java:233-242 | appends a suggestion whose id is the old list length, maps that id to the record, keeps every earlier entry, and keeps the id invariant |

## Left out

- The HTTP request, the connection and the response encoding are left out. The response is the parameter `fetch`, which gives the lines read or the exception raised. Closing the reader is not modelled.
- The JSON parser, `Double.parseDouble` and `URLEncoder.encode` are parameters, not interpreted. Coordinates are reals, with no floating-point rounding. `Double.parseDouble` can also return NaN or an infinity, which have no real counterpart and are not modelled.
- Strings with unpaired surrogates, which Java allows and a Dafny `string` cannot hold, are not modelled; the ordering is proved for well-formed strings only.
- OpenStreetMap.AsciiUpper: upper-cases ASCII letters only. Java's locale-sensitive, full-Unicode `toUpperCase` is not modelled.
- OpenStreetMap.GetString: treats a non-string value under a key as an error, like a strict `JSONObject.getString`. A lenient JSON library would convert it to text.
- The getters of `GeocodedLocation` (`getRoute` and the rest) are reads of the class's fields and `Value()`; they get no members of their own.
- `newBuilder` is the `Builder` constructor.
- Records are stored by value in results, suggestions and the id map. Aliasing between a record held in the map and one changed later through its setters is not captured.
- ResultSorting.SortResults: proves a sorted permutation but not the stability of `Collections.sort`. The order among records with equal display strings is left open.
- A null element inside a provider's result collection is not modelled, and neither is a null collection. In Java, `handleResults` first clears the choices and sets the text (AbstractGeocoderController.java lines 73-74). A null collection then throws a `NullPointerException` from `new ArrayList` in `sortResults`. Null elements throw either while sorting, when a null element is the receiver of `compareTo`, or not at all during the sort: `[null]` and `[null, loc]` sort without a call on null. In that case the exception comes from `option.getGeocodedAddress()` in the loop, after the earlier records have been added as suggestions. The partly updated field that each of these exceptions leaves behind is what the model does not capture.
- The browser side is not part of this model: the GWT client, the connector, the suggestion display and the minimum-length/delay checks made there.
- Also outside this model: the older `modules/` widget and record, `AbstractGeocodingQueryListener`, `DefaultGeocoderController` (only its constructor is used), the demo applications, listeners, logging, captions, tab index, the enabled and auto-select flags, the singleton instance and `getEncoding`.
- LocationTextFields.LocationTextField.constructor: its null text, minimum query length of 0 and empty suggestion list are assumptions of the model, not facts taken from the source. `LocationTextFieldState`, which holds their real initial values, is not part of this model. The browser widget applies its own defaults on its side, and those are not modelled.
