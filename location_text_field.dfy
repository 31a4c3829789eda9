/** The server side of the address field: its text, its suggestion list, the
    map from suggestion id to record, and the controller that fills them from a
    provider. The field and its controller call each other, so both classes
    live in this one module. */
module LocationTextFields {
  import opened Wrappers
  import opened GeocodedLocations
  import opened LocationProviders
  import opened ResultSorting

  /** One entry of the suggestion list sent to the browser. */
  datatype Suggestion = Suggestion(id: int, displayString: JavaString)

  /** The suggestion list that lists `locs` in order. */
  function SuggestionsFor(locs: seq<Location>): (r: seq<Suggestion>)
    ensures |r| == |locs|
  {
    seq(|locs|, i requires 0 <= i < |locs| => Suggestion(i, locs[i].geocodedAddress))
  }

  /** The id-to-record map that goes with `SuggestionsFor(locs)`. */
  function ItemsFor(locs: seq<Location>): map<int, Location>
  {
    map i | 0 <= i < |locs| :: locs[i]
  }

  /** Suggestion `i` has id `i`, and the map holds exactly the ids in use. */
  ghost predicate Indexed(suggestions: seq<Suggestion>, items: map<int, Location>)
  {
    && (forall i :: 0 <= i < |suggestions| ==> suggestions[i].id == i)
    && (forall k :: k in items <==> 0 <= k < |suggestions|)
  }

  /** A list built from records is indexed, and selecting any of its suggestions
      finds the record that suggestion displays. */
  lemma SuggestionsForIndexed(locs: seq<Location>)
    ensures Indexed(SuggestionsFor(locs), ItemsFor(locs))
    ensures forall i :: 0 <= i < |locs| ==>
      && SuggestionsFor(locs)[i].id in ItemsFor(locs)
      && ItemsFor(locs)[SuggestionsFor(locs)[i].id] == locs[i]
      && DisplayString(locs[i]) == SuggestionsFor(locs)[i].displayString
  {
  }

  /** `AbstractGeocoderController` with its default `handleError`. */
  class GeocoderController {
    const provider: Provider

    constructor (provider: Provider)
      ensures this.provider == provider
    {
      this.provider := provider;
    }

    /** `geocode(ltf, query)`: results go to `HandleResults`; a geocoding
        exception goes to `HandleError`, which leaves the field alone. */
    method Geocode(ltf: LocationTextField, query: JavaString)
      modifies ltf
      ensures provider(query).Success? ==>
        ltf.ShowsResults(query, SortResults(provider(query).value))
      ensures provider(query).Failure? ==> unchanged(ltf)
      ensures unchanged(ltf`minimumQueryCharacters, ltf`delayMillis, ltf`location, ltf`controller)
    {
      match provider(query)
      case Success(results) =>
        HandleResults(ltf, query, results);
      case Failure(e) =>
        HandleError(ltf, query, e);
    }

    /** `handleResults`: clear the choices, show the query, then add the sorted
        results as suggestions one by one. */
    method HandleResults(ltf: LocationTextField, query: JavaString, results: seq<Location>)
      modifies ltf
      ensures ltf.ShowsResults(query, SortResults(results))
      ensures unchanged(ltf`minimumQueryCharacters, ltf`delayMillis, ltf`location, ltf`controller)
    {
      ltf.ClearChoices();
      ltf.text := query;
      var sorted := SortResults(results);
      for i := 0 to |sorted|
        invariant ltf.text == query
        invariant ltf.suggestions == SuggestionsFor(sorted[..i])
        invariant ltf.items == ItemsFor(sorted[..i])
        invariant unchanged(ltf`minimumQueryCharacters, ltf`delayMillis, ltf`location, ltf`controller)
      {
        ltf.AddSuggestion(sorted[i], sorted[i].geocodedAddress);
        assert SuggestionsFor(sorted[..i + 1]) == SuggestionsFor(sorted[..i]) + [Suggestion(i, sorted[i].geocodedAddress)];
        assert ItemsFor(sorted[..i + 1]) == ItemsFor(sorted[..i])[i := sorted[i]];
      }
      assert sorted[..|sorted|] == sorted;
    }

    /** `handleError`: by default nothing happens. */
    method HandleError(ltf: LocationTextField, query: JavaString, e: GeocodingError)
      ensures unchanged(ltf)
    {
    }
  }

  /** `LocationTextField`: the plain state fields of the component. */
  class LocationTextField {
    var text: JavaString
    var suggestions: seq<Suggestion>
    var items: map<int, Location>
    var minimumQueryCharacters: int32
    var delayMillis: int32
    /** The value of the bound location property (`None`: none, or null). */
    var location: Option<Location>
    var controller: GeocoderController

    ghost predicate Valid()
      reads this
    {
      Indexed(suggestions, items)
    }

    /** The field shows `query` and offers exactly `locs`, in order. */
    ghost predicate ShowsResults(query: JavaString, locs: seq<Location>)
      reads this
    {
      text == query && suggestions == SuggestionsFor(locs) && items == ItemsFor(locs)
    }

    constructor (controller: GeocoderController, initial: Option<Location>)
      ensures text == None && suggestions == [] && items == map[]
      ensures minimumQueryCharacters == 0 && delayMillis == 500
      ensures location == initial && this.controller == controller
      ensures Valid()
    {
      text, suggestions, items := None, [], map[];
      minimumQueryCharacters, delayMillis := 0, 500;
      location, this.controller := initial, controller;
    }

    /** The public constructor: a null provider is refused; otherwise the field
        gets a default controller over the provider and a 500 ms delay. */
    static method New(provider: Option<Provider>, initial: Option<Location>)
      returns (r: Result<LocationTextField, Exception>)
      ensures r.Failure? <==> provider.None?
      ensures r.Failure? ==> r.error == IllegalArgumentException
      ensures r.Success? ==>
        && fresh(r.value) && fresh(r.value.controller)
        && r.value.controller.provider == provider.value
        && r.value.delayMillis == 500 && r.value.location == initial
        && r.value.suggestions == [] && r.value.items == map[] && r.value.Valid()
    {
      if provider.None? {
        return Failure(IllegalArgumentException);
      }
      var c := new GeocoderController(provider.value);
      var f := new LocationTextField(c, initial);
      r := Success(f);
    }

    method SetGeocoderController(c: GeocoderController)
      modifies this
      ensures controller == c
      ensures unchanged(this`text, this`suggestions, this`items, this`minimumQueryCharacters, this`delayMillis, this`location)
    {
      controller := c;
    }

    /** `fireLocationChanged`: a null record is ignored; otherwise the bound
        property takes the record. */
    method FireLocationChanged(suggestion: Option<Location>)
      modifies this
      ensures suggestion.None? ==> unchanged(this)
      ensures suggestion.Some? ==> location == suggestion
      ensures unchanged(this`text, this`suggestions, this`items, this`minimumQueryCharacters, this`delayMillis, this`controller)
    {
      if suggestion.None? {
        return;
      }
      location := suggestion;
    }

    /** The browser selected `suggestion`: show its text, then pass on the
        record under its id, or null when the id is unknown. On an indexed
        field every id of the list on show finds its record. */
    method LocationSelected(suggestion: Suggestion)
      modifies this
      ensures text == suggestion.displayString
      ensures suggestion.id in old(items) ==> location == Some(old(items)[suggestion.id])
      ensures suggestion.id !in old(items) ==> location == old(location)
      ensures old(Valid()) && 0 <= suggestion.id < |old(suggestions)| ==>
        location == Some(old(items)[suggestion.id])
      ensures old(Valid()) ==> Valid()
      ensures unchanged(this`suggestions, this`items, this`minimumQueryCharacters, this`delayMillis, this`controller)
    {
      SetText(suggestion.displayString);
      var selected := if suggestion.id in items then Some(items[suggestion.id]) else None;
      FireLocationChanged(selected);
    }

    /** `setLocation`: a null record resets the field; any other becomes the
        one suggestion and the text. */
    method SetLocation(loc: Option<Location>)
      modifies this
      ensures loc.None? ==> text == Some("") && suggestions == [] && items == map[]
      ensures loc.Some? ==>
        && text == loc.value.geocodedAddress
        && suggestions == [Suggestion(0, loc.value.geocodedAddress)]
        && items == map[0 := loc.value]
      ensures Valid()
      ensures unchanged(this`minimumQueryCharacters, this`delayMillis, this`location, this`controller)
    {
      Reset();
      if loc.Some? {
        AddSuggestion(loc.value, loc.value.geocodedAddress);
        SetText(loc.value.geocodedAddress);
      }
    }

    /** `reset`: no choices and empty text. */
    method Reset()
      modifies this
      ensures text == Some("") && suggestions == [] && items == map[]
      ensures Valid()
      ensures unchanged(this`minimumQueryCharacters, this`delayMillis, this`location, this`controller)
    {
      ClearChoices();
      SetText(Some(""));
    }

    /** `clearChoices`: no suggestions and no records. */
    method ClearChoices()
      modifies this
      ensures suggestions == [] && items == map[]
      ensures Valid()
      ensures unchanged(this`text, this`minimumQueryCharacters, this`delayMillis, this`location, this`controller)
    {
      suggestions := [];
      items := map[];
    }

    /** `geocode(address)`: set the text and geocode it if it changed. */
    method Geocode(address: JavaString)
      modifies this
      ensures old(text) == address ==> unchanged(this)
      ensures old(text) != address ==> text == address
      ensures old(text) != address && controller.provider(address).Success? ==>
        ShowsResults(address, SortResults(controller.provider(address).value))
      ensures old(text) != address && controller.provider(address).Failure? ==>
        suggestions == [] && items == map[]
      ensures old(Valid()) ==> Valid()
      ensures unchanged(this`minimumQueryCharacters, this`delayMillis, this`location, this`controller)
    {
      UpdateText(address, true);
    }

    method GetText() returns (t: JavaString)
      ensures t == text
    {
      t := text;
    }

    /** `setText(text)`: change the text without geocoding. */
    method SetText(t: JavaString)
      modifies this
      ensures text == t
      ensures unchanged(this`suggestions, this`items, this`minimumQueryCharacters, this`delayMillis, this`location, this`controller)
    {
      UpdateText(t, false);
    }

    /** `setText(text, geocodeIfDifferent)`: nothing happens when the text is
        unchanged; otherwise the text is replaced and, when asked, the choices
        are cleared and the controller geocodes the new text once. */
    method UpdateText(t: JavaString, geocodeIfDifferent: bool)
      modifies this
      ensures old(text) == t ==> unchanged(this)
      ensures old(text) != t ==> text == t
      ensures old(text) != t && !geocodeIfDifferent ==>
        suggestions == old(suggestions) && items == old(items)
      ensures old(text) != t && geocodeIfDifferent && controller.provider(t).Success? ==>
        ShowsResults(t, SortResults(controller.provider(t).value))
      ensures old(text) != t && geocodeIfDifferent && controller.provider(t).Failure? ==>
        suggestions == [] && items == map[]
      ensures old(Valid()) ==> Valid()
      ensures unchanged(this`minimumQueryCharacters, this`delayMillis, this`location, this`controller)
    {
      if text != t {
        text := t;
        if geocodeIfDifferent {
          ClearChoices();
          controller.Geocode(this, t);
          if controller.provider(t).Success? {
            SuggestionsForIndexed(SortResults(controller.provider(t).value));
          }
        }
      }
    }

    method GetMinTextLength() returns (n: int32)
      ensures n == minimumQueryCharacters
    {
      n := minimumQueryCharacters;
    }

    /** `setMinTextLength`: only the minimum query length changes. */
    method SetMinTextLength(n: int32)
      modifies this
      ensures minimumQueryCharacters == n
      ensures unchanged(this`text, this`suggestions, this`items, this`delayMillis, this`location, this`controller)
    {
      if n != minimumQueryCharacters {
        minimumQueryCharacters := n;
      }
    }

    method GetDelay() returns (d: int32)
      ensures d == delayMillis
    {
      d := delayMillis;
    }

    method SetDelay(d: int32)
      modifies this
      ensures delayMillis == d
      ensures unchanged(this`text, this`suggestions, this`items, this`minimumQueryCharacters, this`location, this`controller)
    {
      delayMillis := d;
    }

    /** `addSuggestion(e, title)`: append a suggestion whose id is the old list
        length and record `e` under that id; what was there stays. */
    method AddSuggestion(e: Location, title: JavaString)
      modifies this
      ensures suggestions == old(suggestions) + [Suggestion(|old(suggestions)|, title)]
      ensures items == old(items)[|old(suggestions)| := e]
      ensures old(Valid()) ==> Valid()
      ensures unchanged(this`text, this`minimumQueryCharacters, this`delayMillis, this`location, this`controller)
    {
      var index := |suggestions|;
      items := items[index := e];
      suggestions := suggestions + [Suggestion(index, title)];
    }
  }
}
