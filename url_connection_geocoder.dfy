/** The fetch-then-bound shell of the geocoder: build the URL, read the response
    lines, decode them, keep at most `limit` records, and turn every failure into
    one geocoding exception. */
module UrlConnection {
  import opened Wrappers
  import opened GeocodedLocations
  import opened LocationProviders
  import opened OpenStreetMap

  /** The number of characters in all the lines together. */
  function TotalLength(lines: seq<string>): nat
  {
    if lines == [] then 0 else |lines[0]| + TotalLength(lines[1..])
  }

  /** The response body: the lines `readLine` returned, concatenated without
      their terminators, so it is exactly as long as the lines together. */
  function Join(lines: seq<string>): (body: string)
    ensures |body| == TotalLength(lines)
  {
    if lines == [] then ""
    else
      var init := lines[..|lines| - 1];
      TotalLengthSnoc(init, lines[|lines| - 1]);
      assert init + [lines[|lines| - 1]] == lines;
      Join(init) + lines[|lines| - 1]
  }

  /** Appending a line adds its length to the total. */
  lemma {:induction false} TotalLengthSnoc(lines: seq<string>, line: string)
    ensures TotalLength(lines + [line]) == TotalLength(lines) + |line|
  {
    if lines != [] {
      assert (lines + [line])[1..] == lines[1..] + [line];
      TotalLengthSnoc(lines[1..], line);
    }
  }

  /** The body read so far is always a prefix of the whole body: reading only
      appends. */
  lemma {:induction false} JoinExtends(lines: seq<string>, k: nat)
    requires k <= |lines|
    ensures Join(lines[..k]) <= Join(lines)
    decreases |lines|
  {
    if k < |lines| {
      var init := lines[..|lines| - 1];
      assert lines[..k] == init[..k];
      JoinExtends(init, k);
    } else {
      assert lines[..k] == lines;
    }
  }

  /** A character occurs in the body exactly when it occurs in some line, so a
      body built from terminator-free lines holds no terminator. */
  lemma {:induction false} JoinCharacters(lines: seq<string>, c: char)
    ensures c in Join(lines) <==> exists i :: 0 <= i < |lines| && c in lines[i]
  {
    if lines != [] {
      var init, last := lines[..|lines| - 1], lines[|lines| - 1];
      JoinCharacters(init, c);
      assert Join(lines) == Join(init) + last;
      assert c in Join(lines) <==> c in Join(init) || c in last;
      if c in last {
        assert c in lines[|lines| - 1];
      }
      if exists i :: 0 <= i < |init| && c in init[i] {
        var i :| 0 <= i < |init| && c in init[i];
        assert c in lines[i];
      }
      if exists i :: 0 <= i < |lines| && c in lines[i] {
        var i :| 0 <= i < |lines| && c in lines[i];
        if i < |init| {
          assert c in init[i];
        }
      }
    }
  }

  /** The truncation step: the first `limit` records when the limit is positive
      and exceeded, otherwise every record. */
  function Bounded(locs: seq<Location>, limit: int32): (r: seq<Location>)
    ensures r <= locs
    ensures limit > 0 ==> |r| == if |locs| > limit then limit else |locs|
    ensures limit <= 0 ==> r == locs
  {
    if limit > 0 && |locs| > limit then locs[..limit] else locs
  }

  /** `geocode(address)` on values: each stage's exception is wrapped once more
      into a geocoding exception and ends the call without results. */
  function GeocodeResult(address: JavaString, limit: int32,
                         fetch: string -> Result<seq<string>, Exception>, foreign: Foreign)
    : (r: Result<seq<Location>, GeocodingError>)
    ensures address.None? ==> r == Failure(GeocodingException(NullPointerException))
    ensures r.Success? && limit > 0 ==> |r.value| <= limit
    ensures r.Success? ==> forall i :: 0 <= i < |r.value| ==> r.value[i].originalAddress == address
  {
    match GetUrl(address, limit, foreign.urlEncode)
    case Failure(e) => Failure(GeocodingException(e))
    case Success(url) =>
      match fetch(url)
      case Failure(e) => Failure(GeocodingException(e))
      case Success(lines) =>
        match Decode(address.value, Join(lines), foreign)
        case Failure(e) => Failure(GeocodingException(e))
        case Success(locs) => Success(Bounded(locs, limit))
  }

  /** What `geocode` promises: it fails exactly when the query is null, the
      fetch fails or the body does not decode, and then with one geocoding
      exception wrapping the cause; otherwise it returns the decoded records in
      provider order, cut to `limit` when that is positive, each carrying the
      query verbatim. */
  lemma GeocodeOutcome(address: JavaString, limit: int32,
                       fetch: string -> Result<seq<string>, Exception>, foreign: Foreign)
    ensures address.None? ==>
      GeocodeResult(address, limit, fetch, foreign) == Failure(GeocodingException(NullPointerException))
    ensures address.Some? ==>
      var url := GetUrl(address, limit, foreign.urlEncode).value;
      && (fetch(url).Failure? ==>
            GeocodeResult(address, limit, fetch, foreign) == Failure(GeocodingException(fetch(url).error)))
      && (fetch(url).Success? ==>
            var decoded := Decode(address.value, Join(fetch(url).value), foreign);
            && (decoded.Failure? ==>
                  GeocodeResult(address, limit, fetch, foreign) == Failure(GeocodingException(decoded.error)))
            && (decoded.Success? ==>
                  var r := GeocodeResult(address, limit, fetch, foreign);
                  && r.Success?
                  && r.value == Bounded(decoded.value, limit)
                  && r.value <= decoded.value
                  && (limit > 0 && |decoded.value| > limit ==> r.value == decoded.value[..limit])
                  && (limit > 0 ==> |r.value| <= limit)
                  && (limit <= 0 || |decoded.value| <= limit ==> r.value == decoded.value)
                  && (forall i :: 0 <= i < |r.value| ==> r.value[i].originalAddress == address)))
  {
    if address.Some? {
      var url := GetUrl(address, limit, foreign.urlEncode).value;
      if fetch(url).Success? {
        DecodeOneRecordPerEntry(address.value, Join(fetch(url).value), foreign);
      }
    }
  }

  /** An empty provider answer is an empty result, not an error. */
  lemma GeocodeNoResults(address: string, limit: int32,
                         fetch: string -> Result<seq<string>, Exception>, foreign: Foreign)
    requires fetch(GetUrl(Some(address), limit, foreign.urlEncode).value).Success?
    requires foreign.parseArray(Join(fetch(GetUrl(Some(address), limit, foreign.urlEncode).value).value)) == Some([])
    ensures GeocodeResult(Some(address), limit, fetch, foreign) == Success([])
  {
  }

  /** The geocoder object: its only state is the result limit. */
  class UrlConnectionGeocoder {
    var limit: int32
    const foreign: Foreign

    /** The limit starts at zero, which means unbounded. */
    constructor (foreign: Foreign)
      ensures limit == 0 && this.foreign == foreign
    {
      limit := 0;
      this.foreign := foreign;
    }

    method GetLimit() returns (n: int32)
      ensures n == limit
    {
      n := limit;
    }

    method SetLimit(n: int32)
      modifies this
      ensures limit == n
    {
      limit := n;
    }

    /** The read loop: append each line, without its terminator. */
    static method ReadBody(lines: seq<string>) returns (body: string)
      ensures body == Join(lines)
    {
      body := "";
      var i := 0;
      while i < |lines|
        invariant 0 <= i <= |lines|
        invariant body == Join(lines[..i])
      {
        assert lines[..i + 1][..i] == lines[..i];
        body := body + lines[i];
        i := i + 1;
      }
      assert lines[..i] == lines;
    }

    /** `geocode`: the network read is the `fetch` parameter, which maps a URL to
        the response lines or to the exception the connection raised. */
    method Geocode(address: JavaString, fetch: string -> Result<seq<string>, Exception>)
      returns (r: Result<seq<Location>, GeocodingError>)
      ensures r == GeocodeResult(address, limit, fetch, foreign)
    {
      var url := GetUrl(address, limit, foreign.urlEncode);
      if url.Failure? {
        return Failure(GeocodingException(url.error));
      }
      var lines := fetch(url.value);
      if lines.Failure? {
        return Failure(GeocodingException(lines.error));
      }
      var body := ReadBody(lines.value);
      var locs := CreateLocations(address.value, body, foreign);
      if locs.Failure? {
        return Failure(GeocodingException(locs.error));
      }
      if limit > 0 && |locs.value| > limit {
        r := Success(locs.value[..limit]);
      } else {
        r := Success(locs.value);
      }
    }
  }
}
