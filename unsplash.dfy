/**
 * The Unsplash background's request rules: the image width asked for, the query
 * parameters chosen by the `by` mode, and how a response becomes a list of images.
 * The network call itself is not modelled; a response is a status and a parsed body.
 */
module Unsplash {
  import opened Wrappers
  import opened Text

  const OfficialCollection: nat := 1053828
  /** `String(officialCollection)`. */
  const OfficialCollectionText: string := "1053828"

  const MinWidth: int := 1920
  const MaxWidth: int := 3840
  const WidthStep: int := 240

  const DefaultScreenWidth: int := 1920
  const DefaultPixelRatio: int := 1

  /**
   * `calculateWidth`: clamp the physical width (screen width times pixel ratio,
   * taken here as one integer) to [1920, 3840], then round up to a multiple of 240.
   */
  function CalculateWidth(physicalWidth: int := DefaultScreenWidth * DefaultPixelRatio): (w: int)
    ensures w % WidthStep == 0
    ensures MinWidth <= w <= MaxWidth
    ensures var clamped := Clamp(physicalWidth); clamped <= w < clamped + WidthStep
  {
    var atLeast := if physicalWidth > MinWidth then physicalWidth else MinWidth;
    var clamped := if atLeast < MaxWidth then atLeast else MaxWidth;
    // Math.ceil(clamped / 240) * 240 for a positive integer
    var q := (clamped + WidthStep - 1) / WidthStep;
    assert clamped + WidthStep - 1 == q * WidthStep + (clamped + WidthStep - 1) % WidthStep;
    q * WidthStep
  }

  /** The width after the lower and upper limits, before snapping. */
  function Clamp(physicalWidth: int): (c: int)
    ensures MinWidth <= c <= MaxWidth
    ensures MinWidth <= physicalWidth <= MaxWidth ==> c == physicalWidth
    ensures physicalWidth < MinWidth ==> c == MinWidth
    ensures physicalWidth > MaxWidth ==> c == MaxWidth
  {
    if physicalWidth < MinWidth then MinWidth
    else if physicalWidth > MaxWidth then MaxWidth
    else physicalWidth
  }

  /** With the default arguments the width is 1920. */
  lemma DefaultWidth()
    ensures CalculateWidth() == 1920
  {
  }

  /** Widths that are already a multiple of 240 inside the limits are kept. */
  lemma SnappedWidthIsFixed(w: int)
    requires MinWidth <= w <= MaxWidth && w % WidthStep == 0
    ensures CalculateWidth(w) == w
  {
  }

  // ---------------------------------------------------------------------------
  // Query parameters (URLSearchParams)

  type Param = (string, string)

  /** `URLSearchParams.get`: the value of the first entry named `key`. */
  function Lookup(entries: seq<Param>, key: string): Option<string>
  {
    if entries == [] then None
    else if entries[0].0 == key then Some(entries[0].1)
    else Lookup(entries[1..], key)
  }

  function Keys(entries: seq<Param>): set<string>
  {
    if entries == [] then {} else {entries[0].0} + Keys(entries[1..])
  }

  /** No key is named twice. */
  predicate DistinctKeys(entries: seq<Param>) {
    entries == [] || (entries[0].0 !in Keys(entries[1..]) && DistinctKeys(entries[1..]))
  }

  lemma {:induction false} AppendFacts(a: seq<Param>, b: seq<Param>, key: string)
    ensures Keys(a + b) == Keys(a) + Keys(b)
    ensures Lookup(a + b, key) == if key in Keys(a) then Lookup(a, key) else Lookup(b, key)
    ensures DistinctKeys(a + b) <==> DistinctKeys(a) && DistinctKeys(b) && Keys(a) !! Keys(b)
    ensures key !in Keys(a) <==> Lookup(a, key) == None
  {
    if a == [] {
      assert a + b == b;
    } else {
      assert (a + b)[1..] == a[1..] + b;
      AppendFacts(a[1..], b, key);
    }
  }

  function DropKey(entries: seq<Param>, key: string): (r: seq<Param>)
    ensures Keys(r) == Keys(entries) - {key}
    ensures key !in Keys(entries) ==> r == entries
    ensures DistinctKeys(entries) ==> DistinctKeys(r)
  {
    if entries == [] then []
    else
      var rest := DropKey(entries[1..], key);
      if entries[0].0 == key then rest
      else
        assert ([entries[0]] + rest)[1..] == rest;
        [entries[0]] + rest
  }

  /**
   * `URLSearchParams.set`: the first entry named `key` takes the new value and
   * later ones are removed; with no such entry, one is appended.
   */
  function Assign(entries: seq<Param>, key: string, value: string): (r: seq<Param>)
    ensures Keys(r) == Keys(entries) + {key}
    ensures DistinctKeys(entries) ==> DistinctKeys(r)
  {
    if entries == [] then [(key, value)]
    else if entries[0].0 == key then [(key, value)] + DropKey(entries[1..], key)
    else [entries[0]] + Assign(entries[1..], key, value)
  }

  lemma {:induction false} AssignLookup(entries: seq<Param>, key: string, value: string, other: string)
    ensures Lookup(Assign(entries, key, value), key) == Some(value)
    ensures other != key ==> Lookup(Assign(entries, key, value), other) == Lookup(entries, other)
  {
    if entries != [] && entries[0].0 != key {
      AssignLookup(entries[1..], key, value, other);
    } else if entries != [] {
      DropKeyLookup(entries[1..], key, other);
    }
  }

  lemma {:induction false} DropKeyLookup(entries: seq<Param>, key: string, other: string)
    ensures other != key ==> Lookup(DropKey(entries, key), other) == Lookup(entries, other)
  {
    if entries != [] {
      DropKeyLookup(entries[1..], key, other);
    }
  }

  /** Setting a key that is not there yet appends it at the end. */
  lemma {:induction false} AssignFresh(entries: seq<Param>, key: string, value: string)
    requires key !in Keys(entries)
    ensures Assign(entries, key, value) == entries + [(key, value)]
  {
    if entries != [] {
      assert entries == [entries[0]] + entries[1..];
      assert Keys(entries) == {entries[0].0} + Keys(entries[1..]);
      AssignFresh(entries[1..], key, value);
    }
  }

  /** A mutable `URLSearchParams`. */
  class SearchParams {
    var entries: seq<Param>

    constructor ()
      ensures entries == []
    {
      entries := [];
    }

    method Set(key: string, value: string)
      modifies this
      ensures entries == Assign(old(entries), key, value)
    {
      entries := Assign(entries, key, value);
    }
  }

  /** The part of the Unsplash settings that `fetchImages` reads; `mode` is the `by` setting. */
  datatype Config = Config(mode: string, collections: string, topics: seq<string>, featured: bool, search: string)

  /**
   * The query string the request carries, in order: `count=10`, then the entries of
   * the mode; `search` mode adds `featured` only when asked to and `query` only for a
   * non-empty search; an unknown mode asks for the official collection.
   */
  function QueryFor(c: Config): (r: seq<Param>)
    ensures |r| >= 2 && r[0] == ("count", "10")
  {
    [("count", "10")] + ModeParams(c)
  }

  function ModeParams(c: Config): seq<Param>
  {
    match c.mode
    case "collections" => [("collections", c.collections)]
    case "topics" => [("topics", Join(c.topics, ","))] + [("orientation", "landscape")]
    case "search" =>
      [("orientation", "landscape")]
      + (if c.featured then [("featured", "true")] else [])
      + (if c.search != "" then [("query", c.search)] else [])
    case _ => [("collections", OfficialCollectionText)]
  }

  /** What each mode's query promises, key by key. */
  lemma QueryForLookups(c: Config)
    ensures DistinctKeys(QueryFor(c))
    ensures Lookup(QueryFor(c), "count") == Some("10")
    ensures c.mode == "collections" ==>
      Keys(QueryFor(c)) == {"count", "collections"} && Lookup(QueryFor(c), "collections") == Some(c.collections)
    ensures c.mode == "topics" ==>
      Keys(QueryFor(c)) == {"count", "topics", "orientation"}
      && Lookup(QueryFor(c), "topics") == Some(Join(c.topics, ","))
      && Lookup(QueryFor(c), "orientation") == Some("landscape")
    ensures c.mode == "search" ==>
      && Lookup(QueryFor(c), "orientation") == Some("landscape")
      && Lookup(QueryFor(c), "featured") == (if c.featured then Some("true") else None)
      && Lookup(QueryFor(c), "query") == (if c.search != "" then Some(c.search) else None)
      && Keys(QueryFor(c)) == {"count", "orientation"}
                              + (if c.featured then {"featured"} else {})
                              + (if c.search != "" then {"query"} else {})
    ensures c.mode !in {"collections", "topics", "search"} ==>
      Keys(QueryFor(c)) == {"count", "collections"} && Lookup(QueryFor(c), "collections") == Some(OfficialCollectionText)
  {
    var count := [("count", "10")];
    var m := ModeParams(c);
    AppendFacts(count, m, "count");
    AppendFacts(count, m, "collections");
    AppendFacts(count, m, "topics");
    AppendFacts(count, m, "orientation");
    AppendFacts(count, m, "featured");
    AppendFacts(count, m, "query");
    if c.mode == "topics" {
      AppendFacts([("topics", Join(c.topics, ","))], [("orientation", "landscape")], "orientation");
    } else if c.mode == "search" {
      var o := [("orientation", "landscape")];
      var f: seq<Param> := if c.featured then [("featured", "true")] else [];
      var qy: seq<Param> := if c.search != "" then [("query", c.search)] else [];
      AppendFacts(o, f, "featured");
      AppendFacts(o + f, qy, "featured");
      AppendFacts(o, f, "query");
      AppendFacts(o + f, qy, "query");
      AppendFacts(o, f, "orientation");
      AppendFacts(o + f, qy, "orientation");
    }
  }

  /** The parameter-building part of `fetchImages`: calls to `params.set` on a fresh `URLSearchParams`. */
  method BuildParams(c: Config) returns (params: seq<Param>)
    ensures params == QueryFor(c)
  {
    var p := new SearchParams();
    p.Set("count", "10");
    AssignFresh([], "count", "10");
    if c.mode == "collections" {
      AssignFresh(p.entries, "collections", c.collections);
      p.Set("collections", c.collections);
    } else if c.mode == "topics" {
      AssignFresh(p.entries, "topics", Join(c.topics, ","));
      p.Set("topics", Join(c.topics, ","));
      AppendFacts([("count", "10")], [("topics", Join(c.topics, ","))], "orientation");
      AssignFresh(p.entries, "orientation", "landscape");
      p.Set("orientation", "landscape");
    } else if c.mode == "search" {
      AssignFresh(p.entries, "orientation", "landscape");
      p.Set("orientation", "landscape");
      var o := [("count", "10")] + [("orientation", "landscape")];
      if c.featured {
        AppendFacts([("count", "10")], [("orientation", "landscape")], "featured");
        AssignFresh(p.entries, "featured", "true");
        p.Set("featured", "true");
      }
      if c.search != "" {
        var f: seq<Param> := if c.featured then [("featured", "true")] else [];
        AppendFacts([("count", "10")], [("orientation", "landscape")], "query");
        AppendFacts(o, f, "query");
        AssignFresh(p.entries, "query", c.search);
        p.Set("query", c.search);
      }
    } else {
      AssignFresh(p.entries, "collections", OfficialCollectionText);
      p.Set("collections", OfficialCollectionText);
    }
    params := p.entries;
  }

  const Endpoint: string := "https://api.unsplash.com/photos/random"
  const MissingKeyMessage: string := "You must set the UNSPLASH_API_KEY environment variable."

  datatype Request = Request(url: string, params: seq<Param>, authorization: string)

  /**
   * The request `fetchImages` sends. The API key is a build-time constant, taken
   * here as a parameter; an empty key is an error raised before any request.
   */
  method PrepareRequest(apiKey: string, c: Config) returns (r: Result<Request, string>)
    ensures apiKey == "" <==> r.Failure?
    ensures r.Failure? ==> r.error == MissingKeyMessage
    ensures r.Success? ==>
      r.value == Request(Endpoint, QueryFor(c), "Client-ID " + apiKey)
  {
    var authorization := "Client-ID " + apiKey;
    if apiKey == "" {
      return Failure(MissingKeyMessage);
    }
    var params := BuildParams(c);
    r := Success(Request(Endpoint, params, authorization));
  }

  // ---------------------------------------------------------------------------
  // Responses

  datatype PhotoLocation = PhotoLocation(name: string)
  /** The fields of one photo of the JSON body that the widget reads. */
  datatype Photo = Photo(urlsRaw: string, linksHtml: string, location: Option<PhotoLocation>,
                         userName: string, userLinksHtml: string)
  /** A parsed body: an array of photos, or anything else. */
  datatype Body = PhotoArray(photos: seq<Photo>) | OtherBody

  /** `location` is absent both when undefined and when null. */
  datatype Credit = Credit(imageLink: string, location: Option<string>, userName: string, userLink: string)
  datatype Image = Image(src: string, credit: Credit)

  const PlaceholderImage: Image := Image("", Credit("", None, "", ""))

  function ToImage(p: Photo): (img: Image)
    ensures img.src == p.urlsRaw && img.credit.imageLink == p.linksHtml
    ensures img.credit.userName == p.userName && img.credit.userLink == p.userLinksHtml
    ensures img.credit.location == if p.location.Some? then Some(p.location.value.name) else None
  {
    Image(p.urlsRaw, Credit(p.linksHtml,
                            if p.location.Some? then Some(p.location.value.name) else None,
                            p.userName, p.userLinksHtml))
  }

  /** `body.map(...)`. */
  function ToImages(photos: seq<Photo>): (r: seq<Image>)
    ensures |r| == |photos|
    ensures forall i :: 0 <= i < |photos| ==> r[i] == ToImage(photos[i])
  {
    if photos == [] then [] else [ToImage(photos[0])] + ToImages(photos[1..])
  }

  /** The images `fetchImages` resolves to for a response. */
  function ReduceResponse(status: int, body: Body): (r: seq<Image>)
    ensures status != 200 ==> r == [PlaceholderImage]
    ensures status == 200 && body.PhotoArray? ==>
      |r| == |body.photos| && forall i :: 0 <= i < |r| ==> r[i].src == body.photos[i].urlsRaw && r[i] == ToImage(body.photos[i])
    ensures status == 200 && body.OtherBody? ==> r == []
  {
    if status != 200 then [PlaceholderImage]
    else match body
      case PhotoArray(photos) => ToImages(photos)
      case OtherBody => []
  }
}
