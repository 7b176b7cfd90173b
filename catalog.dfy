/** The listing page's data: each roster entry of `/pokemon?limit=1025`
    becomes one display record with its number, English name, Japanese name
    and sprite address, in roster order. */
module Catalog {
  import opened Species

  /** One element of the roster's `results`. */
  datatype RosterEntry = RosterEntry(name: string, url: string)

  /** A display record. `id` is what `pop()` gave: `None` stands for
      JavaScript's `undefined` when the URL has no non-empty segment. */
  datatype CatalogEntry = CatalogEntry(id: Option<string>, enName: string, jaName: string, imageUrl: string)

  /** How the roster request ended: it threw (network failure, or a body
      without `results`), or it gave the list of entries. */
  datatype RosterFetch = RosterThrew | RosterOk(results: seq<RosterEntry>)

  /** The listing page either fails as a whole or gets the full list. */
  datatype CatalogResult = CatalogFailed | Catalog(entries: seq<CatalogEntry>)

  // The fallback markers of the Japanese-name lookup; the third,
  // `Unknown` ("不明"), is shared with the quiz and declared in Species.
  const NoData: string := "データなし"
  const Failed: string := "エラー"

  const SpeciesEndpoint: string := "https://pokeapi.co/api/v2/pokemon-species/"
  const SpritePrefix: string := "https://raw.githubusercontent.com/PokeAPI/sprites/master/sprites/pokemon/"
  const SpriteSuffix: string := ".png"

  // ---------------------------------------------------------------------
  // Number from URL: url.split("/").filter(Boolean).pop()
  // ---------------------------------------------------------------------

  /** `s.split("/")`: the pieces between slashes, empty ones included. */
  function SplitOnSlash(s: string): (parts: seq<string>)
    ensures |parts| >= 1
    ensures forall i :: 0 <= i < |parts| ==> '/' !in parts[i]
  {
    if s == [] then [[]]
    else
      var init := SplitOnSlash(s[..|s| - 1]);
      if s[|s| - 1] == '/' then init + [[]]
      else init[..|init| - 1] + [init[|init| - 1] + [s[|s| - 1]]]
  }

  /** `parts.join("/")`, the inverse of `split`. */
  function JoinWithSlash(parts: seq<string>): string
    requires |parts| >= 1
  {
    if |parts| == 1 then parts[0]
    else JoinWithSlash(parts[..|parts| - 1]) + "/" + parts[|parts| - 1]
  }

  /** Splitting loses nothing: joining the pieces back gives the URL. */
  lemma {:induction false} SplitJoin(s: string)
    ensures JoinWithSlash(SplitOnSlash(s)) == s
  {
    if s != [] {
      var init := s[..|s| - 1];
      var p := SplitOnSlash(init);
      SplitJoin(init);
      if s[|s| - 1] == '/' {
        assert (p + [[]])[..|p|] == p;
      } else {
        var q := p[..|p| - 1] + [p[|p| - 1] + [s[|s| - 1]]];
        if |p| > 1 {
          assert q[..|q| - 1] == p[..|p| - 1];
        }
      }
    }
  }

  /** `filter(Boolean)` on strings: keeps the non-empty pieces, in order. */
  function NonEmptySegments(parts: seq<string>): (r: seq<string>)
    ensures forall i :: 0 <= i < |r| ==> r[i] != [] && r[i] in parts
    ensures forall i :: 0 <= i < |parts| && parts[i] != [] ==> parts[i] in r
  {
    if parts == [] then []
    else
      var init := NonEmptySegments(parts[..|parts| - 1]);
      var last := parts[|parts| - 1];
      assert forall i :: 0 <= i < |parts| - 1 ==> parts[i] == parts[..|parts| - 1][i];
      if last == [] then init else init + [last]
  }

  /** `pop()`: the last element, or `undefined` for an empty array. */
  function Last(xs: seq<string>): (r: Option<string>)
    ensures r.None? <==> xs == []
    ensures r.Some? ==> r.value == xs[|xs| - 1]
  {
    if xs == [] then None else Some(xs[|xs| - 1])
  }

  /** The number the listing page reads off a roster URL: the last
      non-empty segment, or `undefined` when the URL is all slashes. */
  function IdFromUrl(url: string): (r: Option<string>)
    ensures r == LastSegment(url)
  {
    IdIsLastSegment(url);
    Last(NonEmptySegments(SplitOnSlash(url)))
  }

  /** The characters after the last '/' of `s` (all of `s` if it has none). */
  function AfterLastSlash(s: string): (t: string)
    ensures '/' !in t && |t| <= |s| && t == s[|s| - |t|..]
    ensures |t| < |s| ==> s[|s| - |t| - 1] == '/'
  {
    if s == [] || s[|s| - 1] == '/' then []
    else AfterLastSlash(s[..|s| - 1]) + [s[|s| - 1]]
  }

  /** `s` without its trailing slashes. */
  function DropTrailingSlashes(s: string): (t: string)
    ensures |t| <= |s| && t == s[..|t|]
    ensures forall k :: |t| <= k < |s| ==> s[k] == '/'
    ensures t == [] || t[|t| - 1] != '/'
  {
    if s != [] && s[|s| - 1] == '/' then DropTrailingSlashes(s[..|s| - 1]) else s
  }

  /** The last non-empty path segment of a URL, defined without `split`. */
  function LastSegment(url: string): (r: Option<string>)
    ensures r.None? <==> forall k :: 0 <= k < |url| ==> url[k] == '/'
    ensures r.Some? ==> r.value != [] && '/' !in r.value
  {
    var t := DropTrailingSlashes(url);
    if t == [] then None
    else
      assert t[|t| - 1] != '/' && url[|t| - 1] == t[|t| - 1];
      Some(AfterLastSlash(t))
  }

  /** The last piece `split` gives is what follows the last slash. */
  lemma {:induction false} LastPieceAfterLastSlash(s: string)
    ensures SplitOnSlash(s)[|SplitOnSlash(s)| - 1] == AfterLastSlash(s)
  {
    if s != [] {
      LastPieceAfterLastSlash(s[..|s| - 1]);
    }
  }

  /** split/filter/pop picks the last non-empty segment: a trailing slash is
      ignored, so ".../pokemon/25/" gives "25". */
  lemma {:induction false} IdIsLastSegment(url: string)
    ensures Last(NonEmptySegments(SplitOnSlash(url))) == LastSegment(url)
  {
    if url != [] {
      var init := url[..|url| - 1];
      var p := SplitOnSlash(init);
      if url[|url| - 1] == '/' {
        IdIsLastSegment(init);
        assert (p + [[]])[..|p|] == p;
        assert DropTrailingSlashes(url) == DropTrailingSlashes(init);
      } else {
        var parts := SplitOnSlash(url);
        assert parts[..|parts| - 1] == p[..|p| - 1];
        LastPieceAfterLastSlash(url);
      }
    }
  }

  /** What follows "/" + d, for a `d` without slashes, is `d`. */
  lemma {:induction false} AfterSlashIsSegment(x: string, d: string)
    requires '/' !in d
    ensures AfterLastSlash(x + "/" + d) == d
  {
    if d != [] {
      var s := x + "/" + d;
      assert s[..|s| - 1] == x + "/" + d[..|d| - 1];
      AfterSlashIsSegment(x, d[..|d| - 1]);
    }
  }

  /** A roster URL of the form base/segment/ gives that segment. */
  lemma UrlWithTrailingSlash(base: string, segment: string)
    requires segment != [] && '/' !in segment
    ensures IdFromUrl(base + "/" + segment + "/") == Some(segment)
  {
    var u := base + "/" + segment + "/";
    var t := base + "/" + segment;
    IdIsLastSegment(u);
    assert u[..|u| - 1] == t;
    assert t[|t| - 1] == segment[|segment| - 1];
    assert DropTrailingSlashes(t) == t;
    AfterSlashIsSegment(base, segment);
  }

  /** A roster address ending in "/25/", as Pikachu's does, gives "25". */
  lemma PikachuUrl(base: string)
    ensures IdFromUrl(base + "/25/") == Some("25")
  {
    UrlWithTrailingSlash(base, "25");
    assert base + "/" + "25" + "/" == base + "/25/";
  }

  // ---------------------------------------------------------------------
  // Japanese name: getJapaneseName
  // ---------------------------------------------------------------------

  /** The Japanese name shown for one entry. The lookup never throws: a
      failed request, a non-ok status and a missing Japanese entry each give
      their own marker. */
  function JapaneseName(fetch: SpeciesFetch): (r: string)
    ensures fetch.Threw? ==> r == Failed
    ensures fetch.Responded? && !fetch.ok ==> r == NoData
    ensures fetch == Responded(true, Unparseable) ==> r == Failed
    ensures fetch.Responded? && fetch.ok && fetch.body.Names? ==>
      var names := fetch.body.names;
      (exists i :: IsFirstJapanese(names, i) && r == names[i].name) || (NoJapanese(names) && r == Unknown)
  {
    match fetch
    case Threw => Failed
    case Responded(ok, body) =>
      if !ok then NoData
      else match body
        case Unparseable => Failed
        case Names(names) => JapaneseOr(names, Unknown)
  }

  /** A non-ok response is decided on its status alone: whatever its body,
      the marker is the same, so the body is never read. */
  lemma NotOkIgnoresBody(b1: SpeciesBody, b2: SpeciesBody)
    ensures JapaneseName(Responded(false, b1)) == JapaneseName(Responded(false, b2)) == NoData
  {
  }

  // ---------------------------------------------------------------------
  // The listing: getPokemonList
  // ---------------------------------------------------------------------

  /** How `${id}` prints the number in a template string. */
  function IdText(id: Option<string>): (t: string)
    ensures id.Some? ==> t == id.value
    ensures id.None? ==> t == "undefined"
  {
    match id
    case Some(t) => t
    case None => "undefined"
  }

  /** The species address: the endpoint, then the number as printed. */
  function SpeciesUrl(id: Option<string>): (u: string)
    ensures |u| == |SpeciesEndpoint| + |IdText(id)|
    ensures u[..|SpeciesEndpoint|] == SpeciesEndpoint && u[|SpeciesEndpoint|..] == IdText(id)
  {
    SpeciesEndpoint + IdText(id)
  }

  /** The sprite address: the fixed prefix, the number as printed, ".png". */
  function ImageUrl(id: Option<string>): (u: string)
    ensures |u| == |SpritePrefix| + |IdText(id)| + |SpriteSuffix|
    ensures u[..|SpritePrefix|] == SpritePrefix
    ensures u[|SpritePrefix|..|u| - |SpriteSuffix|] == IdText(id)
    ensures u[|u| - |SpriteSuffix|..] == SpriteSuffix
  {
    SpritePrefix + IdText(id) + SpriteSuffix
  }

  /** The number can be read back off the sprite address, so two records
      share a sprite address only when they print the same number. */
  lemma ImageUrlInjective(a: Option<string>, b: Option<string>)
    ensures ImageUrl(a) == ImageUrl(b) <==> IdText(a) == IdText(b)
  {
    if ImageUrl(a) == ImageUrl(b) {
      var u := ImageUrl(a);
      var n := |u| - |SpriteSuffix|;
      assert u[|SpritePrefix|..n] == IdText(a);
      assert ImageUrl(b)[|SpritePrefix|..n] == IdText(b);
    }
  }

  /** The record built for one roster entry. */
  function MakeEntry(p: RosterEntry, fetchSpecies: string -> SpeciesFetch): (e: CatalogEntry)
    ensures e.id == IdFromUrl(p.url) && e.enName == p.name
    ensures e.jaName == JapaneseName(fetchSpecies(SpeciesUrl(e.id)))
    ensures e.imageUrl == ImageUrl(e.id)
  {
    var id := IdFromUrl(p.url);
    CatalogEntry(id, p.name, JapaneseName(fetchSpecies(SpeciesUrl(id))), ImageUrl(id))
  }

  /** `results.map(...)` joined by `Promise.all`: one record per roster
      entry, in roster order, whatever each species request gave. */
  function PokemonList(roster: seq<RosterEntry>, fetchSpecies: string -> SpeciesFetch): (r: seq<CatalogEntry>)
    ensures |r| == |roster|
    ensures forall i :: 0 <= i < |r| ==>
      && r[i].id == IdFromUrl(roster[i].url)
      && r[i].enName == roster[i].name
      && r[i].jaName == JapaneseName(fetchSpecies(SpeciesEndpoint + IdText(r[i].id)))
      && r[i].imageUrl == SpritePrefix + IdText(r[i].id) + SpriteSuffix
  {
    if roster == [] then []
    else [MakeEntry(roster[0], fetchSpecies)] + PokemonList(roster[1..], fetchSpecies)
  }

  /** getPokemonList: the page fails as a whole when the roster request
      fails, and never shows part of a list. */
  function GetPokemonList(roster: RosterFetch, fetchSpecies: string -> SpeciesFetch): (r: CatalogResult)
    ensures r.CatalogFailed? <==> roster.RosterThrew?
    ensures r.Catalog? ==> r.entries == PokemonList(roster.results, fetchSpecies)
    ensures r.Catalog? ==> |r.entries| == |roster.results|
  {
    match roster
    case RosterThrew => CatalogFailed
    case RosterOk(results) => Catalog(PokemonList(results, fetchSpecies))
  }

  /** Listing a longer roster extends the listing of its first part: the
      record of an entry depends on that entry alone, never on its
      neighbours or on the order in which requests complete. */
  lemma PokemonListAppend(a: seq<RosterEntry>, b: seq<RosterEntry>, fetchSpecies: string -> SpeciesFetch)
    ensures PokemonList(a + b, fetchSpecies) == PokemonList(a, fetchSpecies) + PokemonList(b, fetchSpecies)
  {
  }
}
