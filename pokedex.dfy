/** The Pokédex core: the `Pokemon` entity, the normalisation of a PokéAPI
    detail payload into it, and the choice of the catalogue listing. */
module Pokedex {
  import opened Wrappers
  import opened Json
  import opened Text
  import opened PyDict

  /** The PokéAPI endpoint all requests start from. */
  const BaseUrl: string := "https://pokeapi.co/api/v2/pokemon/"

  /** The listing request: the first 151 Pokémon. */
  const ListingUrl: string := BaseUrl + "?limit=151"

  /** The outcome of `requests.get(url)`, `raise_for_status()` and
      `response.json()`: either one of them raised a `RequestException`, or the
      body was parsed into a JSON value. */
  datatype Response = Failed | Received(body: Json)

  // ---------------------------------------------------------------------------
  // Shape of a detail payload

  /** `item[outer]['name']` is a string, as the comprehensions over `types` and
      `abilities` and the loop over `stats` need. */
  ghost predicate NamedRef(item: Json, outer: string)
  {
    && item.JObject?
    && outer in item.fields
    && item.fields[outer].JObject?
    && "name" in item.fields[outer].fields
    && item.fields[outer].fields["name"].JString?
  }

  /** `key` is absent from `m` or holds a list. */
  ghost predicate OptionalList(m: map<string, Json>, key: string)
  {
    key in m ==> m[key].JArray?
  }

  /** `key` is absent from `m` or holds an object. */
  ghost predicate OptionalObject(m: map<string, Json>, key: string)
  {
    key in m ==> m[key].JObject?
  }

  /** `key` is absent from `m` or holds a number. */
  ghost predicate OptionalNumber(m: map<string, Json>, key: string)
  {
    key in m ==> m[key].JNum?
  }

  /** An element of `stats`: `stat['stat']['name']` is a string and
      `stat['base_stat']` exists. */
  ghost predicate WellFormedStat(item: Json)
  {
    NamedRef(item, "stat") && "base_stat" in item.fields
  }

  /** Every element of `items` is a `NamedRef` through `outer`. */
  ghost predicate AllNamedRefs(items: seq<Json>, outer: string)
  {
    forall i :: 0 <= i < |items| ==> NamedRef(items[i], outer)
  }

  /** Every element of `items` is a well-formed stat. */
  ghost predicate AllStats(items: seq<Json>)
  {
    forall i :: 0 <= i < |items| ==> WellFormedStat(items[i])
  }

  /** `sprites`, `sprites.other` and `sprites.other.official-artwork` are each
      absent or an object, so that every `.get` of the chain is defined. */
  ghost predicate ArtworkChain(m: map<string, Json>)
  {
    && OptionalObject(m, "sprites")
    && OptionalObject(Get(m, "sprites", EmptyObject).fields, "other")
    && OptionalObject(Get(Get(m, "sprites", EmptyObject).fields, "other", EmptyObject).fields, "official-artwork")
  }

  /** `key` is absent from `m` or a list of `NamedRef`s through `outer`. */
  ghost predicate NamedList(m: map<string, Json>, key: string, outer: string)
  {
    OptionalList(m, key) && AllNamedRefs(ListAt(m, key), outer)
  }

  /** `stats` is absent from `m` or a list of well-formed stats. */
  ghost predicate StatList(m: map<string, Json>)
  {
    OptionalList(m, "stats") && AllStats(ListAt(m, "stats"))
  }

  /** A payload on which `detalhes_busca` raises nothing after `response.json()`. */
  ghost predicate WellFormedDetail(data: Json)
  {
    && data.JObject?
    && OptionalNumber(data.fields, "height")
    && OptionalNumber(data.fields, "weight")
    && ArtworkChain(data.fields)
    && NamedList(data.fields, "types", "type")
    && NamedList(data.fields, "abilities", "ability")
    && StatList(data.fields)
  }

  // ---------------------------------------------------------------------------
  // Field extractions

  /** `data.get(key, [])` for a list-valued key. */
  function ListAt(m: map<string, Json>, key: string): seq<Json>
    requires OptionalList(m, key)
  {
    Get(m, key, JArray([])).items
  }

  /** `data.get('id')`: the payload's `id`, or `None` (`JNull`) when absent. */
  function IdOf(data: Json): (r: Json)
    requires data.JObject?
    ensures "id" in data.fields ==> r == data.fields["id"]
    ensures "id" !in data.fields ==> r == JNull
  {
    Get(data.fields, "id", JNull)
  }

  /** `data.get(key, 0) / 10`, exact. */
  function Tenths(m: map<string, Json>, key: string): (r: real)
    requires OptionalNumber(m, key)
    ensures key in m ==> r * 10.0 == m[key].value
    ensures key !in m ==> r == 0.0
  {
    Get(m, key, JNum(0.0)).value / 10.0
  }

  /** `altura`: `height` in decimetres converted to metres, 0 when absent. */
  function Altura(data: Json): (r: real)
    requires data.JObject? && OptionalNumber(data.fields, "height")
    ensures "height" in data.fields ==> r * 10.0 == data.fields["height"].value
    ensures "height" !in data.fields ==> r == 0.0
  {
    Tenths(data.fields, "height")
  }

  /** `peso`: `weight` in hectograms converted to kilograms, 0 when absent. */
  function Peso(data: Json): (r: real)
    requires data.JObject? && OptionalNumber(data.fields, "weight")
    ensures "weight" in data.fields ==> r * 10.0 == data.fields["weight"].value
    ensures "weight" !in data.fields ==> r == 0.0
  {
    Tenths(data.fields, "weight")
  }

  /** The path of the official artwork inside a payload. */
  const ArtworkPath: seq<string> := ["sprites", "other", "official-artwork", "front_default"]

  /** `imagem_url`: the chain of `.get(key, {})` calls followed by
      `.get('front_default')`. It is `sprites.other.official-artwork.front_default`
      when every step is present and `None` as soon as one is missing. */
  function ImagemUrl(data: Json): (r: Json)
    requires data.JObject? && ArtworkChain(data.fields)
    ensures Lookup(data, ArtworkPath).Some? ==> r == Lookup(data, ArtworkPath).value
    ensures Lookup(data, ArtworkPath).None? ==> r == JNull
  {
    var spritesData := Get(data.fields, "sprites", EmptyObject);
    var otherData := Get(spritesData.fields, "other", EmptyObject);
    var artworkData := Get(otherData.fields, "official-artwork", EmptyObject);
    LookupStep(data, "sprites", ["other", "official-artwork", "front_default"]);
    LookupStep(spritesData, "other", ["official-artwork", "front_default"]);
    LookupStep(otherData, "official-artwork", ["front_default"]);
    LookupStep(artworkData, "front_default", []);
    Get(artworkData.fields, "front_default", JNull)
  }

  /** A missing `sprites`, `other`, `official-artwork` or `front_default`
      leaves `imagem_url` at `None`, without an error. */
  lemma ImagemUrlAbsent(data: Json)
    requires data.JObject? && ArtworkChain(data.fields)
    ensures "sprites" !in data.fields ==> ImagemUrl(data) == JNull
    ensures "sprites" in data.fields && "other" !in data.fields["sprites"].fields ==> ImagemUrl(data) == JNull
    ensures ("sprites" in data.fields && "other" in data.fields["sprites"].fields
             && "official-artwork" !in data.fields["sprites"].fields["other"].fields)
            ==> ImagemUrl(data) == JNull
    ensures ("sprites" in data.fields && "other" in data.fields["sprites"].fields
             && "official-artwork" in data.fields["sprites"].fields["other"].fields
             && "front_default" !in data.fields["sprites"].fields["other"].fields["official-artwork"].fields)
            ==> ImagemUrl(data) == JNull
  {
  }

  /** `item[outer]['name']`. */
  function RefName(item: Json, outer: string): string
    requires NamedRef(item, outer)
  {
    item.fields[outer].fields["name"].str
  }

  /** `[t[outer]['name'].title() for t in items]`: same length and order as
      `items`, element `i` the title-cased name of `items[i]`. */
  function Names(items: seq<Json>, outer: string): (r: seq<string>)
    requires AllNamedRefs(items, outer)
    ensures |r| == |items|
    ensures forall i :: 0 <= i < |items| ==> r[i] == Title(RefName(items[i], outer))
  {
    if items == [] then []
    else [Title(RefName(items[0], outer))] + Names(items[1..], outer)
  }

  /** `tipos`: one title-cased type name per element of `types`, in order. */
  function Tipos(data: Json): (r: seq<string>)
    requires data.JObject? && NamedList(data.fields, "types", "type")
    ensures |r| == |ListAt(data.fields, "types")|
    ensures forall i :: 0 <= i < |r| ==>
      r[i] == Title(RefName(ListAt(data.fields, "types")[i], "type"))
    ensures "types" !in data.fields ==> r == []
  {
    Names(ListAt(data.fields, "types"), "type")
  }

  /** `habilidades`: one title-cased ability name per element of `abilities`. */
  function Habilidades(data: Json): (r: seq<string>)
    requires data.JObject? && NamedList(data.fields, "abilities", "ability")
    ensures |r| == |ListAt(data.fields, "abilities")|
    ensures forall i :: 0 <= i < |r| ==>
      r[i] == Title(RefName(ListAt(data.fields, "abilities")[i], "ability"))
    ensures "abilities" !in data.fields ==> r == []
  {
    Names(ListAt(data.fields, "abilities"), "ability")
  }

  // ---------------------------------------------------------------------------
  // The stats dictionary

  /** The dictionary key of a stat name: hyphens become spaces, then the result
      is title-cased. It never holds a hyphen. */
  function StatKey(name: string): (r: string)
    ensures |r| == |name|
    ensures '-' !in r
  {
    TitleKeepsNonLetters(ReplaceHyphens(name));
    Title(ReplaceHyphens(name))
  }

  /** `stat_name` for one element of `stats`. */
  function StatKeyOf(item: Json): string
    requires WellFormedStat(item)
  {
    StatKey(RefName(item, "stat"))
  }

  /** `base_stat` for one element of `stats`. */
  function BaseStat(item: Json): Json
    requires WellFormedStat(item)
  {
    item.fields["base_stat"]
  }

  /** The keys the loop computes, one per element of `stats`, in order. */
  function StatKeys(items: seq<Json>): (r: seq<string>)
    requires AllStats(items)
    ensures |r| == |items|
    ensures forall i :: 0 <= i < |items| ==> r[i] == StatKeyOf(items[i])
  {
    if items == [] then [] else StatKeys(items[..|items| - 1]) + [StatKeyOf(items[|items| - 1])]
  }

  /** The dictionary after the loop has inserted every element of `items` into
      an empty dictionary, in order. Its keys are exactly the keys computed
      from `items`, there are at most as many of them as items, and none of
      them holds a hyphen. */
  function StatsFrom(items: seq<Json>): (d: Dict<string, Json>)
    requires AllStats(items)
    ensures Valid(d)
    ensures |d.keys| <= |items|
    ensures forall k :: k in d.values <==> k in StatKeys(items)
  {
    if items == [] then Empty()
    else
      var last := items[|items| - 1];
      Put(StatsFrom(items[..|items| - 1]), StatKeyOf(last), BaseStat(last))
  }

  /** No key of the stats dictionary holds a hyphen. */
  lemma StatKeysHaveNoHyphen(items: seq<Json>)
    requires AllStats(items)
    ensures forall k :: k in StatsFrom(items).values ==> '-' !in k
  {
  }

  /** One more turn of the loop inserts one more element. */
  lemma StatsFromStep(items: seq<Json>, i: nat)
    requires AllStats(items) && i < |items|
    ensures StatsFrom(items[..i + 1]) == Put(StatsFrom(items[..i]), StatKeyOf(items[i]), BaseStat(items[i]))
  {
    assert items[..i + 1][..i] == items[..i];
  }

  /** For a repeated key, the `base_stat` of its last occurrence wins. */
  lemma {:induction false} StatsLastWins(items: seq<Json>)
    requires AllStats(items)
    ensures forall k :: k in StatsFrom(items).values ==>
      StatsFrom(items).values[k] == BaseStat(items[LastIndex(StatKeys(items), k)])
  {
    if items != [] {
      var n := |items| - 1;
      var prefix := items[..n];
      StatsLastWins(prefix);
      var ks := StatKeys(items);
      assert StatKeys(prefix) == ks[..n];
      forall k | k in StatsFrom(items).values
        ensures StatsFrom(items).values[k] == BaseStat(items[LastIndex(ks, k)])
      {
        if k != ks[n] {
          assert k in StatsFrom(prefix).values;
          var j := LastIndex(StatKeys(prefix), k);
          assert LastIndex(ks, k) == j;
        }
      }
    }
  }

  /** Keys stay in the order of their first insertion (Python dictionaries do
      not move a key that is assigned again). */
  lemma {:induction false} StatsFirstInsertionOrder(items: seq<Json>)
    requires AllStats(items)
    ensures InFirstInsertionOrder(StatsFrom(items), StatKeys(items))
  {
    if items != [] {
      var n := |items| - 1;
      var prefix := items[..n];
      StatsFirstInsertionOrder(prefix);
      assert StatKeys(items) == StatKeys(prefix) + [StatKeyOf(items[n])];
      PutKeepsFirstInsertionOrder(StatsFrom(prefix), StatKeys(prefix), StatKeyOf(items[n]), BaseStat(items[n]));
    }
  }

  // ---------------------------------------------------------------------------
  // The entity

  /** A Pokémon as the program builds it: the title-cased name and the detail
      URL at construction, everything else filled in by `DetalhesBusca`.
      `id` and `imagemUrl` hold `JNull` where the program holds `None`. */
  class Pokemon {
    var nome: string
    var url: string
    var id: Json
    var tipos: seq<string>
    var habilidades: seq<string>
    var altura: Option<real>
    var peso: Option<real>
    var imagemUrl: Json
    var stats: Dict<string, Json>

    /** `stats` is a dictionary: its key order lists each key once. */
    ghost predicate Valid()
      reads this
    {
      PyDict.Valid(stats)
    }

    /** `Pokemon(nome, url)`: the name is title-cased, the URL kept verbatim,
        every other field is `None` or empty. */
    constructor (nome: string, url: string)
      ensures this.nome == Title(nome) && this.url == url
      ensures id == JNull && altura == None && peso == None && imagemUrl == JNull
      ensures tipos == [] && habilidades == []
      ensures stats == Empty() && Valid()
    {
      this.nome := Title(nome);
      this.url := url;
      id := JNull;
      tipos := [];
      habilidades := [];
      altura := None;
      peso := None;
      imagemUrl := JNull;
      stats := Empty();
    }

    /** `detalhes_busca()` once the request to `url` has produced `response`.
        On failure an error is reported and no field changes. On success the
        name and URL are kept and every other field is derived from the
        payload alone; in particular `stats` is rebuilt from an empty
        dictionary (see `RebuildStats`), so no key of an earlier fetch survives. */
    method DetalhesBusca(response: Response) returns (errorReported: bool)
      requires Valid()
      requires response.Received? ==> WellFormedDetail(response.body)
      modifies this
      ensures Valid()
      ensures errorReported <==> response.Failed?
      ensures response.Failed? ==> unchanged(this)
      ensures response.Received? ==>
        var data := response.body;
        && nome == old(nome) && url == old(url)
        && id == IdOf(data)
        && altura == Some(Altura(data)) && peso == Some(Peso(data))
        && imagemUrl == ImagemUrl(data)
        && tipos == Tipos(data) && habilidades == Habilidades(data)
        && stats == StatsFrom(ListAt(data.fields, "stats"))
    {
      if response.Failed? {
        errorReported := true;
        return;
      }
      errorReported := false;
      var data := response.body;

      id := IdOf(data);
      altura := Some(Altura(data));
      peso := Some(Peso(data));
      imagemUrl := ImagemUrl(data);
      tipos := Tipos(data);
      habilidades := Habilidades(data);

      RebuildStats(ListAt(data.fields, "stats"));
    }

    /** The tail of `detalhes_busca()`: `stats` is reset to `{}`, then every
        element of `items` is inserted in order under its normalised name. */
    method RebuildStats(items: seq<Json>)
      requires AllStats(items)
      modifies this`stats
      ensures stats == StatsFrom(items)
    {
      stats := Empty();
      for i := 0 to |items|
        invariant stats == StatsFrom(items[..i])
      {
        var stat := items[i];
        var statName := StatKeyOf(stat);
        var baseStat := BaseStat(stat);
        StatsFromStep(items, i);
        stats := Put(stats, statName, baseStat);
      }
      assert items[..|items|] == items;
    }
  }

  // ---------------------------------------------------------------------------
  // The catalogue listing

  /** What `pegar_lista_pokemon()` returns, and whether it reported an error. */
  datatype Listing = Listing(results: Json, errorReported: bool)

  /** `pegar_lista_pokemon()` once the request to `ListingUrl` has produced
      `response`: the payload's `results` verbatim on success; an empty list
      and a reported error on failure. */
  function PegarListaPokemon(response: Response): (r: Listing)
    requires response.Received? ==> response.body.JObject? && "results" in response.body.fields
    ensures r.errorReported <==> response.Failed?
    ensures response.Failed? ==> r.results == JArray([])
    ensures response.Received? ==> r.results == response.body.fields["results"]
  {
    match response
    case Failed => Listing(JArray([]), true)
    case Received(data) => Listing(data.fields["results"], false)
  }
}
