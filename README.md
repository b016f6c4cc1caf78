# Pokédex core in Dafny

A verified model of the data core of a small Streamlit Pokédex built on the
PokéAPI. The application lists the first 151 Pokémon, lets the user pick one,
fetches that Pokémon's detail payload and normalises it into a `Pokemon`
object: a title-cased name, the detail URL, the Pokédex id, height and weight
converted to metres and kilograms, the official artwork URL, title-cased type
and ability names, and a dictionary of base stats keyed by a normalised stat
name.

The model has five modules:

- `Wrappers` (`wrappers.dfy`): `Option`, for fields that start as `None`.
- `Json` (`json.dfy`): the parsed JSON value (`JNull`, `JBool`, `JNum`,
  `JString`, `JArray`, `JObject` over a map), Python's `dict.get` and a
  reference `Lookup` along a path of keys.
- `Text` (`text.dfy`): Python's `str.title()` and `str.replace('-', ' ')` on
  ASCII strings.
- `PyDict` (`dict.dfy`): a Python dictionary as a map plus the
  insertion-ordered key sequence, with `d[k] = v` as `Put`.
- `Pokedex` (`pokedex.dfy`): the `Pokemon` class (constructor, `DetalhesBusca`,
  the stats loop `RebuildStats`), the pure field extractions, the stats
  dictionary as a function of the payload, and the listing choice
  `PegarListaPokemon`.

The network is not modelled: `requests.get`, `raise_for_status()` and
`response.json()` are replaced by an input `Response`, either `Failed` (one of
them raised a `RequestException`) or `Received(body)` with the parsed JSON.
`st.error` is modelled as a returned `errorReported` flag. Python's `None` in
the `id` and `imagem_url` fields is `JNull`, the value a JSON `null` parses to.
`altura` and `peso` are `Option<real>`: `None` before a successful fetch, an
exact quotient after it.

Where the design description and the code differ, the model follows the code:

- The description says title-casing capitalises the first letter of each
  whitespace-separated word. The code calls `str.title()`. That method treats
  every non-letter as a word boundary and lower-cases every other letter, so
  `"lightning-rod"` becomes `"Lightning-Rod"` and `"1st"` becomes `"1St"`.
- The description leaves open whether a repeated stat name keeps its first or
  its last position. The code assigns into a Python dictionary, so the last
  value wins and the key keeps the position of its first insertion.
  `StatsLastWins` and `StatsFirstInsertionOrder` state this.
- The description says a body that is not the expected JSON is reported as a
  processing failure. In the code, a body that does not parse raises the
  requests library's `JSONDecodeError`, a subclass of `RequestException`
  since requests 2.27. It therefore takes the same branch as a network failure
  and nothing is assigned. A body that parses but has the wrong shape raises
  an uncaught `KeyError`, `TypeError` or `AttributeError`. The model excludes
  such bodies by a precondition (`WellFormedDetail`).
- The description says a listing with a malformed body yields an empty list.
  In the code, a body without `results` raises an uncaught `KeyError` at line
  60. `PegarListaPokemon` requires `results` to be present.

## Model

| member | source | states |
|---|---|---|
| `Text.Title` | pokedex_app.py:10 | `str.title()` keeps the length; character i is upper-cased exactly when it is the first character or follows a non-letter, and lower-cased otherwise |
| `Text.TitleKeepsNonLetters` | pokedex_app.py:45 | title-casing leaves every non-letter, hyphens and spaces included, where and as it was, and keeps letters letters |
| `Text.TitleIdempotent` | pokedex_app.py:10 | title-casing an already title-cased name changes nothing |
| `Text.ReplaceHyphens` | pokedex_app.py:45 | `replace('-', ' ')` keeps the length, turns each hyphen into a space, keeps every other character, and leaves no hyphen |
| `PyDict.Empty` | pokedex_app.py:43 | `{}` has no keys and is a well-formed dictionary |
| `PyDict.Put` | pokedex_app.py:47 | `d[k] = v` maps `k` to `v` and keeps every other entry; a new key is appended to the key order and an existing key keeps its place |
| `PyDict.PutKeepsFirstInsertionOrder` | pokedex_app.py:47 | after any sequence of assignments the dictionary holds exactly the assigned keys, each once, ordered by first assignment; one more assignment preserves this |
| `Pokedex.IdOf` | pokedex_app.py:30 | `id` is the payload's `id` when present and `None` when absent |
| `Pokedex.Altura` | pokedex_app.py:31 | `altura` times 10 is the payload's `height`, and `altura` is 0 when `height` is absent |
| `Pokedex.Peso` | pokedex_app.py:32 | `peso` times 10 is the payload's `weight`, and `peso` is 0 when `weight` is absent |
| `Pokedex.ImagemUrl` | pokedex_app.py:34-37 | the chain of `.get(key, {})` calls yields the value at `sprites.other.official-artwork.front_default` when every step exists, and `None` otherwise |
| `Pokedex.ImagemUrlAbsent` | pokedex_app.py:34-37 | a missing `sprites`, `other`, `official-artwork` or `front_default` each leaves `imagem_url` at `None` |
| `Pokedex.Names` | pokedex_app.py:40-41 | the comprehension keeps length and order; element i is the title-cased `name` of element i |
| `Pokedex.Tipos` | pokedex_app.py:40 | `tipos` has one entry per element of `types`, in order, each the title-cased `type.name`; empty when `types` is absent |
| `Pokedex.Habilidades` | pokedex_app.py:41 | `habilidades` has one entry per element of `abilities`, in order, each the title-cased `ability.name`; empty when `abilities` is absent |
| `Pokedex.StatKey` | pokedex_app.py:45 | a normalised stat name has the length of the raw name and holds no hyphen |
| `Pokedex.StatsFrom` | pokedex_app.py:43-47 | the dictionary built from `{}` by the loop is well formed, its keys are exactly the normalised names of the payload's stats, and it has at most one key per stat |
| `Pokedex.StatKeysHaveNoHyphen` | pokedex_app.py:45-47 | no key of `stats` holds a hyphen |
| `Pokedex.StatsLastWins` | pokedex_app.py:44-47 | for each key, the stored value is the `base_stat` of the last stat with that normalised name |
| `Pokedex.StatsFirstInsertionOrder` | pokedex_app.py:44-47 | the keys of `stats` are ordered by the first stat that produced each of them |
| `Pokedex.Pokemon.constructor` | pokedex_app.py:9-19 | `nome` is the title-cased name, `url` is stored verbatim, `id`, `altura`, `peso` and `imagem_url` are `None`, `tipos`, `habilidades` and `stats` are empty |
| `Pokedex.Pokemon.DetalhesBusca` | pokedex_app.py:24-50 | a failed request reports an error and changes no field; a received payload reports nothing, keeps `nome` and `url`, and sets every other field to its extraction from that payload alone |
| `Pokedex.Pokemon.RebuildStats` | pokedex_app.py:43-47 | the loop resets `stats` to `{}` and leaves it equal to the dictionary built from the stats list, whatever it held before |
| `Pokedex.PegarListaPokemon` | pokedex_app.py:54-64 | a failed request yields an empty list and a reported error; a received body yields its `results` verbatim and no error |

## Left out

- Network I/O (`requests.get`, `raise_for_status`, `response.json()`): replaced by the `Response` input. The model does not relate the response to the URL it was fetched from.
- Streamlit reporting (`st.error`): modelled only as the `errorReported` flag; the message text is not modelled.
- The `@st.cache_data` memoisation of the listing: the model has no cache.
- The user interface from line 66 onward (page setup, selectbox, index lookup, columns, progress bars): presentation only.
- The listing's length bound and the shape of its entries: these depend on the upstream API, and the code passes `results` through unchecked.
- Floating-point division by 10: the model divides exactly over `real`.
- JSON numbers are exact reals: the model does not tell integers from floats, and Python's booleans-as-integers (`true / 10`) are excluded.
- Non-ASCII characters: the model treats them as uncased and leaves them unchanged, where Python's `str.title()` would case-map them.
- Malformed payloads: elements without `type`, `ability`, `stat` or `base_stat`, a `null` or non-object `sprites`, a `null` height. These raise uncaught exceptions after some fields are assigned. `WellFormedDetail` excludes them, so the partial assignment is not modelled.
- Pokedex.PegarListaPokemon: requires `results` to be present, because the code raises an uncaught `KeyError` without it.
- Dictionary identity: `stats` is a value that the loop reassigns. Aliasing of the dictionary object is not modelled; line 43 creates a fresh one anyway.
- The stats loop of lines 43-47 sits in its own method, `RebuildStats`, which `DetalhesBusca` calls at the point where the code runs the loop. The assignments and their order are those of the code.
