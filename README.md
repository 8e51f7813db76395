# Pokémon store model

A Dafny model of the client-side Pokémon store of a small Vue/Pinia application
(`src/stores/pokemonStore.js`). The store keeps a list of view-model items built from the
records of a public REST API, two loading flags and one error message. It has four actions:

- `fetchPokemons` loads the catalog. It resolves every summary to its detail record and
  replaces the list with the normalised batch, all or nothing.
- `fetchPokemonDetail(id)` normalises one record, with its sprites. It merges the record
  into the entry with that id, if there is one, and returns it or re-raises the error.
- `getPokemonById(id)` is a first-match lookup.
- `updatePokemon(payload)` is a local edit of `name`, `info.height` and `info.weight`.

Modules:

- `Wrappers` (wrappers.dfy): `Option` for a nullable value and `Result` for an awaited
  request that gives a value or throws an error with a message.
- `JsArray` (jsarray.dfy): the JavaScript `map` and `slice(0, n)` on sequences.
- `Pokemon` (pokemon.dfy): the raw API record (only the fields that are read), the `Item`
  view model and the two normalisers. `Normalize` is the object literal of the catalog
  fetch. `NormalizeDetail` is the literal of the detail fetch, which adds `sprites`.
  JavaScript `||` on a nullable URL is `Or`: an absent or empty string is falsy.
- `PokemonList` (pokemonlist.dfy): `findIndex` and `find` by id, the edit (`Edited`,
  `Updated`), the object-spread merge (`Merged`, `Refreshed`) and `Promise.all` (`JoinAll`).
- `Store` (store.dfy): the class `PokemonStore`. It has the four state fields and one method
  per action. The detail and edit methods replace the entry at the index `FindIndex` gives,
  at the same index and with no insertion. Each method's postcondition states the whole new
  state in terms of the functions of `PokemonList`, and the lemmas there state what those functions guarantee.

Network results are parameters. `FetchPokemons` receives the listing response: either its
error, or one `Result` per summary holding that summary's detail response.
`FetchPokemonDetail` receives the single response for the requested id.

Ids are integers. `fetchPokemonDetail` looks the entry up by the *requested* id (line 92),
not by the id of the record that came back, and the model does the same. An item's
`sprites` is `None` while the object has no `sprites` key, which is the case for catalog
items. Because a detail item always has every key, the merge `{...old, ...detail}` always
yields the detail itself (`MergeDetailIsDetail`). So a refresh discards earlier local edits
of that entry (`RefreshDiscardsEdit`).

## Model

| member | source | states |
|---|---|---|
| `JsArray.Map` | src/stores/pokemonStore.js:35-42 | the projection has the input's length and holds, at each index, the projected element at that index |
| `JsArray.Slice` | src/stores/pokemonStore.js:41 | `slice(0, n)` is a prefix of the input of length min(length, n) |
| `Pokemon.InfoOf` | src/stores/pokemonStore.js:32-43 | the `info` record: height and weight copied; type, stat and ability projections pointwise and of the same length; moves are the first min(n, 15) move names in order |
| `Pokemon.Normalize` | src/stores/pokemonStore.js:26-44 | no contract of its own: the catalog item literal; its properties are stated by `InfoOf`, `MovesTruncated`, `ImageFallback`, `ImageNullIff` and `DetailExtendsCatalog` |
| `Pokemon.NormalizeDetail` | src/stores/pokemonStore.js:66-89 | no contract of its own: the detail item literal; its properties are stated by `InfoOf`, `MovesTruncated`, `ImageFallback`, `ImageNullIff` and `DetailExtendsCatalog` |
| `Pokemon.NormalizeAll` | src/stores/pokemonStore.js:23-46 | the catalog has one item per fetched record, the normalisation of that record, in the same order |
| `Pokemon.MovesTruncated` | src/stores/pokemonStore.js:41 | a normalised item keeps at most 15 moves (exactly 15 when the record has that many); they are a prefix of the record's move names; both normalisers agree on them |
| `Pokemon.ImageFallback` | src/stores/pokemonStore.js:29-31 | the image is the official artwork when it is truthy, otherwise the default front sprite; the detail fetch picks the same image |
| `Pokemon.ImageNullIff` | src/stores/pokemonStore.js:29-31 | in both normalisers, the image is null exactly when the artwork is falsy and the front sprite is null |
| `Pokemon.DetailExtendsCatalog` | src/stores/pokemonStore.js:66-89 | the detail item is the catalog item plus a sprites record holding the record's four sprite URLs |
| `Pokemon.CatalogIdsUnique` | src/stores/pokemonStore.js:27 | the catalog's ids are unique exactly when the fetched records' ids are |
| `Pokemon.CatalogMovesBounded` | src/stores/pokemonStore.js:41 | every item of a fetched catalog has at most 15 moves |
| `PokemonList.FindIndex` | src/stores/pokemonStore.js:114 | the result is -1 exactly when no entry has the id; otherwise the entry there has the id and none before it does |
| `PokemonList.Find` | src/stores/pokemonStore.js:109 | `find` returns the entry at the index `findIndex` gives, or nothing when that index is -1 |
| `PokemonList.FindIndexSameIds` | src/stores/pokemonStore.js:92 | two lists with the same ids at every index give the same `findIndex` result |
| `PokemonList.Edited` | src/stores/pokemonStore.js:116-124 | the edited entry takes name, height and weight from the payload and keeps id, image, sprites, types, stats, moves and abilities of the existing entry |
| `PokemonList.Updated` | src/stores/pokemonStore.js:114-125 | no contract of its own: the list after `updatePokemon`; its properties are stated by `UpdateAbsent`, `UpdatePresent`, `UpdateKeepsIds` and `UpdateIdempotent` |
| `PokemonList.UpdateAbsent` | src/stores/pokemonStore.js:114-115 | an edit whose id is in no entry leaves the list unchanged |
| `PokemonList.UpdatePresent` | src/stores/pokemonStore.js:116-124 | an edit of a present id changes only the first entry with that id, and only in its editable fields; the length and all other indices stay the same |
| `PokemonList.UpdateKeepsIds` | src/stores/pokemonStore.js:116-124 | an edit keeps the id at every index, so unique ids stay unique |
| `PokemonList.UpdateIdempotent` | src/stores/pokemonStore.js:113-126 | editing twice with the same payload gives the list that editing once gives |
| `PokemonList.FindAfterUpdate` | src/stores/pokemonStore.js:108-126 | a lookup of the payload's id after an edit finds the edited form of the entry it found before, or still nothing |
| `PokemonList.Merged` | src/stores/pokemonStore.js:94 | no contract of its own: the object spread `{...existing, ...incoming}`; its property is stated by `MergeDetailIsDetail` |
| `PokemonList.MergeDetailIsDetail` | src/stores/pokemonStore.js:94 | spreading a detail item over any entry yields the detail item |
| `PokemonList.Refreshed` | src/stores/pokemonStore.js:92-95 | no contract of its own: the list after a successful `fetchPokemonDetail`; its properties are stated by `RefreshAbsent`, `RefreshPresent` and `FindAfterRefresh` |
| `PokemonList.RefreshAbsent` | src/stores/pokemonStore.js:92-95 | without an entry of the requested id, a detail fetch inserts nothing and leaves the list unchanged |
| `PokemonList.RefreshPresent` | src/stores/pokemonStore.js:92-95 | with such an entry, only the first one is replaced, by its merge with the detail; the length and all other indices stay the same |
| `PokemonList.FindAfterRefresh` | src/stores/pokemonStore.js:92-97 | when the record has the requested id, a later lookup by that id finds the detail item if the entry existed, and unique ids stay unique |
| `PokemonList.RefreshDiscardsEdit` | src/stores/pokemonStore.js:94 | a detail refresh of an edited entry gives the same list as a refresh without the edit |
| `PokemonList.ActionsKeepMovesBounded` | src/stores/pokemonStore.js:87 | edits and detail refreshes keep every entry at 15 moves or fewer |
| `PokemonList.JoinAll` | src/stores/pokemonStore.js:23-24 | `Promise.all` succeeds exactly when every request succeeded, with their values in order; otherwise it fails with the error of one failed request |
| `PokemonList.CatalogBatch` | src/stores/pokemonStore.js:18-25 | the catalog batch fails when the listing fails, with the listing's message, or when any detail request fails, with the message of a failed detail request; on success it holds every detail record in the listing's order |
| `Store.PokemonStore.constructor` | src/stores/pokemonStore.js:6-11 | the initial state: an empty list, no error, both flags false |
| `Store.PokemonStore.FetchPokemons` | src/stores/pokemonStore.js:14-53 | on success the list is the normalised batch and the error is null; on any failure the list is unchanged and the error is the message; loading ends false |
| `Store.PokemonStore.FetchPokemonDetail` | src/stores/pokemonStore.js:56-105 | on success it returns the normalised detail, merges it into the first entry of the requested id without insertion, and clears the error; on failure it records and returns the error with the list unchanged; detailLoading ends false |
| `Store.PokemonStore.GetPokemonById` | src/stores/pokemonStore.js:108-110 | nothing exactly when no entry has the id; otherwise the first entry with that id |
| `Store.PokemonStore.UpdatePokemon` | src/stores/pokemonStore.js:113-126 | the list becomes the edited list; the flags and the error are unchanged |
| `Store.UpdateTwice` | src/stores/pokemonStore.js:113-126 | two calls of `updatePokemon` with one payload leave the store as a single call does |

## Left out

- HTTP: the axios requests and their URLs (lines 18-20, 25, 60-62) are not modelled. Their outcomes are the `listing` and `response` parameters.
- Concurrency: `Promise.all` is modelled as all-succeed-or-one-fails over the sequence of responses. Overlapping calls, and their last-writer-wins race on the list, are not modelled. Nor are the intermediate states visible while a request is pending: `loading` or `detailLoading` true, and the error cleared.
- JoinAll: JavaScript reports the rejection that settles first in time. The model reports the first failure in list order, and its contract promises only that the message is the message of some failed request.
- Malformed records, missing containers: when `data`, `sprites`, `sprites.other`, `other['official-artwork']`, one of the four arrays, or an element's `type`, `stat`, `move` or `ability` is missing, normalisation throws a TypeError (lines 27-42, 67-88). That error is caught like a request failure, so the failure inputs cover it.
- Malformed records, missing leaves: a missing `id`, `name`, `height`, `weight`, `base_stat` or reference `name` does not throw. The item is stored with `undefined` in that field, and an item whose `id` is `undefined` is never matched at lines 92 and 109; at line 114 it is matched by a payload that also has no `id`. The typed raw record always has every leaf, so the model cannot express such items.
- `parseInt` on the id argument (lines 92, 109): ids are integers. `updatePokemon` compares the payload's id with strict equality and no `parseInt` (line 114). A payload whose id is a string would match no entry, and the model cannot express that.
- Edit error paths: the payload is a typed `Item`, so two error paths of `updatePokemon` are not modelled. With a present id and a null or undefined `payload.info`, it throws a TypeError at line 121. With a null payload and a non-empty list, it throws at line 114. A payload missing `name`, `info.height` or `info.weight` does not throw: it writes `undefined` into that field, and the typed payload cannot express this.
- Value types: `height`, `weight` and `base_stat` are integers. An edit payload holding a string height is not modelled.
- The error object: only its `message` is kept, as a string. `console.error` logging, Pinia `defineStore` and reactivity (lines 1, 5) are not modelled.
- Aliasing: the source mutates the array object itself at lines 94 and 116, so any holder of that array sees the change, while `fetchPokemons` rebinds the field to a new array (line 23). The model holds the list as a value, assigns a new sequence in every case, and does not capture this difference.
- Key order: the two normalisers build objects with the same keys in different orders (`abilities` before `stats` and `moves`, and `sprites` before `info`, at lines 66-89, against lines 26-44). The model identifies them field by field through the shared `InfoOf` and `ImageOf`. Key order is visible to `Object.keys` and `JSON.stringify`, but nothing in the store reads it.
- `src/router/index.js` is route configuration and is not part of this model.
