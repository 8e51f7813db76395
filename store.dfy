/** The store: the list of items, the two loading flags and the last error message, with
    its four actions. Each remote request is a parameter carrying what the awaited call
    produced. */
module Store {
  import opened Wrappers
  import opened Pokemon
  import opened PokemonList

  class PokemonStore {
    var pokemons: seq<Item>
    var loading: bool
    var error: Option<string>
    var detailLoading: bool

    /** The initial state: an empty list, no error, neither flag set. */
    constructor ()
      ensures pokemons == [] && !loading && error == None && !detailLoading
    {
      pokemons := [];
      loading := false;
      error := None;
      detailLoading := false;
    }

    /** `fetchPokemons()`, given the listing response and each summary's detail response.
        The list is replaced by the whole normalised batch, in order, or left as it was when
        any request failed; the error is that request's message, or cleared. */
    method FetchPokemons(listing: Result<seq<Result<RawRecord>>>)
      modifies this
      ensures !loading && detailLoading == old(detailLoading)
      ensures CatalogBatch(listing).Ok? ==>
                pokemons == NormalizeAll(CatalogBatch(listing).value) && error == None
      ensures CatalogBatch(listing).Err? ==>
                pokemons == old(pokemons) && error == Some(CatalogBatch(listing).message)
    {
      loading := true;
      error := None;
      var batch := CatalogBatch(listing);
      match batch {
        case Ok(raws) =>
          pokemons := NormalizeAll(raws);
        case Err(m) =>
          error := Some(m);
      }
      loading := false;
    }

    /** `fetchPokemonDetail(id)`, given the response for that id. On success the detail item
        is returned and merged into the first entry with the requested id, if any; nothing
        is inserted. On failure the message is recorded and returned as the error. */
    method FetchPokemonDetail(id: int, response: Result<RawRecord>) returns (r: Result<Item>)
      modifies this
      ensures !detailLoading && loading == old(loading)
      ensures response.Ok? ==>
                && r == Ok(NormalizeDetail(response.value))
                && pokemons == Refreshed(old(pokemons), id, NormalizeDetail(response.value))
                && error == None
      ensures response.Err? ==>
                && r == Err(response.message)
                && pokemons == old(pokemons)
                && error == Some(response.message)
    {
      detailLoading := true;
      error := None;
      match response {
        case Ok(data) =>
          var detail := NormalizeDetail(data);
          var index := FindIndex(pokemons, id);
          if index != -1 {
            pokemons := pokemons[index := Merged(pokemons[index], detail)];
          }
          r := Ok(detail);
        case Err(m) =>
          error := Some(m);
          r := Err(m);
      }
      detailLoading := false;
    }

    /** `getPokemonById(id)`: the first entry with that id, or nothing when there is none. */
    function GetPokemonById(id: int): (r: Option<Item>)
      reads this
      ensures r.None? <==> forall j :: 0 <= j < |pokemons| ==> pokemons[j].id != id
      ensures r.Some? ==> exists k :: 0 <= k < |pokemons| && pokemons[k] == r.value && r.value.id == id
                                      && forall j :: 0 <= j < k ==> pokemons[j].id != id
    {
      Find(pokemons, id)
    }

    /** `updatePokemon(payload)`: the first entry with the payload's id takes the payload's
        name, height and weight and keeps everything else; without such an entry nothing
        changes. */
    method UpdatePokemon(payload: Item)
      modifies this
      ensures pokemons == Updated(old(pokemons), payload)
      ensures loading == old(loading) && detailLoading == old(detailLoading) && error == old(error)
    {
      var index := FindIndex(pokemons, payload.id);
      if index != -1 {
        pokemons := pokemons[index := Edited(pokemons[index], payload)];
      }
    }
  }

  /** A second identical edit leaves the store as the first one left it. */
  method UpdateTwice(store: PokemonStore, payload: Item)
    modifies store
    ensures store.pokemons == Updated(old(store.pokemons), payload)
    ensures store.loading == old(store.loading) && store.error == old(store.error)
    ensures store.detailLoading == old(store.detailLoading)
  {
    store.UpdatePokemon(payload);
    store.UpdatePokemon(payload);
    UpdateIdempotent(old(store.pokemons), payload);
  }
}
