/** Operations on the store's list of items: the `findIndex` and `find` scans, the local
    edit, the detail merge, and the all-or-nothing join of the catalog's requests. */
module PokemonList {
  import opened Wrappers
  import opened Pokemon

  // ---- Lookup ----

  /** `findIndex(p => p.id === id)`: the first index holding that id, or -1. */
  function FindIndex(s: seq<Item>, id: int): (k: int)
    ensures -1 <= k < |s|
    ensures k == -1 <==> forall j :: 0 <= j < |s| ==> s[j].id != id
    ensures k != -1 ==> s[k].id == id && forall j :: 0 <= j < k ==> s[j].id != id
    decreases |s|
  {
    if s == [] then -1
    else if s[0].id == id then 0
    else
      var k := FindIndex(s[1..], id);
      if k == -1 then -1 else k + 1
  }

  /** `find(p => p.id === id)`: the first item holding that id, or nothing. */
  function Find(s: seq<Item>, id: int): (r: Option<Item>)
    ensures r == if FindIndex(s, id) == -1 then None else Some(s[FindIndex(s, id)])
    decreases |s|
  {
    if s == [] then None
    else if s[0].id == id then Some(s[0])
    else Find(s[1..], id)
  }

  /** Two lists of the same length with the same id at every index. */
  predicate SameIds(s: seq<Item>, t: seq<Item>)
  {
    |s| == |t| && forall j :: 0 <= j < |s| ==> s[j].id == t[j].id
  }

  /** A scan by id only sees the ids. */
  lemma FindIndexSameIds(s: seq<Item>, t: seq<Item>, id: int)
    requires SameIds(s, t)
    ensures FindIndex(s, id) == FindIndex(t, id)
  {
  }

  // ---- The local edit (`updatePokemon`) ----

  /** The fields a local edit may never change. */
  predicate SameReadOnlyFields(a: Item, b: Item)
  {
    && a.id == b.id
    && a.image == b.image
    && a.sprites == b.sprites
    && a.info.types == b.info.types
    && a.info.stats == b.info.stats
    && a.info.moves == b.info.moves
    && a.info.abilities == b.info.abilities
  }

  /** The existing entry with `name`, `info.height` and `info.weight` taken from the payload. */
  function Edited(existing: Item, payload: Item): (r: Item)
    ensures SameReadOnlyFields(existing, r)
    ensures r.name == payload.name
    ensures r.info.height == payload.info.height && r.info.weight == payload.info.weight
  {
    existing.(name := payload.name,
              info := existing.info.(height := payload.info.height, weight := payload.info.weight))
  }

  /** The list after `updatePokemon(payload)`. */
  function Updated(s: seq<Item>, payload: Item): seq<Item>
  {
    var k := FindIndex(s, payload.id);
    if k == -1 then s else s[k := Edited(s[k], payload)]
  }

  /** An edit of an id the list does not hold changes nothing. */
  lemma UpdateAbsent(s: seq<Item>, payload: Item)
    requires forall j :: 0 <= j < |s| ==> s[j].id != payload.id
    ensures Updated(s, payload) == s
  {
  }

  /** An edit of a present id rewrites only its first entry, and in it only the editable
      fields; the length and every other index stay as they were. */
  lemma UpdatePresent(s: seq<Item>, payload: Item, k: nat)
    requires k < |s| && s[k].id == payload.id
    requires forall j :: 0 <= j < k ==> s[j].id != payload.id
    ensures |Updated(s, payload)| == |s|
    ensures Updated(s, payload)[k].name == payload.name
    ensures Updated(s, payload)[k].info.height == payload.info.height
    ensures Updated(s, payload)[k].info.weight == payload.info.weight
    ensures SameReadOnlyFields(s[k], Updated(s, payload)[k])
    ensures forall j :: 0 <= j < |s| && j != k ==> Updated(s, payload)[j] == s[j]
  {
  }

  /** An edit keeps the id at every index. */
  lemma UpdateKeepsIds(s: seq<Item>, payload: Item)
    ensures SameIds(s, Updated(s, payload))
    ensures UniqueIds(s) ==> UniqueIds(Updated(s, payload))
  {
  }

  /** Editing twice with the same payload is editing once. */
  lemma UpdateIdempotent(s: seq<Item>, payload: Item)
    ensures Updated(Updated(s, payload), payload) == Updated(s, payload)
  {
    UpdateKeepsIds(s, payload);
    FindIndexSameIds(s, Updated(s, payload), payload.id);
  }

  /** A lookup after an edit finds the edited entry. */
  lemma FindAfterUpdate(s: seq<Item>, payload: Item)
    ensures Find(Updated(s, payload), payload.id) ==
              match Find(s, payload.id)
              case None => None
              case Some(e) => Some(Edited(e, payload))
  {
    UpdateKeepsIds(s, payload);
    FindIndexSameIds(s, Updated(s, payload), payload.id);
  }

  // ---- The detail merge (`fetchPokemonDetail`) ----

  /** `{ ...existing, ...incoming }`: every key of the incoming object wins; `sprites` is the
      only key an item may lack, so it is the only one the existing entry can contribute. */
  function Merged(existing: Item, incoming: Item): Item
  {
    incoming.(sprites := if incoming.sprites.Some? then incoming.sprites else existing.sprites)
  }

  /** A detail item carries every key, so merging it into an entry just yields the detail. */
  lemma MergeDetailIsDetail(existing: Item, raw: RawRecord)
    ensures Merged(existing, NormalizeDetail(raw)) == NormalizeDetail(raw)
  {
  }

  /** The list after a successful `fetchPokemonDetail(id)` that built `detail`: the first
      entry with the requested id is merged with the detail; nothing is inserted. */
  function Refreshed(s: seq<Item>, id: int, detail: Item): seq<Item>
  {
    var k := FindIndex(s, id);
    if k == -1 then s else s[k := Merged(s[k], detail)]
  }

  /** Without an entry of that id, a refresh leaves the list as it was (no insertion). */
  lemma RefreshAbsent(s: seq<Item>, id: int, detail: Item)
    requires forall j :: 0 <= j < |s| ==> s[j].id != id
    ensures Refreshed(s, id, detail) == s
  {
  }

  /** With an entry of that id, a refresh replaces the first such entry by the merge and
      keeps the length and every other index. */
  lemma RefreshPresent(s: seq<Item>, id: int, detail: Item, k: nat)
    requires k < |s| && s[k].id == id
    requires forall j :: 0 <= j < k ==> s[j].id != id
    ensures |Refreshed(s, id, detail)| == |s|
    ensures Refreshed(s, id, detail)[k] == Merged(s[k], detail)
    ensures forall j :: 0 <= j < |s| && j != k ==> Refreshed(s, id, detail)[j] == s[j]
  {
  }

  /** When the record fetched for `id` has that id, a lookup after the refresh finds the
      detail item, and the list's ids stay unique. */
  lemma FindAfterRefresh(s: seq<Item>, raw: RawRecord)
    ensures Find(Refreshed(s, raw.id, NormalizeDetail(raw)), raw.id) ==
              if Find(s, raw.id).None? then None else Some(NormalizeDetail(raw))
    ensures UniqueIds(s) ==> UniqueIds(Refreshed(s, raw.id, NormalizeDetail(raw)))
  {
  }

  /** A refresh overwrites the local edits of the entry it replaces: editing and then
      refreshing the same id gives the same list as refreshing alone. */
  lemma RefreshDiscardsEdit(s: seq<Item>, payload: Item, raw: RawRecord)
    ensures Refreshed(Updated(s, payload), payload.id, NormalizeDetail(raw)) ==
            Refreshed(s, payload.id, NormalizeDetail(raw))
  {
    UpdateKeepsIds(s, payload);
    FindIndexSameIds(s, Updated(s, payload), payload.id);
  }

  /** Neither an edit nor a detail refresh can break the move bound of the list. */
  lemma ActionsKeepMovesBounded(s: seq<Item>, payload: Item, id: int, raw: RawRecord)
    requires MovesBounded(s)
    ensures MovesBounded(Updated(s, payload))
    ensures MovesBounded(Refreshed(s, id, NormalizeDetail(raw)))
  {
  }

  // ---- `Promise.all` over the catalog's per-record requests ----

  /** All values in order when every request succeeded; otherwise the error of a request
      that failed. */
  function JoinAll<T>(rs: seq<Result<T>>): (r: Result<seq<T>>)
    ensures r.Ok? <==> forall i :: 0 <= i < |rs| ==> rs[i].Ok?
    ensures r.Ok? ==> |r.value| == |rs| && forall i :: 0 <= i < |rs| ==> r.value[i] == rs[i].value
    ensures r.Err? ==> exists i :: 0 <= i < |rs| && rs[i] == Err(r.message)
    decreases |rs|
  {
    if rs == [] then Ok([])
    else match rs[0]
      case Err(m) => Err(m)
      case Ok(v) =>
        match JoinAll(rs[1..])
        case Err(m) =>
          assert exists i :: 0 <= i < |rs| - 1 && rs[1..][i] == Err(m);
          var i :| 0 <= i < |rs| - 1 && rs[1..][i] == Err(m);
          assert rs[i + 1] == Err(m);
          Err(m)
        case Ok(vs) => Ok([v] + vs)
  }

  /** The batch a catalog fetch receives: the listing request, then one request per summary. */
  function CatalogBatch(listing: Result<seq<Result<RawRecord>>>): (r: Result<seq<RawRecord>>)
    ensures listing.Err? ==> r == Err(listing.message)
    ensures r.Ok? <==> listing.Ok? && forall i :: 0 <= i < |listing.value| ==> listing.value[i].Ok?
    ensures r.Ok? ==> |r.value| == |listing.value| &&
                      forall i :: 0 <= i < |r.value| ==> listing.value[i] == Ok(r.value[i])
    ensures listing.Ok? && r.Err? ==>
              exists i :: 0 <= i < |listing.value| && listing.value[i] == Err(r.message)
  {
    match listing
    case Err(m) => Err(m)
    case Ok(details) => JoinAll(details)
  }
}
