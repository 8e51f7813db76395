/** The raw detail record the remote API returns, the view-model item the store keeps,
    and the two normalisers that turn the first into the second. */
module Pokemon {
  import opened Wrappers
  import opened JsArray

  /** How many move names a normalised item keeps (`slice(0, 15)`). */
  const MaxMoves: nat := 15

  // ---- The raw record (only the fields the normalisers read) ----

  /** A named API resource `{ name, url }`; the url is never read. */
  datatype NamedRef = NamedRef(name: string)

  /** `types[i]`: the `type` reference of one type slot. */
  datatype RawType = RawType(kind: NamedRef)

  /** `stats[i]`: the `stat` reference and its `base_stat`. */
  datatype RawStat = RawStat(stat: NamedRef, baseStat: int)

  /** `moves[i]`: the `move` reference. */
  datatype RawMove = RawMove(move: NamedRef)

  /** `abilities[i]`: the `ability` reference. */
  datatype RawAbility = RawAbility(ability: NamedRef)

  /** `sprites`, with `other['official-artwork'].front_default` as `artworkFrontDefault`.
      Each URL may be null. */
  datatype RawSprites = RawSprites(
    frontDefault: Option<string>,
    backDefault: Option<string>,
    frontShiny: Option<string>,
    backShiny: Option<string>,
    artworkFrontDefault: Option<string>)

  datatype RawRecord = RawRecord(
    id: int,
    name: string,
    height: int,
    weight: int,
    sprites: RawSprites,
    types: seq<RawType>,
    stats: seq<RawStat>,
    moves: seq<RawMove>,
    abilities: seq<RawAbility>)

  // ---- The view model ----

  datatype Stat = Stat(name: string, value: int)

  datatype Info = Info(
    height: int,
    weight: int,
    types: seq<string>,
    stats: seq<Stat>,
    moves: seq<string>,
    abilities: seq<string>)

  /** The four sprite URLs the detail view shows. */
  datatype Sprites = Sprites(
    frontDefault: Option<string>,
    backDefault: Option<string>,
    frontShiny: Option<string>,
    backShiny: Option<string>)

  /** An item of the store's list. `sprites` is None while the object has no `sprites`
      key, as for items built by the catalog fetch. */
  datatype Item = Item(
    id: int,
    name: string,
    image: Option<string>,
    info: Info,
    sprites: Option<Sprites>)

  // ---- Projections of the raw sequences ----

  function TypeNames(ts: seq<RawType>): seq<string>
  {
    Map((t: RawType) => t.kind.name, ts)
  }

  function StatPairs(ss: seq<RawStat>): seq<Stat>
  {
    Map((s: RawStat) => Stat(s.stat.name, s.baseStat), ss)
  }

  function MoveNames(ms: seq<RawMove>): seq<string>
  {
    Map((m: RawMove) => m.move.name, ms)
  }

  function AbilityNames(abs: seq<RawAbility>): seq<string>
  {
    Map((a: RawAbility) => a.ability.name, abs)
  }

  // ---- JavaScript truthiness and `||` on a nullable string ----

  /** A nullable string is falsy when it is null/undefined or empty. */
  predicate Truthy(s: Option<string>)
  {
    s.Some? && s.value != ""
  }

  /** `a || b`: the left operand when it is truthy, else the right one. */
  function Or(a: Option<string>, b: Option<string>): Option<string>
  {
    if Truthy(a) then a else b
  }

  /** The item image: the official artwork, falling back to the default front sprite. */
  function ImageOf(sp: RawSprites): Option<string>
  {
    Or(sp.artworkFrontDefault, sp.frontDefault)
  }

  /** The `info` object both normalisers build. */
  function InfoOf(raw: RawRecord): (info: Info)
    ensures info.height == raw.height && info.weight == raw.weight
    ensures |info.types| == |raw.types|
    ensures forall i :: 0 <= i < |raw.types| ==> info.types[i] == raw.types[i].kind.name
    ensures |info.stats| == |raw.stats|
    ensures forall i :: 0 <= i < |raw.stats| ==>
              info.stats[i] == Stat(raw.stats[i].stat.name, raw.stats[i].baseStat)
    ensures |info.abilities| == |raw.abilities|
    ensures forall i :: 0 <= i < |raw.abilities| ==> info.abilities[i] == raw.abilities[i].ability.name
    ensures |info.moves| == Min(|raw.moves|, MaxMoves)
    ensures forall i :: 0 <= i < |info.moves| ==> info.moves[i] == raw.moves[i].move.name
  {
    Info(raw.height, raw.weight, TypeNames(raw.types), StatPairs(raw.stats),
         Slice(MoveNames(raw.moves), MaxMoves), AbilityNames(raw.abilities))
  }

  /** The item the catalog fetch builds from one detail record. */
  function Normalize(raw: RawRecord): Item
  {
    Item(raw.id, raw.name, ImageOf(raw.sprites), InfoOf(raw), None)
  }

  /** The item the detail fetch builds: the catalog fields plus the four sprite URLs. */
  function NormalizeDetail(raw: RawRecord): Item
  {
    Item(raw.id, raw.name, ImageOf(raw.sprites), InfoOf(raw),
         Some(Sprites(raw.sprites.frontDefault, raw.sprites.backDefault,
                      raw.sprites.frontShiny, raw.sprites.backShiny)))
  }

  /** The catalog: every record normalised, in the order of the results. */
  function NormalizeAll(raws: seq<RawRecord>): (items: seq<Item>)
    ensures |items| == |raws|
    ensures forall i :: 0 <= i < |raws| ==> items[i] == Normalize(raws[i])
  {
    Map(Normalize, raws)
  }

  // ---- Properties of the normalisers ----

  /** Both normalisers keep at most 15 moves, and those are the first move names of the
      record, in order. */
  lemma MovesTruncated(raw: RawRecord)
    ensures |Normalize(raw).info.moves| <= MaxMoves
    ensures Normalize(raw).info.moves <= MoveNames(raw.moves)
    ensures |raw.moves| >= MaxMoves ==> |Normalize(raw).info.moves| == MaxMoves
    ensures NormalizeDetail(raw).info.moves == Normalize(raw).info.moves
  {
  }

  /** The image is the artwork when that is truthy, and the default front sprite otherwise. */
  lemma ImageFallback(raw: RawRecord)
    ensures Truthy(raw.sprites.artworkFrontDefault) ==>
              Normalize(raw).image == raw.sprites.artworkFrontDefault
    ensures !Truthy(raw.sprites.artworkFrontDefault) ==>
              Normalize(raw).image == raw.sprites.frontDefault
    ensures NormalizeDetail(raw).image == Normalize(raw).image
  {
  }

  /** The image is null exactly when the artwork is falsy and the front sprite is null:
      a non-null front sprite, or a truthy artwork, always gives an image. */
  lemma ImageNullIff(raw: RawRecord)
    ensures Normalize(raw).image == None <==>
              !Truthy(raw.sprites.artworkFrontDefault) && raw.sprites.frontDefault == None
    ensures NormalizeDetail(raw).image == None <==>
              !Truthy(raw.sprites.artworkFrontDefault) && raw.sprites.frontDefault == None
  {
  }

  /** The detail item is the catalog item with the sprites record added. */
  lemma DetailExtendsCatalog(raw: RawRecord)
    ensures NormalizeDetail(raw).sprites.Some?
    ensures NormalizeDetail(raw).(sprites := None) == Normalize(raw)
    ensures NormalizeDetail(raw).sprites.value.frontDefault == raw.sprites.frontDefault
    ensures NormalizeDetail(raw).sprites.value.backDefault == raw.sprites.backDefault
    ensures NormalizeDetail(raw).sprites.value.frontShiny == raw.sprites.frontShiny
    ensures NormalizeDetail(raw).sprites.value.backShiny == raw.sprites.backShiny
  {
  }

  /** No two items of the list share an id. */
  predicate UniqueIds(items: seq<Item>)
  {
    forall i, j :: 0 <= i < j < |items| ==> items[i].id != items[j].id
  }

  /** Normalisation keeps the record's id, so the catalog has unique ids exactly when the
      fetched records do. */
  lemma CatalogIdsUnique(raws: seq<RawRecord>)
    ensures UniqueIds(NormalizeAll(raws)) <==>
              (forall i, j :: 0 <= i < j < |raws| ==> raws[i].id != raws[j].id)
  {
  }

  /** Every item of the list keeps at most 15 moves. */
  predicate MovesBounded(items: seq<Item>)
  {
    forall i :: 0 <= i < |items| ==> |items[i].info.moves| <= MaxMoves
  }

  /** A freshly normalised catalog respects the move bound. */
  lemma CatalogMovesBounded(raws: seq<RawRecord>)
    ensures MovesBounded(NormalizeAll(raws))
  {
  }
}
