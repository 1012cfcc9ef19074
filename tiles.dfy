/** Tiles of the 2048 board: a numbered value, the visual annotation the
    last move left on it, and the cell it occupied before that move. */
module Tiles {

  datatype Option<+T> = None | Some(value: T)

  /** How the presentation layer should mark a tile after the last move. */
  datatype TileState = New | Static | Merged

  datatype Tile = Tile(value: nat, state: TileState, prevPos: Option<nat>)

  /** A freshly spawned tile: annotated New, with no previous position. */
  function NewTile(value: nat): (t: Tile)
    ensures t.value == value && t.state == New && t.prevPos == None
  {
    Tile(value, New, None)
  }

  /** `Tile::update`: replaces value and annotation and leaves the
      previous position alone. */
  function Update(t: Tile, value: nat, state: TileState): Tile
  {
    t.(value := value, state := state)
  }

  /** Tile equality as the game uses it: by value only. */
  predicate SameValue(a: Tile, b: Tile)
  {
    a.value == b.value
  }

  /** The CSS class suffix that `get_state` hands to the view. */
  function StateClass(s: TileState): (c: string)
    ensures c == "" <==> s == Static
  {
    match s
    case New => " tile-new"
    case Merged => " tile-merged"
    case Static => ""
  }

  /** Distinct annotations give the view distinct class names. */
  lemma StateClassInjective(s: TileState, s': TileState)
    ensures StateClass(s) == StateClass(s') ==> s == s'
  {
  }

  /** `Tile::update` writes the given value and annotation and leaves the
      previous position alone, so the updated tile equals by value any
      tile carrying the new value. */
  lemma UpdateFacts(a: Tile, b: Tile, v: nat, s: TileState)
    ensures Update(a, v, s).value == v && Update(a, v, s).state == s
    ensures Update(a, v, s).prevPos == a.prevPos
    ensures SameValue(Update(a, b.value, s), b)
  {
  }

  /** Value-only equality is an equivalence that ignores the annotation
      and the previous position. */
  lemma SameValueFacts(a: Tile, b: Tile, c: Tile, s: TileState, p: Option<nat>)
    ensures SameValue(a, a)
    ensures SameValue(a, b) ==> SameValue(b, a)
    ensures SameValue(a, b) && SameValue(b, c) ==> SameValue(a, c)
    ensures SameValue(a, a.(state := s, prevPos := p))
  {
  }
}
