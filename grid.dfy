/** The MAP and ORIENTATION constants of game.rb and the records the
    renderer and the game share: a map is a list of rows, one character per
    cell, `#` for a wall. */
module Grid {

  const Wall: char := '#'
  const Empty: char := '.'
  const PlayerMark: char := '@'

  const North: int := 0
  const East: int := 1
  const South: int := 2
  const West: int := 3

  type GameMap = seq<string>

  datatype Position = Position(x: int, y: int)

  /** `state.player`: a grid cell and a facing that every reader takes mod 4. */
  datatype PlayerState = PlayerState(x: int, y: int, orientation: int)
}
