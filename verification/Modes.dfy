/** The states of the game (public/js/game.js). */
module Modes {
  datatype Mode = Menu | Playing | Over
}
