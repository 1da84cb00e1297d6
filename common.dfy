/** Types shared by the server model and the browser-client model. */
module Common {

  /** JavaScript's `null`/`undefined` versus a present value. */
  datatype Option<+T> = None | Some(value: T)

  /** The two player positions of a match: `'player1'` plays the left paddle, `'player2'` the right. */
  datatype Slot = Player1 | Player2
}
