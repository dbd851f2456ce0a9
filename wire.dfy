/** The values the browser client exchanges with the game server. */
module Wire {

  datatype Option<T> = None | Some(value: T)

  /** The game-state object the server sends and the client posts back.
      Fields keep the wire names; cell and winner codes stay strings because
      the client passes through whatever the server sends. */
  datatype GameState = GameState(
    sBoard: seq<seq<string>>,
    winner: string,
    playedCol: int,
    errorCode: int,
    difficulty: int)

  /** Player codes: 'B' (blank, nobody has won yet), 'X' (blue), 'O' (yellow). */
  const NoWinner := "B"
  const Blue := "X"
  const Yellow := "O"

  /** The two move endpoints of the server. */
  datatype Endpoint = PlayerMove | GetAIMove

  function EndpointFor(aiMove: bool): Endpoint
  {
    if aiMove then GetAIMove else PlayerMove
  }

  function Path(e: Endpoint): string
  {
    match e
    case PlayerMove => "/playerMove"
    case GetAIMove => "/getAIMove"
  }

  /** What a request to the server came back with: the success callback's
      parsed response, or the failure callback. */
  datatype Outcome = Success(response: GameState) | Failure
}
