/** The page itself: the globals of static-files/game.js as fields of one
    object, and its functions as methods that update them in place. */
module Client {
  import opened Wire
  import opened Markup
  import opened Reconciler
  import opened Session

  class Page {
    var gameState: Option<GameState>
    var calculatingMove: bool
    /** The contents of the .board element. */
    var boardMarkup: string
    /** Pending setTimeout callbacks of makeMove, oldest first. */
    var timers: seq<bool>
    /** Requests sent, alerts raised and lines logged, in order. */
    var trace: seq<Effect>

    function State(): SessionState
      reads this
    {
      SessionState(gameState, calculatingMove, boardMarkup, timers, trace)
    }

    ghost predicate Valid()
      reads this
    {
      Inv(State())
    }

    /** Loading the script: gameState undefined, calculatingMove false. */
    constructor ()
      ensures Valid() && State() == Initial()
    {
      gameState := None;
      calculatingMove := false;
      boardMarkup := "";
      timers := [];
      trace := [];
    }

    method NewGame(rows: string, cols: string, reply: Outcome)
      requires Valid()
      modifies this
      ensures Valid() && State() == NewGameStep(old(State()), rows, cols, reply)
    {
      trace := trace + [FreshBoard(rows, cols)];
      match reply {
        case Success(data) =>
          gameState := Some(data);
          Draw();
        case Failure =>
          trace := trace + [Alert(ServerUnreachable)];
      }
    }

    /** Replace the contents of .board with the markup of the cached board. */
    method Draw()
      requires gameState.Some?
      modifies this`boardMarkup
      ensures boardMarkup == Canvas(gameState.value.sBoard)
    {
      var canvas := BuildCanvas(gameState.value.sBoard);
      boardMarkup := canvas;
    }

    method ClickedCol(col: int, reply: Outcome)
      requires Valid() && gameState.Some?
      modifies this
      ensures Valid() && State() == ClickStep(old(State()), col, reply)
    {
      if !calculatingMove {
        calculatingMove := true;
        if gameState.value.winner == NoWinner {
          MakeMove(col, false, reply);
        }
        calculatingMove := false;
      } else {
        trace := trace + [Log(PreemptiveLog)];
      }
    }

    /** `reply` is what the server answers to this request. */
    method MakeMove(x: int, aiMove: bool, reply: Outcome)
      requires Valid() && gameState.Some?
      modifies this
      ensures Valid() && State() == MoveStep(old(State()), x, aiMove, reply)
    {
      gameState := Some(gameState.value.(playedCol := x));
      trace := trace + [Post(EndpointFor(aiMove), gameState.value)];
      match reply {
        case Success(response) =>
          HandleResponse(response, aiMove);
          timers := timers + [aiMove];
        case Failure =>
          trace := trace + [Alert(MoveFailed)];
      }
    }

    /** aiMove is accepted and not used, as in the source. */
    method HandleResponse(response: GameState, aiMove: bool)
      modifies this
      ensures Valid() && State() == ResponseStep(old(State()), response)
    {
      gameState := Some(response);
      Draw();
      if response.winner == Blue {
        trace := trace + [Alert(BlueWins)];
        return;
      } else if response.winner == Yellow {
        trace := trace + [Alert(YellowWins)];
        return;
      }
      if response.errorCode == 1 {
        trace := trace + [Alert(InvalidMove)];
      } else if response.errorCode == 2 {
        trace := trace + [Alert(DrawnGame)];
      }
    }

    /** The oldest setTimeout callback left by makeMove fires; `reply` is
        what the server answers if it asks for an AI move. */
    method RunTimeout(reply: Outcome)
      requires Valid() && timers != []
      modifies this
      ensures Valid() && State() == TimeoutStep(old(State()), reply)
    {
      var aiMove := timers[0];
      timers := timers[1..];
      if !aiMove && gameState.value.winner == NoWinner && gameState.value.errorCode == 0 {
        MakeMove(0, true, reply);
      }
    }

    method SliderChanged(v: int)
      requires Valid() && gameState.Some?
      modifies this
      ensures Valid() && State() == SliderStep(old(State()), v)
    {
      gameState := Some(gameState.value.(difficulty := v));
    }
  }
}
