# Connect-Four browser client: session controller

This project models the session controller of the browser client of a
Connect-Four game (`static-files/game.js`). The server owns the rules, the win
detection and the AI. The client keeps a cached game state (`gameState`: the
board `sBoard`, `winner`, `playedCol`, `errorCode`, `difficulty`) and a
re-entrancy flag (`calculatingMove`). It does four things:

- it lets a column click through only when no move is being calculated and
  nobody has won (`winner` is `'B'`);
- it posts the state to `/playerMove` or `/getAIMove`;
- it adopts every response wholesale and raises at most one alert;
- it chains one AI move after a legal, non-terminal player move.

It also renders the board as nested `<ul>`/`<li>` markup.

Modules:

- `Wire`: the game-state record exchanged with the server, the two move
  endpoints and the outcome of a request (`Success(response)` or `Failure`).
- `Markup`: `draw`/`newButton`. The board becomes a sequence of fragments
  (`<ul>`, one button per cell, `</ul>`), and `Canvas` is their concatenation.
  `BuildCanvas` is `draw`'s pair of loops, proved to produce `Canvas`. A
  button's onclick column reads back as the column it was drawn for.
- `Reconciler`: `Verdict`, the alert `handleResponse` chooses for a response.
- `Session`: the controller as a state machine over a `SessionState` record.
  The record holds the globals, the `.board` markup, the pending `setTimeout`
  callbacks and a trace of requests, alerts and log lines. There is one step
  function per handler, plus the properties of the steps.
- `Client`: class `Page`, whose fields are the globals. Its methods are the
  source's functions, written imperatively. Each one is proved to perform the
  matching `Session` step and to keep the invariant `Inv`: the page shows the
  cached board, and a pending callback always has a state to read.

The server is an input. Every method that sends a request takes the server's
reply as a parameter. `RunPendingTimeouts` takes a function from the posted
state to the reply. `makeMove`'s deferred AI check, scheduled with
`setTimeout`, is a first-in first-out queue of the `aiMove` flags the callbacks
captured. `Page.RunTimeout` fires the oldest one. The callback reads the
*current* `gameState` when it fires, as the source does.

Behaviour of the code worth knowing:

- A draw is reported as `winner 'B'` with `errorCode 2`. The click gate reads
  only `winner`, so after a draw further clicks still post moves
  (`Session.ClickAfterDrawStillPosts`). A draw is therefore not a terminal state
  on the client.
- A failed AI request leaves the player-move response cached with `playedCol`
  stamped to 0 (`Session.AIMoveFailureKeepsPlayerResponse`).
- A `winner` code other than `'B'`, `'X'` and `'O'` falls through to the
  `errorCode` switch like `'B'`. Clicks are then ignored, since the gate
  requires `'B'`.

## Model

| member | source | states |
|---|---|---|
| `Markup.Decimal` | static-files/game.js:38 | the column written into the onclick is a non-empty string of decimal digits with a leading zero only for 0 |
| `Markup.ParseDecimalRoundTrip` | static-files/game.js:38 | reading the written column back as a decimal number gives the column |
| `Markup.OnclickColumnOfButton` | static-files/game.js:37-39 | whatever the cell code, the numeral that closes the button's onclick reads back as the column x it was drawn for |
| `Markup.NewButton` | static-files/game.js:37-39 | the definition of newButton: the markup opens with class "button " followed by the cell code board[y][x], and the numeral closing its onclick reads back as x |
| `Markup.LayoutAt` | static-files/game.js:24-32 | row y's fragments sit between RowStart(y) and RowStart(y+1), in row order: `<ul>`, then one button per cell carrying class board[y][x] and column x, left to right, then `</ul>`; nothing else is emitted |
| `Markup.CanvasExtend` | static-files/game.js:26-31 | adding a row appends `<ul>`, that row's buttons and `</ul>` to the markup of the rows before it |
| `Markup.BuildCanvas` | static-files/game.js:24-32 | draw's nested loops build exactly the canvas markup of the board |
| `Reconciler.Verdict` | static-files/game.js:81-98 | 'X' gives Blue wins and 'O' gives Yellow wins, whatever errorCode is; otherwise errorCode 1 gives Invalid move, 2 gives draw and anything else no alert; exactly one of these cases holds |
| `Reconciler.WinIgnoresErrorCode` | static-files/game.js:84-89 | a winning response raises the same alert whatever errorCode it carries |
| `Reconciler.UnknownWinnerFallsThrough` | static-files/game.js:81-91 | an unknown winner code is treated as 'B' by the alert switch |
| `Reconciler.VerdictReadsOutcomeOnly` | static-files/game.js:81-98 | the alert depends only on winner and errorCode |
| `Session.NewGameStep` | static-files/game.js:14-21 | the definition of newGame as a step: it records the fresh-board request, keeps the invariant, the guard and the pending callbacks, and on failure keeps the state and the board; its properties are in NewGameAdoptsFreshBoard |
| `Session.ResponseStep` | static-files/game.js:77-99 | the definition of handleResponse as a step: the response becomes the cached state, the invariant holds afterwards whatever held before, and the trace grows by at most one entry; its properties are in ResponseReplacesState |
| `Session.MoveStep` | static-files/game.js:50-74 | the definition of makeMove as a step: it posts the stamped state to the endpoint aiMove picks, keeps the invariant and the guard, and leaves one callback exactly when the request succeeded; its properties are in MoveRequest, MoveFailureKeepsState and MoveAIRequests |
| `Session.ClickStep` | static-files/game.js:42-48 | the definition of clickedCol as a step: the guard has the same value after as before, the invariant is kept, the trace only grows, and at most one player-move callback is left; its properties are in the Click lemmas |
| `Session.TimeoutStep` | static-files/game.js:66-68 | the definition of the setTimeout callback of makeMove, with its chain condition ChainsAIMove: it keeps the invariant and the guard and the trace only grows; its properties are in TimeoutQueue, TimeoutAIRequests and ChainRule |
| `Session.SliderStep` | static-files/game.js:102-104 | the definition of sliderChanged as a step: the cached difficulty becomes v, and the invariant, the guard, the callbacks and the trace are kept; its properties are in SliderSetsDifficulty |
| `Session.ClickAfterGameOverIsIgnored` | static-files/game.js:42-48 | with the guard down and winner other than 'B', a click sends nothing and changes nothing |
| `Session.ClickWhileCalculatingOnlyLogs` | static-files/game.js:42-48 | a click while calculatingMove is set only logs the preemptive move |
| `Session.ClickSendsPlayerMove` | static-files/game.js:42-55 | a click in a game in progress posts the cached state stamped with the column to /playerMove, and the guard is down afterwards |
| `Session.ClickRestoresGuard` | static-files/game.js:43-46 | a click that found calculatingMove false leaves it false, whatever the outcome |
| `Session.MoveRequest` | static-files/game.js:50-60 | makeMove stamps playedCol before sending and posts to /getAIMove when aiMove holds, /playerMove otherwise |
| `Session.MoveFailureKeepsState` | static-files/game.js:50-73 | a failed request keeps the state apart from the playedCol stamp, schedules nothing, keeps the board and raises exactly one alert |
| `Session.ResponseReplacesState` | static-files/game.js:77-99 | the response replaces the cached state field for field, is drawn, and raises at most one alert, the one Verdict chooses |
| `Session.ChainedOnlyAfterSilentResponse` | static-files/game.js:67 | a response after which an AI move is chained raised no alert |
| `Session.NewGameAdoptsFreshBoard` | static-files/game.js:14-21 | a fresh board is adopted wholesale and drawn; pending callbacks and the guard are untouched |
| `Session.SliderSetsDifficulty` | static-files/game.js:102-104 | the slider changes difficulty only, and the next move request carries it |
| `Session.StepsKeepInv` | static-files/game.js:14-104 | every handler keeps the drawn markup equal to the cached board's and leaves no callback pending without a state |
| `Session.MoveAIRequests` | static-files/game.js:55 | a move posts to /getAIMove exactly when it is an AI move |
| `Session.TimeoutQueue` | static-files/game.js:61-68 | firing a callback removes it, and only a chained AI move that got a response leaves a new one, which never chains |
| `Session.TimeoutAIRequests` | static-files/game.js:66-68 | a fired callback requests an AI move exactly when it came from a player move and the current state has winner 'B' and errorCode 0 |
| `Session.ChainRule` | static-files/game.js:61-68 | after a move with a response, one AI request follows iff the move was the player's and the response has winner 'B' and errorCode 0; it posts that response stamped with column 0 |
| `Session.PendingTimeoutsBoundAIRequests` | static-files/game.js:66-68 | running all pending callbacks empties the queue and makes no more AI requests than there were player-move callbacks pending |
| `Session.OneClickAtMostOneAIMove` | static-files/game.js:42-74 | one click, with all the callbacks it leads to, causes at most one AI request |
| `Session.AIMoveFailureKeepsPlayerResponse` | static-files/game.js:66-72 | when the chained AI request fails, the player-move response stays cached and drawn, with column 0 stamped, and one alert is raised |
| `Session.ClickAfterDrawStillPosts` | static-files/game.js:45 | after a drawn response (winner 'B', errorCode 2) a click still posts a player move |
| `Client.Page.constructor` | static-files/game.js:5-6 | the page starts with no game state, the guard down, nothing pending and nothing sent |
| `Client.Page.NewGame` | static-files/game.js:14-21 | requests a fresh board, then adopts and draws it or raises the unreachable-server alert |
| `Client.Page.Draw` | static-files/game.js:24-34 | the .board element holds the canvas markup of the cached board |
| `Client.Page.ClickedCol` | static-files/game.js:42-48 | performs the click step, keeping the invariant |
| `Client.Page.MakeMove` | static-files/game.js:50-74 | performs the move step: stamp, post, then reconcile and leave the chaining callback, or alert |
| `Client.Page.HandleResponse` | static-files/game.js:77-99 | adopts the response, redraws, and raises the alert Verdict chooses |
| `Client.Page.RunTimeout` | static-files/game.js:66-68 | the oldest pending callback fires and chains an AI move under the chain condition |
| `Client.Page.SliderChanged` | static-files/game.js:102-104 | sets the cached difficulty and nothing else |

## Left out

- Network I/O: `$.get`, `$.ajax`, the host in `apiLocation` and the URL
  building. Each request's result is a parameter. The fresh-board request
  is recorded with its row and column strings. A move request is recorded
  with its endpoint and the state it posts.
- JSON (de)serialisation: a response that fails to parse reaches the error
  callback, which a caller expresses by passing `Failure`. Field values of
  other JSON types (a string `errorCode`, a numeric `winner`) are not
  modelled. `winner` and the cells are strings and `errorCode` is an integer.
- DOM and UI: `$(document).ready` (which calls `newGame` once after load) and
  reading the row and column inputs (parameters here). `$('.board').empty().append`
  is the `boardMarkup` field. `alert` and `console.log` are recorded in the
  trace as effects.
- Timing of `setTimeout` and the blocking of `async: false`: the deferred
  check is a queue fired by a separate step. Events may be interleaved in
  any order by calling the methods. The race between a pending chain and a
  new game is not analysed beyond the fact that `NewGame` does not cancel
  pending callbacks.
- `parseInt` in `sliderChanged`: the difficulty arrives as an integer, and
  `NaN` is not modelled.
- Calls before the first fresh board arrives: reading `gameState` while it
  is undefined throws in the browser. Here the handlers that read it require
  a game state.
- HTML escaping: none is done by the source, and cell codes are inserted
  verbatim here too. The column is written in decimal for the non-negative
  loop indices `draw` passes.
- The column read back from a button's markup: `OnclickColumn` reads the
  numeral that closes the onclick attribute. Cell codes are inserted without
  escaping, so a cell code containing `"` could inject an earlier onclick
  attribute, and a browser would act on that one; the model does not see it.
- Reaching `calculatingMove == true` at a click: every step keeps the guard's
  value, so starting from the initial state the model never has it set
  between events. In the browser it is set only by re-entering `clickedCol`
  during the synchronous request, or by an exception inside `makeMove` that
  skips the line resetting it; neither is modelled. `ClickWhileCalculatingOnlyLogs`
  states what a click does in that state.
- Game rules, legality checks, win and draw detection and the AI: these run
  on the server, which is not part of this model.
- The older copy of the script under `.stack-work/` has the same logic with a
  hard-coded host and is not modelled separately.
