/** The session controller of the page as a state machine: the globals
    gameState and calculatingMove, the markup shown in the .board element,
    the callbacks makeMove left with setTimeout, and everything the page
    has sent, alerted or logged. Each event handler of the page is one step
    function here; the class in module Client is proved to perform them. */
module Session {
  import opened Wire
  import opened Markup
  import opened Reconciler

  /** Something the page did that the outside world sees. */
  datatype Effect =
    | Alert(notice: Notice)
    | Post(endpoint: Endpoint, body: GameState)
    | FreshBoard(rows: string, cols: string)
    | Log(line: string)

  const PreemptiveLog := "preemptive move from player"

  /** gameState is None until the first fresh board arrives (the global is
      declared without a value). Each entry of timers is a pending
      setTimeout callback of makeMove, holding the aiMove flag it captured;
      they fire first-in first-out. */
  datatype SessionState = SessionState(
    gameState: Option<GameState>,
    calculatingMove: bool,
    boardMarkup: string,
    timers: seq<bool>,
    trace: seq<Effect>)

  function Initial(): SessionState
  {
    SessionState(None, false, "", [], [])
  }

  /** What holds between any two events: the page shows the cached board,
      and a pending callback always finds a game state to look at. */
  predicate Inv(s: SessionState)
  {
    && (s.gameState.Some? ==> s.boardMarkup == Canvas(s.gameState.value.sBoard))
    && (s.timers != [] ==> s.gameState.Some?)
  }

  function AlertsFor(r: GameState): seq<Effect>
  {
    match Verdict(r)
    case None => []
    case Some(n) => [Alert(n)]
  }

  /** newGame(): ask for a fresh board; adopt and draw it, or alert. */
  function NewGameStep(s: SessionState, rows: string, cols: string, reply: Outcome): (r: SessionState)
    ensures Inv(s) ==> Inv(r)
    ensures r.timers == s.timers && r.calculatingMove == s.calculatingMove
    ensures |r.trace| > |s.trace| && r.trace[..|s.trace| + 1] == s.trace + [FreshBoard(rows, cols)]
    ensures reply.Failure? ==> r.gameState == s.gameState && r.boardMarkup == s.boardMarkup
  {
    var asked := s.(trace := s.trace + [FreshBoard(rows, cols)]);
    match reply
    case Success(data) => asked.(gameState := Some(data), boardMarkup := Canvas(data.sBoard))
    case Failure => asked.(trace := asked.trace + [Alert(ServerUnreachable)])
  }

  /** handleResponse(response, aiMove): adopt the response, redraw, alert. */
  function ResponseStep(s: SessionState, response: GameState): (r: SessionState)
    ensures Inv(r) && r.gameState == Some(response)
    ensures r.timers == s.timers && r.calculatingMove == s.calculatingMove
    ensures |s.trace| <= |r.trace| <= |s.trace| + 1 && r.trace[..|s.trace|] == s.trace
  {
    s.(gameState := Some(response),
       boardMarkup := Canvas(response.sBoard),
       trace := s.trace + AlertsFor(response))
  }

  /** makeMove(x, aiMove): stamp the column, post the state, then either
      reconcile the response and leave the chaining callback, or alert. */
  function MoveStep(s: SessionState, x: int, aiMove: bool, reply: Outcome): (r: SessionState)
    requires s.gameState.Some?
    ensures Inv(s) ==> Inv(r)
    ensures r.gameState.Some? && r.calculatingMove == s.calculatingMove
    ensures |r.trace| > |s.trace|
    ensures r.trace[..|s.trace| + 1] == s.trace + [Post(EndpointFor(aiMove), s.gameState.value.(playedCol := x))]
    ensures r.timers == s.timers + (if reply.Success? then [aiMove] else [])
  {
    var sent := s.gameState.value.(playedCol := x);
    var posted := s.(gameState := Some(sent), trace := s.trace + [Post(EndpointFor(aiMove), sent)]);
    match reply
    case Success(response) =>
      var handled := ResponseStep(posted, response);
      handled.(timers := handled.timers + [aiMove])
    case Failure => posted.(trace := posted.trace + [Alert(MoveFailed)])
  }

  /** clickedCol(col): the re-entrancy guard and the terminal-state gate. */
  function ClickStep(s: SessionState, col: int, reply: Outcome): (r: SessionState)
    requires s.gameState.Some?
    ensures Inv(s) ==> Inv(r)
    ensures r.gameState.Some? && r.calculatingMove == s.calculatingMove
    ensures |r.trace| >= |s.trace| && r.trace[..|s.trace|] == s.trace
    ensures r.timers == s.timers || r.timers == s.timers + [false]
  {
    if s.calculatingMove then
      s.(trace := s.trace + [Log(PreemptiveLog)])
    else
      var busy := s.(calculatingMove := true);
      var after := if busy.gameState.value.winner == NoWinner then MoveStep(busy, col, false, reply) else busy;
      after.(calculatingMove := false)
  }

  /** The condition the setTimeout callback of makeMove checks when it fires. */
  predicate ChainsAIMove(aiMove: bool, current: GameState)
  {
    !aiMove && current.winner == NoWinner && current.errorCode == 0
  }

  /** The oldest pending setTimeout callback fires: it asks for the AI's
      move when it was left by a player move and the current state is a
      game in progress after a legal move. */
  function TimeoutStep(s: SessionState, reply: Outcome): (r: SessionState)
    requires s.timers != [] && s.gameState.Some?
    ensures Inv(s) ==> Inv(r)
    ensures r.gameState.Some? && r.calculatingMove == s.calculatingMove
    ensures |r.trace| >= |s.trace| && r.trace[..|s.trace|] == s.trace
  {
    var fired := s.(timers := s.timers[1..]);
    if ChainsAIMove(s.timers[0], s.gameState.value) then MoveStep(fired, 0, true, reply) else fired
  }

  /** sliderChanged(v), with v already parsed to an integer. */
  function SliderStep(s: SessionState, v: int): (r: SessionState)
    requires s.gameState.Some?
    ensures Inv(s) ==> Inv(r)
    ensures r.gameState.Some? && r.gameState.value.difficulty == v
    ensures r.timers == s.timers && r.trace == s.trace && r.calculatingMove == s.calculatingMove
  {
    s.(gameState := Some(s.gameState.value.(difficulty := v)))
  }

  // ---------------------------------------------------------------------
  // Properties of single steps

  /** Once somebody has won (or the server sent any winner code but 'B'),
      a click sends nothing and changes nothing. */
  lemma ClickAfterGameOverIsIgnored(s: SessionState, col: int, reply: Outcome)
    requires s.gameState.Some? && !s.calculatingMove && s.gameState.value.winner != NoWinner
    ensures ClickStep(s, col, reply) == s
  {
  }

  /** A click while a move is being calculated only logs. */
  lemma ClickWhileCalculatingOnlyLogs(s: SessionState, col: int, reply: Outcome)
    requires s.gameState.Some? && s.calculatingMove
    ensures ClickStep(s, col, reply) == s.(trace := s.trace + [Log(PreemptiveLog)])
  {
  }

  /** A click in a game in progress posts the cached state, stamped with the
      clicked column, to /playerMove, and the guard is down again afterwards. */
  lemma ClickSendsPlayerMove(s: SessionState, col: int, reply: Outcome)
    requires s.gameState.Some? && !s.calculatingMove && s.gameState.value.winner == NoWinner
    ensures var r := ClickStep(s, col, reply);
      && !r.calculatingMove
      && |r.trace| > |s.trace|
      && r.trace[..|s.trace| + 1] == s.trace + [Post(PlayerMove, s.gameState.value.(playedCol := col))]
      && Path(r.trace[|s.trace|].endpoint) == "/playerMove"
  {
  }

  /** Whatever the outcome, a click that found the guard down leaves it down. */
  lemma ClickRestoresGuard(s: SessionState, col: int, reply: Outcome)
    requires s.gameState.Some? && !s.calculatingMove
    ensures !ClickStep(s, col, reply).calculatingMove
  {
  }

  /** makeMove stamps playedCol before posting and picks the endpoint from aiMove. */
  lemma MoveRequest(s: SessionState, x: int, aiMove: bool, reply: Outcome)
    requires s.gameState.Some?
    ensures var r := MoveStep(s, x, aiMove, reply);
      && |r.trace| > |s.trace|
      && r.trace[|s.trace|] == Post(EndpointFor(aiMove), s.gameState.value.(playedCol := x))
      && Path(r.trace[|s.trace|].endpoint) == (if aiMove then "/getAIMove" else "/playerMove")
  {
  }

  /** A failed request keeps the cached state except for the stamped column,
      schedules nothing, keeps the board on screen and raises one alert. */
  lemma MoveFailureKeepsState(s: SessionState, x: int, aiMove: bool)
    requires s.gameState.Some?
    ensures var r := MoveStep(s, x, aiMove, Failure);
      && r.gameState == Some(s.gameState.value.(playedCol := x))
      && r.timers == s.timers
      && r.boardMarkup == s.boardMarkup
      && r.trace == s.trace + [Post(EndpointFor(aiMove), s.gameState.value.(playedCol := x)), Alert(MoveFailed)]
  {
  }

  /** The response replaces the cached state field for field, is drawn, and
      raises at most one alert: the one Verdict chooses. */
  lemma ResponseReplacesState(s: SessionState, response: GameState)
    ensures var r := ResponseStep(s, response);
      && r.gameState == Some(response)
      && r.boardMarkup == Canvas(response.sBoard)
      && r.timers == s.timers && r.calculatingMove == s.calculatingMove
      && |r.trace| <= |s.trace| + 1
      && (Verdict(response).None? <==> r.trace == s.trace)
      && (Verdict(response).Some? ==> r.trace == s.trace + [Alert(Verdict(response).value)])
  {
  }

  /** An AI move is only chained after a response that raised no alert. */
  lemma ChainedOnlyAfterSilentResponse(response: GameState)
    requires ChainsAIMove(false, response)
    ensures AlertsFor(response) == []
  {
  }

  /** A fresh board is adopted wholesale and drawn; nothing cancels the
      callbacks still pending, and the guard is untouched. */
  lemma NewGameAdoptsFreshBoard(s: SessionState, rows: string, cols: string, data: GameState)
    ensures var r := NewGameStep(s, rows, cols, Success(data));
      && r.gameState == Some(data)
      && r.boardMarkup == Canvas(data.sBoard)
      && r.timers == s.timers
      && r.calculatingMove == s.calculatingMove
      && r.trace == s.trace + [FreshBoard(rows, cols)]
  {
  }

  /** The slider changes difficulty and nothing else, and the next move
      request carries the new difficulty. */
  lemma SliderSetsDifficulty(s: SessionState, v: int, x: int, aiMove: bool, reply: Outcome)
    requires s.gameState.Some?
    ensures var r := SliderStep(s, v);
      && r.gameState.Some?
      && r.gameState.value == s.gameState.value.(difficulty := v)
      && r.(gameState := s.gameState) == s
      && MoveStep(r, x, aiMove, reply).trace[|s.trace|].body.difficulty == v
  {
  }

  /** Every step keeps the invariant. */
  lemma StepsKeepInv(s: SessionState, col: int, aiMove: bool, reply: Outcome, response: GameState,
                     rows: string, cols: string, v: int)
    requires Inv(s)
    ensures Inv(NewGameStep(s, rows, cols, reply))
    ensures Inv(ResponseStep(s, response))
    ensures s.gameState.Some? ==> Inv(MoveStep(s, col, aiMove, reply))
    ensures s.gameState.Some? ==> Inv(ClickStep(s, col, reply))
    ensures s.gameState.Some? ==> Inv(SliderStep(s, v))
    ensures s.timers != [] ==> Inv(TimeoutStep(s, reply))
  {
  }

  // ---------------------------------------------------------------------
  // The AI-move chain

  /** How many requests for an AI move a trace holds. */
  function AIRequests(t: seq<Effect>): nat
    decreases |t|
  {
    if t == [] then 0
    else AIRequests(t[..|t| - 1]) + (if t[|t| - 1].Post? && t[|t| - 1].endpoint == GetAIMove then 1 else 0)
  }

  lemma {:induction false} AIRequestsAppend(a: seq<Effect>, b: seq<Effect>)
    ensures AIRequests(a + b) == AIRequests(a) + AIRequests(b)
    decreases |b|
  {
    if b == [] {
      assert a + b == a;
    } else {
      var ab := a + b;
      assert ab[..|ab| - 1] == a + b[..|b| - 1];
      AIRequestsAppend(a, b[..|b| - 1]);
    }
  }

  /** A move step posts to /getAIMove exactly when it is an AI move. */
  lemma MoveAIRequests(s: SessionState, x: int, aiMove: bool, reply: Outcome)
    requires s.gameState.Some?
    ensures AIRequests(MoveStep(s, x, aiMove, reply).trace) == AIRequests(s.trace) + (if aiMove then 1 else 0)
  {
    var sent := s.gameState.value.(playedCol := x);
    var post := [Post(EndpointFor(aiMove), sent)];
    assert AIRequests(post) == (if aiMove then 1 else 0) by { assert post[..0] == []; }
    AIRequestsAppend(s.trace, post);
    var rest := match reply
      case Success(response) => AlertsFor(response)
      case Failure => [Alert(MoveFailed)];
    assert AIRequests(rest) == 0 by {
      if rest != [] { assert rest[..0] == []; }
    }
    AIRequestsAppend(s.trace + post, rest);
  }

  /** The number of player-move callbacks still pending. */
  function Pending(timers: seq<bool>): nat
  {
    multiset(timers)[false]
  }

  /** Firing the oldest callback drops it, and a chained AI move that got a
      response leaves a callback of its own, which never chains again. */
  lemma TimeoutQueue(s: SessionState, reply: Outcome)
    requires s.timers != [] && s.gameState.Some?
    ensures var r := TimeoutStep(s, reply);
      && r.gameState.Some?
      && r.timers == s.timers[1..] + (if ChainsAIMove(s.timers[0], s.gameState.value) && reply.Success? then [true] else [])
      && Pending(r.timers) + (if ChainsAIMove(s.timers[0], s.gameState.value) then 1 else 0) <= Pending(s.timers)
      && |r.timers| + Pending(r.timers) < |s.timers| + Pending(s.timers)
  {
    assert s.timers == [s.timers[0]] + s.timers[1..];
    assert multiset(s.timers) == multiset([s.timers[0]]) + multiset(s.timers[1..]);
    assert multiset(s.timers[1..] + [true]) == multiset(s.timers[1..]) + multiset([true]);
  }

  /** A fired callback asks for an AI move exactly when its chain condition holds. */
  lemma TimeoutAIRequests(s: SessionState, reply: Outcome)
    requires s.timers != [] && s.gameState.Some?
    ensures AIRequests(TimeoutStep(s, reply).trace)
         == AIRequests(s.trace) + (if ChainsAIMove(s.timers[0], s.gameState.value) then 1 else 0)
  {
    if ChainsAIMove(s.timers[0], s.gameState.value) {
      MoveAIRequests(s.(timers := s.timers[1..]), 0, true, reply);
    }
  }

  /** The chain rule: after a move that got a response, the callback it left
      asks for an AI move exactly when the move was the player's and the
      adopted response has winner 'B' and errorCode 0; the request posts the
      adopted response itself, stamped with column 0. */
  lemma ChainRule(s: SessionState, x: int, aiMove: bool, response: GameState, reply: Outcome)
    requires s.gameState.Some? && s.timers == []
    ensures var moved := MoveStep(s, x, aiMove, Success(response));
      && moved.timers == [aiMove]
      && (AIRequests(TimeoutStep(moved, reply).trace) == AIRequests(moved.trace) + 1
          <==> !aiMove && response.winner == NoWinner && response.errorCode == 0)
      && (ChainsAIMove(aiMove, response) ==>
            TimeoutStep(moved, reply).trace[|moved.trace|] == Post(GetAIMove, response.(playedCol := 0)))
  {
    var moved := MoveStep(s, x, aiMove, Success(response));
    TimeoutAIRequests(moved, reply);
    if ChainsAIMove(aiMove, response) {
      MoveRequest(moved.(timers := []), 0, true, reply);
    }
  }

  /** Scenario: the player's move was adopted and the AI request that
      followed failed. The state shown is the player-move response, with
      column 0 stamped by the AI request, one alert is raised and nothing
      is left pending. */
  lemma AIMoveFailureKeepsPlayerResponse(s: SessionState, x: int, response: GameState)
    requires s.gameState.Some? && s.timers == [] && ChainsAIMove(false, response)
    ensures var moved := MoveStep(s, x, false, Success(response));
      var r := TimeoutStep(moved, Failure);
      && r.gameState == Some(response.(playedCol := 0))
      && r.boardMarkup == Canvas(response.sBoard)
      && r.timers == []
      && r.trace == moved.trace + [Post(GetAIMove, response.(playedCol := 0)), Alert(MoveFailed)]
  {
  }

  /** A draw comes back with winner 'B', and the click gate reads only
      winner: after a drawn response a click still posts a player move. */
  lemma ClickAfterDrawStillPosts(s: SessionState, col: int, reply: Outcome)
    requires s.gameState.Some? && !s.calculatingMove
    requires s.gameState.value.winner == NoWinner && Verdict(s.gameState.value) == Some(DrawnGame)
    ensures ClickStep(s, col, reply).trace[|s.trace|] == Post(PlayerMove, s.gameState.value.(playedCol := col))
  {
  }

  /** The browser runs every pending callback in turn; `answer` is what the
      server replies to an AI-move request carrying a given state. */
  ghost function RunPendingTimeouts(s: SessionState, answer: GameState -> Outcome): SessionState
    requires s.gameState.Some?
    decreases |s.timers| + Pending(s.timers)
  {
    if s.timers == [] then s
    else
      var reply := answer(s.gameState.value.(playedCol := 0));
      TimeoutQueue(s, reply);
      RunPendingTimeouts(TimeoutStep(s, reply), answer)
  }

  lemma {:induction false} PendingTimeoutsBoundAIRequests(s: SessionState, answer: GameState -> Outcome)
    requires s.gameState.Some?
    ensures var r := RunPendingTimeouts(s, answer);
      r.timers == [] && AIRequests(r.trace) <= AIRequests(s.trace) + Pending(s.timers)
    decreases |s.timers| + Pending(s.timers)
  {
    if s.timers != [] {
      var reply := answer(s.gameState.value.(playedCol := 0));
      TimeoutQueue(s, reply);
      TimeoutAIRequests(s, reply);
      PendingTimeoutsBoundAIRequests(TimeoutStep(s, reply), answer);
    }
  }

  /** One click causes at most one AI request: starting with no callback
      pending, a click and every callback it leads to post to /getAIMove
      at most once, and nothing is left pending afterwards. */
  lemma OneClickAtMostOneAIMove(s: SessionState, col: int, reply: Outcome, answer: GameState -> Outcome)
    requires s.gameState.Some? && s.timers == []
    ensures var r := RunPendingTimeouts(ClickStep(s, col, reply), answer);
      r.timers == [] && AIRequests(r.trace) <= AIRequests(s.trace) + 1
  {
    var clicked := ClickStep(s, col, reply);
    if s.calculatingMove {
      AIRequestsAppend(s.trace, [Log(PreemptiveLog)]);
      assert AIRequests([Log(PreemptiveLog)]) == 0 by { assert [Log(PreemptiveLog)][..0] == []; }
    } else if s.gameState.value.winner == NoWinner {
      MoveAIRequests(s.(calculatingMove := true), col, false, reply);
    }
    assert Pending(clicked.timers) <= 1;
    PendingTimeoutsBoundAIRequests(clicked, answer);
  }
}
