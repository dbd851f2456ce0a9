/** handleResponse's choice of notification for a server response. */
module Reconciler {
  import opened Wire

  /** The alerts the client can raise, by the text the source shows:
      BlueWins "Blue wins!", YellowWins "Yelllow wins!" (sic),
      InvalidMove "Invalid move!", DrawnGame "It's a draw",
      ServerUnreachable "The server didn't respond - maybe you've disconnected?",
      MoveFailed "Something went wrong - either you disconnected or the
      computer took too long to respond (Is the difficulty too hard)". */
  datatype Notice = BlueWins | YellowWins | InvalidMove | DrawnGame | ServerUnreachable | MoveFailed

  /** The alert a response raises, if any. A win is decided by `winner`
      alone; only when nobody has won (winner 'B' or any code other than
      'X' and 'O') does `errorCode` choose between an invalid move, a draw
      and silence. */
  function Verdict(r: GameState): (n: Option<Notice>)
    ensures n == Some(BlueWins) <==> r.winner == Blue
    ensures n == Some(YellowWins) <==> r.winner == Yellow
    ensures n == Some(InvalidMove) <==> r.winner != Blue && r.winner != Yellow && r.errorCode == 1
    ensures n == Some(DrawnGame) <==> r.winner != Blue && r.winner != Yellow && r.errorCode == 2
    ensures n == None <==> r.winner != Blue && r.winner != Yellow && r.errorCode != 1 && r.errorCode != 2
  {
    if r.winner == Blue then Some(BlueWins)
    else if r.winner == Yellow then Some(YellowWins)
    else if r.errorCode == 1 then Some(InvalidMove)
    else if r.errorCode == 2 then Some(DrawnGame)
    else None
  }

  /** A win short-circuits the errorCode switch: whatever errorCode a
      winning response carries, the alert is the same. */
  lemma WinIgnoresErrorCode(r: GameState, e: int)
    requires r.winner == Blue || r.winner == Yellow
    ensures Verdict(r.(errorCode := e)) == Verdict(r)
  {
  }

  /** A winner code the switch does not know falls through to the errorCode
      switch, exactly as 'B' does. */
  lemma UnknownWinnerFallsThrough(r: GameState)
    requires r.winner != NoWinner && r.winner != Blue && r.winner != Yellow
    ensures Verdict(r) == Verdict(r.(winner := NoWinner))
  {
  }

  /** The alert depends on winner and errorCode only, never on the board,
      the played column or the difficulty. */
  lemma VerdictReadsOutcomeOnly(r: GameState, s: GameState)
    requires r.winner == s.winner && r.errorCode == s.errorCode
    ensures Verdict(r) == Verdict(s)
  {
  }
}
