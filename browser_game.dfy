/**
 * The memory-card game of the browser front end. The page keeps its state in
 * module-level variables (the dealt symbols, the cards turned up for the
 * current try, the counters, the pause and flip locks) and in each card's
 * `flipped`/`matched` classes, modelled here as two flag sequences.
 *
 * The page resolves a try 600 ms after the second card turns up and turns a
 * mismatched pair face down 500 ms after that; each timer callback is a
 * method here, called when the timer fires. A mismatched pair waiting for
 * its callback is kept in `pendingHide`.
 */
module BrowserGame {
  import opened Cards

  const CARDS: nat := 16

  /** Rocket, target, light bulb, fire, star, palette, brain, gem. */
  const GAME_SYMBOLS: seq<string> := [
    "\U{1F680}", "\U{1F3AF}", "\U{1F4A1}", "\U{1F525}",
    "\U{2B50}", "\U{1F3A8}", "\U{1F9E0}", "\U{1F48E}"
  ]

  /** Whatever order the shuffle produced, each symbol is dealt exactly twice. */
  lemma DealtBoardHoldsPairs(board: seq<string>, symbol: string)
    requires IsPairDeck(board, GAME_SYMBOLS)
    ensures |board| == CARDS
    ensures multiset(board)[symbol] == if symbol in GAME_SYMBOLS then 2 else 0
  {
    PairDeckCounts(board, GAME_SYMBOLS, symbol);
  }

  /**
   * The board between events: sixteen cards; at most two in the current
   * try; the cards of the try and the mismatched cards waiting to be hidden
   * are face up, unmatched and distinct; no other card is face up unless
   * matched; two matched cards per matched pair.
   */
  ghost predicate Playing(cards: seq<string>, up: seq<bool>, matched: seq<bool>,
                          try: seq<nat>, pending: seq<nat>, pairs: nat, moves: nat)
  {
    && |cards| == CARDS && |up| == CARDS && |matched| == CARDS
    && |try| <= 2
    && (forall k :: 0 <= k < |try| ==> try[k] < CARDS)
    && (forall k :: 0 <= k < |try| ==> up[try[k]] && !matched[try[k]])
    && (|try| == 2 ==> try[0] != try[1] && pairs < moves)
    && (forall k :: 0 <= k < |pending| ==> pending[k] < CARDS)
    && (forall k :: 0 <= k < |pending| ==> up[pending[k]] && !matched[pending[k]])
    && Distinct(pending)
    && (forall k, l :: 0 <= k < |try| && 0 <= l < |pending| ==> try[k] != pending[l])
    && (forall i {:trigger up[i], matched[i]} :: 0 <= i < CARDS && up[i] && !matched[i] ==> i in try || i in pending)
    && (forall i {:trigger up[i], matched[i]} :: 0 <= i < CARDS && matched[i] ==> up[i])
    && CountTrue(matched) == 2 * pairs
    && pairs <= moves
  }

  /** A matching try becomes a matched pair. */
  lemma PlayingAfterMatch(cards: seq<string>, up: seq<bool>, matched: seq<bool>,
                          try: seq<nat>, pending: seq<nat>, pairs: nat, moves: nat)
    requires Playing(cards, up, matched, try, pending, pairs, moves) && |try| == 2
    ensures Playing(cards, up, matched[try[0] := true][try[1] := true], [], pending, pairs + 1, moves)
  {
    CountTrueSet(matched, try[0]);
    CountTrueSet(matched[try[0] := true], try[1]);
  }

  /** A mismatched try joins the cards waiting to be hidden. */
  lemma PlayingAfterMismatch(cards: seq<string>, up: seq<bool>, matched: seq<bool>,
                             try: seq<nat>, pending: seq<nat>, pairs: nat, moves: nat)
    requires Playing(cards, up, matched, try, pending, pairs, moves) && |try| == 2
    ensures Playing(cards, up, matched, [], pending + try, pairs, moves)
  {
    var p := pending + try;
    assert Distinct(p) by {
      forall i, j | 0 <= i < j < |p| ensures p[i] != p[j] {
        if j >= |pending| && i < |pending| {
          assert p[j] == try[j - |pending|];
        }
      }
    }
    forall i | 0 <= i < CARDS && up[i] && !matched[i] ensures i in p {
      if i in try {
        var k :| 0 <= k < |try| && try[k] == i;
        assert p[|pending| + k] == i;
      } else {
        assert i in pending;
        var k :| 0 <= k < |pending| && pending[k] == i;
        assert p[k] == i;
      }
    }
  }

  /** A freshly dealt board: every card face down, nothing matched, no try, no moves. */
  lemma PlayingFresh(cards: seq<string>)
    requires |cards| == CARDS
    ensures Playing(cards, seq(CARDS, _ => false), seq(CARDS, _ => false), [], [], 0, 0)
  {
    CountTrueNone(CARDS);
  }

  /** Turning up a face-down card while fewer than two are in the try. */
  lemma PlayingAfterFlip(cards: seq<string>, up: seq<bool>, matched: seq<bool>,
                         try: seq<nat>, pending: seq<nat>, pairs: nat, moves: nat, i: nat)
    requires Playing(cards, up, matched, try, pending, pairs, moves)
    requires |try| < 2 && i < CARDS && !up[i] && !matched[i]
    ensures Playing(cards, up[i := true], matched, try + [i], pending, pairs,
                    if |try| == 1 then moves + 1 else moves)
  {
    var t := try + [i];
    assert forall k :: 0 <= k < |try| ==> t[k] == try[k];
    forall j | 0 <= j < CARDS && up[i := true][j] && !matched[j] ensures j in t || j in pending {
      if j != i {
        assert j in try || j in pending;
        if j in try {
          var k :| 0 <= k < |try| && try[k] == j;
          assert t[k] == j;
        }
      } else {
        assert t[|try|] == j;
      }
    }
  }

  /** Turning the oldest waiting mismatched pair face down. */
  lemma PlayingAfterHide(cards: seq<string>, up: seq<bool>, matched: seq<bool>,
                         try: seq<nat>, pending: seq<nat>, pairs: nat, moves: nat)
    requires Playing(cards, up, matched, try, pending, pairs, moves) && |pending| >= 2
    ensures Playing(cards, up[pending[0] := false][pending[1] := false], matched, try,
                    pending[2..], pairs, moves)
  {
    var rest := pending[2..];
    assert forall k :: 0 <= k < |rest| ==> rest[k] == pending[k + 2];
    var u := up[pending[0] := false][pending[1] := false];
    forall k | 0 <= k < |rest| ensures u[rest[k]] && !matched[rest[k]] {
      assert rest[k] != pending[0] && rest[k] != pending[1];
    }
    forall k | 0 <= k < |try| ensures u[try[k]] {
      assert try[k] != pending[0] && try[k] != pending[1];
    }
    forall j | 0 <= j < CARDS && u[j] && !matched[j] ensures j in try || j in rest {
      assert j != pending[0] && j != pending[1];
      if j !in try {
        var k :| 0 <= k < |pending| && pending[k] == j;
        assert k >= 2 && rest[k - 2] == j;
      }
    }
  }

  class MemoryGame {
    var gameCards: seq<string>
    var faceUp: seq<bool>
    var matched: seq<bool>
    var flippedCards: seq<nat>
    var pendingHide: seq<nat>
    var matchedPairs: nat
    var moves: nat
    var gameTime: nat
    var isGamePaused: bool
    var canFlip: bool
    var timerRunning: bool

    ghost predicate Valid()
      reads this
    {
      Playing(gameCards, faceUp, matched, flippedCards, pendingHide, matchedPairs, moves)
      && canFlip == (|flippedCards| < 2)
    }

    constructor ()
      ensures gameCards == [] && flippedCards == [] && pendingHide == []
      ensures matchedPairs == 0 && moves == 0 && gameTime == 0
      ensures !isGamePaused && canFlip && !timerRunning
    {
      gameCards := [];
      faceUp := [];
      matched := [];
      flippedCards := [];
      pendingHide := [];
      matchedPairs := 0;
      moves := 0;
      gameTime := 0;
      isGamePaused := false;
      canFlip := true;
      timerRunning := false;
    }

    /** Zeroes the counters and the clock and releases both locks; the cards stay. */
    method ResetGameStats()
      modifies this
      ensures moves == 0 && matchedPairs == 0 && gameTime == 0
      ensures flippedCards == [] && canFlip && !isGamePaused
      ensures gameCards == old(gameCards) && faceUp == old(faceUp) && matched == old(matched)
      ensures pendingHide == old(pendingHide) && timerRunning == old(timerRunning)
    {
      moves := 0;
      matchedPairs := 0;
      gameTime := 0;
      flippedCards := [];
      canFlip := true;
      isGamePaused := false;
    }

    /**
     * Deals `shuffled`, the symbols listed twice in the order the shuffle
     * chose, as a fresh grid of face-down cards. Hide callbacks still
     * pending belong to the discarded cards and no longer touch the board.
     */
    method CreateGameBoard(shuffled: seq<string>)
      requires IsPairDeck(shuffled, GAME_SYMBOLS)
      modifies this
      ensures |gameCards| == CARDS && gameCards == shuffled
      ensures faceUp == seq(CARDS, _ => false) && matched == seq(CARDS, _ => false)
      ensures pendingHide == []
      ensures flippedCards == old(flippedCards) && canFlip == old(canFlip)
      ensures matchedPairs == old(matchedPairs) && moves == old(moves) && gameTime == old(gameTime)
      ensures isGamePaused == old(isGamePaused) && timerRunning == old(timerRunning)
    {
      PairDeckSize(shuffled, GAME_SYMBOLS);
      gameCards := shuffled;
      faceUp := seq(CARDS, _ => false);
      matched := seq(CARDS, _ => false);
      pendingHide := [];
    }

    /** A new game: counters reset, a fresh board, the clock started. */
    method InitializeMemoryGame(shuffled: seq<string>)
      requires IsPairDeck(shuffled, GAME_SYMBOLS)
      modifies this
      ensures Valid()
      ensures gameCards == shuffled
      ensures faceUp == seq(CARDS, _ => false) && matched == seq(CARDS, _ => false)
      ensures flippedCards == [] && pendingHide == []
      ensures moves == 0 && matchedPairs == 0 && gameTime == 0
      ensures canFlip && !isGamePaused && timerRunning
    {
      ResetGameStats();
      CreateGameBoard(shuffled);
      timerRunning := true;
      PlayingFresh(gameCards);
    }

    /**
     * A click on card `i`: ignored while flips are locked, while paused, or
     * on a card already up or matched. Otherwise the card turns up and joins
     * the try; the second card of a try costs one move and locks flipping
     * until the try is resolved.
     */
    method FlipCard(i: nat)
      requires Valid() && i < CARDS
      modifies this
      ensures Valid()
      ensures gameCards == old(gameCards) && matched == old(matched)
      ensures matchedPairs == old(matchedPairs) && pendingHide == old(pendingHide)
      ensures gameTime == old(gameTime) && isGamePaused == old(isGamePaused)
      ensures timerRunning == old(timerRunning)
      ensures old(!canFlip || faceUp[i] || matched[i] || isGamePaused) ==>
        faceUp == old(faceUp) && flippedCards == old(flippedCards)
        && moves == old(moves) && canFlip == old(canFlip)
      ensures old(canFlip && !faceUp[i] && !matched[i] && !isGamePaused) ==>
        faceUp == old(faceUp)[i := true] && flippedCards == old(flippedCards) + [i]
        && moves == old(moves) + (if |flippedCards| == 2 then 1 else 0)
        && canFlip == (|flippedCards| < 2)
    {
      if !canFlip || faceUp[i] || matched[i] || isGamePaused {
        return;
      }
      PlayingAfterFlip(gameCards, faceUp, matched, flippedCards, pendingHide, matchedPairs, moves, i);
      faceUp := faceUp[i := true];
      flippedCards := flippedCards + [i];
      if |flippedCards| == 2 {
        moves := moves + 1;
        canFlip := false;
      }
    }

    /**
     * The timer that resolves a try. Equal symbols become a matched pair,
     * and the eighth pair stops the clock; unequal cards are queued to be
     * turned face down. The try is cleared and flipping unlocked at once.
     * Fired with fewer than two cards in the try, the page's callback fails
     * on the missing card before it changes anything.
     */
    method CheckForMatch()
      requires Valid()
      modifies this
      ensures Valid()
      ensures gameCards == old(gameCards) && faceUp == old(faceUp) && moves == old(moves)
      ensures gameTime == old(gameTime) && isGamePaused == old(isGamePaused)
      ensures old(|flippedCards|) != 2 ==>
        matched == old(matched) && matchedPairs == old(matchedPairs)
        && flippedCards == old(flippedCards) && pendingHide == old(pendingHide)
        && canFlip == old(canFlip) && timerRunning == old(timerRunning)
      ensures old(|flippedCards|) == 2 ==>
        var a, b := old(flippedCards[0]), old(flippedCards[1]);
        flippedCards == [] && canFlip &&
        if gameCards[a] == gameCards[b] then
          matched == old(matched)[a := true][b := true]
          && matchedPairs == old(matchedPairs) + 1 && pendingHide == old(pendingHide)
          && timerRunning == (old(timerRunning) && matchedPairs != |GAME_SYMBOLS|)
        else
          matched == old(matched) && matchedPairs == old(matchedPairs)
          && pendingHide == old(pendingHide) + [a, b] && timerRunning == old(timerRunning)
    {
      if |flippedCards| != 2 {
        return;
      }
      var a, b := flippedCards[0], flippedCards[1];
      assert flippedCards == [a, b];
      if gameCards[a] == gameCards[b] {
        PlayingAfterMatch(gameCards, faceUp, matched, flippedCards, pendingHide, matchedPairs, moves);
        matched := matched[a := true][b := true];
        matchedPairs := matchedPairs + 1;
        if matchedPairs == |GAME_SYMBOLS| {
          timerRunning := false;
        }
      } else {
        PlayingAfterMismatch(gameCards, faceUp, matched, flippedCards, pendingHide, matchedPairs, moves);
        pendingHide := pendingHide + [a, b];
      }
      flippedCards := [];
      canFlip := true;
    }

    /** The timer that turns the oldest mismatched pair face down again. */
    method HideMismatched()
      requires Valid()
      modifies this
      ensures Valid()
      ensures gameCards == old(gameCards) && matched == old(matched)
      ensures flippedCards == old(flippedCards) && canFlip == old(canFlip)
      ensures matchedPairs == old(matchedPairs) && moves == old(moves)
      ensures gameTime == old(gameTime) && isGamePaused == old(isGamePaused)
      ensures timerRunning == old(timerRunning)
      ensures old(|pendingHide|) < 2 ==> faceUp == old(faceUp) && pendingHide == old(pendingHide)
      ensures old(|pendingHide|) >= 2 ==>
        faceUp == old(faceUp)[old(pendingHide[0]) := false][old(pendingHide[1]) := false]
        && pendingHide == old(pendingHide[2..])
    {
      if |pendingHide| < 2 {
        return;
      }
      PlayingAfterHide(gameCards, faceUp, matched, flippedCards, pendingHide, matchedPairs, moves);
      faceUp := faceUp[pendingHide[0] := false][pendingHide[1] := false];
      pendingHide := pendingHide[2..];
    }

    /** The pause button toggles the pause. */
    method PauseGame()
      modifies this
      ensures isGamePaused == !old(isGamePaused)
      ensures gameCards == old(gameCards) && faceUp == old(faceUp) && matched == old(matched)
      ensures flippedCards == old(flippedCards) && pendingHide == old(pendingHide)
      ensures matchedPairs == old(matchedPairs) && moves == old(moves) && gameTime == old(gameTime)
      ensures canFlip == old(canFlip) && timerRunning == old(timerRunning)
    {
      isGamePaused := !isGamePaused;
    }

    /** One second of the game clock, counted only while running and not paused. */
    method Tick()
      modifies this
      ensures gameTime == old(gameTime) + (if old(timerRunning && !isGamePaused) then 1 else 0)
      ensures gameCards == old(gameCards) && faceUp == old(faceUp) && matched == old(matched)
      ensures flippedCards == old(flippedCards) && pendingHide == old(pendingHide)
      ensures matchedPairs == old(matchedPairs) && moves == old(moves)
      ensures isGamePaused == old(isGamePaused) && canFlip == old(canFlip)
      ensures timerRunning == old(timerRunning)
    {
      if timerRunning && !isGamePaused {
        gameTime := gameTime + 1;
      }
    }

    /** The game is complete, all eight pairs matched, exactly when every card is matched. */
    lemma CompleteIffAllMatched()
      requires Valid()
      ensures matchedPairs <= |GAME_SYMBOLS|
      ensures matchedPairs == |GAME_SYMBOLS| <==> forall i :: 0 <= i < CARDS ==> matched[i]
    {
      CountTrueAll(matched);
    }
  }
}
