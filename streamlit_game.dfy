/**
 * The memory-card game shown in the Streamlit front end while a learning
 * crew runs: a 4x4 board of eight emoji pairs kept in the session's
 * `game_state`, whose flag lists are updated in place by each click.
 */
module StreamlitGame {
  import opened Wrappers
  import opened Strings
  import opened Cards

  const CARDS: nat := 16

  /** Brain, light bulb, books, target, rocket, star, palette, microscope. */
  const EMOJIS: seq<string> := [
    "\U{1F9E0}", "\U{1F4A1}", "\U{1F4DA}", "\U{1F3AF}",
    "\U{1F680}", "\U{2B50}", "\U{1F3A8}", "\U{1F52C}"
  ]

  /**
   * Every board the game deals holds each emoji exactly twice and nothing
   * else, whatever order the shuffle chose.
   */
  lemma DealtBoardHoldsPairs(board: seq<string>, e: string)
    requires IsPairDeck(board, EMOJIS)
    ensures |board| == CARDS
    ensures multiset(board)[e] == if e in EMOJIS then 2 else 0
  {
    PairDeckCounts(board, EMOJIS, e);
  }

  /** The `mm:ss` clock of the game, from the seconds since it started. */
  function ElapsedClock(elapsed: nat): string {
    TwoDigits(elapsed / 60) + ":" + TwoDigits(elapsed % 60)
  }

  /**
   * The clock reads back as the elapsed minutes and seconds; the seconds
   * always take two digits, and so do the minutes below 100.
   */
  lemma ElapsedClockRoundTrip(elapsed: nat)
    ensures var r := ElapsedClock(elapsed);
      && |r| >= 5 && r[|r| - 3] == ':'
      && (elapsed < 6000 ==> |r| == 5)
      && ParseClock(r) == Some((elapsed / 60, elapsed % 60))
  {
    var minutes, seconds := elapsed / 60, elapsed % 60;
    assert ElapsedClock(elapsed) == TwoDigits(minutes) + ":" + TwoDigits(seconds);
    assert seconds < 60;
    PaddedClock(minutes, seconds);
    assert elapsed < 6000 ==> minutes < 100;
  }

  lemma PaddedClock(minutes: nat, seconds: nat)
    requires seconds < 60
    ensures var r := TwoDigits(minutes) + ":" + TwoDigits(seconds);
      && |r| >= 5 && r[|r| - 3] == ':'
      && (minutes < 100 ==> |r| == 5)
      && ParseClock(r) == Some((minutes, seconds))
  {
    ParseClockOf(TwoDigits(minutes), TwoDigits(seconds));
  }

  class MemoryGame {
    var board: seq<string>
    var flipped: seq<bool>
    var matched: seq<bool>
    var moves: nat
    var pairsFound: nat
    var gameStarted: bool
    var startTime: Option<int>
    var selectedCards: seq<nat>

    /**
     * The state between two steps of a click: sixteen cards, at most two
     * selected, the selected cards face up and unmatched, every other
     * face-up card matched, and two matched cards per pair found.
     */
    ghost predicate Consistent()
      reads this
    {
      && |board| == CARDS && |flipped| == CARDS && |matched| == CARDS
      && |selectedCards| <= 2
      && (forall k :: 0 <= k < |selectedCards| ==> selectedCards[k] < CARDS)
      && (forall k :: 0 <= k < |selectedCards| ==>
            flipped[selectedCards[k]] && !matched[selectedCards[k]])
      && (|selectedCards| == 2 ==> selectedCards[0] != selectedCards[1] && pairsFound < moves)
      && (forall i {:trigger flipped[i], matched[i]} :: 0 <= i < CARDS && flipped[i] && !matched[i] ==> i in selectedCards)
      && (forall i {:trigger flipped[i], matched[i]} :: 0 <= i < CARDS && matched[i] ==> flipped[i])
      && CountTrue(matched) == 2 * pairsFound
      && pairsFound <= moves
    }

    /** The state between clicks: at most one card waits for its partner. */
    ghost predicate Valid()
      reads this
    {
      Consistent() && |selectedCards| <= 1
    }

    constructor ()
      ensures !gameStarted && startTime == None
      ensures board == [] && flipped == [] && matched == [] && selectedCards == []
      ensures moves == 0 && pairsFound == 0
    {
      board := [];
      flipped := [];
      matched := [];
      moves := 0;
      pairsFound := 0;
      gameStarted := false;
      startTime := None;
      selectedCards := [];
    }

    /** Deals `shuffled` (the emojis twice, in the shuffle's order) face down. */
    method InitializeMemoryGame(shuffled: seq<string>, now: int)
      requires IsPairDeck(shuffled, EMOJIS)
      modifies this
      ensures Valid()
      ensures board == shuffled
      ensures flipped == seq(CARDS, _ => false) && matched == seq(CARDS, _ => false)
      ensures moves == 0 && pairsFound == 0 && selectedCards == []
      ensures gameStarted && startTime == Some(now)
    {
      PairDeckSize(shuffled, EMOJIS);
      board := shuffled;
      flipped := seq(CARDS, _ => false);
      matched := seq(CARDS, _ => false);
      moves := 0;
      pairsFound := 0;
      gameStarted := true;
      startTime := Some(now);
      selectedCards := [];
      CountTrueNone(CARDS);
    }

    /** The Reset button: the game stops being shown, its state stays. */
    method StopGame()
      modifies this
      ensures !gameStarted
      ensures board == old(board) && flipped == old(flipped) && matched == old(matched)
      ensures moves == old(moves) && pairsFound == old(pairsFound)
      ensures startTime == old(startTime) && selectedCards == old(selectedCards)
    {
      gameStarted := false;
    }

    /**
     * Resolves a complete selection: a matching pair stays up as matched,
     * a mismatched pair is turned face down again; either way the
     * selection is cleared. With fewer than two cards selected it does
     * nothing.
     */
    method CheckForMatch()
      requires Consistent()
      modifies this
      ensures Consistent()
      ensures board == old(board) && moves == old(moves)
      ensures gameStarted == old(gameStarted) && startTime == old(startTime)
      ensures old(|selectedCards|) != 2 ==>
        flipped == old(flipped) && matched == old(matched)
        && pairsFound == old(pairsFound) && selectedCards == old(selectedCards)
      ensures old(|selectedCards|) == 2 ==>
        var a, b := old(selectedCards[0]), old(selectedCards[1]);
        selectedCards == [] &&
        if board[a] == board[b] then
          matched == old(matched)[a := true][b := true]
          && flipped == old(flipped) && pairsFound == old(pairsFound) + 1
        else
          matched == old(matched) && flipped == old(flipped)[a := false][b := false]
          && pairsFound == old(pairsFound)
    {
      if |selectedCards| != 2 {
        return;
      }
      var a, b := selectedCards[0], selectedCards[1];
      if board[a] == board[b] {
        CountTrueSet(matched, a);
        CountTrueSet(matched[a := true], b);
        matched := matched[a := true];
        matched := matched[b := true];
        pairsFound := pairsFound + 1;
      } else {
        flipped := flipped[a := false];
        flipped := flipped[b := false];
      }
      selectedCards := [];
    }

    /**
     * A click on card `idx`: ignored on a card already up or matched;
     * otherwise the card turns up and joins the selection, and a second
     * selected card costs one move and is resolved at once.
     */
    method HandleCardClick(idx: nat)
      requires Valid() && idx < CARDS
      modifies this
      ensures Valid()
      ensures board == old(board) && gameStarted == old(gameStarted) && startTime == old(startTime)
      ensures old(flipped[idx] || matched[idx]) ==>
        flipped == old(flipped) && matched == old(matched) && moves == old(moves)
        && pairsFound == old(pairsFound) && selectedCards == old(selectedCards)
      ensures !old(flipped[idx] || matched[idx]) && old(selectedCards) == [] ==>
        flipped == old(flipped)[idx := true] && matched == old(matched)
        && selectedCards == [idx] && moves == old(moves) && pairsFound == old(pairsFound)
      ensures !old(flipped[idx] || matched[idx]) && old(selectedCards) != [] ==>
        var other := old(selectedCards[0]);
        selectedCards == [] && moves == old(moves) + 1 &&
        if board[other] == board[idx] then
          matched == old(matched)[other := true][idx := true]
          && flipped == old(flipped)[idx := true] && pairsFound == old(pairsFound) + 1
        else
          matched == old(matched) && flipped == old(flipped)[other := false]
          && pairsFound == old(pairsFound)
    {
      if flipped[idx] || matched[idx] {
        return;
      }
      if |selectedCards| >= 2 {
        return;
      }
      flipped := flipped[idx := true];
      selectedCards := selectedCards + [idx];
      if |selectedCards| == 2 {
        moves := moves + 1;
        CheckForMatch();
      }
    }

    /** The game is won, eight pairs found, exactly when every card is matched. */
    lemma CompleteIffAllMatched()
      requires Consistent()
      ensures pairsFound <= 8
      ensures pairsFound == 8 <==> forall i :: 0 <= i < CARDS ==> matched[i]
    {
      CountTrueAll(matched);
    }
  }
}
