/**
 * Facts shared by the two memory-card games: counting the cards that carry a
 * flag, and what it means for a shuffled board to hold every symbol twice.
 */
module Cards {

  /** Number of `true` entries: the cards that are matched, face up, ... */
  function CountTrue(s: seq<bool>): (n: nat)
    ensures n <= |s|
  {
    if s == [] then 0 else (if s[0] then 1 else 0) + CountTrue(s[1..])
  }

  /** Turning one `false` flag on adds exactly one to the count. */
  lemma {:induction false} CountTrueSet(s: seq<bool>, i: nat)
    requires i < |s| && !s[i]
    ensures CountTrue(s[i := true]) == CountTrue(s) + 1
  {
    if i > 0 {
      assert s[i := true][1..] == s[1..][i - 1 := true];
      CountTrueSet(s[1..], i - 1);
    }
  }

  /** The count reaches the length exactly when every flag is on. */
  lemma {:induction false} CountTrueAll(s: seq<bool>)
    ensures CountTrue(s) == |s| <==> forall i :: 0 <= i < |s| ==> s[i]
  {
    if s != [] {
      CountTrueAll(s[1..]);
      if forall i :: 0 <= i < |s| ==> s[i] {
        assert forall i :: 0 <= i < |s[1..]| ==> s[1..][i] by {
          forall i | 0 <= i < |s[1..]| ensures s[1..][i] { assert s[1..][i] == s[i + 1]; }
        }
      } else {
        var k :| 0 <= k < |s| && !s[k];
        if k > 0 {
          assert !s[1..][k - 1];
        }
      }
    }
  }

  /** A row of cards with no flag set counts zero. */
  lemma {:induction false} CountTrueNone(n: nat)
    ensures CountTrue(seq(n, _ => false)) == 0
  {
    if n > 0 {
      assert seq(n, _ => false)[1..] == seq(n - 1, _ => false);
      CountTrueNone(n - 1);
    }
  }

  predicate Distinct<T(==)>(s: seq<T>) {
    forall i, j :: 0 <= i < j < |s| ==> s[i] != s[j]
  }

  /** `board` is some ordering of the symbols listed twice. */
  predicate IsPairDeck<T(==)>(board: seq<T>, symbols: seq<T>) {
    multiset(board) == multiset(symbols + symbols)
  }

  /** A board dealt from the symbols listed twice has twice as many cards as symbols. */
  lemma PairDeckSize<T>(board: seq<T>, symbols: seq<T>)
    requires IsPairDeck(board, symbols)
    ensures |board| == 2 * |symbols|
  {
    assert |multiset(board)| == |board|;
    assert |multiset(symbols + symbols)| == |symbols + symbols|;
  }

  lemma {:induction false} DistinctOccursOnce<T>(s: seq<T>, x: T)
    requires Distinct(s)
    ensures multiset(s)[x] == if x in s then 1 else 0
  {
    if s != [] {
      assert s == [s[0]] + s[1..];
      assert Distinct(s[1..]) by {
        forall i, j | 0 <= i < j < |s[1..]| ensures s[1..][i] != s[1..][j] {
          assert s[1..][i] == s[i + 1] && s[1..][j] == s[j + 1];
        }
      }
      DistinctOccursOnce(s[1..], x);
      if x == s[0] {
        assert x !in s[1..] by {
          forall k | 0 <= k < |s[1..]| ensures s[1..][k] != x { assert s[1..][k] == s[k + 1]; }
        }
      }
    }
  }

  /**
   * Whatever the shuffle did, a board of distinct symbols listed twice has
   * twice as many cards as symbols, each symbol exactly twice, and nothing
   * else.
   */
  lemma PairDeckCounts<T>(board: seq<T>, symbols: seq<T>, x: T)
    requires Distinct(symbols) && IsPairDeck(board, symbols)
    ensures |board| == 2 * |symbols|
    ensures multiset(board)[x] == if x in symbols then 2 else 0
  {
    PairDeckSize(board, symbols);
    assert multiset(symbols + symbols) == multiset(symbols) + multiset(symbols);
    DistinctOccursOnce(symbols, x);
  }
}
