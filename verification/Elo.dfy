/** The rating update at the end of a match, in exact real arithmetic. */
module Elo {

  /** What the law needs to know of x -> 10^x: it is positive and turns negation into inversion. */
  ghost predicate PowerLike(pow10: real -> real) {
    forall x :: pow10(x) > 0.0 && pow10(x) * pow10(-x) == 1.0
  }

  const K := 30.0

  function ExpectedScore(pow10: real -> real, own: int, other: int): real
    requires PowerLike(pow10)
  {
    1.0 / (1.0 + pow10((other - own) as real / 400.0))
  }

  /** `std::round`: to the nearest integer, halves away from zero. */
  function Round(x: real): int {
    if x >= 0.0 then (x + 0.5).Floor else -((-x + 0.5).Floor)
  }

  function NewRating(pow10: real -> real, own: int, other: int, score: real): int
    requires PowerLike(pow10)
  {
    Round(own as real + K * (score - ExpectedScore(pow10, own, other)))
  }

  lemma {:induction false} ExpectedScoreRange(pow10: real -> real, own: int, other: int)
    requires PowerLike(pow10)
    ensures 0.0 < ExpectedScore(pow10, own, other) < 1.0
  {
    assert pow10((other - own) as real / 400.0) > 0.0;
    Fraction(pow10((other - own) as real / 400.0));
  }

  lemma {:induction false} Fraction(p: real)
    requires p > 0.0
    ensures 0.0 < 1.0 / (1.0 + p) < 1.0
  {
  }

  lemma {:induction false} Complement(p: real, q: real)
    requires p > 0.0 && q > 0.0 && p * q == 1.0
    ensures 1.0 / (1.0 + p) + 1.0 / (1.0 + q) == 1.0
  {
    var a, b := 1.0 / (1.0 + p), 1.0 / (1.0 + q);
    assert a * (1.0 + p) == 1.0 && b * (1.0 + q) == 1.0;
    calc {
      (a + b) * ((1.0 + p) * (1.0 + q));
      (a * (1.0 + p)) * (1.0 + q) + (b * (1.0 + q)) * (1.0 + p);
      (1.0 + q) + (1.0 + p);
      1.0 + p + q + p * q;
      (1.0 + p) * (1.0 + q);
    }
  }

  /** The two expected scores of a match add up to one. */
  lemma {:induction false} ExpectedScoresSumToOne(pow10: real -> real, a: int, b: int)
    requires PowerLike(pow10)
    ensures ExpectedScore(pow10, a, b) + ExpectedScore(pow10, b, a) == 1.0
  {
    var x := (b - a) as real / 400.0;
    assert (a - b) as real / 400.0 == -x;
    assert pow10(x) > 0.0 && pow10(-x) > 0.0 && pow10(x) * pow10(-x) == 1.0;
    Complement(pow10(x), pow10(-x));
  }

  lemma {:induction false} RoundNear(n: int, d: real)
    ensures -0.5 <= Round(n as real + d) as real - (n as real + d) <= 0.5
    ensures d >= 0.0 ==> Round(n as real + d) >= n
    ensures d <= 0.0 ==> Round(n as real + d) <= n
    ensures -30.0 <= d <= 30.0 ==> n - 30 <= Round(n as real + d) <= n + 30
  {
  }

  /** What a match does to the ratings of its two players: both changes are at most 30, they cancel
      up to one point of rounding, the winner never loses points and the loser never gains any. */
  lemma {:induction false} RatingLaw(pow10: real -> real, a: int, b: int, score: real)
    requires PowerLike(pow10) && score in {0.0, 0.5, 1.0}
    ensures var da, db := NewRating(pow10, a, b, score) - a, NewRating(pow10, b, a, 1.0 - score) - b;
            && -30 <= da <= 30 && -30 <= db <= 30
            && -1 <= da + db <= 1
            && (score == 1.0 ==> da >= 0 && db <= 0)
            && (score == 0.0 ==> da <= 0 && db >= 0)
  {
    ExpectedScoreRange(pow10, a, b);
    ExpectedScoresSumToOne(pow10, a, b);
    var d := K * (score - ExpectedScore(pow10, a, b));
    assert K * (1.0 - score - ExpectedScore(pow10, b, a)) == -d;
    assert -30.0 <= d <= 30.0;
    RoundNear(a, d);
    RoundNear(b, -d);
  }

  /** Halves are rounded away from zero. */
  lemma {:induction false} HalvesAway(n: int)
    requires n >= 0
    ensures Round(n as real + 0.5) == n + 1 && Round(-(n as real) - 0.5) == -n - 1
  {
    assert -(-(n as real) - 0.5) + 0.5 == (n + 1) as real;
  }

  // ---------------------------------------------------------------- who is expected to win

  /** A power that grows from 1 on. */
  ghost predicate GrowsFromOne(pow10: real -> real) {
    forall x :: x >= 0.0 ==> pow10(x) >= 1.0
  }

  lemma {:induction false} AtMostHalf(p: real)
    requires p >= 1.0
    ensures 0.0 < 1.0 / (1.0 + p) <= 0.5
  {
    var a := 1.0 / (1.0 + p);
    assert a * (1.0 + p) == 1.0;
    assert a > 0.0;
    assert a * p >= a * 1.0;
    assert a + a * p == 1.0;
  }

  /** The higher rated player is expected to score at least one half, the other at most one half. */
  lemma {:induction false} FavouriteExpectsMore(pow10: real -> real, high: int, low: int)
    requires PowerLike(pow10) && GrowsFromOne(pow10) && high >= low
    ensures ExpectedScore(pow10, low, high) <= 0.5 <= ExpectedScore(pow10, high, low)
  {
    var x := (high - low) as real / 400.0;
    assert x >= 0.0 && pow10(x) >= 1.0;
    AtMostHalf(pow10(x));
    ExpectedScoresSumToOne(pow10, high, low);
  }

  /** Each 400 points of difference multiply the odds by ten: 400 points ahead means 10 to 1. */
  lemma {:induction false} TenToOne(pow10: real -> real, low: int)
    requires PowerLike(pow10) && pow10(1.0) == 10.0
    ensures ExpectedScore(pow10, low, low + 400) == 1.0 / 11.0
    ensures ExpectedScore(pow10, low + 400, low) == 10.0 / 11.0
  {
    assert (low + 400 - low) as real / 400.0 == 1.0;
    ExpectedScoresSumToOne(pow10, low, low + 400);
  }

  /** Between equals each is expected to score one half. */
  lemma {:induction false} EqualsExpectHalf(pow10: real -> real, r: int)
    requires PowerLike(pow10)
    ensures ExpectedScore(pow10, r, r) == 0.5
  {
    ExpectedScoresSumToOne(pow10, r, r);
  }

  // ---------------------------------------------------------------- the ledger

  type Ratings = map<nat, int>

  function RatingOf(ratings: Ratings, user: nat): int {
    if user in ratings then ratings[user] else 1000
  }

  function SetRating(ratings: Ratings, user: nat, rating: int): Ratings {
    if user in ratings then ratings[user := rating] else ratings
  }

  /** Both ratings are read first and then written; a winner who is neither player changes nothing. */
  function Rate(pow10: real -> real, ratings: Ratings, player1: nat, player2: nat, winner: nat): Ratings
    requires PowerLike(pow10)
  {
    var r1, r2 := RatingOf(ratings, player1), RatingOf(ratings, player2);
    var s := if winner == 0 then 0.5 else if winner == player1 then 1.0 else 0.0;
    var n1 := if winner in {0, player1, player2} then NewRating(pow10, r1, r2, s) else r1;
    var n2 := if winner in {0, player1, player2} then NewRating(pow10, r2, r1, 1.0 - s) else r2;
    SetRating(SetRating(ratings, player1, n1), player2, n2)
  }

  /** Nobody but the two players is touched, and neither by more than 30 points. */
  ghost predicate OnlyRates(before: Ratings, after: Ratings, player1: nat, player2: nat) {
    && after.Keys == before.Keys
    && forall user :: user in before ==>
         && before[user] - 30 <= after[user] <= before[user] + 30
         && (user !in {player1, player2} ==> after[user] == before[user])
  }

  /** The winner never loses points and the loser never gains any. */
  ghost predicate RatesFairly(before: Ratings, after: Ratings, player1: nat, player2: nat, winner: nat) {
    && OnlyRates(before, after, player1, player2) && player1 in before && player2 in before
    && (winner == player1 ==> after[player1] >= before[player1] && after[player2] <= before[player2])
    && (winner == player2 ==> after[player1] <= before[player1] && after[player2] >= before[player2])
    && (winner !in {0, player1, player2} ==> after == before)
  }

  /** How a match between two registered users is rated: the winner never loses points, the loser never gains any, and
      from equal ratings a win moves exactly 15 points and a draw none. */
  lemma {:induction false} RateLaw(pow10: real -> real, ratings: Ratings, player1: nat, player2: nat, winner: nat)
    requires PowerLike(pow10) && player1 != player2 && 0 !in {player1, player2}
    requires player1 in ratings && player2 in ratings
    ensures var after := Rate(pow10, ratings, player1, player2, winner);
            && RatesFairly(ratings, after, player1, player2, winner)
            && (ratings[player1] == ratings[player2] && winner in {0, player1, player2} ==>
                 && after[player1] - ratings[player1]
                    == (if winner == 0 then 0 else if winner == player1 then 15 else -15)
                 && after[player2] - ratings[player2]
                    == (if winner == 0 then 0 else if winner == player2 then 15 else -15))
  {
    hide NewRating, ExpectedScore, PowerLike;
    var r1, r2 := ratings[player1], ratings[player2];
    EqualRatings(pow10, r1);
    if winner == 0 {
      RatingLaw(pow10, r1, r2, 0.5);
      assert 1.0 - 0.5 == 0.5;
    } else if winner == player1 {
      RatingLaw(pow10, r1, r2, 1.0);
      assert 1.0 - 1.0 == 0.0;
    } else if winner == player2 {
      RatingLaw(pow10, r1, r2, 0.0);
      assert 1.0 - 0.0 == 1.0;
    } else {
      NoRating(pow10, ratings, player1, player2, winner);
    }
  }

  lemma {:induction false} NoRating(pow10: real -> real, ratings: Ratings, player1: nat, player2: nat, winner: nat)
    requires PowerLike(pow10) && winner !in {0, player1, player2}
    ensures Rate(pow10, ratings, player1, player2, winner) == ratings
  {
  }

  lemma {:induction false} EqualRatings(pow10: real -> real, r: int)
    requires PowerLike(pow10)
    ensures NewRating(pow10, r, r, 1.0) == r + 15 && NewRating(pow10, r, r, 0.0) == r - 15
    ensures NewRating(pow10, r, r, 0.5) == r
  {
    EqualsExpectHalf(pow10, r);
    hide ExpectedScore;
    assert r as real + K * (1.0 - 0.5) == (r + 15) as real;
    assert r as real + K * (0.0 - 0.5) == (r - 15) as real;
    RoundExact(r + 15);
    RoundExact(r - 15);
    RoundExact(r);
    hide Round;
  }

  lemma {:induction false} RoundExact(n: int)
    ensures Round(n as real) == n
  {
  }

  /** Beating a player who is rated at least as high earns 15 points or more, beating one who is rated no higher at most
      15; and in a draw the higher rated player gains nothing and the other loses nothing. */
  lemma {:induction false} UpsetEarnsMore(pow10: real -> real, high: int, low: int)
    requires PowerLike(pow10) && GrowsFromOne(pow10) && high >= low
    ensures NewRating(pow10, low, high, 1.0) >= low + 15 && NewRating(pow10, high, low, 1.0) <= high + 15
    ensures NewRating(pow10, high, low, 0.5) <= high && NewRating(pow10, low, high, 0.5) >= low
  {
    FavouriteExpectsMore(pow10, high, low);
    hide ExpectedScore;
  }

  function Total(ratings: Ratings, users: seq<nat>): int {
    if users == [] then 0
    else Total(ratings, users[..|users| - 1]) + RatingOf(ratings, users[|users| - 1])
  }

  predicate Distinct(users: seq<nat>) {
    forall i, j :: 0 <= i < j < |users| ==> users[i] != users[j]
  }

  lemma {:induction false} TotalAfterSet(ratings: Ratings, users: seq<nat>, user: nat, rating: int)
    requires Distinct(users) && user in ratings
    ensures Total(ratings[user := rating], users)
         == Total(ratings, users) + (if user in users then rating - ratings[user] else 0)
  {
    if users != [] {
      var front, last := users[..|users| - 1], users[|users| - 1];
      TotalAfterSet(ratings, front, user, rating);
      assert users == front + [last];
      assert user in users <==> user in front || user == last;
      if user == last {
        assert user !in front;
      }
    }
  }

  /** One rated match moves the total of all ratings by at most one point. */
  lemma {:induction false} RateKeepsTotal(pow10: real -> real, ratings: Ratings, users: seq<nat>, player1: nat,
                                          player2: nat, winner: nat)
    requires PowerLike(pow10) && Distinct(users)
    requires player1 != player2 && player1 in ratings && player2 in ratings && player1 in users && player2 in users
    ensures -1 <= Total(Rate(pow10, ratings, player1, player2, winner), users) - Total(ratings, users) <= 1
    ensures Rate(pow10, ratings, player1, player2, winner).Keys == ratings.Keys
  {
    var r1, r2 := ratings[player1], ratings[player2];
    var s := if winner == 0 then 0.5 else if winner == player1 then 1.0 else 0.0;
    RatingLaw(pow10, r1, r2, s);
    var n1 := if winner in {0, player1, player2} then NewRating(pow10, r1, r2, s) else r1;
    var n2 := if winner in {0, player1, player2} then NewRating(pow10, r2, r1, 1.0 - s) else r2;
    TotalAfterSet(ratings, users, player1, n1);
    TotalAfterSet(ratings[player1 := n1], users, player2, n2);
  }
}
