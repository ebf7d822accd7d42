/**
 * The fixed tables of the bot: the three slot symbols and their payout tiers,
 * the two odd/even answers, the dice and horse ranges, and the shop's prices.
 */
module Payouts {

  /** The three slot symbols: cherry, lemon, bell. */
  datatype Symbol = Cherry | Lemon | Bell

  /** How often `x` occurs in `s` (the list's `count`). */
  function Count(s: seq<Symbol>, x: Symbol): (n: nat)
    ensures n <= |s|
    ensures n == |s| <==> forall i :: 0 <= i < |s| ==> s[i] == x
  {
    if s == [] then 0 else (if s[0] == x then 1 else 0) + Count(s[1..], x)
  }

  /**
   * The slot multiplier of three drawn symbols: 5 when the first symbol occurs
   * three times, 2 when the reels show exactly two different symbols, else 0.
   */
  function SlotMultiplier(a: Symbol, b: Symbol, c: Symbol): (m: nat)
    ensures m == 5 <==> a == b == c
    ensures m == 2 <==> !(a == b == c) && (a == b || b == c || a == c)
    ensures m == 0 <==> a != b && b != c && a != c
  {
    var reels := [a, b, c];
    assert reels[0] == a && reels[1] == b && reels[2] == c;
    if Count(reels, reels[0]) == 3 then 5
    else if |{a, b, c}| == 2 then 2
    else 0
  }

  /** The two answers of the odd/even game. */
  datatype Parity = Odd | Even

  /** The word a player types for each answer. */
  function Label(p: Parity): (w: string)
    ensures |w| == 1
  {
    match p
    case Odd => "홀"
    case Even => "짝"
  }

  /** The two answers are different words, so a guess matches at most one of them. */
  lemma LabelsDistinct()
    ensures forall p, q :: Label(p) == Label(q) <==> p == q
  {
  }

  /** Faces of the die and numbers of the horses. */
  const DieFaces: int := 6
  const Horses: int := 4

  /** The shop's price table. */
  const Catalogue: map<string, nat> := map[
    "치킨" := 30000,
    "500만 메소" := 30000,
    "피자" := 45000,
    "족발" := 60000,
    "길드 명찰" := 10000
  ]

  /**
   * The shop sells exactly five items, each for between 10000 and 60000 points,
   * so a new user (0 points) can afford none of them.
   */
  lemma CatalogueBounds()
    ensures Catalogue.Keys == {"치킨", "500만 메소", "피자", "족발", "길드 명찰"}
    ensures forall item :: item in Catalogue ==> 10000 <= Catalogue[item] <= 60000
  {
  }
}
