/** Token estimates and their conversion to credits. */
module Tokens {
  const INPUT_OVERHEAD := 32

  /** The most tokens a request can cost: every input byte a token, plus overhead, plus the output cap. */
  function Ceiling(inputBytes: nat, maxCompletion: int): int {
    (if inputBytes > 0 then inputBytes + INPUT_OVERHEAD else 0) + (if maxCompletion < 0 then 0 else maxCompletion)
  }

  function ToCredits(tokens: int, tokensPerCredit: int): int {
    var per := if tokensPerCredit < 1 then 1 else tokensPerCredit;
    if tokens <= 0 then 0
    else if (tokens + per - 1) / per < 1 then 1 else (tokens + per - 1) / per
  }

  /** The smallest number of credits that covers the tokens. */
  lemma CreditsCover(tokens: int, tokensPerCredit: int)
    ensures var per := if tokensPerCredit < 1 then 1 else tokensPerCredit;
            var n := ToCredits(tokens, tokensPerCredit);
            && (tokens <= 0 <==> n == 0) && n >= 0
            && (tokens > 0 ==> (n - 1) * per < tokens <= n * per)
  {
    var per := if tokensPerCredit < 1 then 1 else tokensPerCredit;
    if tokens > 0 {
      var q := (tokens + per - 1) / per;
      assert tokens + per - 1 == q * per + (tokens + per - 1) % per;
      Multiples(q, 0, per);
      assert (q - 1) * per == q * per - per;
    }
  }

  lemma Multiples(x: int, y: int, per: int)
    requires per >= 1
    ensures x <= y ==> x * per <= y * per
  {
  }

  /** More tokens never cost fewer credits, so a hold for a ceiling covers everything under it. */
  lemma CreditsMonotone(fewer: int, more: int, tokensPerCredit: int)
    requires fewer <= more
    ensures ToCredits(fewer, tokensPerCredit) <= ToCredits(more, tokensPerCredit)
  {
    var per := if tokensPerCredit < 1 then 1 else tokensPerCredit;
    CreditsCover(fewer, tokensPerCredit);
    CreditsCover(more, tokensPerCredit);
    Multiples(ToCredits(more, tokensPerCredit), ToCredits(fewer, tokensPerCredit) - 1, per);
  }

  /** What a credit covers: at least one token. */
  function PerCredit(tokensPerCredit: int): int { if tokensPerCredit < 1 then 1 else tokensPerCredit }

  /** The hold for a request is the least number of credits that covers a token for each byte of input, 32 more, and the
      whole output. */
  lemma HoldIsLeast(inputBytes: nat, maxCompletion: int, tokensPerCredit: int, m: int)
    requires inputBytes > 0 && maxCompletion > 0
    ensures var n := ToCredits(Ceiling(inputBytes, maxCompletion), tokensPerCredit);
            var per := PerCredit(tokensPerCredit);
            n * per >= inputBytes + 32 + maxCompletion && (m * per >= inputBytes + 32 + maxCompletion ==> m >= n)
  {
    var n, per := ToCredits(Ceiling(inputBytes, maxCompletion), tokensPerCredit), PerCredit(tokensPerCredit);
    CreditsCover(Ceiling(inputBytes, maxCompletion), tokensPerCredit);
    Multiples(m, n - 1, per);
  }

  /** Without input nothing is counted for it, and a cap that is not positive adds nothing. */
  lemma CeilingOfLess(inputBytes: nat, maxCompletion: int)
    ensures maxCompletion <= 0 ==> Ceiling(inputBytes, maxCompletion) == Ceiling(inputBytes, 0)
    ensures Ceiling(0, maxCompletion) <= 0 <==> maxCompletion <= 0
    ensures inputBytes > 0 ==> Ceiling(inputBytes, 0) == inputBytes + 32
    ensures maxCompletion > 0 ==> Ceiling(0, maxCompletion) == maxCompletion
  {
  }
}
