/**
 Pricing: tokens to credits. Amounts are whole cents, multipliers are hundredths, so the
 program's two-decimal rounding up is an integer ceiling.
 */
module CreditPolicy {
  import opened Wrappers

  datatype Profile = Production | Demo | FreeOfCharge

  const MULTIPLIER_NONE: nat := 0
  const MULTIPLIER_ONE: nat := 100
  const ESTIMATED_MAX_OUTPUT_TOKENS: nat := 1024

  function Lower(s: string): string
    decreases |s|
  {
    if s == [] then []
    else [if 'A' <= s[0] <= 'Z' then s[0] + 32 as char else s[0]] + Lower(s[1..])
  }

  function MultiplierFor(profile: Profile, provider: string): nat {
    match profile
    case FreeOfCharge => MULTIPLIER_NONE
    case Demo => MULTIPLIER_ONE
    case Production =>
      if Lower(provider) == "ollama" || Lower(provider) == "mock" then MULTIPLIER_NONE else MULTIPLIER_ONE
  }

  /** Smallest integer not below n / d. */
  function CeilDiv(n: nat, d: nat): (q: nat)
    requires 0 < d
    ensures n <= q * d
    ensures q == 0 || (q - 1) * d < n
  {
    if n == 0 then 0 else (n - 1) / d + 1
  }

  function CalculateCost(profile: Profile, provider: string, inputTokens: int, outputTokens: int): nat {
    CeilDiv((AtLeastZero(inputTokens) + AtLeastZero(outputTokens)) * MultiplierFor(profile, provider), 1000)
  }

  function EstimatedInputTokens(inputChars: nat): nat {
    if inputChars / 4 < 1 then 1 else inputChars / 4
  }

  function EstimateRequestCost(profile: Profile, provider: string, inputChars: nat): nat {
    CalculateCost(profile, provider, EstimatedInputTokens(inputChars), ESTIMATED_MAX_OUTPUT_TOKENS)
  }

  // ---------------------------------------------------------------- laws

  lemma MulMonotone(a: nat, b: nat, d: nat)
    requires a <= b
    ensures a * d <= b * d
  {
    assert b * d == a * d + (b - a) * d;
  }

  lemma CeilDivMonotone(m: nat, n: nat, d: nat)
    requires 0 < d && m <= n
    ensures CeilDiv(m, d) <= CeilDiv(n, d)
  {
    var p, q := CeilDiv(m, d), CeilDiv(n, d);
    if q < p {
      MulMonotone(q, p - 1, d);
    }
  }

  /** More tokens never cost less. */
  lemma CostMonotone(profile: Profile, provider: string, inputTokens: int, outputTokens: int, moreIn: int, moreOut: int)
    requires AtLeastZero(inputTokens) + AtLeastZero(outputTokens) <= AtLeastZero(moreIn) + AtLeastZero(moreOut)
    ensures CalculateCost(profile, provider, inputTokens, outputTokens) <= CalculateCost(profile, provider, moreIn, moreOut)
  {
    hide MultiplierFor, CeilDiv, AtLeastZero;
    var m := MultiplierFor(profile, provider);
    var used, more := AtLeastZero(inputTokens) + AtLeastZero(outputTokens), AtLeastZero(moreIn) + AtLeastZero(moreOut);
    MulMonotone(used, more, m);
    CeilDivMonotone(used * m, more * m, 1000);
  }

  /** The estimate of a request whose provider is not free: it depends on the prompt's length alone. */
  function FullEstimate(inputChars: nat): nat {
    CeilDiv((EstimatedInputTokens(inputChars) + ESTIMATED_MAX_OUTPUT_TOKENS) * MULTIPLIER_ONE, 1000)
  }

  lemma EstimateIsFull(profile: Profile, provider: string, inputChars: nat)
    ensures EstimateRequestCost(profile, provider, inputChars)
            == if MultiplierFor(profile, provider) == 0 then 0 else FullEstimate(inputChars)
    ensures 102 < FullEstimate(inputChars)
  {
    hide Lower;
    var n := (EstimatedInputTokens(inputChars) + ESTIMATED_MAX_OUTPUT_TOKENS) * MULTIPLIER_ONE;
    assert n >= 102500;
  }

  /** It is a hundredth per ten tokens begun: a token for every four characters of the prompt, at least one, and 1024 for the reply. */
  lemma FullEstimateIs(inputChars: nat)
    ensures var tokens := 1024 + (if inputChars < 8 then 1 else inputChars / 4);
            10 * (FullEstimate(inputChars) - 1) < tokens <= 10 * FullEstimate(inputChars)
  {
  }

  /** Charging two parts separately costs the same as charging them together, or one cent more. */
  lemma CeilDivSplit(m: nat, n: nat, d: nat)
    requires 0 < d
    ensures CeilDiv(m + n, d) <= CeilDiv(m, d) + CeilDiv(n, d) <= CeilDiv(m + n, d) + 1
  {
    var p, q, r := CeilDiv(m, d), CeilDiv(n, d), CeilDiv(m + n, d);
    assert m + n <= (p + q) * d by { assert (p + q) * d == p * d + q * d; }
    if p + q < r {
      MulMonotone(p + q, r - 1, d);
    }
    if 0 < p && 0 < q {
      assert (p - 1) * d + (q - 1) * d == (p + q - 2) * d;
      if r < p + q - 1 {
        MulMonotone(r, p + q - 2, d);
      }
    }
  }

  /** Splitting a request in two can cost at most one cent more, never less. */
  lemma CostOfSplitRequest(profile: Profile, provider: string, a: nat, b: nat)
    ensures var whole := CalculateCost(profile, provider, a + b, 0);
            whole <= CalculateCost(profile, provider, a, 0) + CalculateCost(profile, provider, b, 0) <= whole + 1
  {
    hide MultiplierFor, CeilDiv;
    var m := MultiplierFor(profile, provider);
    var x, y := a * m, b * m;
    assert (a + b) * m == x + y;
    CeilDivSplit(x, y, 1000);
  }

  /** A request is free exactly when its provider is, or it used no tokens. */
  lemma CostZeroIff(profile: Profile, provider: string, inputTokens: int, outputTokens: int)
    ensures CalculateCost(profile, provider, inputTokens, outputTokens) == 0 <==>
            MultiplierFor(profile, provider) == 0 || (inputTokens <= 0 && outputTokens <= 0)
  {
    hide Lower;
    var t, m := AtLeastZero(inputTokens) + AtLeastZero(outputTokens), MultiplierFor(profile, provider);
    if 0 < t && 0 < m {
      assert t <= t * m;
    }
  }

  /** A zero estimate means the provider is free, so the actual cost is zero whatever was used. */
  lemma ZeroEstimateIsFree(profile: Profile, provider: string, inputChars: nat, inputTokens: int, outputTokens: int)
    requires EstimateRequestCost(profile, provider, inputChars) == 0
    ensures CalculateCost(profile, provider, inputTokens, outputTokens) == 0
  {
    CostZeroIff(profile, provider, EstimatedInputTokens(inputChars), ESTIMATED_MAX_OUTPUT_TOKENS);
    CostZeroIff(profile, provider, inputTokens, outputTokens);
  }

  /** Using no more tokens than estimated never costs more than the estimate. */
  lemma WithinEstimate(profile: Profile, provider: string, inputChars: nat, inputTokens: int, outputTokens: int)
    requires AtLeastZero(inputTokens) + AtLeastZero(outputTokens)
             <= EstimatedInputTokens(inputChars) + ESTIMATED_MAX_OUTPUT_TOKENS
    ensures CalculateCost(profile, provider, inputTokens, outputTokens)
            <= EstimateRequestCost(profile, provider, inputChars)
  {
    CostMonotone(profile, provider, inputTokens, outputTokens, EstimatedInputTokens(inputChars), ESTIMATED_MAX_OUTPUT_TOKENS);
  }

  /** The same letters, whatever their case. */
  ghost predicate SameLetters(a: string, b: string) {
    |a| == |b| && forall i :: 0 <= i < |a| ==>
                                || a[i] == b[i]
                                || ('A' <= a[i] <= 'Z' && b[i] as int == a[i] as int + 32)
                                || ('A' <= b[i] <= 'Z' && a[i] as int == b[i] as int + 32)
  }

  lemma {:induction false} LowerIs(s: string, small: string)
    requires forall i :: 0 <= i < |small| ==> 'a' <= small[i] <= 'z'
    ensures Lower(s) == small <==> SameLetters(s, small)
    decreases |s|
  {
    if s != [] && small != [] {
      LowerIs(s[1..], small[1..]);
      assert Lower(s)[1..] == Lower(s[1..]);
      assert Lower(s) == small <==> Lower(s)[0] == small[0] && Lower(s[1..]) == small[1..] by {
        assert small == [small[0]] + small[1..];
      }
      assert SameLetters(s, small) <==> SameLetters([s[0]], [small[0]]) && SameLetters(s[1..], small[1..]) by {
        assert forall i :: 0 < i < |s| ==> s[i] == s[1..][i - 1];
        assert forall i :: 0 < i < |small| ==> small[i] == small[1..][i - 1];
      }
    }
  }

  /**
   Nobody pays for a request on the free profile, everybody does on the demo profile, and in production all but those who
   use ollama or mock, in whatever case the name is written.
   */
  lemma WhoPays(profile: Profile, provider: string, inputChars: nat)
    ensures EstimateRequestCost(profile, provider, inputChars)
            == if profile.FreeOfCharge?
                  || (profile.Production? && (SameLetters(provider, "ollama") || SameLetters(provider, "mock")))
               then 0 else FullEstimate(inputChars)
  {
    hide Lower, FullEstimate, SameLetters, EstimateRequestCost;
    EstimateIsFull(profile, provider, inputChars);
    LowerIs(provider, "ollama");
    LowerIs(provider, "mock");
  }
}
