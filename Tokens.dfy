/**
 * Token discovery for a connected address: a fixed catalog of four mock
 * "Clanker" tokens, each given a sampled balance and USD value, and the
 * filter that keeps only the tokens actually held.
 */
module Tokens {
  import opened Wrappers

  /** A catalog entry: what is known about a token before its balance is read. */
  datatype TokenInfo = TokenInfo(symbol: string, name: string, contract: string, decimals: nat, price: real)

  /**
   * A holding as the wallet keeps it: the catalog entry spread out, plus a
   * balance and a USD value. `usdValue` is optional because the valuation
   * accepts any token list and counts a missing value as 0.
   */
  datatype Token = Token(
    symbol: string, name: string, contract: string, decimals: nat, price: real,
    balance: real, usdValue: Option<real>)

  /** The two numbers sampled per catalog entry (`pension-simulator.tsx` draws them with `Math.random`). */
  datatype Draw = Draw(balance: real, usdValue: real)

  /** The mock catalog probed on every discovery pass, in the order `fetchClankerTokens` lists it. */
  const Catalog: seq<TokenInfo> := [
    TokenInfo("PEPE", "Pepe Token", "0x123...", 18, 0.001),
    TokenInfo("DOGE", "Doge Coin", "0x456...", 18, 0.08),
    TokenInfo("SHIB", "Shiba Inu", "0x789...", 18, 0.00001),
    TokenInfo("WOJAK", "Wojak Token", "0xabc...", 18, 0.005)
  ]

  /** Lower bound of a sampled balance: `Math.random() * 1000 + 100`. */
  const MinSampledBalance: real := 100.0

  /** A catalog entry with its sampled balance and USD value attached. */
  function Holding(info: TokenInfo, d: Draw): Token {
    Token(info.symbol, info.name, info.contract, info.decimals, info.price, d.balance, Some(d.usdValue))
  }

  /** Pairs every catalog entry with its draw, keeping the catalog's order. */
  function Appraise(catalog: seq<TokenInfo>, draws: seq<Draw>): (r: seq<Token>)
    requires |draws| == |catalog|
    ensures |r| == |catalog|
    ensures forall i :: 0 <= i < |r| ==>
      && r[i].symbol == catalog[i].symbol && r[i].name == catalog[i].name
      && r[i].contract == catalog[i].contract && r[i].decimals == catalog[i].decimals
      && r[i].price == catalog[i].price && r[i].balance == draws[i].balance
    ensures forall i :: 0 <= i < |r| ==> r[i].usdValue == Some(draws[i].usdValue)
  {
    seq(|catalog|, i requires 0 <= i < |catalog| => Holding(catalog[i], draws[i]))
  }

  /** Held(t): the token survives the filter `balance > 0`. */
  predicate Held(t: Token) {
    t.balance > 0.0
  }

  /**
   * The tokens with a positive balance, in their original order. Every
   * token it returns is held and came from `ts`; every held token of `ts`
   * is returned, as many times as it occurs there.
   */
  function Retained(ts: seq<Token>): (r: seq<Token>)
    ensures |r| <= |ts|
    ensures forall t :: t in r ==> t in ts && Held(t)
    ensures forall t :: t in ts && Held(t) ==> t in r
    ensures forall t :: multiset(r)[t] == if Held(t) then multiset(ts)[t] else 0
  {
    if ts == [] then []
    else
      var rest := Retained(ts[1..]);
      assert multiset(ts) == multiset{ts[0]} + multiset(ts[1..]) by {
        assert ts == [ts[0]] + ts[1..];
      }
      if Held(ts[0]) then [ts[0]] + rest else rest
  }

  /** Filtering a concatenation filters each part and keeps them in order. */
  lemma {:induction false} RetainedAppend(a: seq<Token>, b: seq<Token>)
    ensures Retained(a + b) == Retained(a) + Retained(b)
  {
    if a == [] {
      assert a + b == b;
    } else {
      assert (a + b)[1..] == a[1..] + b;
      RetainedAppend(a[1..], b);
    }
  }

  /** When every token is held the filter changes nothing. */
  lemma {:induction false} RetainedAllHeld(ts: seq<Token>)
    requires forall i :: 0 <= i < |ts| ==> Held(ts[i])
    ensures Retained(ts) == ts
  {
    if ts != [] {
      RetainedAllHeld(ts[1..]);
    }
  }

  /** Filtering twice is filtering once. */
  lemma {:induction false} RetainedIdempotent(ts: seq<Token>)
    ensures Retained(Retained(ts)) == Retained(ts)
  {
    var r := Retained(ts);
    forall i | 0 <= i < |r| ensures Held(r[i]) {
      assert r[i] in r;
    }
    RetainedAllHeld(r);
  }

  /**
   * With the sampling range of `fetchClankerTokens` (every balance at least 100) the
   * filter keeps the whole catalog: one holding per catalog entry.
   */
  lemma SampledCatalogFullyRetained(draws: seq<Draw>)
    requires |draws| == |Catalog|
    requires forall i :: 0 <= i < |draws| ==> draws[i].balance >= MinSampledBalance
    ensures Retained(Appraise(Catalog, draws)) == Appraise(Catalog, draws)
    ensures |Retained(Appraise(Catalog, draws))| == 4
  {
    RetainedAllHeld(Appraise(Catalog, draws));
  }
}
