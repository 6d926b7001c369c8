# Crypto pension simulator: wallet session and projections in Dafny

This project models the logic core of `pension-simulator.tsx`, a browser
demo that connects to a MetaMask wallet on the Base network, reads the ETH
balance, attaches a list of mock "Clanker" tokens, and projects the
portfolio forward at 8% a year over 2, 5 and 10 years.

- `Wrappers.dfy`: the `Option` type for values the TypeScript code may leave out.
- `Tokens.dfy` (module `Tokens`): the four-token mock catalog, the pairing
  of each entry with its sampled balance and USD value (`Appraise`), and the
  `balance > 0` filter (`Retained`).
- `Projections.dfy` (module `Projections`): `usePensionProjections.calculate`
  over exact reals. It covers the token total (a left fold, missing values
  counting 0), the portfolio in ETH at 2000 USD, integer powers of 1.08, and
  one `Projection` per horizon.
- `Wallet.dfy` (module `Wallet`): the `useWallet` hook as the class
  `WalletSession`. It holds the five-field `WalletState` record, the token
  list and the token-loading flag. `connect` takes everything the wallet
  provider answers as one `Gateway` value. It then runs the same
  sequence as the `useWallet` hook: accounts, network switch, balance, tokens, final write.
  `switchToBaseNetwork` is a function that returns the requests it sent and
  the error it lets escape.
- `Formatting.dfy` (module `Formatting`): `formatters.address`, built on a
  model of JavaScript's clamping `slice`.
- `Screens.dfy` (module `Screens`): the landing/meme/simulator flow of
  `PensionSimulator` as the class `PensionSimulator`, and the meme carousel
  tick `(prev + 1) % 3`.

In these places the code does something a reader might not expect, and the model follows the code:

- A failed balance query inside `connect` sets the "Failed to get balance"
  error, and the final write then sets `connected` without clearing it. So
  "connected implies no error" does not hold; `ConnectedDespiteBalanceError`
  shows such a run.
- An empty account list (or any other failure in `connect`) only sets
  `error` and `loading`. A session that was connected before stays
  connected with its old address and balance; `NoAccountsKeepsEarlierSession`
  shows this.
- After the "unrecognized chain" code 4902 the session registers the chain
  but does not retry the switch. Any other switch error is ignored.
- There is no account-change or network-change subscription in the code.
- Token USD values are sampled independently of balance and price; they
  are not computed as `balance * price`.
- `disconnect` clears the token list but does not reset `loadingTokens`.

## Model

| member | source | states |
|---|---|---|
| Tokens.Appraise | pension-simulator.tsx:49-62 | one holding per catalog entry, in catalog order, carrying that entry's symbol, name, contract address, decimals and price, and its sampled balance and USD value |
| Tokens.Retained | pension-simulator.tsx:63 | the result holds exactly the tokens of the input with a positive balance, each as many times as in the input: each kept token is from the input and held, each held input token is kept |
| Tokens.RetainedAppend | pension-simulator.tsx:63 | filtering a concatenation is the concatenation of the filtered parts, so the filter keeps the input's order |
| Tokens.RetainedAllHeld | pension-simulator.tsx:63 | the filter is the identity on a list whose tokens all have a positive balance |
| Tokens.RetainedIdempotent | pension-simulator.tsx:63 | filtering an already filtered list changes nothing |
| Tokens.SampledCatalogFullyRetained | pension-simulator.tsx:57-63 | with sampled balances of at least 100, all four catalog tokens survive the filter |
| Projections.SumUsd | pension-simulator.tsx:166 | the token total (a left fold, a missing USD value counting 0) is non-negative when every present value is; its partners are SumUsdAppend and SumUsdPermutation |
| Projections.SumUsdAppend | pension-simulator.tsx:166 | the token total of a concatenation is the sum of the two totals |
| Projections.SumUsdRemove | pension-simulator.tsx:166 | removing one token lowers the total by that token's value (0 if missing) |
| Projections.SumUsdPermutation | pension-simulator.tsx:166 | the token total is the same for any reordering of the token list |
| Projections.PortfolioEth | pension-simulator.tsx:166-169 | the portfolio in ETH is the balance plus the token total divided by the 2000 USD price |
| Projections.Pow | pension-simulator.tsx:176 | a power of a positive factor is positive |
| Projections.PowIncreasing | pension-simulator.tsx:176 | for a factor above 1, a higher exponent gives a strictly larger power |
| Projections.GrowthFactors | pension-simulator.tsx:171-176 | 1.08^2 = 1.1664, 1.08^5 = 1.4693280768 and 1.08^10 = 2.15892499727278669824 exactly |
| Projections.ProjectionAt | pension-simulator.tsx:175-187 | future value is principal times 1.08^years; gains are future value minus principal; total return is (future value / principal - 1) * 100 and depends on the horizon only; the monthly withdrawal times years * 12 * 0.8 gives back the future value |
| Projections.Calculate | pension-simulator.tsx:164-191 | exactly three projections, for 2, 5 and 10 years in that order, each the projection of the whole portfolio at that horizon |
| Projections.CalculateFutureValues | pension-simulator.tsx:171-176 | the three future values are 1.1664, 1.4693280768 and 2.15892499727278669824 times the portfolio |
| Projections.ProjectionIncreasing | pension-simulator.tsx:176 | for a positive principal a longer horizon has a strictly larger future value |
| Projections.CalculateIncreasing | pension-simulator.tsx:171-176 | for a positive portfolio the principal and the three future values are strictly increasing |
| Projections.CalculateReorder | pension-simulator.tsx:164-191 | reordering the token list changes neither the portfolio value nor the projections |
| Projections.ProjectionScales | pension-simulator.tsx:176-179 | scaling the principal by k scales the future value by k and leaves the total return unchanged |
| Wallet.WeiToEth | pension-simulator.tsx:35 | the ether amount is non-negative and times 10^18 gives back the wei amount |
| Wallet.SwitchToBaseNetwork | pension-simulator.tsx:72-94 | exactly one switch request to chain 0x2105; a registration request for Base follows iff the switch failed with code 4902; an error escapes iff that registration failed, carrying its message; other switch errors are swallowed |
| Wallet.WalletSession.constructor | pension-simulator.tsx:8-18 | the session starts disconnected and zeroed, with no tokens and no discovery in flight |
| Wallet.WalletSession.UpdateError | pension-simulator.tsx:24-26 | sets the error message and clears loading; every other field of the record is kept |
| Wallet.WalletSession.UpdateBalance | pension-simulator.tsx:28-42 | on success returns and stores wei / 10^18; on failure returns 0, sets the "Failed to get balance: " message, clears loading and keeps the stored balance |
| Wallet.WalletSession.FetchClankerTokens | pension-simulator.tsx:45-70 | the token list is replaced wholesale by the held catalog tokens, or kept when discovery fails; loadingTokens is false afterwards and every kept token has a positive balance |
| Wallet.WalletSession.Connect | pension-simulator.tsx:96-130 | no provider: only error (MetaMask message) and loading change; rejected or empty account list, or failed chain registration: only error ("Failed to connect wallet: ...") and loading change; otherwise connected with the first account, the queried balance (0 on failure), loading false, the error empty or the balance failure, and tokens from discovery; connected changes only on that last path |
| Wallet.WalletSession.Disconnect | pension-simulator.tsx:132-141 | the record becomes exactly (false, "", 0, false, "") and the token list empty, from any prior state |
| Wallet.ConnectedDespiteBalanceError | pension-simulator.tsx:35-41 | one run on a fresh session whose balance query fails ends connected, with balance 0 and the balance error set |
| Wallet.NoAccountsKeepsEarlierSession | pension-simulator.tsx:102-129 | one run on a fresh session: a connect with no accounts after a successful one keeps connected and the old address and sets the "No accounts found" error |
| Formatting.ClampIndex | pension-simulator.tsx:209 | a slice index is clamped to [0, length], negative indices counting back from the end |
| Formatting.JsSlice | pension-simulator.tsx:209 | the slice has length end - start of the clamped indices (0 if empty) and its characters are those of the string from the clamped start |
| Formatting.ShortAddress | pension-simulator.tsx:209 | the first min(6, n) characters, then "...", then the last min(4, n) characters |
| Formatting.ShortAddressOfLongAddress | pension-simulator.tsx:209 | an address of at least 10 characters shortens to 13: its first six, "...", its last four |
| Screens.ScreenFor | pension-simulator.tsx:563-569 | "yes" leads to the simulator, "no" to the meme screen, never back to landing |
| Screens.NextMeme | pension-simulator.tsx:313 | the next meme index is below 3, one more than the previous one, wrapping from the last to 0 |
| Screens.MemeAfterCycles | pension-simulator.tsx:309-316 | after k ticks from the first meme the carousel shows meme k mod 3 |
| Screens.EveryMemeShown | pension-simulator.tsx:309-316 | every meme is shown within any three consecutive ticks |
| Screens.PensionSimulator.constructor | pension-simulator.tsx:553-554 | the component starts on the landing screen with a zeroed wallet session |
| Screens.PensionSimulator.HandleLandingAnswer | pension-simulator.tsx:563-569 | the screen becomes the one the answer selects |
| Screens.PensionSimulator.HandleBackToLanding | pension-simulator.tsx:571-574 | the screen becomes landing and the wallet is disconnected to the zeroed record with no tokens |

## Left out

- The wallet provider calls (`eth_requestAccounts`, `wallet_switchEthereumChain`, `wallet_addEthereumChain`, `eth_getBalance`) and the `isMetaMaskInstalled` probe are I/O. Their outcomes are inputs (`Gateway`). Request payloads are modelled only as chain id and name; RPC and explorer URLs and currency metadata are not.
- The hexadecimal decoding of the balance (`Number.parseInt(..., 16)`) is library behaviour. The balance arrives as a whole number of wei.
- Wallet.WeiToEth: computes over exact reals; the TypeScript code's `parseInt` loses precision above 2^53 wei and its division by 10^18 rounds, which the model does not capture.
- The address arguments of `updateBalance` and `fetchClankerTokens` are not modelled. The first is used only in the provider request; the second is never used.
- `Math.random` balances and USD values are nondeterministic. They are the `Draw` inputs, one per catalog entry.
- React scheduling is not modelled: functional state updates interleaving across awaits, the effect that recalculates when the balance or tokens change, the stored `projections` state with its Recalculate button, and the three-second carousel timer. `connect` runs as one sequential step; the carousel is modelled one tick at a time.
- `console.error` logging of a failed discovery is not modelled.
- Error values are modelled by their message strings; a thrown value without `message` is not distinguished.
- Projections.Calculate: requires a non-zero portfolio, because `calculate` divides by it and yields NaN in floating point; IEEE rounding of `Math.pow` and division is not modelled (exact reals).
- Projections.ProjectionAt: requires a non-zero principal and a positive horizon for the same reason.
- `formatters.currency` and `formatters.eth` are `Intl.NumberFormat` and `toFixed` formatting.
- All JSX components and styling are UI.
