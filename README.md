# Magic Eden mint executor, modelled in Dafny

The repository is a command-line script that mints NFTs through Magic Eden's
minting API on four EVM chains (Monad testnet, Arbitrum, Ethereum mainnet,
Base). It asks the user for a chain, a contract address and an amount. It then
fetches a mint quote from the marketplace and checks the wallet balance
against the quoted value. It estimates gas, falling back to 500000 when
estimation fails, sends the transaction, waits for one confirmation and
reports the receipt. A small marketplace client (`magiceden.js`) builds the
quote request and the trending-mints URL. It also looks up a collection by
trying three endpoints in order.

The model has these modules, one per file:

- `Wrappers` (`wrappers.dfy`): the `Option` type.
- `JsonValue` (`json_value.dfy`): parsed JSON values, JavaScript truthiness,
  optional property access (`a?.b`) and `a || b`.
- `JsText` (`js_text.dfy`): the parts of JavaScript the script relies on:
  - `String.prototype.trim`;
  - `parseInt` without a radix: white space, sign, a `0x` prefix, the longest
    digit prefix, and NaN as `None`;
  - the decimal rendering of an integer in a template literal.
- `MagicEden` (`magic_eden.dfy`): `quoteMintData` and `getAvailableMints` as
  builders of the request they would send. Also `getCollectionInfo` as a
  method that loops over the three endpoints; it is given each GET's outcome
  as a function from URL to parsed body, or `None` when the request throws.
  The trending URL comes with a parser, proved to be its inverse in both
  directions.
- `MintRun` (`mint_run.dfy`): the script's main async function, as the
  method `Run`. Every answer from outside is an input:
  - the environment variables;
  - the three prompt answers;
  - the wallet address and balance;
  - the network;
  - the quote;
  - the gas estimate and gas price;
  - the transaction hash, or the error code of a rejected send, and the
    receipt.

  `Run` returns how the run ended and the ordered trace of external calls it
  made. `Execute` adds the hints of the catch block as intended (`Catch`; see
  Findings). The method stages
  (`SelectChain`, `Mint`, `Send`) are proved equal to the specification
  functions `SelectedChain`/`RpcUrl`, `MintSpec`,
  `SendSpec` and `RunSpec`.
- `MintRunProperties` (`mint_run_properties.dfy`): what a run guarantees,
  stated over `RunSpec`:
  - the order of the checks;
  - what is quoted;
  - when a transaction is sent and what it carries;
  - the cost arithmetic;
  - how the receipt is classified.

Three behaviours of the script that its own messages suggest otherwise:

- **Balance and network first.** The balance and the network are read
  (index.js:100-103) before the contract is asked for and checked
  (index.js:108-113). So an invalid address ends the run after two RPC calls,
  but before any quote (`BadAddressEndsRun`).
- **Value-only balance check.** The catch block advises having "enough for
  mint cost + gas fees" (index.js:242), but the balance is compared with the
  quoted value only (index.js:163). See `BalanceChecked`.
- **Off-menu chain answer.** An answer off the chain menu prints "Using
  monad-testnet as default" (index.js:77). But the answer never sets the RPC URL, so
  the run always aborts with "RPC URL not found" (index.js:76-83). See
  `OffMenuAborts`.

## Model

| member | source | states |
|---|---|---|
| MintRun.Run | index.js:40-254 | the whole run is `RunSpec`: how it ends and the exact ordered calls it makes |
| MintRun.SelectChain | index.js:59-79 | menu answers 1–4 select monad-testnet, arbitrum, ethereum or base and read `RPC_URL_MONAD`, `RPC_URL_ARBITRUM`, `RPC_URL_ETH_MAINNET` or `RPC_URL_BASE`; any other answer selects monad-testnet and leaves the URL unset; an empty variable counts as unset |
| MintRun.Mint | index.js:137-165 | after the quote request: a failed request, a quote without steps, and a balance below the first step's value each abort, in that order and with no further call; otherwise gas, send and confirm follow |
| MintRun.Send | index.js:167-233 | gas estimate or 500000, fee data, a send of exactly that transaction, a wait for one confirmation within 300000 ms, then the receipt's classification; each failing call aborts at that point |
| MintRun.EnvValue | index.js:46 | an environment variable counts as present exactly when it is set and non-empty, and then it is that value |
| MintRun.CurrencySymbol | index.js:85-92 | MON exactly on monad-testnet, ETH on every other chain |
| MintRun.NetworkLabel | index.js:13-18 | a known chain id (10143, 42161, 1, 8453) gives its label; for an unknown id a non-empty reported name wins, and otherwise the selected chain is used |
| MintRun.Execute | index.js:44-253 | the `try` block's outcome and calls are `RunSpec`, and the hints are those of the catch block as intended (`Catch`; see Findings) for an aborted run, none otherwise |
| MintRun.CatchAsWritten | index.js:235-247 | as written, the catch block throws exactly when the error's code is INSUFFICIENT_FUNDS; otherwise it prints at most one hint, the nonce hint, and that exactly for NONCE_EXPIRED |
| MintRun.Catch | index.js:235-247 | as intended, the catch block prints the add-funds hint with the run's currency exactly for INSUFFICIENT_FUNDS, the nonce hint exactly for NONCE_EXPIRED, at most one hint and no other |
| MintRun.MintAmount | index.js:115-116 | never 0; 1 when `parseInt` gives NaN or 0; otherwise the parsed value, negatives included |
| MintRunProperties.KeyCheckedFirst | index.js:46-48 | no call at all without a private key (empty trace and `MissingPrivateKey`), and with one the first call is the chain prompt |
| MintRunProperties.MenuChoiceConnects | index.js:59-83 | a menu answer connects to the URL in its chain's variable, or aborts after the chain prompt naming that chain when the variable is unset or empty |
| MintRunProperties.OffMenuAborts | index.js:76-83 | any answer off the menu ends the run with "RPC URL not found" for monad-testnet after the chain prompt only, whatever the environment holds |
| MintRunProperties.CurrencyOfChoice | index.js:85-92 | the run's currency is MON exactly when the answer is not 2, 3 or 4, and ETH exactly when it is |
| MintRunProperties.BadAddressEndsRun | index.js:108-113 | the run ends quietly (not as an error) exactly when key and URL are present and the raw answer is empty or lacks `0x`; it has then read balance and network and made no quote request |
| MintRunProperties.CheckPrecedesTrim | index.js:109 | the check reads the untrimmed answer: " 0xabc" is refused though its trim would pass, and "0xabc " passes and is stored as "0xabc" |
| MintRunProperties.QuoteAsked | index.js:119-143 | past the checks, the seventh call posts to the mint-token endpoint a quote for the trimmed contract (still starting with `0x`), the wallet, the selected chain, the parsed amount and token 0 |
| MintRunProperties.QuoteChecked | index.js:137-147 | past the checks, the run aborts with a failed quote exactly when the request fails and with "no mint steps" exactly when `steps` is missing or empty |
| MintRunProperties.BalanceChecked | index.js:149-176 | with a first step, the insufficient-balance error happens exactly when balance < value; it comes before any gas estimate or send; an equal balance goes on to estimate gas for that step |
| MintRunProperties.SendOnlyAfterChecks | index.js:145-212 | a sent transaction implies every check passed; it carries the first step's to, value and data, a value the balance covers, the node's gas price, and the estimated gas limit or 500000 when estimation failed |
| MintRunProperties.SendIsTenthCall | index.js:203-212 | a send can only be the tenth call, so a run sends at most one transaction |
| MintRunProperties.ReceiptClassified | index.js:212-233 | after a send, a rejected send aborts with the node's error code and a missing receipt aborts; otherwise the run is `Mined` with that receipt, successful exactly when the status is 1, and a reverted mint is not an error |
| MintRunProperties.MinedReport | index.js:186-233 | a mined run reports its quoted configuration and network label; estimated gas cost = limit × price and total = value + that, exactly; actual cost = gasUsed × gasPrice on success; it ends with the wait for 1 confirmation within 300000 ms |
| MintRunProperties.HintsFollowSendError | index.js:235-247 | a run prints the add-funds hint, naming its currency, exactly when the node rejected the send for insufficient funds, and the nonce hint exactly when it rejected it for an expired nonce; it prints at most one hint and no other |
| MintRunProperties.HandlerThrowsOnUnderfundedSend | index.js:119-241 | a balance of 100 covering the value 100 but not the 21000 gas passes the check; the send is rejected with INSUFFICIENT_FUNDS, and the handler as written throws where the intended one prints the hint |
| MintRunProperties.MintAmountOfNumeral | index.js:116 | a numeral after blanks and before a non-digit mints that many, and 0 mints one |
| MintRunProperties.MintAmountDefaultsToOne | index.js:116 | blanks and a sign followed by no digit mint one |
| JsText.TrimSpec | index.js:120 | `trim` leaves nothing exactly when the input is all white space; otherwise the result neither starts nor ends with white space |
| JsText.TrimStrips | index.js:120 | `trim` of white space + core + white space is the core |
| JsText.TrimIdempotent | index.js:120 | trimming twice is trimming once |
| JsText.TrimKeepsHexPrefix | index.js:109-120 | a contract that passed the `0x` check still starts with `0x` after trimming |
| JsText.DigitPrefix | index.js:116 | the longest prefix made of digits of the radix |
| JsText.ParseIntOfNumeral | index.js:116 | `parseInt` of blanks, a rendered integer and a non-continuing tail is that integer |
| JsText.ParseIntRoundTrip | index.js:116 | `parseInt` inverts the decimal rendering of every integer |
| JsText.ParseIntNaN | index.js:116 | blanks and a sign with no digit after them give NaN |
| JsText.ParseIntHex | index.js:116 | without a radix a `0x` prefix reads hexadecimal: "0x1A" is 26 |
| JsText.ParseIntHexStops | index.js:116 | the hexadecimal digits end at the first other character: "0x1g" is 1 |
| JsText.ParseIntHexSigned | index.js:116 | the `0X` prefix is read after blanks and a sign: " -0X10" is -16 |
| JsText.ParseIntHexAlone | index.js:116 | the prefix with no digit after it is NaN: "0x" gives no number |
| JsText.NatToStringValue | magiceden.js:21 | the rendered numeral denotes the number |
| JsText.IntToString | magiceden.js:21 | a rendering is non-empty and made of digits and `-` |
| JsonValue.Prop | magiceden.js:35 | `v?.key` has a value exactly when `v` is an object holding `key`, and then it is that field's value |
| JsonValue.Or | magiceden.js:37-39 | `a || b` is the left operand when it is truthy and the right one otherwise, so it is truthy exactly when either operand is |
| MagicEden.QuoteMintData | magiceden.js:5-17 | a POST to `https://api-mainnet.magiceden.io/v4/self_serve/nft/mint_token`; the body is a public ERC1155 mint whose two wallet and two chain fields agree; it carries exactly the contract, wallet, chain, amount and token id given |
| MagicEden.QuoteDefaults | magiceden.js:5 | omitted arguments are chain "", amount 1, token 0 |
| MagicEden.QuoteInjective | magiceden.js:5-17 | different arguments give different requests |
| MagicEden.GetAvailableMints | magiceden.js:20-23 | a GET whose URL reads back, through the trending-URL parser, as exactly the chain, period and limit given, when they have no `/` or `&`; and no other URL reads back as them |
| MagicEden.TrendingUrlRoundTrip | magiceden.js:21 | the parser inverts `AvailableMintsUrl` on arguments without separators |
| MagicEden.TrendingUrlExact | magiceden.js:21 | a URL the parser accepts is exactly the template filled with what it read back, whose chain has no `/` and whose period has no `&` |
| MagicEden.TrendingDefaults | magiceden.js:20 | omitted arguments are chain "", period "1h", limit 200 |
| MagicEden.EndpointsDistinct | magiceden.js:26-30 | the lookup tries three distinct endpoints |
| MagicEden.QualifiesIsObject | magiceden.js:35 | an accepted reply is an object |
| MagicEden.Merge | magiceden.js:36-41 | the record has the reply's keys plus name, description and image; every key of the reply keeps the reply's value; a missing one of the three comes from `collection` |
| MagicEden.MergedNameTruthy | magiceden.js:35-37 | the merged name is truthy unless the reply's own `name` is present and falsy |
| MagicEden.SpreadOverridesFallback | magiceden.js:35-41 | a reply with `name: ""` and `collection.name: "Apes"` is accepted, yet its merged name is "": the spread comes last |
| MagicEden.GetCollectionInfo | magiceden.js:25-49 | endpoints are requested in order up to the first accepted reply and never past it; the result is that reply's merge; it is null exactly when no endpoint qualifies, all three having been tried |

## Left out

- `http.js` is not part of this model. It wraps axios, adds default headers,
  logs and rethrows. A marketplace call is the request value the builder
  returns, and its result is an input.
- The HTTP calls themselves. `quoteMintData` and `getAvailableMints` return
  the request they would send, not the response. `getCollectionInfo` receives
  each GET's outcome as a function.
- Prompts (readline), every `console.log`, `formatEther`/`formatUnits`
  display formatting and the `toUpperCase` of the printed chain. These are
  output only. The catch block's choice of hints is modelled (`Catch`,
  `CatchAsWritten`), but not the printing of the message and of
  `error.reason` (index.js:237, index.js:250-252).
- Error codes other than the send's: the model gives the script's own errors
  and the quote, fee-data and confirmation failures no `code`. So the catch
  block's hints are selected only for a rejected send.
- The ethers provider and wallet: connection, key derivation, signing,
  broadcast and the 300 s timeout mechanism. Their answers are inputs. The
  wallet address stands for `new ethers.Wallet(...).address`.
- `getBalance` and `getNetwork` are taken to succeed. A throw from them, from
  the provider constructor, from `new ethers.Wallet(...)` on a malformed
  `PRIVATE_KEY` (index.js:96; the model goes on to `GetBalance` for any
  non-empty key), or the TypeError of `quote.steps` on a `null` quote body
  (index.js:145), is not modelled. The throws from the quote,
  the fee data (a missing gas price), the send and the confirmation are.
- `dotenv` loading and the async/Promise machinery. The environment is a map
  and the calls are sequential.
- `BigInt(valueFromAPI)` and `steps[0].params` access: the step's value is
  taken as an already-parsed integer, so a malformed value or missing
  `params` (a throw in the script) is not modelled.
- MintRun.MintAmount: uses exact integers, so it does not model `parseInt`'s
  rounding to a double for numerals beyond 2^53. Beyond 1e21 it also leaves
  out JavaScript's exponent rendering of the amount.
- MagicEden.GetAvailableMints: its round trip is stated only for a chain
  without `/` and a period without `&`, because the script pastes the
  arguments into the URL without escaping. The limit is rendered with exact
  integers, so JavaScript's exponent rendering of `${limit}` beyond 1e21 is
  not modelled.
- JSON numbers are integers. Fractional numbers and key order are not
  modelled; key order does not affect any lookup here.
- Concurrency: none exists; the run is strictly sequential.

## Findings

| source | as written | input that shows it | evidently intended | confidence | as-written member | corrected member |
|---|---|---|---|---|---|---|
| index.js:119-241 | `config` is a `const` inside the `try` block, and the catch block reads `config?.currency` when the error's code is INSUFFICIENT_FUNDS. `config` is out of scope there, so the handler throws a ReferenceError and the script's promise is left rejected | balance 100, quoted value 100, gas estimate 21000 at price 1: the value-only balance check passes, and the node rejects the send with INSUFFICIENT_FUNDS | the handler prints the add-funds hint with the run's currency and ends the run normally | high; not executed | MintRun.CatchAsWritten, MintRunProperties.HandlerThrowsOnUnderfundedSend | MintRun.Catch, MintRunProperties.HintsFollowSendError |
