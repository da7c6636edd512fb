# CUBE Terminal: gateway and command shell

This project models the two halves of the CUBE Terminal:

- **The aggregation gateway** (`server/server.js`) has four read-only routes:
  - token detail, from three Solana RPC calls;
  - trending pools, from the market-data provider;
  - social links;
  - security audit.

  Each route takes whatever the upstream returned, with any field possibly missing. It normalises that into a fixed response shape, or into an `{ error }` body with an HTTP status.
- **The command shell** (`src/components/pages/terminal.jsx`) is modelled as a pure state machine. Its state has four parts:
  - the log of displayed lines;
  - the loading flag;
  - the pending secondary prompt, if any;
  - the gateway calls still in flight.

  There are two kinds of event: an Enter keystroke carrying the input's text, and the settlement of one call in flight.

Modules:

- `Wrappers` holds `Option`.
- `JsText` holds the JavaScript built-ins the code relies on:
  - `trim` over the ECMAScript white-space set;
  - `split(" ")`, which keeps empty pieces;
  - `parseInt` with sign, `0x` prefix and longest digit prefix;
  - the `||` fallback on strings;
  - decimal rendering of a counter;
  - the end index of `slice(0, end)`.
- `Gateway` holds the four routes.
- `Shell` holds the log lines, command parsing, dispatch, the secondary prompts, the settlement of calls, and `Step`/`Run`.
- `ShellProperties` holds the lemmas about `Step`.

Log entries are a datatype with one constructor per statement that appends text. `Shell.Render` gives the exact text of each entry. Formatted numbers are left as structured parts.

Two behaviours of the code are worth stating plainly, since a reader might expect otherwise:

- **Token detail** runs all three RPC calls inside one `try`. Any failure, including an invalid address, gives `500` and "Failed to fetch token details.". It is not a best-effort composite.
- **Holder percentage** in the `check` report is `(uiAmount || 0) / tokenSupply * 100`, with no guard for a zero supply. A zero supply gives `NaN` or an infinity, not 0%.

The shell behaves as follows; the model does the same:

- While a secondary prompt is pending, its one-shot input listener runs before the input's own key handler and clears the field. So that line is neither echoed nor dispatched, and even a blank line resolves the prompt.
- The loading flag is a single boolean. Socials and audit calls never touch it. The first `check` or trending call to settle clears it, even while another such call is still in flight.

## Model

| member | source | states |
|---|---|---|
| `JsText.Trim` | src/components/pages/terminal.jsx:498-499 | the trimmed input has no ECMAScript white space at either end and is no longer than the raw input; that it is exactly the raw input minus a white-space prefix and suffix is stated by `JsText.TrimIsMiddle` |
| `JsText.TrimIsMiddle` | src/components/pages/terminal.jsx:498-499 | the trimmed input is a contiguous slice of the raw input, and everything cut off before and after it is white space |
| `JsText.TrimEmptyIff` | src/components/pages/terminal.jsx:498 | the Enter guard `value.trim()` is falsy exactly when the input is all white space |
| `JsText.TrimIdempotent` | src/components/pages/terminal.jsx:101 | re-trimming the already trimmed input in `handleCommand` changes nothing |
| `JsText.Split` | src/components/pages/terminal.jsx:102 | `split(" ")` yields at least one piece, no piece contains a space, and the pieces joined with spaces give back the input |
| `JsText.SplitJoin` | src/components/pages/terminal.jsx:102 | splitting a space-join of space-free words gives back exactly those words |
| `JsText.OrElse` | server/server.js:100-103 | the falsy fallback of a string yields the fallback exactly when the value is missing, empty or the fallback itself, and otherwise the value |
| `JsText.NatToString` | src/components/pages/terminal.jsx:82 | a rendered counter is a non-empty run of decimal digits without a leading zero |
| `JsText.HornerNatToString` | src/components/pages/terminal.jsx:82 | the digits of a rendered counter denote that counter |
| `JsText.ParseIntNatToString` | server/server.js:75 | `parseInt` reads back every non-negative integer the shell renders into `?limit=` |
| `JsText.ParseIntDecimalPrefix` | server/server.js:75 | `parseInt` reads any leading run of decimal digits, leading zeros included, as its decimal value and ignores what follows the first non-digit; only a lone `0` followed by `x` or `X` is excluded, being a hexadecimal prefix |
| `JsText.ParseIntSkipsSpace` | server/server.js:75 | `parseInt` skips leading ECMAScript white space: a white-space prefix never changes what it reads |
| `JsText.ParseIntMinus` | server/server.js:75 | after one leading `-`, `parseInt` reads the negation of what the unsigned rest reads, and `NaN` when the rest has no digit |
| `JsText.ParseIntPlus` | server/server.js:75 | one leading `+` changes nothing that `parseInt` reads |
| `JsText.ParseIntHex` | server/server.js:75 | after a `0x` or `0X` prefix, `parseInt` reads the longest run of hexadecimal digits in either case as a base-16 number |
| `JsText.SliceEnd` | server/server.js:99 | `slice(0, end)` keeps min(end, n) elements for a non-negative end, and max(n + end, 0) for a negative one, where n is the array length |
| `Gateway.Authority` | server/server.js:46-49 | a reported authority is null when the mint info is missing or its field is empty, and otherwise it is that field |
| `Gateway.TokenDetails` | server/server.js:26-64 | success exactly when the trimmed address is a public key and all three RPC calls return; every failure is 500 with one message; supply defaults to 0, accounts to [], liquidity is the placeholder; both authorities are read from the mint info under the falsy-to-null rule |
| `Gateway.TrendingLimit` | server/server.js:75 | the limit is never 0; a missing, non-numeric or zero parameter gives 5; whenever `parseInt` reads a non-zero number, that number is the limit |
| `Gateway.ParseIntOfUndefined` | server/server.js:75 | an absent `limit` parameter parses to NaN, so it falls back to 5 |
| `Gateway.MoneyOf` | server/server.js:108-113 | a price or volume is shown exactly when it is present and non-zero, and then it carries the upstream amount |
| `Gateway.ProjectPool` | server/server.js:99-116 | name and symbol are main/side with "Unknown"/"N/A" fallbacks; price and volume are the main token's amounts under the money rule, and "N/A" without a main token; the url is the upstream url unless that is missing or empty, then "N/A" |
| `Gateway.Trending` | server/server.js:71-130 | an answer without pools is 404; an upstream error passes its status and body through; no response is 500; otherwise the first `limit` pools, projected in order |
| `Gateway.TrendingLength` | server/server.js:99 | a positive limit yields min(limit, pools); a negative limit drops that many pools from the end |
| `Gateway.TrendingLimitOfRendered` | server/server.js:75 | the limit the shell puts in the query is the limit the route uses |
| `Gateway.TrendingFirstPools` | server/server.js:99-116 | asking for `limit` of at least that many pools gives exactly the first `limit`, projected in order |
| `Gateway.Socials` | server/server.js:131-163 | success exactly when some link is truthy, and then the links pass through unchanged; no truthy link is 404; a failed request is 500 |
| `Gateway.FlagOrNo` | server/server.js:183-189 | a destructuring default applies to a missing property only: missing gives "no", null stays null, a value passes through |
| `Gateway.Audit` | server/server.js:165-207 | every answer succeeds; a missing data object gives five "no" flags; each flag is its field under the default rule; a failed request is 500 |
| `Gateway.AuditFlagsPresentUnlessNull` | server/server.js:182-199 | unless the provider sends an explicit null, every flag of the report is a string |
| `Shell.Percentage` | src/components/pages/terminal.jsx:146 | for a non-zero supply the percentage is the finite number p with p * supply = amount * 100, the amount defaulting to 0; a zero supply gives NaN for a zero amount and an infinity of the amount's sign otherwise; a holder holding part of a positive supply gets a value in 0..100 |
| `Shell.LimitFor` | src/components/pages/terminal.jsx:200-207 | a selection yields a limit exactly when it is "1", "2" or "3", giving 5, 10 and 15 |
| `Shell.LimitMapLookup` | src/components/pages/terminal.jsx:200-206 | the object lookup finds an own number exactly for "1", "2", "3", and an inherited member exactly for the `Object.prototype` names |
| `Shell.SelectionToStringPassesGuard` | src/components/pages/terminal.jsx:206-207 | as written, the selection "toString" passes the `if (limit)` guard although it names no limit |
| `Shell.LimitForAgreesWithLookup` | src/components/pages/terminal.jsx:200-215 | on every selection that names no inherited property, the written guard and the corrected lookup agree on the limit |
| `Shell.Parse` | src/components/pages/terminal.jsx:100-339 | the command is chosen by the first space-separated word, case-sensitively; `check` needs exactly one argument, which contains no space; anything else is unknown under its first word |
| `Shell.Dispatch` | src/components/pages/terminal.jsx:100-339 | every command except `clear` appends to the log; `clear` empties it; only `check` turns the flag on and puts a call in flight; only `trending`, `socials` and `audit` change the pending prompt |
| `Shell.Resolve` | src/components/pages/terminal.jsx:184-294 | answering a prompt closes it, appends at least one line and never an echo, adds at most one call, and turns the flag on only for a trending call |
| `Shell.HolderLines` | src/components/pages/terminal.jsx:143-150 | the report lists min(10, n) holders, numbered from 1 in gateway order |
| `Shell.TrendingReport` | src/components/pages/terminal.jsx:69-89 | no coins gives the single "No trending coins" line; otherwise a header followed by one line per coin, numbered from 1 |
| `Shell.ResultLines` | src/components/pages/terminal.jsx:63-331 | an exception or an `{ error }` body gives exactly one line; a trending error body is "No trending coins found" under a 2xx status and the backend failure otherwise; a trending answer with no coins is the single "No trending coins found" line, and one with coins is a header naming the requested limit plus one line per coin; a successful `check` answer gives at least six lines starting with the "Token Details:" header, a socials answer four lines starting with "Social Links:", an audit answer six lines starting with "Audit Information:" |
| `Shell.Complete` | src/components/pages/terminal.jsx:52-174 | the frame of a settlement: the log gains exactly the call's block, the prompt is untouched, exactly the `k`-th call leaves the calls in flight with the others kept in order, and the flag is cleared only by a call that drives it |
| `Shell.Step` | src/components/pages/terminal.jsx:497-503 | a `clear` empties the log; every other event keeps the old log as a prefix |
| `ShellProperties.BlankLineIgnored` | src/components/pages/terminal.jsx:498 | a blank line at the top level changes nothing |
| `ShellProperties.EchoComesFirst` | src/components/pages/terminal.jsx:497-502 | any line other than a blank line or `clear` is echoed as the trimmed input directly after the old log, before the command's reply |
| `ShellProperties.UnknownCommandReply` | src/components/pages/terminal.jsx:333-338 | an unrecognised first word appends the echo, the unknown-command line and the help hint, and nothing else changes |
| `ShellProperties.UpperCaseCheckIsUnknown` | src/components/pages/terminal.jsx:115 | `CHECK <address>`, as the help table spells it, is answered as an unknown command |
| `ShellProperties.HelpAppendsTable` | src/components/pages/terminal.jsx:104-112 | `help` appends the echo and then the seven rows of the command table in order |
| `ShellProperties.ClearEmptiesLog` | src/components/pages/terminal.jsx:113-114 | `clear` empties the log and leaves the flag, the prompt and the calls alone |
| `ShellProperties.CheckStartsFetch` | src/components/pages/terminal.jsx:115-121 | `check <address>` appends the echo and the fetching line, turns the flag on, puts one call for that address in flight and changes nothing else: in particular it opens no prompt |
| `ShellProperties.PromptingCommandsWait` | src/components/pages/terminal.jsx:175-274 | `trending` echoes the line, shows the four-line menu and opens the limit prompt; `socials` echoes it, shows "Enter contract address to check socials:" and opens the socials prompt; `audit` does the same with the audit prompt text and the audit prompt; none of them starts a call or touches the flag |
| `ShellProperties.PendingPromptTakesLine` | src/components/pages/terminal.jsx:186-192 | while a prompt is pending, Enter resolves it and appends no echo |
| `ShellProperties.TrendingSelection` | src/components/pages/terminal.jsx:198-215 | "1", "2" and "3" start a call for 5, 10 or 15 coins with the flag on; anything else only appends the invalid-selection line (under the corrected lookup, see Findings) |
| `ShellProperties.SocialsPromptFetches` | src/components/pages/terminal.jsx:236-244 | the line answering the socials prompt, trimmed and possibly empty, closes the prompt, appends exactly the fetching line for that address and puts exactly one socials call for it in flight; the flag is untouched |
| `ShellProperties.AuditPromptFetches` | src/components/pages/terminal.jsx:290-298 | the line answering the audit prompt, trimmed and possibly empty, closes the prompt, appends exactly the fetching line for that address and puts exactly one audit call for it in flight; the flag is untouched |
| `ShellProperties.SelectionStartsFetch` | src/components/pages/terminal.jsx:206-212 | a valid selection appends both fetching lines, turns the flag on and puts one call for its limit in flight |
| `ShellProperties.SettlementAndBusy` | src/components/pages/terminal.jsx:52-98 | settling a `check` or trending call clears the flag on every path; socials and audit calls leave it; the call's block is appended |
| `ShellProperties.StepKeepsBusyCause` | src/components/pages/terminal.jsx:121-174 | each event preserves the invariant that the flag is on only while a call that drives it is in flight |
| `ShellProperties.RunKeepsBusyCause` | src/components/pages/terminal.jsx:52-174 | along any run, once no flag-driving call is in flight the loading indicator is off |
| `ShellProperties.InitialIsIdle` | src/components/pages/terminal.jsx:5-9 | the shell starts with the flag off, no prompt and no call in flight |
| `ShellProperties.RunOnlyAppends` | src/components/pages/terminal.jsx:113-114 | a run without `clear` only appends to the log |
| `ShellProperties.TokenReportShape` | src/components/pages/terminal.jsx:152-162 | the `check` report is six fixed lines carrying supply and authorities, then at most ten holders numbered from 1 |
| `ShellProperties.HolderLinePercent` | src/components/pages/terminal.jsx:146-149 | a holder line has five parts, and its fourth shows the percentage p with p * supply = amount * 100 for a non-zero supply, and no finite number for a zero supply |
| `ShellProperties.HolderLineRank` | src/components/pages/terminal.jsx:147 | the rank a holder line starts with reads back through `parseInt` |
| `ShellProperties.HolderRankReadsBack` | src/components/pages/terminal.jsx:145-149 | the i-th holder line reads back as rank i + 1 |
| `ShellProperties.ZeroSupplyPercentages` | src/components/pages/terminal.jsx:146 | with a zero supply no holder's percentage is a finite number |
| `ShellProperties.CheckSettles` | src/components/pages/terminal.jsx:129-164 | a settled `check` call appends the token report for a successful answer and the single line `Error: <error>` for an error body, and clears the flag either way |
| `ShellProperties.AuthorityLinesShowFallback` | src/components/pages/terminal.jsx:157-158 | a null mint authority shows "Revoked or null" and a null freeze authority shows "None"; a present authority is shown as it is |
| `ShellProperties.MintLineOfReport` | src/components/pages/terminal.jsx:157 | through the gateway's falsy-to-null rule, the mint line shows the mint info's authority when it is non-empty and "Revoked or null" when the info or the field is missing or empty |
| `ShellProperties.FreezeLineOfReport` | src/components/pages/terminal.jsx:158 | the same for the freeze line, with the fallback "None" |
| `ShellProperties.LinkLinesShowFallback` | src/components/pages/terminal.jsx:256-263 | each of the Telegram, Twitter and Website lines shows its link when it is truthy and "N/A" when it is missing or empty |
| `ShellProperties.SocialsSettles` | src/components/pages/terminal.jsx:248-263 | a settled socials call appends the header and the three link lines for a successful answer, and the single "No social links found for the provided contract address." line for an error body; the flag is untouched |
| `ShellProperties.SocialsAnswerShown` | src/components/pages/terminal.jsx:242-263 | through the socials route, an answer with no truthy link is shown as the single "No social links found" line, and any other answer as the header and its three links |
| `ShellProperties.AuditSettles` | src/components/pages/terminal.jsx:302-326 | a settled audit call appends the header and the five flags in display order for a successful answer, and the single "No audit information found" line for an error body; the flag is untouched |
| `ShellProperties.FailureAppendsOneLine` | src/components/pages/terminal.jsx:63-331 | an error body or an exception appends exactly one line; an exception shows its message in the error line of the call's own command |
| `ShellProperties.TrendingErrorStatusShown` | src/components/pages/terminal.jsx:63-64 | a trending response with a status outside 200-299 appends only "Error fetching trending coins: Failed to fetch data from the backend." and clears the flag, whatever its error body says |
| `ShellProperties.TrendingRateLimitedScenario` | server/server.js:123-125 | when the provider answers 429, the route passes that status and body through, and the shell shows the backend failure line and clears the flag |
| `ShellProperties.UnknownFooScenario` | src/components/pages/terminal.jsx:333-338 | `foo` at start-up shows the banner, the echo and the two reply lines, and the flag stays off |
| `ShellProperties.CheckScenario` | src/components/pages/terminal.jsx:143-162 | a supply of 1000000 with holders of 600000 and 400000 shows eight lines, with 60% and 40% |
| `ShellProperties.EmptyAuditScenario` | server/server.js:182-199 | an audit answer without data is shown as five "no" flags under the header |
| `ShellProperties.TrendingOpensMenu` | src/components/pages/terminal.jsx:175-182 | `trending` echoes, shows the four-line menu and waits for a selection |
| `ShellProperties.TrendingResultLines` | src/components/pages/terminal.jsx:63-89 | a call for any positive `limit` settles with a header naming `limit`, even when fewer pools come back, and then min(`limit`, pools) coins numbered in provider order; with no pools the gateway's 404 is shown as the backend failure |
| `ShellProperties.TrendingSettles` | src/components/pages/terminal.jsx:63-97 | that settlement appends the header right after the old log and the min(`limit`, pools) coins in pool order, or the single backend-failure line when there are no pools, and clears the flag |
| `ShellProperties.SelectTwo` | src/components/pages/terminal.jsx:200-212 | the selection "2" starts a call for ten coins |
| `ShellProperties.TrendingThenTwo` | src/components/pages/terminal.jsx:175-212 | `trending` and then "2" leave one call for ten coins in flight, the flag on and no prompt |
| `ShellProperties.TrendingTenScenario` | src/components/pages/terminal.jsx:175-215 | `trending`, "2" and an answer over twelve pools show a header and exactly ten coins, first pool first and tenth last, with the flag off |

## Left out

- HTTP serving, CORS, `axios`/`fetch`, the RPC connection and the provider's API key are not modelled. Each upstream call is a parameter giving its outcome: answered, rejected with a status, unreachable, or thrown.
- `Gateway.TokenDetails`: `new PublicKey(address)` is abstracted as the predicate `isPublicKey`, because the base-58 and curve checks are library code.
- Number formatting is left abstract as the parts `Decimal`, `Fixed2` and `Money`, because floating-point rendering is out of scope. This covers `toFixed(2)`, `toLocaleString()` and the rendering of a non-integer number in a template literal.
- The 2-second `setTimeout` before a `check` result is appended is not modelled. The block is appended when the call settles. Its effect is that other lines can slip in during those two seconds.
- React rendering, focus and scroll effects, and the per-line styling are not modelled. The help table keeps its class names as data, but no member reads them.
- `Gateway.Trending`: the upstream error body is modelled as a string. An object body would be forwarded through JSON unchanged.
- `Gateway.TrendingLimit`: the `limit` query parameter is an optional string. Repeated or nested parameters, which Express turns into arrays or objects, are not modelled. Limits are unbounded integers, so `parseInt` rounding above 2^53 is not modelled.
- `Gateway.Socials`: a link the provider sends as null and one it omits are both `None`. The JSON body would drop the omitted one and keep the null, and the shell prints "N/A" for both.
- `Gateway.TokenDetails`: the supply and holder amounts are reals. The RPC's non-numeric or NaN amounts are not modelled.
- `ShellProperties.TrendingSelection`: `Step` resolves the selection with the corrected lookup `Shell.LimitFor`, so the twelve `Object.prototype` names give "Invalid selection. Try again." instead of the as-written fetch with a function as its limit. That as-written path is stated only by `Shell.SelectionToStringPassesGuard` and `Shell.LimitMapLookup` (see Findings).
- A settlement that names no call in flight, or carries another route's body, is treated as a no-op. The browser cannot deliver one.

## Findings

| source | as written | input that shows it | evidently intended | confidence | as-written member | corrected member |
|---|---|---|---|---|---|---|
| src/components/pages/terminal.jsx:200-207 | `limitMap[selectedOption]` is a plain-object lookup, so names inherited from `Object.prototype` yield a function, which is truthy and passes `if (limit)` | the selection `toString` (also `constructor`, `valueOf`, ...) starts a trending fetch whose limit is a function | only "1", "2" and "3" select a limit; anything else is an invalid selection | not executed | `Shell.SelectionToStringPassesGuard` | `Shell.LimitFor` |
