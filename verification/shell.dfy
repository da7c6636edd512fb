/** The command shell (`src/components/pages/terminal.jsx`) as a pure state
    machine. The state is the log of displayed lines, the loading flag, the
    pending secondary prompt (at most one) and the gateway calls still in
    flight; events are an Enter keystroke with the input's text and the
    settlement of one in-flight call. The 2-second display delay of `check`
    is cosmetic and not modelled: its result is appended at settlement. */
module Shell {
  import opened Wrappers
  import opened JsText
  import opened Gateway

  /** `(amount / supply) * 100` as a JavaScript number, before `toFixed(2)`. */
  datatype Percent = Finite(value: real) | PosInfinity | NegInfinity | NaN

  /** A piece of displayed text; the text of formatted numbers is left
      abstract. */
  datatype Part = Lit(text: string) | Decimal(amount: real) | Fixed2(percent: Percent)

  /** The five rows of the audit report, in display order. */
  datatype AuditRow = Honeypot | Mintable | SlippageModifiable | ContractRenounced | PotentiallyScam

  /** One entry of the log, by the statement of `terminal.jsx` that appends
      it; `Render` gives its displayed text. */
  datatype Line =
    | Banner(row: nat)                          // the two welcome lines
    | Echo(input: string)                       // `λ ${input}`
    | HelpRow(row: nat)                         // one entry of `commands.help`
    | UnknownCommand(name: string)
    | HelpHint
    | FetchingDetails(address: string)
    | MenuRow(row: nat)                         // the trending menu
    | SocialsPrompt
    | AuditPrompt
    | FetchingTop(limit: nat)                   // from `handleCommand`
    | FetchingTopFromDextools(limit: nat)       // from `fetchDextoolsTrending`
    | InvalidSelection
    | FetchingSocials(address: string)
    | FetchingAudit(address: string)
    | CheckFailed(error: string)                // `Error: ${data.error}`
    | CheckThrew(message: string)
    | TokenHeader
    | SupplyLine(supply: real)
    | MintLine(authority: Option<string>)
    | FreezeLine(authority: Option<string>)
    | LiquidityLine(liquidity: string)
    | HoldersHeader
    | HolderLine(rank: nat, holder: Holder, supply: real)
    | TrendingThrew(message: string)
    | NoTrendingCoins
    | TrendingHeader(limit: nat)
    | CoinLine(rank: nat, coin: PoolView)
    | SocialsThrew(message: string)
    | NoSocialsFound
    | SocialsHeader
    | TelegramLine(link: Option<string>)
    | TwitterLine(link: Option<string>)
    | WebsiteLine(link: Option<string>)
    | AuditThrew(message: string)
    | NoAuditFound
    | AuditHeader
    | AuditFlag(field: AuditRow, flag: Option<string>)

  /** The secondary input a command is waiting for. */
  datatype Prompt = SelectLimit | SocialsAddress | AuditAddress

  /** A gateway call in flight. */
  datatype Request = CheckReq(address: string) | TrendingReq(limit: nat) | SocialsReq(address: string) | AuditReq(address: string) {
    /** `check` and trending calls drive the loading indicator; socials and
        audit calls never touch it. */
    predicate Loads() {
      CheckReq? || TrendingReq?
    }
  }

  /** The parsed JSON a call delivers (its route's response). */
  datatype Body =
    | TokenBody(token: Response<TokenDetail>)
    | TrendingBody(trending: Response<seq<PoolView>>)
    | SocialsBody(socials: Response<SocialLinks>)
    | AuditBody(audit: Response<AuditReport>)
  {
    /** True when the route answered with an `{ error }` body. */
    predicate IsError() {
      match this
      case TokenBody(r) => r.Err?
      case TrendingBody(r) => r.Err?
      case SocialsBody(r) => r.Err?
      case AuditBody(r) => r.Err?
    }
  }

  /** How a call settles: a body, or an exception from `fetch` or `json()`. */
  datatype Outcome = Delivered(body: Body) | Thrown(message: string)

  datatype Event = Enter(input: string) | Settle(index: nat, outcome: Outcome)

  datatype State = State(log: seq<Line>, busy: bool, prompt: Option<Prompt>, inflight: seq<Request>)

  const Initial := State([Banner(0), Banner(1)], false, None, [])

  const HelpLines: seq<Line> := [HelpRow(0), HelpRow(1), HelpRow(2), HelpRow(3), HelpRow(4), HelpRow(5), HelpRow(6)]

  const TrendingMenu: seq<Line> := [MenuRow(0), MenuRow(1), MenuRow(2), MenuRow(3)]

  const BackendFailure := "Failed to fetch data from the backend."

  /** How many holders `check` shows. */
  const TopHolders := 10

  /** The `commands.help` table: text and class name of each entry. */
  const HelpTable: seq<(string, string)> := [
    ("Available commands:", "text-amber-500 font-bold"),
    ("  help                Show available commands", "text-green-400 font-press"),
    ("  clear               Clear the terminal", "text-green-400 font-press"),
    ("  CHECK [address]     Check token details (supply, distribution, mint authority)", "text-blue-400 font-press"),
    ("  TRENDING            Fetch top trending coins from Dextools", "text-purple-400 font-press"),
    ("  SOCIALS             Fetch SOCIAL INFO OF A TOKEN", "text-red-400 font-press"),
    ("  AUDIT               Fetch SECURITY AUDIT OF A TOKEN", "text-yellow-400 font-press")
  ]

  function AuditLabel(r: AuditRow): string {
    match r
    case Honeypot => "  Is Honeypot: "
    case Mintable => "  Is Mintable: "
    case SlippageModifiable => "  Slippage Modifiable: "
    case ContractRenounced => "  Is Contract Renounced: "
    case PotentiallyScam => "  Is Potentially Scam: "
  }

  /** `((holder.uiAmount || 0) / tokenSupply) * 100`, with IEEE division by
      zero: there is no guard for a zero supply. */
  function Percentage(h: Holder, supply: real): (p: Percent)
    ensures supply != 0.0 ==> p.Finite? && p.value * supply == h.uiAmount.GetOr(0.0) * 100.0
    ensures supply == 0.0 ==> !p.Finite?
    ensures supply == 0.0 ==> (p.NaN? <==> h.uiAmount.GetOr(0.0) == 0.0)
    ensures supply == 0.0 ==> (p.PosInfinity? <==> h.uiAmount.GetOr(0.0) > 0.0)
    ensures supply > 0.0 && h.uiAmount.Some? && 0.0 <= h.uiAmount.value <= supply ==> p.Finite? && 0.0 <= p.value <= 100.0
  {
    var amount := h.uiAmount.GetOr(0.0);
    if supply != 0.0 then
      var q := amount / supply;
      assert q * supply == amount;
      assert q * 100.0 * supply == q * supply * 100.0;
      RatioBound(amount, supply);
      Finite(q * 100.0)
    else if amount == 0.0 then NaN
    else if amount > 0.0 then PosInfinity
    else NegInfinity
  }

  /** A part of a positive whole is a ratio between 0 and 1. */
  lemma RatioBound(amount: real, supply: real)
    ensures supply > 0.0 && 0.0 <= amount <= supply ==> 0.0 <= amount / supply <= 1.0
  {
    if supply > 0.0 && 0.0 <= amount <= supply {
      var q := amount / supply;
      assert q * supply == amount;
      assert (1.0 - q) * supply == supply - amount;
    }
  }

  /** `holder.uiAmountString || holder.uiAmount`; a null amount prints "null". */
  function AmountPart(h: Holder): Part {
    if Truthy(h.uiAmountString) then Lit(h.uiAmountString.value)
    else match h.uiAmount
      case Some(a) => Decimal(a)
      case None => Lit("null")
  }

  /** The text of a log entry, as the template literal that builds it. */
  function Render(l: Line): seq<Part> {
    match l
    case Banner(row) => [Lit(if row == 0 then "Welcome to the CUBE Terminal!" else "Type 'help' for a list of commands.")]
    case Echo(input) => [Lit("λ " + input)]
    case HelpRow(row) => [Lit(if row < |HelpTable| then HelpTable[row].0 else "")]
    case UnknownCommand(name) => [Lit("Unknown command: '" + name + "'")]
    case HelpHint => [Lit("Type 'help' for a list of commands.")]
    case FetchingDetails(address) => [Lit("Fetching details for " + address + "...")]
    case MenuRow(row) =>
      [Lit(if row == 0 then "Select the number of trending coins to display:"
           else if row == 1 then "1) Top 5"
           else if row == 2 then "2) Top 10"
           else "3) Top 15")]
    case SocialsPrompt => [Lit("Enter contract address to check socials:")]
    case AuditPrompt => [Lit("Enter contract address to check audit:")]
    case FetchingTop(limit) => [Lit("Fetching top " + NatToString(limit) + " trending coins...")]
    case FetchingTopFromDextools(limit) => [Lit("Fetching top " + NatToString(limit) + " trending coins from Dextools...")]
    case InvalidSelection => [Lit("Invalid selection. Try again.")]
    case FetchingSocials(address) => [Lit("Fetching socials for contract: " + address + "...")]
    case FetchingAudit(address) => [Lit("Fetching audit for contract: " + address + "...")]
    case CheckFailed(error) => [Lit("Error: " + error)]
    case CheckThrew(message) => [Lit("Error fetching token details: " + message)]
    case TokenHeader => [Lit("Token Details:")]
    case SupplyLine(supply) => [Lit("  Supply: "), Decimal(supply)]
    case MintLine(a) => [Lit("  Mint Authority: " + a.GetOr("Revoked or null"))]
    case FreezeLine(a) => [Lit("  Freeze Authority: " + a.GetOr("None"))]
    case LiquidityLine(liquidity) => [Lit("  Liquidity: " + liquidity)]
    case HoldersHeader => [Lit("Top 10 Largest Accounts:")]
    case HolderLine(rank, h, supply) =>
      [Lit(NatToString(rank) + ". Address: " + h.address + ", Amount: "), AmountPart(h),
       Lit(" ("), Fixed2(Percentage(h, supply)), Lit("%)")]
    case TrendingThrew(message) => [Lit("Error fetching trending coins: " + message)]
    case NoTrendingCoins => [Lit("No trending coins found on Dextools.")]
    case TrendingHeader(limit) => [Lit("Top " + NatToString(limit) + " Trending Coins on Dextools:")]
    case CoinLine(rank, coin) =>
      [Lit(NatToString(rank) + ". Name: " + OrElse(Some(coin.name), "Unknown") + " (" + OrElse(Some(coin.symbol), "N/A") + ")")]
    case SocialsThrew(message) => [Lit("Error fetching socials: " + message)]
    case NoSocialsFound => [Lit("No social links found for the provided contract address.")]
    case SocialsHeader => [Lit("Social Links:")]
    case TelegramLine(link) => [Lit("  Telegram: " + OrElse(link, "N/A"))]
    case TwitterLine(link) => [Lit("  Twitter: " + OrElse(link, "N/A"))]
    case WebsiteLine(link) => [Lit("  Website: " + OrElse(link, "N/A"))]
    case AuditThrew(message) => [Lit("Error fetching audit: " + message)]
    case NoAuditFound => [Lit("No audit information found for the provided contract address.")]
    case AuditHeader => [Lit("Audit Information:")]
    case AuditFlag(row, flag) => [Lit(AuditLabel(row) + flag.GetOr("null"))]
  }

  // ---------------------------------------------------------------------------
  // The trending selection

  /** The selection a trending limit is chosen by: "1", "2" or "3". */
  function LimitFor(selection: string): (limit: Option<nat>)
    ensures limit.Some? <==> selection in {"1", "2", "3"}
    ensures selection == "1" ==> limit == Some(5)
    ensures selection == "2" ==> limit == Some(10)
    ensures selection == "3" ==> limit == Some(15)
  {
    if selection == "1" then Some(5)
    else if selection == "2" then Some(10)
    else if selection == "3" then Some(15)
    else None
  }

  /** What `limitMap[selection]` reads from the object literal `{1: 5, 2: 10,
      3: 15}`: its own keys, or a property inherited from `Object.prototype`
      (every one of which is a function or an object, hence truthy), or
      `undefined`. */
  datatype PropertyValue = OwnNumber(n: nat) | Inherited(name: string) | Undefined

  const ObjectPrototypeMembers: set<string> := {
    "constructor", "__defineGetter__", "__defineSetter__", "hasOwnProperty",
    "__lookupGetter__", "__lookupSetter__", "isPrototypeOf", "propertyIsEnumerable",
    "toString", "valueOf", "__proto__", "toLocaleString"
  }

  function LimitMapLookup(selection: string): (v: PropertyValue)
    ensures v.OwnNumber? <==> selection in {"1", "2", "3"}
    ensures v.Inherited? <==> selection in ObjectPrototypeMembers
  {
    if selection == "1" then OwnNumber(5)
    else if selection == "2" then OwnNumber(10)
    else if selection == "3" then OwnNumber(15)
    else if selection in ObjectPrototypeMembers then Inherited(selection)
    else Undefined
  }

  /** The guard `if (limit)` as written. */
  predicate PassesGuard(v: PropertyValue) {
    (v.OwnNumber? && v.n != 0) || v.Inherited?
  }

  /** As written, the guard lets the selection "toString" through: the shell
      would start a trending fetch whose limit is a function. */
  lemma SelectionToStringPassesGuard()
    ensures PassesGuard(LimitMapLookup("toString"))
    ensures LimitFor("toString").None?
  {
  }

  /** The corrected lookup agrees with the written one on every selection
      that does not name an inherited property. */
  lemma LimitForAgreesWithLookup(selection: string)
    requires selection !in ObjectPrototypeMembers
    ensures PassesGuard(LimitMapLookup(selection)) <==> LimitFor(selection).Some?
    ensures LimitFor(selection).Some? ==> LimitMapLookup(selection) == OwnNumber(LimitFor(selection).value)
  {
  }

  // ---------------------------------------------------------------------------
  // Dispatch of a top-level command

  /** A top-level command as `handleCommand` tells them apart: by its first
      `" "`-separated word, matched case-sensitively, and for `check` by
      having exactly one argument. */
  datatype Command = Help | Clear | Check(address: string) | TrendingCmd | SocialsCmd | AuditCmd | Unknown(name: string)

  function Parse(input: string): (c: Command)
    ensures var w := Split(input, ' ');
            && (c == Help <==> w[0] == "help")
            && (c == Clear <==> w[0] == "clear")
            && (c.Check? <==> w[0] == "check" && |w| == 2)
            && (c.Check? ==> c.address == w[1] && ' ' !in c.address)
            && (c == TrendingCmd <==> w[0] == "trending")
            && (c == SocialsCmd <==> w[0] == "socials")
            && (c == AuditCmd <==> w[0] == "audit")
            && (c.Unknown? ==> c.name == w[0])
  {
    var w := Split(input, ' ');
    var command := w[0];
    if command == "help" then Help
    else if command == "clear" then Clear
    else if command == "check" && |w| == 2 then Check(w[1])
    else if command == "trending" then TrendingCmd
    else if command == "socials" then SocialsCmd
    else if command == "audit" then AuditCmd
    else Unknown(command)
  }

  function UnknownCommandLines(command: string): seq<Line> {
    [UnknownCommand(command), HelpHint]
  }

  /** `handleCommand` up to its first suspension point. */
  function Dispatch(s: State, c: Command): (s': State)
    ensures c.Unknown? ==> s' == s.(log := s.log + UnknownCommandLines(c.name))
    ensures c != Clear ==> s.log < s'.log
    ensures c == Clear ==> s' == s.(log := [])
    ensures s'.busy != s.busy ==> s'.busy && c.Check?
    ensures c.Check? ==> s'.busy && s'.inflight == s.inflight + [CheckReq(c.address)]
    ensures !c.Check? ==> s'.inflight == s.inflight
    ensures c !in {TrendingCmd, SocialsCmd, AuditCmd} ==> s'.prompt == s.prompt
  {
    match c
    case Help => s.(log := s.log + HelpLines)
    case Clear => s.(log := [])
    case Check(address) =>
      s.(log := s.log + [FetchingDetails(address)],
         busy := true,
         inflight := s.inflight + [CheckReq(address)])
    case TrendingCmd => s.(log := s.log + TrendingMenu, prompt := Some(SelectLimit))
    case SocialsCmd => s.(log := s.log + [SocialsPrompt], prompt := Some(SocialsAddress))
    case AuditCmd => s.(log := s.log + [AuditPrompt], prompt := Some(AuditAddress))
    case Unknown(name) => s.(log := s.log + UnknownCommandLines(name))
  }

  /** The one-shot input listener: the next Enter resolves the pending prompt
      with the trimmed input, empty or not. It runs before the input's own
      key handler and clears the field, so the line is neither echoed nor
      dispatched. */
  function Resolve(s: State, p: Prompt, value: string): (s': State)
    requires s.prompt == Some(p)
    ensures s'.prompt.None?
    ensures s.log < s'.log
    ensures forall i :: |s.log| <= i < |s'.log| ==> !s'.log[i].Echo?
    ensures s.inflight <= s'.inflight && |s'.inflight| <= |s.inflight| + 1
    ensures s'.busy != s.busy ==> s'.busy && |s'.inflight| == |s.inflight| + 1 && s'.inflight[|s.inflight|].TrendingReq?
  {
    var s0 := s.(prompt := None);
    match p
    case SelectLimit =>
      (match LimitFor(value)
       case Some(limit) =>
         s0.(log := s.log + [FetchingTop(limit), FetchingTopFromDextools(limit)],
             busy := true,
             inflight := s.inflight + [TrendingReq(limit)])
       case None =>
         s0.(log := s.log + [InvalidSelection]))
    case SocialsAddress =>
      s0.(log := s.log + [FetchingSocials(value)],
          inflight := s.inflight + [SocialsReq(value)])
    case AuditAddress =>
      s0.(log := s.log + [FetchingAudit(value)],
          inflight := s.inflight + [AuditReq(value)])
  }

  // ---------------------------------------------------------------------------
  // The blocks appended when a call settles

  /** The holder lines of `check`: the first ten accounts, numbered from 1. */
  function HolderLines(accounts: seq<Holder>, supply: real): (lines: seq<Line>)
    ensures |lines| == if |accounts| < TopHolders then |accounts| else TopHolders
    ensures forall i :: 0 <= i < |lines| ==> lines[i] == HolderLine(i + 1, accounts[i], supply)
  {
    var top := accounts[..if |accounts| < TopHolders then |accounts| else TopHolders];
    seq(|top|, i requires 0 <= i < |top| => HolderLine(i + 1, top[i], supply))
  }

  function TokenReport(d: TokenDetail): seq<Line> {
    [TokenHeader, SupplyLine(d.tokenSupply), MintLine(d.mintAuthority), FreezeLine(d.freezeAuthority),
     LiquidityLine(d.liquidity), HoldersHeader]
    + HolderLines(d.largestAccounts, d.tokenSupply)
  }

  function TrendingReport(limit: nat, coins: seq<PoolView>): (lines: seq<Line>)
    ensures coins == [] ==> lines == [NoTrendingCoins]
    ensures coins != [] ==> |lines| == |coins| + 1 && lines[0] == TrendingHeader(limit)
    ensures coins != [] ==> forall i :: 0 <= i < |coins| ==> lines[i + 1] == CoinLine(i + 1, coins[i])
  {
    if coins == [] then [NoTrendingCoins]
    else [TrendingHeader(limit)] + seq(|coins|, i requires 0 <= i < |coins| => CoinLine(i + 1, coins[i]))
  }

  function SocialsReport(l: SocialLinks): seq<Line> {
    [SocialsHeader, TelegramLine(l.telegram), TwitterLine(l.twitter), WebsiteLine(l.website)]
  }

  function AuditLines(a: AuditReport): seq<Line> {
    [AuditHeader,
     AuditFlag(Honeypot, a.isHoneypot),
     AuditFlag(Mintable, a.isMintable),
     AuditFlag(SlippageModifiable, a.slippageModifiable),
     AuditFlag(ContractRenounced, a.isContractRenounced),
     AuditFlag(PotentiallyScam, a.isPotentiallyScam)]
  }

  /** True when an outcome is one the request can settle with: an exception,
      or the body of the request's own route. */
  predicate Answers(r: Request, o: Outcome) {
    match o
    case Thrown(_) => true
    case Delivered(b) =>
      match r
      case CheckReq(_) => b.TokenBody?
      case TrendingReq(_) => b.TrendingBody?
      case SocialsReq(_) => b.SocialsBody?
      case AuditReq(_) => b.AuditBody?
  }

  /** The block of lines a settled request appends. */
  function ResultLines(r: Request, o: Outcome): (lines: seq<Line>)
    requires Answers(r, o)
    ensures |lines| >= 1
    ensures o.Thrown? || o.body.IsError() ==> |lines| == 1
    ensures o.Delivered? && o.body.TokenBody? && o.body.token.Ok? ==> |lines| >= 6 && lines[0] == TokenHeader
    ensures o.Delivered? && o.body.SocialsBody? && o.body.socials.Ok? ==> |lines| == 4 && lines[0] == SocialsHeader
    ensures o.Delivered? && o.body.AuditBody? && o.body.audit.Ok? ==> |lines| == 6 && lines[0] == AuditHeader
    ensures o.Delivered? && o.body.TrendingBody? && o.body.trending.Ok? && o.body.trending.payload != [] ==>
              |lines| == |o.body.trending.payload| + 1 && lines[0] == TrendingHeader(r.limit)
    ensures o.Delivered? && o.body.TrendingBody? && o.body.trending.Ok? && o.body.trending.payload == [] ==>
              lines == [NoTrendingCoins]
    ensures o.Delivered? && o.body.TrendingBody? && o.body.trending.Err? ==>
              lines == (if 200 <= o.body.trending.status <= 299 then [NoTrendingCoins] else [TrendingThrew(BackendFailure)])
  {
    match o
    case Thrown(m) =>
      (match r
       case CheckReq(_) => [CheckThrew(m)]
       case TrendingReq(_) => [TrendingThrew(m)]
       case SocialsReq(_) => [SocialsThrew(m)]
       case AuditReq(_) => [AuditThrew(m)])
    case Delivered(b) =>
      match b
      case TokenBody(resp) =>
        (match resp
         case Err(_, e) => [CheckFailed(e)]
         case Ok(d) => TokenReport(d))
      case TrendingBody(resp) =>
        (match resp
         case Err(status, _) =>
           // `response.ok` is false outside 200-299; an error body with a
           // success status has no `trending` field.
           if 200 <= status <= 299 then [NoTrendingCoins] else [TrendingThrew(BackendFailure)]
         case Ok(coins) => TrendingReport(r.limit, coins))
      case SocialsBody(resp) =>
        (match resp
         case Err(_, _) => [NoSocialsFound]
         case Ok(l) => SocialsReport(l))
      case AuditBody(resp) =>
        (match resp
         case Err(_, _) => [NoAuditFound]
         case Ok(a) => AuditLines(a))
  }

  /** `s` without its `k`-th element. */
  function RemoveAt<T>(s: seq<T>, k: nat): (r: seq<T>)
    requires k < |s|
    ensures |r| == |s| - 1
    ensures forall i :: 0 <= i < k ==> r[i] == s[i]
    ensures forall i :: k <= i < |r| ==> r[i] == s[i + 1]
  {
    s[..k] + s[k + 1..]
  }

  /** Settlement of the `k`-th call in flight: its result is appended as one
      block, and the loading flag is cleared if the call drove it. */
  function Complete(s: State, k: nat, o: Outcome): (s': State)
    requires k < |s.inflight| && Answers(s.inflight[k], o)
    ensures s'.log == s.log + ResultLines(s.inflight[k], o)
    ensures s'.busy == (s.busy && !s.inflight[k].Loads())
    ensures s'.prompt == s.prompt
    ensures s'.inflight == RemoveAt(s.inflight, k)
  {
    var r := s.inflight[k];
    s.(log := s.log + ResultLines(r, o),
       busy := if r.Loads() then false else s.busy,
       inflight := RemoveAt(s.inflight, k))
  }

  // ---------------------------------------------------------------------------
  // The transition function

  /** True when `e` is an Enter that the shell dispatches as `clear`. */
  predicate IsClear(s: State, e: Event) {
    e.Enter? && s.prompt.None? && Trim(e.input) != "" && Parse(Trim(e.input)) == Clear
  }

  /** One event. A pending prompt takes the next Enter; otherwise a blank line
      is ignored and any other line is echoed and then dispatched. A
      settlement that names no call in flight, or carries another route's
      body, is not an event the browser can deliver and changes nothing. */
  function Step(s: State, e: Event): (s': State)
    ensures IsClear(s, e) ==> s'.log == []
    ensures !IsClear(s, e) ==> s.log <= s'.log
  {
    match e
    case Enter(raw) =>
      var input := Trim(raw);
      if s.prompt.Some? then Resolve(s, s.prompt.value, input)
      else if input == "" then s
      else Dispatch(s.(log := s.log + [Echo(input)]), Parse(input))
    case Settle(k, o) =>
      if k < |s.inflight| && Answers(s.inflight[k], o) then Complete(s, k, o) else s
  }

  /** A run of events from a state. */
  function Run(s: State, events: seq<Event>): State
    decreases |events|
  {
    if events == [] then s else Run(Step(s, events[0]), events[1..])
  }
}
