/** The aggregation gateway (`server/server.js`): four read-only routes that
    each take whatever the upstream provider returned, with any field possibly
    missing, and normalise it into a fixed response shape or an error status.
    The upstream calls themselves are parameters: the model sees only their
    outcomes. */
module Gateway {
  import opened Wrappers
  import opened JsText

  /** What a route sends: a JSON payload with status 200, or an `{ error }`
      body with an HTTP status. */
  datatype Response<T> = Ok(payload: T) | Err(status: int, error: string)

  /** The outcome of one axios request to the market-data provider. */
  datatype Upstream<T> =
    | Answered(body: T)                    // 2xx: `body` is what the route reads out of `response.data`
    | Rejected(status: int, data: string)  // the request failed with `error.response` set
    | Unreachable                          // the request failed without a response

  /** The outcome of one Solana RPC call. */
  datatype Rpc<T> = Returned(value: T) | Threw

  // ---------------------------------------------------------------------------
  // GET /api/token/:address

  /** One entry of `getTokenLargestAccounts`, passed through verbatim. */
  datatype Holder = Holder(address: string, uiAmount: Option<real>, uiAmountString: Option<string>)

  /** The `parsed.info` object of the mint account. */
  datatype MintInfo = MintInfo(mintAuthority: Option<string>, freezeAuthority: Option<string>)

  datatype TokenDetail = TokenDetail(
    tokenSupply: real,
    largestAccounts: seq<Holder>,
    mintAuthority: Option<string>,   // None is JSON null
    freezeAuthority: Option<string>,
    liquidity: string)

  const LiquidityPlaceholder := "N/A - requires DEX-specific data"
  const TokenDetailFailure := "Failed to fetch token details."

  /** An authority as the route reports it: `info.x || null`, so an empty
      string and a missing info object both become null. */
  function Authority(info: Option<MintInfo>, freeze: bool): (a: Option<string>)
    ensures a.Some? ==> a.value != ""
    ensures info.None? ==> a.None?
    ensures info.Some? && !freeze ==> (a.Some? <==> Truthy(info.value.mintAuthority)) && (a.Some? ==> a == info.value.mintAuthority)
    ensures info.Some? && freeze ==> (a.Some? <==> Truthy(info.value.freezeAuthority)) && (a.Some? ==> a == info.value.freezeAuthority)
  {
    match info
    case None => None
    case Some(i) =>
      var v := if freeze then i.freezeAuthority else i.mintAuthority;
      if Truthy(v) then v else None
  }

  /** The token-detail route. `isPublicKey` stands for the `PublicKey`
      constructor accepting the trimmed address; the three RPC outcomes are
      `supply.value.uiAmount`, `largestAccounts.value` and
      `value?.data?.parsed?.info`. All of it runs inside one `try`, so any
      failure gives the same 500. */
  function TokenDetails(
    address: string,
    isPublicKey: string -> bool,
    supply: Rpc<Option<real>>,
    largest: Rpc<Option<seq<Holder>>>,
    mint: Rpc<Option<MintInfo>>): (r: Response<TokenDetail>)
    ensures r.Ok? <==> isPublicKey(Trim(address)) && supply.Returned? && largest.Returned? && mint.Returned?
    ensures r.Err? ==> r == Err(500, TokenDetailFailure)
    ensures r.Ok? ==> r.payload.tokenSupply == (if supply.value.Some? then supply.value.value else 0.0)
    ensures r.Ok? ==> r.payload.largestAccounts == (if largest.value.Some? then largest.value.value else [])
    ensures r.Ok? && mint.value.None? ==> r.payload.mintAuthority.None? && r.payload.freezeAuthority.None?
    ensures r.Ok? ==> r.payload.mintAuthority == Authority(mint.value, false)
    ensures r.Ok? ==> r.payload.freezeAuthority == Authority(mint.value, true)
    ensures r.Ok? ==> r.payload.liquidity == LiquidityPlaceholder
  {
    if !isPublicKey(Trim(address)) then Err(500, TokenDetailFailure)
    else match (supply, largest, mint)
      case (Returned(s), Returned(l), Returned(m)) =>
        Ok(TokenDetail(s.GetOr(0.0), l.GetOr([]), Authority(m, false), Authority(m, true), LiquidityPlaceholder))
      case _ => Err(500, TokenDetailFailure)
  }

  // ---------------------------------------------------------------------------
  // GET /api/dextools/trending?limit=

  /** `pool.mainToken` / `pool.sideToken` as the provider sends them. */
  datatype TokenInfo = TokenInfo(name: Option<string>, symbol: Option<string>, priceUsd: Option<real>, volumeUsd: Option<real>)

  datatype Pool = Pool(mainToken: Option<TokenInfo>, sideToken: Option<TokenInfo>, url: Option<string>)

  /** A price or volume cell: `"N/A"`, or a dollar amount (its text
      formatting with `toFixed`/`toLocaleString` is not modelled). */
  datatype Money = NotAvailable | Usd(amount: real)

  datatype PoolView = PoolView(name: string, symbol: string, price: Money, volume: Money, url: string)

  const DefaultTrendingLimit := 5
  const NoTrendingPools := "No trending pools found for Solana."
  const DextoolsFailure := "Failed to fetch data from Dextools API"

  /** `parseInt(req.query.limit) || 5`. An absent parameter is
      `parseInt(undefined)`, which is NaN (see `ParseIntOfUndefined`). */
  function TrendingLimit(query: Option<string>): (n: int)
    ensures n != 0
    ensures query.None? ==> n == DefaultTrendingLimit
    ensures query.Some? && (ParseInt(query.value) == None || ParseInt(query.value) == Some(0)) ==> n == DefaultTrendingLimit
    ensures n != DefaultTrendingLimit ==> query.Some? && ParseInt(query.value) == Some(n)
    ensures query.Some? && ParseInt(query.value).Some? && ParseInt(query.value).value != 0 ==> n == ParseInt(query.value).value
  {
    match query
    case None => DefaultTrendingLimit
    case Some(q) =>
      match ParseInt(q)
      case Some(v) => if v != 0 then v else DefaultTrendingLimit
      case None => DefaultTrendingLimit
  }

  /** `String(undefined)` has no digits, so an absent limit parses to NaN. */
  lemma ParseIntOfUndefined()
    ensures ParseInt("undefined") == None
  {
    var s := "undefined";
    assert !IsSpace(s[0]);
    TrimStartUntouched(s);
    assert Unsigned(s) == s;
    assert !HexPrefixed(s);
    assert DigitValue(s[0], 10) == None;
  }

  function NameOf(t: Option<TokenInfo>): string {
    OrElse(if t.Some? then t.value.name else None, "Unknown")
  }

  function SymbolOf(t: Option<TokenInfo>): string {
    OrElse(if t.Some? then t.value.symbol else None, "N/A")
  }

  /** `x ? "$" + format(x) : "N/A"` on a number: 0 is falsy. */
  function MoneyOf(amount: Option<real>): (m: Money)
    ensures m.Usd? <==> amount.Some? && amount.value != 0.0
    ensures m.Usd? ==> m.amount == amount.value
  {
    if amount.Some? && amount.value != 0.0 then Usd(amount.value) else NotAvailable
  }

  /** The lossy projection of one ranked pool. */
  function ProjectPool(p: Pool): (v: PoolView)
    ensures v.name == NameOf(p.mainToken) + "/" + NameOf(p.sideToken)
    ensures v.symbol == SymbolOf(p.mainToken) + "/" + SymbolOf(p.sideToken)
    ensures p.mainToken.None? ==> v.price == NotAvailable && v.volume == NotAvailable
    ensures v.price.Usd? ==> p.mainToken.Some? && p.mainToken.value.priceUsd == Some(v.price.amount)
    ensures v.volume.Usd? ==> p.mainToken.Some? && p.mainToken.value.volumeUsd == Some(v.volume.amount)
    ensures v.price == MoneyOf(if p.mainToken.Some? then p.mainToken.value.priceUsd else None)
    ensures v.volume == MoneyOf(if p.mainToken.Some? then p.mainToken.value.volumeUsd else None)
    ensures v.url == OrElse(p.url, "N/A")
    ensures v.url != "" && (v.url != "N/A" ==> p.url == Some(v.url))
  {
    var main := p.mainToken;
    PoolView(
      NameOf(main) + "/" + NameOf(p.sideToken),
      SymbolOf(main) + "/" + SymbolOf(p.sideToken),
      MoneyOf(if main.Some? then main.value.priceUsd else None),
      MoneyOf(if main.Some? then main.value.volumeUsd else None),
      OrElse(p.url, "N/A"))
  }

  /** The trending route. `reply` carries `response.data.data`, None when
      either level is missing. */
  function Trending(query: Option<string>, reply: Upstream<Option<seq<Pool>>>): (r: Response<seq<PoolView>>)
    ensures reply.Answered? ==> (r.Err? <==> reply.body.None? || reply.body.value == [])
    ensures reply.Answered? && r.Err? ==> r == Err(404, NoTrendingPools)
    ensures reply.Rejected? ==> r == Err(reply.status, reply.data)
    ensures reply.Unreachable? ==> r == Err(500, DextoolsFailure)
    ensures r.Ok? ==> reply.Answered? && reply.body.Some?
    ensures r.Ok? ==> |r.payload| == SliceEnd(|reply.body.value|, TrendingLimit(query))
    ensures r.Ok? ==> forall i :: 0 <= i < |r.payload| ==> r.payload[i] == ProjectPool(reply.body.value[i])
  {
    match reply
    case Rejected(status, data) => Err(status, data)
    case Unreachable => Err(500, DextoolsFailure)
    case Answered(body) =>
      if body.None? || body.value == [] then Err(404, NoTrendingPools)
      else
        var pools := body.value[..SliceEnd(|body.value|, TrendingLimit(query))];
        Ok(seq(|pools|, i requires 0 <= i < |pools| => ProjectPool(pools[i])))
  }

  /** The output length: `min(limit, n)` for a positive limit; a negative
      limit is `slice(0, limit)` and drops that many pools from the end. */
  lemma TrendingLength(query: Option<string>, pools: seq<Pool>)
    requires pools != []
    ensures Trending(query, Answered(Some(pools))).Ok?
    ensures var n := |Trending(query, Answered(Some(pools))).payload|;
            var limit := TrendingLimit(query);
            && (limit > 0 ==> n == (if limit < |pools| then limit else |pools|))
            && (limit < 0 ==> n == (if |pools| + limit < 0 then 0 else |pools| + limit))
  {
  }

  /** The limit the shell writes into `?limit=` is the limit the route uses. */
  lemma TrendingLimitOfRendered(n: nat)
    requires n > 0
    ensures TrendingLimit(Some(NatToString(n))) == n
  {
    ParseIntNatToString(n);
  }

  /** Asking for `limit` pools when the provider ranks at least that many
      gives exactly the first `limit`, projected in upstream order. */
  lemma TrendingFirstPools(limit: nat, pools: seq<Pool>)
    requires 0 < limit <= |pools|
    ensures var r := Trending(Some(NatToString(limit)), Answered(Some(pools)));
            r.Ok? && |r.payload| == limit && forall i :: 0 <= i < limit ==> r.payload[i] == ProjectPool(pools[i])
  {
    TrendingLimitOfRendered(limit);
  }

  // ---------------------------------------------------------------------------
  // GET /api/dextools/socials/:contractAddress

  /** `response.data.data.socialInfo`: each link may be missing. */
  datatype SocialLinks = SocialLinks(telegram: Option<string>, twitter: Option<string>, website: Option<string>)

  const NoSocialLinks := "No social links found."
  const SocialsFailure := "Failed to fetch socials."

  predicate HasAnyLink(l: SocialLinks) {
    Truthy(l.telegram) || Truthy(l.twitter) || Truthy(l.website)
  }

  /** The socials route: a missing `socialInfo` is an empty object; no truthy
      link is a 404; otherwise the three links are passed on unchanged. */
  function Socials(reply: Upstream<Option<SocialLinks>>): (r: Response<SocialLinks>)
    ensures reply.Answered? ==> (r.Ok? <==> reply.body.Some? && HasAnyLink(reply.body.value))
    ensures reply.Answered? && r.Err? ==> r == Err(404, NoSocialLinks)
    ensures r.Ok? ==> reply.Answered? && reply.body.Some? && r.payload == reply.body.value && HasAnyLink(r.payload)
    ensures !reply.Answered? ==> r == Err(500, SocialsFailure)
  {
    match reply
    case Answered(info) =>
      var links := info.GetOr(SocialLinks(None, None, None));
      if !HasAnyLink(links) then Err(404, NoSocialLinks) else Ok(links)
    case _ => Err(500, SocialsFailure)
  }

  // ---------------------------------------------------------------------------
  // GET /api/dextools/audit/:contractAddress

  /** A property of a JSON object: missing (`undefined`), `null`, or a value.
      Destructuring defaults apply to a missing property only. */
  datatype Field<T> = Absent | Null | Has(value: T)

  datatype AuditData = AuditData(
    isHoneypot: Field<string>,
    isMintable: Field<string>,
    slippageModifiable: Field<string>,
    isContractRenounced: Field<string>,
    isPotentiallyScam: Field<string>)

  /** The normalised report; None is JSON null. */
  datatype AuditReport = AuditReport(
    isHoneypot: Option<string>,
    isMintable: Option<string>,
    slippageModifiable: Option<string>,
    isContractRenounced: Option<string>,
    isPotentiallyScam: Option<string>)

  const AuditFailure := "Failed to fetch audit information."

  /** `const { flag = "no" } = data`. */
  function FlagOrNo(f: Field<string>): (out: Option<string>)
    ensures f.Absent? ==> out == Some("no")
    ensures f.Null? ==> out.None?
    ensures f.Has? ==> out == Some(f.value)
  {
    match f
    case Absent => Some("no")
    case Null => None
    case Has(v) => Some(v)
  }

  /** `response.data?.data || {}`: a missing data object has no properties. */
  const NoAuditData := AuditData(Absent, Absent, Absent, Absent, Absent)

  /** The audit route: never fails on an answer, whatever is missing. */
  function Audit(reply: Upstream<Option<AuditData>>): (r: Response<AuditReport>)
    ensures r.Ok? <==> reply.Answered?
    ensures r.Err? ==> r == Err(500, AuditFailure)
    ensures r.Ok? && reply.body.None? ==> r.payload == AuditReport(Some("no"), Some("no"), Some("no"), Some("no"), Some("no"))
    ensures r.Ok? && reply.body.Some? ==>
      var d := reply.body.value;
      r.payload == AuditReport(FlagOrNo(d.isHoneypot), FlagOrNo(d.isMintable), FlagOrNo(d.slippageModifiable),
                               FlagOrNo(d.isContractRenounced), FlagOrNo(d.isPotentiallyScam))
  {
    match reply
    case Answered(data) =>
      var d := data.GetOr(NoAuditData);
      Ok(AuditReport(FlagOrNo(d.isHoneypot), FlagOrNo(d.isMintable), FlagOrNo(d.slippageModifiable),
                     FlagOrNo(d.isContractRenounced), FlagOrNo(d.isPotentiallyScam)))
    case _ => Err(500, AuditFailure)
  }

  /** Every flag of the report is a string unless the provider sent an
      explicit null for it: a missing field never surfaces as missing. */
  lemma AuditFlagsPresentUnlessNull(data: AuditData)
    requires !data.isHoneypot.Null? && !data.isMintable.Null? && !data.slippageModifiable.Null?
    requires !data.isContractRenounced.Null? && !data.isPotentiallyScam.Null?
    ensures var a := Audit(Answered(Some(data))).payload;
            a.isHoneypot.Some? && a.isMintable.Some? && a.slippageModifiable.Some?
            && a.isContractRenounced.Some? && a.isPotentiallyScam.Some?
  {
  }
}
