/** Properties of the shell's transition function: what one keystroke or one
    settlement does to the log, the prompt and the loading flag, and what
    holds along every run. */
module ShellProperties {
  import opened Wrappers
  import opened JsText
  import opened Gateway
  import opened Shell

  // ---------------------------------------------------------------------------
  // Reading a typed line

  /** A line without a space is one word. */
  lemma WordsOfOne(w: string)
    requires ' ' !in w
    ensures Split(w, ' ') == [w]
  {
    SplitJoin([w], ' ');
  }

  /** A command and one argument, separated by one space, are two words. */
  lemma WordsOfTwo(command: string, argument: string)
    requires ' ' !in command && ' ' !in argument
    ensures Split(command + " " + argument, ' ') == [command, argument]
  {
    assert Join([command, argument], ' ') == command + " " + argument by {
      assert [command, argument][1..] == [argument];
    }
    SplitJoin([command, argument], ' ');
  }

  /** A line with no surrounding whitespace is echoed and dispatched as
      typed. */
  lemma EnterUntrimmed(s: State, raw: string)
    requires s.prompt.None? && raw != [] && !IsSpace(raw[0]) && !IsSpace(raw[|raw| - 1])
    ensures Step(s, Enter(raw)) == Dispatch(s.(log := s.log + [Echo(raw)]), Parse(raw))
  {
    TrimUntouched(raw);
  }

  // ---------------------------------------------------------------------------
  // Enter at the top level

  /** A blank line at the top level changes nothing. */
  lemma BlankLineIgnored(s: State, raw: string)
    requires s.prompt.None? && AllSpace(raw)
    ensures Step(s, Enter(raw)) == s
  {
    TrimEmptyIff(raw);
  }

  /** Any other line is echoed once, as `λ <trimmed input>`, directly after
      the old log (unless it is `clear`, which then empties the log). */
  lemma EchoComesFirst(s: State, raw: string)
    requires s.prompt.None? && !AllSpace(raw)
    requires Parse(Trim(raw)) != Clear
    ensures var s' := Step(s, Enter(raw));
            |s'.log| > |s.log| + 1 && s'.log[..|s.log| + 1] == s.log + [Echo(Trim(raw))]
  {
    TrimEmptyIff(raw);
    var s1 := s.(log := s.log + [Echo(Trim(raw))]);
    var s' := Dispatch(s1, Parse(Trim(raw)));
    assert Step(s, Enter(raw)) == s';
    assert s1.log < s'.log;
  }

  /** An unrecognised command (matching is case-sensitive, and `check` needs
      exactly one argument) appends the echo and exactly two lines and leaves
      the flag, the prompt and the calls in flight alone. */
  lemma UnknownCommandReply(s: State, raw: string)
    requires s.prompt.None? && !AllSpace(raw)
    requires var w := Split(Trim(raw), ' ');
             && w[0] != "help" && w[0] != "clear" && w[0] != "trending" && w[0] != "socials" && w[0] != "audit"
             && (w[0] == "check" ==> |w| != 2)
    ensures var w := Split(Trim(raw), ' ');
            Step(s, Enter(raw)) == s.(log := s.log + [Echo(Trim(raw))] + UnknownCommandLines(w[0]))
  {
    TrimEmptyIff(raw);
  }

  /** The help table advertises `CHECK`, but dispatch is case-sensitive. */
  lemma UpperCaseCheckIsUnknown(s: State, address: string)
    requires s.prompt.None? && address != [] && ' ' !in address && !IsSpace(address[|address| - 1])
    ensures var raw := "CHECK " + address;
            Step(s, Enter(raw)) == s.(log := s.log + [Echo(raw)] + UnknownCommandLines("CHECK"))
  {
    var raw := "CHECK " + address;
    WordsOfTwo("CHECK", address);
    assert "CHECK" + " " + address == raw;
    assert "CHECK" != "check" by { assert "CHECK"[0] != "check"[0]; }
    assert "CHECK" != "clear" by { assert "CHECK"[0] != "clear"[0]; }
    assert "CHECK" != "audit" by { assert "CHECK"[0] != "audit"[0]; }
    assert Parse(raw) == Unknown("CHECK");
    assert raw[0] == "CHECK "[0] == 'C';
    assert raw[|raw| - 1] == address[|address| - 1];
    EnterUntrimmed(s, raw);
  }

  /** `help` appends the echo and then the seven rows of the command table,
      in order. */
  lemma HelpAppendsTable(s: State, raw: string)
    requires s.prompt.None? && !AllSpace(raw)
    requires Parse(Trim(raw)) == Help
    ensures Step(s, Enter(raw)) == s.(log := s.log + [Echo(Trim(raw))] + HelpLines)
    ensures |HelpLines| == 7
  {
    TrimEmptyIff(raw);
  }

  /** `clear` empties the log and touches nothing else. */
  lemma ClearEmptiesLog(s: State, raw: string)
    requires s.prompt.None? && !AllSpace(raw)
    requires Parse(Trim(raw)) == Clear
    ensures Step(s, Enter(raw)) == s.(log := [])
  {
    TrimEmptyIff(raw);
  }

  /** `check <address>` appends the echo and the "Fetching" line, turns the
      loading flag on and puts one call for that address in flight; it opens
      no prompt, so the next line is read as a command again. */
  lemma CheckStartsFetch(s: State, raw: string)
    requires s.prompt.None? && !AllSpace(raw)
    requires Parse(Trim(raw)).Check?
    ensures var a := Parse(Trim(raw)).address;
            && Step(s, Enter(raw)) == s.(log := s.log + [Echo(Trim(raw)), FetchingDetails(a)],
                                         busy := true,
                                         inflight := s.inflight + [CheckReq(a)])
            && ' ' !in a
  {
    TrimEmptyIff(raw);
  }

  /** `trending`, `socials` and `audit` each echo the line, show their own
      prompt text and open their own secondary prompt, without starting a
      call. */
  lemma PromptingCommandsWait(s: State, raw: string)
    requires s.prompt.None? && !AllSpace(raw)
    requires Parse(Trim(raw)) in {TrendingCmd, SocialsCmd, AuditCmd}
    ensures var s' := Step(s, Enter(raw));
            && s'.prompt.Some?
            && (Parse(Trim(raw)) == TrendingCmd <==> s'.prompt == Some(SelectLimit))
            && s'.busy == s.busy && s'.inflight == s.inflight
    ensures Parse(Trim(raw)) == TrendingCmd ==>
              Step(s, Enter(raw)) == s.(log := s.log + [Echo(Trim(raw))] + TrendingMenu, prompt := Some(SelectLimit))
    ensures Parse(Trim(raw)) == SocialsCmd ==>
              Step(s, Enter(raw)) == s.(log := s.log + [Echo(Trim(raw)), SocialsPrompt], prompt := Some(SocialsAddress))
    ensures Parse(Trim(raw)) == AuditCmd ==>
              Step(s, Enter(raw)) == s.(log := s.log + [Echo(Trim(raw)), AuditPrompt], prompt := Some(AuditAddress))
  {
    TrimEmptyIff(raw);
    var input := Trim(raw);
    var c := Parse(input);
    assert Step(s, Enter(raw)) == Dispatch(s.(log := s.log + [Echo(input)]), c);
    assert c == TrendingCmd || c == SocialsCmd || c == AuditCmd;
  }

  // ---------------------------------------------------------------------------
  // Enter while a prompt is pending

  /** The next Enter resolves the prompt and is neither echoed nor
      dispatched: no line it appends is an echo. */
  lemma PendingPromptTakesLine(s: State, raw: string)
    requires s.prompt.Some?
    ensures var s' := Step(s, Enter(raw));
            && s'.prompt.None?
            && |s'.log| > |s.log|
            && forall i :: |s.log| <= i < |s'.log| ==> !s'.log[i].Echo?
  {
  }

  /** The trending selection: "1", "2" and "3" start a fetch of 5, 10 or 15
      coins with the flag on; anything else appends the invalid-selection
      line and starts nothing. */
  lemma TrendingSelection(s: State, raw: string)
    requires s.prompt == Some(SelectLimit)
    ensures var s' := Step(s, Enter(raw));
            var sel := Trim(raw);
            && (sel == "1" ==> s'.inflight == s.inflight + [TrendingReq(5)] && s'.busy)
            && (sel == "2" ==> s'.inflight == s.inflight + [TrendingReq(10)] && s'.busy)
            && (sel == "3" ==> s'.inflight == s.inflight + [TrendingReq(15)] && s'.busy)
            && (sel != "1" && sel != "2" && sel != "3" ==> s' == s.(prompt := None, log := s.log + [InvalidSelection]))
  {
    var sel := Trim(raw);
    assert Step(s, Enter(raw)) == Resolve(s, SelectLimit, sel);
    var limit := LimitFor(sel);
    if limit.Some? {
      assert Resolve(s, SelectLimit, sel).inflight == s.inflight + [TrendingReq(limit.value)];
    }
  }

  /** The socials prompt takes the next line, trimmed and possibly empty, as
      the contract address: it announces the fetch and puts the socials call
      in flight, leaving the loading flag alone. */
  lemma SocialsPromptFetches(s: State, raw: string)
    requires s.prompt == Some(SocialsAddress)
    ensures var a := Trim(raw);
            Step(s, Enter(raw)) == s.(prompt := None, log := s.log + [FetchingSocials(a)], inflight := s.inflight + [SocialsReq(a)])
  {
    assert Step(s, Enter(raw)) == Resolve(s, SocialsAddress, Trim(raw));
  }

  /** The audit prompt does the same with the audit call. */
  lemma AuditPromptFetches(s: State, raw: string)
    requires s.prompt == Some(AuditAddress)
    ensures var a := Trim(raw);
            Step(s, Enter(raw)) == s.(prompt := None, log := s.log + [FetchingAudit(a)], inflight := s.inflight + [AuditReq(a)])
  {
    assert Step(s, Enter(raw)) == Resolve(s, AuditAddress, Trim(raw));
  }

  // ---------------------------------------------------------------------------
  // Settlement and the loading flag

  /** Settling a `check` or trending call clears the flag on every path
      (result, error body or exception); socials and audit calls leave it. */
  lemma SettlementAndBusy(s: State, k: nat, o: Outcome)
    requires k < |s.inflight| && Answers(s.inflight[k], o)
    ensures var s' := Step(s, Settle(k, o));
            && (s.inflight[k].Loads() ==> !s'.busy)
            && (!s.inflight[k].Loads() ==> s'.busy == s.busy)
            && s'.log == s.log + ResultLines(s.inflight[k], o)
            && |s'.inflight| == |s.inflight| - 1
  {
  }

  /** The flag is on only while a `check` or trending call is in flight. */
  ghost predicate BusyHasCause(s: State) {
    s.busy ==> exists i :: 0 <= i < |s.inflight| && s.inflight[i].Loads()
  }

  /** An Enter only adds calls, and turns the flag on only with a call that
      drives it. */
  lemma EnterAddsCalls(s: State, raw: string)
    ensures var s' := Step(s, Enter(raw));
            && s.inflight <= s'.inflight
            && (s'.busy != s.busy ==> s'.busy && |s'.inflight| > |s.inflight| && s'.inflight[|s.inflight|].Loads())
  {
  }

  lemma {:induction false} EnterKeepsBusyCause(s: State, raw: string)
    requires BusyHasCause(s)
    ensures BusyHasCause(Step(s, Enter(raw)))
  {
    var s' := Step(s, Enter(raw));
    EnterAddsCalls(s, raw);
    if s'.busy {
      if s'.busy != s.busy {
        assert s'.inflight[|s.inflight|].Loads();
      } else {
        var i :| 0 <= i < |s.inflight| && s.inflight[i].Loads();
        assert s'.inflight[i] == s.inflight[i];
      }
    }
  }

  lemma {:induction false} SettleKeepsBusyCause(s: State, k: nat, o: Outcome)
    requires BusyHasCause(s)
    ensures BusyHasCause(Step(s, Settle(k, o)))
  {
    var s' := Step(s, Settle(k, o));
    if s'.busy {
      var i :| 0 <= i < |s.inflight| && s.inflight[i].Loads();
      if k < |s.inflight| && Answers(s.inflight[k], o) {
        assert !s.inflight[k].Loads();
        if i < k {
          assert s'.inflight[i] == s.inflight[i];
        } else {
          assert s'.inflight[i - 1] == s.inflight[i];
        }
      } else {
        assert s'.inflight[i] == s.inflight[i];
      }
    }
  }

  lemma StepKeepsBusyCause(s: State, e: Event)
    requires BusyHasCause(s)
    ensures BusyHasCause(Step(s, e))
  {
    match e
    case Enter(raw) => EnterKeepsBusyCause(s, raw);
    case Settle(k, o) => SettleKeepsBusyCause(s, k, o);
  }

  /** Along every run from the initial state the flag is on only while a
      call that drives it is in flight: once those calls have all settled,
      the shell is never left showing the loading indicator. */
  lemma {:induction false} RunKeepsBusyCause(s: State, events: seq<Event>)
    requires BusyHasCause(s)
    ensures BusyHasCause(Run(s, events))
    ensures (forall i :: 0 <= i < |Run(s, events).inflight| ==> !Run(s, events).inflight[i].Loads()) ==> !Run(s, events).busy
    decreases |events|
  {
    if events != [] {
      StepKeepsBusyCause(s, events[0]);
      RunKeepsBusyCause(Step(s, events[0]), events[1..]);
    }
  }

  lemma InitialIsIdle()
    ensures BusyHasCause(Initial)
    ensures !Initial.busy && Initial.prompt.None? && Initial.inflight == []
  {
  }

  // ---------------------------------------------------------------------------
  // The log over a run

  /** No event of the run is a `clear`. */
  ghost predicate NoClear(s: State, events: seq<Event>)
    decreases |events|
  {
    events == [] || (!IsClear(s, events[0]) && NoClear(Step(s, events[0]), events[1..]))
  }

  /** Without a `clear`, a run only appends: the old log is a prefix of the
      new one. */
  lemma {:induction false} RunOnlyAppends(s: State, events: seq<Event>)
    requires NoClear(s, events)
    ensures s.log <= Run(s, events).log
    decreases |events|
  {
    if events != [] {
      RunOnlyAppends(Step(s, events[0]), events[1..]);
    }
  }

  // ---------------------------------------------------------------------------
  // Rendering

  /** The `check` report: six header lines, then at most ten holders numbered
      from 1 in the order the gateway returned them. */
  lemma TokenReportShape(d: TokenDetail)
    ensures var lines := TokenReport(d);
            var n := if |d.largestAccounts| < TopHolders then |d.largestAccounts| else TopHolders;
            && |lines| == 6 + n
            && lines[1] == SupplyLine(d.tokenSupply)
            && lines[2] == MintLine(d.mintAuthority)
            && lines[3] == FreezeLine(d.freezeAuthority)
            && forall i :: 0 <= i < n ==> lines[6 + i] == HolderLine(i + 1, d.largestAccounts[i], d.tokenSupply)
  {
    var head := [TokenHeader, SupplyLine(d.tokenSupply), MintLine(d.mintAuthority), FreezeLine(d.freezeAuthority),
                 LiquidityLine(d.liquidity), HoldersHeader];
    var holders := HolderLines(d.largestAccounts, d.tokenSupply);
    var lines := TokenReport(d);
    assert lines == head + holders;
    assert |head| == 6;
    HolderLinesAfterHead(head, holders, d.largestAccounts, d.tokenSupply);
  }

  /** Holder lines appended after a six-line head sit at offset 6 + i. */
  lemma HolderLinesAfterHead(head: seq<Line>, holders: seq<Line>, accounts: seq<Holder>, supply: real)
    requires |head| == 6 && holders == HolderLines(accounts, supply)
    ensures forall i :: 0 <= i < |holders| ==> (head + holders)[6 + i] == HolderLine(i + 1, accounts[i], supply)
  {
    forall i | 0 <= i < |holders|
      ensures (head + holders)[6 + i] == HolderLine(i + 1, accounts[i], supply)
    {
      assert (head + holders)[6 + i] == holders[i];
    }
  }

  /** The fourth part of a holder line is the holder's share of the supply. */
  lemma HolderLinePercent(rank: nat, h: Holder, supply: real)
    ensures |Render(HolderLine(rank, h, supply))| == 5
    ensures var part := Render(HolderLine(rank, h, supply))[3];
            && part.Fixed2?
            && (supply != 0.0 ==> part.percent.Finite? && part.percent.value * supply == h.uiAmount.GetOr(0.0) * 100.0)
            && (supply == 0.0 ==> !part.percent.Finite?)
  {
  }

  /** A holder line starts with its rank, which `parseInt` reads back. */
  lemma HolderLineRank(rank: nat, h: Holder, supply: real)
    requires rank > 0
    ensures Render(HolderLine(rank, h, supply))[0].Lit?
    ensures ParseInt(Render(HolderLine(rank, h, supply))[0].text) == Some(rank)
  {
    var digits := NatToString(rank);
    var rest := ". Address: " + h.address + ", Amount: ";
    assert Render(HolderLine(rank, h, supply))[0] == Lit(digits + rest);
    HornerNatToString(rank);
    ParseIntDecimalPrefix(digits, rest);
  }

  /** A holder line's rank reads back as the holder's position plus one. */
  lemma HolderRankReadsBack(accounts: seq<Holder>, supply: real, i: nat)
    requires i < |accounts| && i < TopHolders
    ensures var line := HolderLines(accounts, supply)[i];
            Render(line)[0].Lit? && ParseInt(Render(line)[0].text) == Some(i + 1)
  {
    HolderLineRank(i + 1, accounts[i], supply);
  }

  /** A zero supply is not guarded: every holder's percentage is NaN or
      infinite, never a finite number. */
  lemma ZeroSupplyPercentages(d: TokenDetail)
    requires d.tokenSupply == 0.0
    ensures forall i :: 0 <= i < |d.largestAccounts| ==> !Percentage(d.largestAccounts[i], d.tokenSupply).Finite?
  {
  }

  // ---------------------------------------------------------------------------
  // What a settlement shows

  /** A settlement of a call in flight appends that call's block and nothing
      else, and closes or keeps no prompt. */
  lemma SettleAppends(s: State, k: nat, o: Outcome)
    requires k < |s.inflight| && Answers(s.inflight[k], o)
    ensures Step(s, Settle(k, o)).log == s.log + ResultLines(s.inflight[k], o)
    ensures Step(s, Settle(k, o)).prompt == s.prompt
  {
  }

  /** A `check` call settles with the token report, or with the single line
      `Error: <error>` for an error body, and the flag goes off. */
  lemma CheckSettles(s: State, k: nat, resp: Response<TokenDetail>)
    requires k < |s.inflight| && s.inflight[k].CheckReq?
    ensures var s' := Step(s, Settle(k, Delivered(TokenBody(resp))));
            && !s'.busy
            && (resp.Ok? ==> s'.log == s.log + TokenReport(resp.payload))
            && (resp.Err? ==> s'.log == s.log + [CheckFailed(resp.error)])
            && (resp.Err? ==> Render(s'.log[|s.log|]) == [Lit("Error: " + resp.error)])
  {
    SettleAppends(s, k, Delivered(TokenBody(resp)));
  }

  /** The authority lines show the authority, or their fallback text when
      the gateway reported null. */
  lemma AuthorityLinesShowFallback(a: Option<string>)
    ensures a.None? ==> Render(MintLine(a)) == [Lit("  Mint Authority: " + "Revoked or null")]
    ensures a.None? ==> Render(FreezeLine(a)) == [Lit("  Freeze Authority: " + "None")]
    ensures a.Some? ==> Render(MintLine(a)) == [Lit("  Mint Authority: " + a.value)]
    ensures a.Some? ==> Render(FreezeLine(a)) == [Lit("  Freeze Authority: " + a.value)]
  {
  }

  /** Through the gateway: the mint line of a `check` report shows the mint
      authority when the mint info carries a non-empty one, and "Revoked or
      null" when the info or its field is missing or empty. */
  lemma MintLineOfReport(info: Option<MintInfo>)
    ensures var field := if info.Some? then info.value.mintAuthority else None;
            && (Truthy(field) ==> Render(MintLine(Authority(info, false))) == [Lit("  Mint Authority: " + field.value)])
            && (!Truthy(field) ==> Render(MintLine(Authority(info, false))) == [Lit("  Mint Authority: " + "Revoked or null")])
  {
    AuthorityLinesShowFallback(Authority(info, false));
  }

  /** The same for the freeze line, whose fallback is "None". */
  lemma FreezeLineOfReport(info: Option<MintInfo>)
    ensures var field := if info.Some? then info.value.freezeAuthority else None;
            && (Truthy(field) ==> Render(FreezeLine(Authority(info, true))) == [Lit("  Freeze Authority: " + field.value)])
            && (!Truthy(field) ==> Render(FreezeLine(Authority(info, true))) == [Lit("  Freeze Authority: " + "None")])
  {
    AuthorityLinesShowFallback(Authority(info, true));
  }

  /** `link || "N/A"`: the link when it is truthy, "N/A" otherwise. */
  lemma LinkOrNA(link: Option<string>)
    ensures Truthy(link) ==> OrElse(link, "N/A") == link.value
    ensures !Truthy(link) ==> OrElse(link, "N/A") == "N/A"
  {
  }

  /** Each link line shows its link when it is truthy and "N/A" otherwise. */
  lemma LinkLinesShowFallback(link: Option<string>)
    ensures Truthy(link) ==> Render(TelegramLine(link)) == [Lit("  Telegram: " + link.value)]
    ensures Truthy(link) ==> Render(TwitterLine(link)) == [Lit("  Twitter: " + link.value)]
    ensures Truthy(link) ==> Render(WebsiteLine(link)) == [Lit("  Website: " + link.value)]
    ensures !Truthy(link) ==> Render(TelegramLine(link)) == [Lit("  Telegram: " + "N/A")]
    ensures !Truthy(link) ==> Render(TwitterLine(link)) == [Lit("  Twitter: " + "N/A")]
    ensures !Truthy(link) ==> Render(WebsiteLine(link)) == [Lit("  Website: " + "N/A")]
  {
    var shown := OrElse(link, "N/A");
    LinkOrNA(link);
    assert Render(TelegramLine(link)) == [Lit("  Telegram: " + shown)];
    assert Render(TwitterLine(link)) == [Lit("  Twitter: " + shown)];
    assert Render(WebsiteLine(link)) == [Lit("  Website: " + shown)];
  }

  /** A socials call settles with the header and the three link lines, or
      with the single "No social links found" line for an error body; the
      flag is left alone. */
  lemma SocialsSettles(s: State, k: nat, resp: Response<SocialLinks>)
    requires k < |s.inflight| && s.inflight[k].SocialsReq?
    ensures var s' := Step(s, Settle(k, Delivered(SocialsBody(resp))));
            && s'.busy == s.busy
            && (resp.Ok? ==> var l := resp.payload;
                             s'.log == s.log + [SocialsHeader, TelegramLine(l.telegram), TwitterLine(l.twitter), WebsiteLine(l.website)])
            && (resp.Err? ==> s'.log == s.log + [NoSocialsFound])
            && (resp.Err? ==> Render(s'.log[|s.log|]) == [Lit("No social links found for the provided contract address.")])
  {
    SettleAppends(s, k, Delivered(SocialsBody(resp)));
  }

  /** Through the gateway: a socials answer with no truthy link is the 404
      that the shell shows as "No social links found"; any other answer
      shows the header and each link or "N/A". */
  lemma SocialsAnswerShown(s: State, k: nat, links: Option<SocialLinks>)
    requires k < |s.inflight| && s.inflight[k].SocialsReq?
    ensures var s' := Step(s, Settle(k, Delivered(SocialsBody(Socials(Answered(links))))));
            && (links.None? || !HasAnyLink(links.value) ==> s'.log == s.log + [NoSocialsFound])
            && (links.Some? && HasAnyLink(links.value) ==>
                  var l := links.value;
                  s'.log == s.log + [SocialsHeader, TelegramLine(l.telegram), TwitterLine(l.twitter), WebsiteLine(l.website)])
  {
    SocialsSettles(s, k, Socials(Answered(links)));
  }

  /** An audit call settles with the header and the five flags in display
      order, or with the single "No audit information" line for an error
      body; the flag is left alone. */
  lemma AuditSettles(s: State, k: nat, resp: Response<AuditReport>)
    requires k < |s.inflight| && s.inflight[k].AuditReq?
    ensures var s' := Step(s, Settle(k, Delivered(AuditBody(resp))));
            && s'.busy == s.busy
            && (resp.Ok? ==> var a := resp.payload;
                             s'.log == s.log + [AuditHeader,
                                                AuditFlag(Honeypot, a.isHoneypot),
                                                AuditFlag(Mintable, a.isMintable),
                                                AuditFlag(SlippageModifiable, a.slippageModifiable),
                                                AuditFlag(ContractRenounced, a.isContractRenounced),
                                                AuditFlag(PotentiallyScam, a.isPotentiallyScam)])
            && (resp.Err? ==> s'.log == s.log + [NoAuditFound])
  {
    SettleAppends(s, k, Delivered(AuditBody(resp)));
  }

  /** An error body or an exception appends exactly one line; an exception
      shows its message in the line of the call's own command. */
  lemma FailureAppendsOneLine(s: State, k: nat, o: Outcome)
    requires k < |s.inflight| && Answers(s.inflight[k], o)
    requires o.Thrown? || o.body.IsError()
    ensures |Step(s, Settle(k, o)).log| == |s.log| + 1
    ensures o.Thrown? && s.inflight[k].CheckReq? ==> Step(s, Settle(k, o)).log == s.log + [CheckThrew(o.message)]
    ensures o.Thrown? && s.inflight[k].TrendingReq? ==> Step(s, Settle(k, o)).log == s.log + [TrendingThrew(o.message)]
    ensures o.Thrown? && s.inflight[k].SocialsReq? ==> Step(s, Settle(k, o)).log == s.log + [SocialsThrew(o.message)]
    ensures o.Thrown? && s.inflight[k].AuditReq? ==> Step(s, Settle(k, o)).log == s.log + [AuditThrew(o.message)]
  {
    SettleAppends(s, k, o);
  }

  /** A trending call whose response status is outside 200-299 is shown as
      the backend failure, whatever the error body says. */
  lemma TrendingErrorStatusShown(s: State, k: nat, status: int, error: string)
    requires k < |s.inflight| && s.inflight[k].TrendingReq?
    requires !(200 <= status <= 299)
    ensures var s' := Step(s, Settle(k, Delivered(TrendingBody(Err(status, error)))));
            && s'.log == s.log + [TrendingThrew(BackendFailure)]
            && !s'.busy
            && Render(s'.log[|s.log|]) == [Lit("Error fetching trending coins: " + "Failed to fetch data from the backend.")]
  {
    SettleAppends(s, k, Delivered(TrendingBody(Err(status, error))));
  }

  /** The provider rate-limits a trending request: the gateway passes the
      429 through, and the shell shows the backend failure and clears the
      flag. */
  lemma TrendingRateLimitedScenario(s: State, k: nat, limit: nat, data: string)
    requires k < |s.inflight| && s.inflight[k] == TrendingReq(limit)
    ensures var r := Trending(Some(NatToString(limit)), Rejected(429, data));
            var s' := Step(s, Settle(k, Delivered(TrendingBody(r))));
            && r == Err(429, data)
            && s'.log == s.log + [TrendingThrew(BackendFailure)]
            && !s'.busy
  {
    TrendingErrorStatusShown(s, k, 429, data);
  }

  // ---------------------------------------------------------------------------
  // End-to-end scenarios across the gateway and the shell

  /** `foo` at the initial state: the echo, two reply lines, flag still off. */
  lemma UnknownFooScenario()
    ensures var s' := Step(Initial, Enter("foo"));
            s'.log == Initial.log + [Echo("foo")] + UnknownCommandLines("foo") && !s'.busy
  {
    WordsOfOne("foo");
    assert Parse("foo") == Unknown("foo");
    EnterUntrimmed(Initial, "foo");
  }

  /** Supply 1000000 with holders of 600000 and 400000 gives 60% and 40%. */
  lemma CheckScenario(a1: string, a2: string)
    ensures var d := TokenDetail(1000000.0, [Holder(a1, Some(600000.0), None), Holder(a2, Some(400000.0), None)], None, None, LiquidityPlaceholder);
            var lines := TokenReport(d);
            && |lines| == 8
            && lines[1] == SupplyLine(1000000.0)
            && Render(lines[6])[3] == Fixed2(Finite(60.0))
            && Render(lines[7])[3] == Fixed2(Finite(40.0))
  {
    var h1, h2 := Holder(a1, Some(600000.0), None), Holder(a2, Some(400000.0), None);
    var d := TokenDetail(1000000.0, [h1, h2], None, None, LiquidityPlaceholder);
    TokenReportShape(d);
    HolderLinePercent(1, h1, 1000000.0);
    HolderLinePercent(2, h2, 1000000.0);
  }

  /** An audit answer without data shows all five flags as "no". */
  lemma EmptyAuditScenario()
    ensures var r := Audit(Answered(None));
            r.Ok? && AuditLines(r.payload) == [
              AuditHeader,
              AuditFlag(Honeypot, Some("no")),
              AuditFlag(Mintable, Some("no")),
              AuditFlag(SlippageModifiable, Some("no")),
              AuditFlag(ContractRenounced, Some("no")),
              AuditFlag(PotentiallyScam, Some("no"))]
  {
  }

  lemma ParseTrending()
    ensures Parse("trending") == TrendingCmd
  {
    WordsOfOne("trending");
  }

  /** `trending` at the top level shows the menu and waits for a
      selection. */
  lemma TrendingOpensMenu(s: State)
    requires s.prompt.None?
    ensures Step(s, Enter("trending")) == s.(log := s.log + [Echo("trending")] + TrendingMenu, prompt := Some(SelectLimit))
  {
    var raw := "trending";
    assert !IsSpace(raw[0]) && !IsSpace(raw[|raw| - 1]);
    EnterUntrimmed(s, raw);
    ParseTrending();
  }

  /** The number of coins a trending call for `limit` shows when the
      provider ranks `pools`: the first `limit`, or all of them when there
      are fewer. */
  function ShownCoins(limit: nat, pools: seq<Pool>): nat {
    if limit < |pools| then limit else |pools|
  }

  /** The block a trending call for `limit` coins settles with: a header
      naming the requested `limit` (even when fewer pools come back) and the
      first `limit` pools, or all of them, numbered in provider order. When
      the provider ranks no pool, the gateway's 404 is shown as the backend
      failure. */
  lemma TrendingResultLines(limit: nat, pools: seq<Pool>)
    requires 0 < limit
    ensures var o := Delivered(TrendingBody(Trending(Some(NatToString(limit)), Answered(Some(pools)))));
            var lines := ResultLines(TrendingReq(limit), o);
            var n := ShownCoins(limit, pools);
            && (pools == [] ==> lines == [TrendingThrew(BackendFailure)])
            && (pools != [] ==> |lines| == n + 1 && lines[0] == TrendingHeader(limit))
            && (pools != [] ==> forall i :: 0 <= i < n ==> lines[1 + i] == CoinLine(i + 1, ProjectPool(pools[i])))
  {
    TrendingLimitOfRendered(limit);
    var r := Trending(Some(NatToString(limit)), Answered(Some(pools)));
    if pools != [] {
      assert |r.payload| == ShownCoins(limit, pools);
      assert ResultLines(TrendingReq(limit), Delivered(TrendingBody(r))) == TrendingReport(limit, r.payload);
    }
  }

  /** Settling that call appends its block and clears the flag. */
  lemma TrendingSettles(s: State, k: nat, limit: nat, pools: seq<Pool>)
    requires k < |s.inflight| && s.inflight[k] == TrendingReq(limit)
    requires 0 < limit
    ensures var body := TrendingBody(Trending(Some(NatToString(limit)), Answered(Some(pools))));
            var s' := Step(s, Settle(k, Delivered(body)));
            var n := ShownCoins(limit, pools);
            && !s'.busy
            && (pools == [] ==> s'.log == s.log + [TrendingThrew(BackendFailure)])
            && (pools != [] ==> |s'.log| == |s.log| + n + 1 && s'.log[|s.log|] == TrendingHeader(limit))
            && (pools != [] ==> forall i :: 0 <= i < n ==> s'.log[|s.log| + 1 + i] == CoinLine(i + 1, ProjectPool(pools[i])))
  {
    var o := Delivered(TrendingBody(Trending(Some(NatToString(limit)), Answered(Some(pools)))));
    var lines := ResultLines(TrendingReq(limit), o);
    TrendingResultLines(limit, pools);
    SettledBlock(s, k, o, lines);
    if pools != [] {
      CoinsAfterHeader(s.log, lines, ShownCoins(limit, pools), pools);
    }
  }

  /** Settling a call that drives the flag appends its block and clears the
      flag. */
  lemma SettledBlock(s: State, k: nat, o: Outcome, lines: seq<Line>)
    requires k < |s.inflight| && Answers(s.inflight[k], o) && s.inflight[k].Loads()
    requires lines == ResultLines(s.inflight[k], o)
    ensures Step(s, Settle(k, o)).log == s.log + lines && !Step(s, Settle(k, o)).busy
  {
    SettlementAndBusy(s, k, o);
  }

  /** Appending a header and `n` coin lines puts the header right after the
      old log and coin i at offset 1 + i past it. */
  lemma CoinsAfterHeader(log: seq<Line>, lines: seq<Line>, n: nat, pools: seq<Pool>)
    requires |lines| == n + 1 && n <= |pools|
    requires forall i :: 0 <= i < n ==> lines[1 + i] == CoinLine(i + 1, ProjectPool(pools[i]))
    ensures (log + lines)[|log|] == lines[0]
    ensures forall i :: 0 <= i < n ==> (log + lines)[|log| + 1 + i] == CoinLine(i + 1, ProjectPool(pools[i]))
  {
    forall i | 0 <= i < n
      ensures (log + lines)[|log| + 1 + i] == CoinLine(i + 1, ProjectPool(pools[i]))
    {
      assert (log + lines)[|log| + 1 + i] == lines[1 + i];
    }
  }

  /** A valid selection starts a trending call for its limit and turns the
      flag on. */
  lemma SelectionStartsFetch(s: State, raw: string, limit: nat)
    requires s.prompt == Some(SelectLimit) && LimitFor(Trim(raw)) == Some(limit)
    ensures Step(s, Enter(raw)) == s.(prompt := None, busy := true,
                                      log := s.log + [FetchingTop(limit), FetchingTopFromDextools(limit)],
                                      inflight := s.inflight + [TrendingReq(limit)])
  {
  }

  lemma SelectionTwoIsTen()
    ensures LimitFor(Trim("2")) == Some(10)
  {
    TrimUntouched("2");
  }

  /** The selection "2" asks for ten coins. */
  lemma SelectTwo(s: State)
    requires s.prompt == Some(SelectLimit)
    ensures Step(s, Enter("2")) == s.(prompt := None, busy := true,
                                      log := s.log + [FetchingTop(10), FetchingTopFromDextools(10)],
                                      inflight := s.inflight + [TrendingReq(10)])
  {
    SelectionTwoIsTen();
    SelectionStartsFetch(s, "2", 10);
  }

  /** `trending` and then "2" put one call for ten coins in flight. */
  lemma TrendingThenTwo(s: State)
    requires s.prompt.None?
    ensures var s2 := Step(Step(s, Enter("trending")), Enter("2"));
            && s2.inflight == s.inflight + [TrendingReq(10)]
            && s2.busy && s2.prompt.None?
  {
    TrendingOpensMenu(s);
    SelectTwo(Step(s, Enter("trending")));
  }

  /** `trending`, then "2", then the gateway's answer over twelve upstream
      pools: the shell shows a header and exactly ten numbered coins, the
      first pool first and the tenth last, and the flag is off again. */
  lemma TrendingTenScenario(s: State, pools: seq<Pool>)
    requires s.prompt.None? && |pools| == 12
    ensures var s1 := Step(s, Enter("trending"));
            var s2 := Step(s1, Enter("2"));
            var body := TrendingBody(Trending(Some(NatToString(10)), Answered(Some(pools))));
            var s3 := Step(s2, Settle(|s.inflight|, Delivered(body)));
            && s2.inflight == s.inflight + [TrendingReq(10)]
            && |s3.log| == |s2.log| + 11
            && s3.log[|s2.log| + 1] == CoinLine(1, ProjectPool(pools[0]))
            && s3.log[|s3.log| - 1] == CoinLine(10, ProjectPool(pools[9]))
            && !s3.busy
  {
    TrendingThenTwo(s);
    var s2 := Step(Step(s, Enter("trending")), Enter("2"));
    TrendingSettles(s2, |s.inflight|, 10, pools);
  }
}
