/**
 * Properties of the conversation: what each step accepts and stores, what a
 * re-prompt keeps, how the commands behave in every state, and the
 * invariant every turn preserves.
 */
module ConversationFacts {
  import opened Wrappers
  import opened PyText
  import opened Validators
  import opened Commission
  import opened Exchange
  import opened Conversion
  import opened Currencies
  import opened Conversation

  // ---------------------------------------------------------------------
  // The invariant
  // ---------------------------------------------------------------------

  /** A write keeps user_data well typed when it puts a list under the list
      key and a string under a currency key. */
  lemma WriteKeepsTyped(ud: UserData, k: Key, v: Value)
    requires WellTyped(ud)
    requires k == AvailableList ==> v.List?
    requires k.Field? && k.name == "currency" ==> v.Str?
    ensures WellTyped(ud[k := v])
  {
  }

  lemma MainMenuKeepsTyped(ud: UserData, text: string)
    requires WellTyped(ud)
    ensures WellTyped(MainMenuChoice(ud, text).data)
  {
    WriteKeepsTyped(ud, AgentChoice, Null);
  }

  lemma AgentSubmenuKeepsTyped(ud: UserData, text: string)
    requires WellTyped(ud)
    ensures WellTyped(AgentSubmenuChoice(ud, text).data)
  {
    WriteKeepsTyped(ud, AgentChoice, Str("make_payment"));
    WriteKeepsTyped(ud, AgentChoice, Str("forex_rebate"));
  }

  lemma PhysicalChoicesKeepTyped(ud: UserData, text: string)
    requires WellTyped(ud)
    ensures WellTyped(PhysicalChoiceStep(ud, text).data)
  {
    var o := PhysicalChoiceStep(ud, text);
    if PhysicalChoice in o.data {
      WriteKeepsTyped(ud, PhysicalChoice, o.data[PhysicalChoice]);
    }
  }

  lemma MainMenuKeepsLive(ud: UserData, text: string)
    ensures Live(MainMenuChoice(ud, text).state)
  {
  }

  lemma AgentSubmenuKeepsLive(ud: UserData, text: string)
    ensures Live(AgentSubmenuChoice(ud, text).state)
  {
  }

  lemma PhysicalChoicesKeepLive(ud: UserData, text: string)
    ensures Live(PhysicalChoiceStep(ud, text).state)
  {
  }

  lemma CountryKeepsTyped(f: Flow, ud: UserData, text: string)
    requires WellTyped(ud)
    ensures WellTyped(CountryStep(f, ud, text).data)
  {
    WriteKeepsTyped(ud, Field(f, "country"), Str(Strip(text)));
  }

  lemma CurrencyKeepsTyped(f: Flow, ud: UserData, text: string, file: Option<Record>)
    requires WellTyped(ud)
    ensures WellTyped(CurrencyStep(f, ud, text, file).data)
  {
    var t := Upper(Strip(text));
    if t == "OTHERS" {
      WriteKeepsTyped(ud, AvailableList, List(AvailableCurrencies(file)));
    } else {
      var base := if ListMode(ud) then ud - {AvailableList} else ud;
      forall code: string ensures WellTyped(ChooseCurrency(f, base, code)) {
        WriteKeepsTyped(base, Field(f, "currency"), Str(code));
        WriteKeepsTyped(base[Field(f, "currency") := Str(code)], Field(f, "currency_manual"), Flag(false));
      }
    }
  }

  lemma CommissionedKeepsTyped(f: Flow, ud: UserData, s: string, q: Quote)
    requires WellTyped(ud)
    ensures WellTyped(Commissioned(f, ud, s, q).data)
  {
    if q.percent.Some? {
      WriteKeepsTyped(ud, Field(f, "amount"), Str(s));
      var ud1 := ud[Field(f, "amount") := Str(s)];
      WriteKeepsTyped(ud1, Field(f, "commission_percent"), Num(q.percent.value));
      WriteKeepsTyped(ud1[Field(f, "commission_percent") := Num(q.percent.value)],
                      Field(f, "commission_message"), Str(q.message));
    }
  }

  lemma ImporterAmountKeepsTyped(f: Flow, ud: UserData, s: string, rate: Option<real>,
                                 amount: real, currency: string, file: Option<Record>)
    requires WellTyped(ud)
    ensures var o := ImporterAmount(f, ud, s, rate, amount, currency, file); o.Next? ==> WellTyped(o.data)
  {
    var usd := ConvertToUsd(amount, currency, file);
    if rate.Some? && usd.Some? {
      CommissionedKeepsTyped(f, ud, s, CalculateCommission(usd.value, rate.value));
    }
  }

  lemma AmountKeepsTyped(f: Flow, ud: UserData, text: string, file: Option<Record>)
    requires WellTyped(ud)
    ensures var o := AmountStep(f, ud, text, file); o.Next? ==> WellTyped(o.data)
  {
    var s := Strip(text);
    if IsValidNumber(s) {
      var amount := ParseNumber(s);
      var currency := CurrencyOf(ud, f);
      WriteKeepsTyped(ud, Field(f, "amount"), Str(s));
      if !ExporterLike(f) && f != Physical {
        var rate := GetExchangeRate(file, "USD_RUB");
        assert AmountStep(f, ud, text, file) == ImporterAmount(f, ud, s, rate, amount, currency, file);
        ImporterAmountKeepsTyped(f, ud, s, rate, amount, currency, file);
      }
    }
  }

  lemma CommissionedState(f: Flow, ud: UserData, s: string, q: Quote)
    ensures Commissioned(f, ud, s, q).state in {At(f, Amount), At(f, CommissionChoice)}
  {
  }

  lemma AmountKeepsLive(f: Flow, ud: UserData, text: string, file: Option<Record>)
    requires Live(At(f, Amount))
    ensures var o := AmountStep(f, ud, text, file); o.Next? ==> Live(o.state)
  {
    var s := Strip(text);
    if IsValidNumber(s) && !ExporterLike(f) && f != Physical {
      var rate := GetExchangeRate(file, "USD_RUB");
      var amount := ParseNumber(s);
      var currency := CurrencyOf(ud, f);
      assert AmountStep(f, ud, text, file) == ImporterAmount(f, ud, s, rate, amount, currency, file);
      var usd := ConvertToUsd(amount, currency, file);
      if rate.Some? && usd.Some? {
        CommissionedState(f, ud, s, CalculateCommission(usd.value, rate.value));
      }
    }
  }

  lemma PhoneKeepsTyped(f: Flow, ud: UserData, text: string, user: User)
    requires WellTyped(ud)
    ensures WellTyped(PhoneStep(f, ud, text, user).data)
  {
    var p := Strip(text);
    WriteKeepsTyped(ud, Field(f, "phone"), Str(p));
    var ud1 := ud[Field(f, "phone") := Str(p)];
    WriteKeepsTyped(ud1, UserId(OwnerOf(f)), Int(user.id));
    WriteKeepsTyped(ud1[UserId(OwnerOf(f)) := Int(user.id)], Username(OwnerOf(f)), UsernameValue(user));
  }

  lemma FieldKeepsTyped(f: Flow, step: Step, ud: UserData, text: string)
    requires IsFieldStep(step) && WellTyped(ud)
    ensures WellTyped(FieldStep(f, step, ud, text).data)
  {
    WriteKeepsTyped(ud, Field(f, FieldName(step)), Str(Strip(text)));
  }

  /** The handler each live flow state runs. */
  lemma HandlerAt(f: Flow, step: Step, ud: UserData, text: string, env: Env)
    requires Live(At(f, step))
    ensures var o := TextHandler(At(f, step), ud, text, env);
      && (step == Country ==> o == CountryStep(f, ud, text))
      && (step == Currency ==> o == CurrencyStep(f, ud, text, env.file))
      && (step == Amount ==> o == AmountStep(f, ud, text, env.file))
      && (step == CommissionChoice ==> o == CommissionChoiceStep(f, ud, text))
      && (step == Phone ==> o == PhoneStep(f, ud, text, env.user))
      && (step == Preview ==> o == PreviewChoiceStep(f, ud, text))
      && (IsFieldStep(step) ==> o == FieldStep(f, step, ud, text))
  {
  }

  /** The handler of a registered free-text step, the exporter purpose
      steps included. */
  lemma FieldHandlerAt(f: Flow, step: Step, ud: UserData, text: string, env: Env)
    requires IsFieldStep(step) && step in Steps(f)
    ensures TextHandler(At(f, step), ud, text, env) == FieldStep(f, step, ud, text)
  {
  }

  lemma HandlerKeepsTyped(s: State, ud: UserData, text: string, env: Env)
    requires Live(s) && WellTyped(ud)
    ensures var o := TextHandler(s, ud, text, env); o.Next? ==> WellTyped(o.data)
  {
    match s
    case MainMenu => MainMenuKeepsTyped(ud, text);
    case AgentSubmenu => AgentSubmenuKeepsTyped(ud, text);
    case PhysicalChoices => PhysicalChoicesKeepTyped(ud, text);
    case At(f, step) =>
      HandlerAt(f, step, ud, text, env);
      match step
      case Currency => CurrencyKeepsTyped(f, ud, text, env.file);
      case Amount => AmountKeepsTyped(f, ud, text, env.file);
      case Phone => PhoneKeepsTyped(f, ud, text, env.user);
      case Country => CountryKeepsTyped(f, ud, text);
      case CommissionChoice =>
      case Preview =>
      case _ => FieldKeepsTyped(f, step, ud, text);
  }

  lemma CountryStates(f: Flow, ud: UserData, text: string)
    ensures CountryStep(f, ud, text).state in {At(f, Country), At(f, Currency)}
  {
  }

  lemma CurrencyStates(f: Flow, ud: UserData, text: string, file: Option<Record>)
    ensures CurrencyStep(f, ud, text, file).state in {At(f, Currency), At(f, Amount)}
  {
  }

  lemma PhoneStates(f: Flow, ud: UserData, text: string, user: User)
    ensures PhoneStep(f, ud, text, user).state in {At(f, Phone), At(f, Preview)}
  {
  }

  lemma CommissionChoiceStates(f: Flow, ud: UserData, text: string)
    ensures CommissionChoiceStep(f, ud, text).state in {MainMenu, At(f, AfterCommission(f))}
  {
  }

  lemma LiveAfterCountry(f: Flow, ud: UserData, text: string, env: Env)
    requires Live(At(f, Country))
    ensures var o := TextHandler(At(f, Country), ud, text, env); o.Next? ==> Live(o.state)
  {
    HandlerAt(f, Country, ud, text, env);
    CountryStates(f, ud, text);
  }

  lemma LiveAfterCurrency(f: Flow, ud: UserData, text: string, env: Env)
    requires Live(At(f, Currency))
    ensures var o := TextHandler(At(f, Currency), ud, text, env); o.Next? ==> Live(o.state)
  {
    HandlerAt(f, Currency, ud, text, env);
    CurrencyStates(f, ud, text, env.file);
  }

  lemma LiveAfterAmount(f: Flow, ud: UserData, text: string, env: Env)
    requires Live(At(f, Amount))
    ensures var o := TextHandler(At(f, Amount), ud, text, env); o.Next? ==> Live(o.state)
  {
    HandlerAt(f, Amount, ud, text, env);
    AmountKeepsLive(f, ud, text, env.file);
  }

  lemma LiveAfterCommissionChoice(f: Flow, ud: UserData, text: string, env: Env)
    requires Live(At(f, CommissionChoice))
    ensures var o := TextHandler(At(f, CommissionChoice), ud, text, env); o.Next? ==> Live(o.state)
  {
    HandlerAt(f, CommissionChoice, ud, text, env);
    CommissionChoiceStates(f, ud, text);
  }

  lemma LiveAfterPhone(f: Flow, ud: UserData, text: string, env: Env)
    requires Live(At(f, Phone))
    ensures var o := TextHandler(At(f, Phone), ud, text, env); o.Next? ==> Live(o.state)
  {
    HandlerAt(f, Phone, ud, text, env);
    PhoneStates(f, ud, text, env.user);
  }

  lemma LiveAfterPreview(f: Flow, ud: UserData, text: string, env: Env)
    requires Live(At(f, Preview))
    ensures var o := TextHandler(At(f, Preview), ud, text, env); o.Next? ==> Live(o.state)
  {
    HandlerAt(f, Preview, ud, text, env);
  }

  lemma LiveAfterField(f: Flow, step: Step, ud: UserData, text: string, env: Env)
    requires Live(At(f, step)) && IsFieldStep(step)
    ensures var o := TextHandler(At(f, step), ud, text, env); o.Next? ==> Live(o.state)
  {
    HandlerAt(f, step, ud, text, env);
  }

  lemma HandlerKeepsLive(s: State, ud: UserData, text: string, env: Env)
    requires Live(s)
    ensures var o := TextHandler(s, ud, text, env); o.Next? ==> Live(o.state)
  {
    match s
    case MainMenu => MainMenuKeepsLive(ud, text);
    case AgentSubmenu => AgentSubmenuKeepsLive(ud, text);
    case PhysicalChoices => PhysicalChoicesKeepLive(ud, text);
    case At(f, step) =>
      match step
      case Country => LiveAfterCountry(f, ud, text, env);
      case Currency => LiveAfterCurrency(f, ud, text, env);
      case Amount => LiveAfterAmount(f, ud, text, env);
      case CommissionChoice => LiveAfterCommissionChoice(f, ud, text, env);
      case Phone => LiveAfterPhone(f, ud, text, env);
      case Preview => LiveAfterPreview(f, ud, text, env);
      case _ => LiveAfterField(f, step, ud, text, env);
  }

  /** Every turn keeps user_data well typed and the conversation in a live
      state, whatever the message. */
  lemma DispatchKeepsValid(conv: Option<State>, ud: UserData, msg: Message, env: Env)
    requires Valid(conv, ud)
    ensures var t := Dispatch(conv, ud, msg, env); Valid(t.conv, t.data)
  {
    if conv.Some? && msg.Text? {
      HandlerKeepsTyped(conv.value, ud, msg.text, env);
      HandlerKeepsLive(conv.value, ud, msg.text, env);
    }
  }

  /** Hence the exporter purpose handlers never run. */
  lemma ExporterPurposeUnreachable(conv: Option<State>, ud: UserData, msg: Message, env: Env)
    requires Valid(conv, ud)
    ensures Dispatch(conv, ud, msg, env).conv != Some(At(Exporter, Purpose))
    ensures Dispatch(conv, ud, msg, env).conv != Some(At(AgentExporter, Purpose))
  {
    DispatchKeepsValid(conv, ud, msg, env);
  }

  // ---------------------------------------------------------------------
  // Commands
  // ---------------------------------------------------------------------

  /** /help, /faq, /contact, /about and /language are answered outside the
      conversation and change nothing, in any state. */
  lemma GlobalCommandsChangeNothing(conv: Option<State>, ud: UserData, name: string, env: Env)
    requires name in GlobalCommands
    ensures Dispatch(conv, ud, Command(name), env) == Turn(conv, ud, None)
  {
  }

  /** /start opens the conversation at the main menu, defaulting the
      language, and is ignored once a conversation exists; before it, text
      is ignored. */
  lemma StartOnlyOpens(conv: Option<State>, ud: UserData, text: string, env: Env)
    ensures conv.None? ==>
      Dispatch(conv, ud, Command("start"), env) ==
      Turn(Some(MainMenu), (if Lang in ud then ud else ud[Lang := Str("ru")]), None)
    ensures conv.Some? ==> Dispatch(conv, ud, Command("start"), env) == Turn(conv, ud, None)
    ensures conv.None? ==> Dispatch(conv, ud, Text(text), env) == Turn(conv, ud, None)
    ensures conv.None? ==> LangOf(Dispatch(conv, ud, Command("start"), env).data) == LangOf(ud)
  {
  }

  /** /cancel works in every state: back to the main menu with nothing but
      the language kept; a second /cancel changes nothing more. */
  lemma CancelKeepsOnlyLanguage(s: State, ud: UserData, env: Env)
    ensures var t := Dispatch(Some(s), ud, Command("cancel"), env);
      && t.conv == Some(MainMenu) && t.sent.None?
      && t.data.Keys == {Lang}
      && (Lang in ud ==> t.data[Lang] == ud[Lang])
      && (Lang !in ud ==> t.data[Lang] == Null)
      && Dispatch(t.conv, t.data, Command("cancel"), env) == t
  {
  }

  /** /menu works in every state and keeps user_data, so a request's fields
      and a stored currency list outlive it. */
  lemma MenuKeepsData(s: State, ud: UserData, env: Env)
    ensures Dispatch(Some(s), ud, Command("menu"), env) == Turn(Some(MainMenu), ud, None)
  {
  }

  /** Other commands inside the conversation are ignored. */
  lemma OtherCommandsIgnored(s: State, ud: UserData, name: string, env: Env)
    requires name !in GlobalCommands && name != "cancel" && name != "menu"
    ensures Dispatch(Some(s), ud, Command(name), env) == Turn(Some(s), ud, None)
  {
  }

  // ---------------------------------------------------------------------
  // Re-prompts
  // ---------------------------------------------------------------------

  /** What answering with the same state may do: send nothing and keep
      user_data, except that "Others" at a currency step stores the list
      read from the file. */
  ghost predicate RepromptKeeps(s: State, ud: UserData, text: string, env: Env, o: Outcome) {
    o.Next? && o.state == s ==>
      o.sent.None? &&
      (o.data == ud ||
       (s.At? && s.step == Currency && Upper(Strip(text)) == "OTHERS" &&
        o.data == ud[AvailableList := List(AvailableCurrencies(env.file))]))
  }

  lemma CurrencyReprompt(f: Flow, ud: UserData, text: string, file: Option<Record>)
    ensures var o := CurrencyStep(f, ud, text, file);
      o.state == At(f, Currency) ==>
        o.sent.None? &&
        (o.data == ud ||
         (Upper(Strip(text)) == "OTHERS" && o.data == ud[AvailableList := List(AvailableCurrencies(file))]))
  {
  }

  lemma AmountReprompt(f: Flow, ud: UserData, text: string, file: Option<Record>)
    ensures var o := AmountStep(f, ud, text, file);
      o.Next? && o.state == At(f, Amount) ==> o == Stay(At(f, Amount), ud)
  {
  }

  lemma RepromptAtMenus(s: State, ud: UserData, text: string, env: Env)
    requires s == MainMenu || s == AgentSubmenu || s == PhysicalChoices
    ensures RepromptKeeps(s, ud, text, env, TextHandler(s, ud, text, env))
  {
    if s == MainMenu {
      MainMenuRouting(ud, text);
    } else if s == PhysicalChoices {
      PhysicalChoiceLabel(ud, text);
    }
  }

  lemma RepromptAtCountry(f: Flow, ud: UserData, text: string, env: Env)
    requires Live(At(f, Country))
    ensures RepromptKeeps(At(f, Country), ud, text, env, TextHandler(At(f, Country), ud, text, env))
  {
    HandlerAt(f, Country, ud, text, env);
    CountryRule(f, ud, text);
  }

  lemma RepromptAtCurrency(f: Flow, ud: UserData, text: string, env: Env)
    requires Live(At(f, Currency))
    ensures RepromptKeeps(At(f, Currency), ud, text, env, TextHandler(At(f, Currency), ud, text, env))
  {
    HandlerAt(f, Currency, ud, text, env);
    CurrencyReprompt(f, ud, text, env.file);
  }

  lemma RepromptAtAmount(f: Flow, ud: UserData, text: string, env: Env)
    requires Live(At(f, Amount))
    ensures RepromptKeeps(At(f, Amount), ud, text, env, TextHandler(At(f, Amount), ud, text, env))
  {
    HandlerAt(f, Amount, ud, text, env);
    AmountReprompt(f, ud, text, env.file);
  }

  lemma RepromptAtCommissionChoice(f: Flow, ud: UserData, text: string, env: Env)
    requires Live(At(f, CommissionChoice))
    ensures var s := At(f, CommissionChoice);
      RepromptKeeps(s, ud, text, env, TextHandler(s, ud, text, env))
  {
    HandlerAt(f, CommissionChoice, ud, text, env);
    CommissionChoiceStates(f, ud, text);
  }

  lemma RepromptAtPhone(f: Flow, ud: UserData, text: string, env: Env)
    requires Live(At(f, Phone))
    ensures RepromptKeeps(At(f, Phone), ud, text, env, TextHandler(At(f, Phone), ud, text, env))
  {
    HandlerAt(f, Phone, ud, text, env);
    PhoneRule(f, ud, text, env.user);
  }

  lemma RepromptAtPreview(f: Flow, ud: UserData, text: string, env: Env)
    requires Live(At(f, Preview))
    ensures RepromptKeeps(At(f, Preview), ud, text, env, TextHandler(At(f, Preview), ud, text, env))
  {
    HandlerAt(f, Preview, ud, text, env);
  }

  lemma RepromptAtField(f: Flow, step: Step, ud: UserData, text: string, env: Env)
    requires IsFieldStep(step) && step in Steps(f)
    ensures RepromptKeeps(At(f, step), ud, text, env, TextHandler(At(f, step), ud, text, env))
  {
    assert AfterField(f, step) != step;
  }

  /** A handler that answers with the same state changes nothing, except
      "Others" at a currency step, which stores the freshly read list. */
  lemma RepromptKeepsData(s: State, ud: UserData, text: string, env: Env)
    ensures var o := TextHandler(s, ud, text, env);
      o.Next? && o.state == s ==>
        o.sent.None? &&
        (o.data == ud ||
         (s.At? && s.step == Currency && Upper(Strip(text)) == "OTHERS" &&
          o.data == ud[AvailableList := List(AvailableCurrencies(env.file))]))
  {
    match s
    case At(f, step) =>
      if step !in Steps(f) {
      } else if IsFieldStep(step) {
        RepromptAtField(f, step, ud, text, env);
      } else {
        match step
        case Country => RepromptAtCountry(f, ud, text, env);
        case Currency => RepromptAtCurrency(f, ud, text, env);
        case Amount => RepromptAtAmount(f, ud, text, env);
        case CommissionChoice => RepromptAtCommissionChoice(f, ud, text, env);
        case Phone => RepromptAtPhone(f, ud, text, env);
        case Preview => RepromptAtPreview(f, ud, text, env);
      }
    case _ => RepromptAtMenus(s, ud, text, env);
  }

  // ---------------------------------------------------------------------
  // Menus
  // ---------------------------------------------------------------------

  /** The main menu routes by the first keyword group present, in the order
      importer, exporter, individual, agent; the agent route resets the
      agent choice and nothing else changes. */
  lemma MainMenuRouting(ud: UserData, text: string)
    ensures var c := Strip(Lower(text)); var o := MainMenuChoice(ud, text);
      var imp := Contains(c, "импортер") || Contains(c, "importer");
      var exp := Contains(c, "экспортер") || Contains(c, "exporter");
      var ind := Contains(c, "физ") || Contains(c, "individual");
      var agt := Contains(c, "агент") || Contains(c, "agent");
      && o.Next? && o.sent.None?
      && (o.state == At(Importer, Country) <==> imp)
      && (o.state == At(Exporter, Country) <==> !imp && exp)
      && (o.state == PhysicalChoices <==> !imp && !exp && ind)
      && (o.state == AgentSubmenu <==> !imp && !exp && !ind && agt)
      && (o.state == MainMenu <==> !imp && !exp && !ind && !agt)
      && o.data == (if o.state == AgentSubmenu then ud[AgentChoice := Null] else ud)
  {
  }

  /** "agent importer" goes to the importer flow: the importer keywords are
      checked first. */
  lemma AgentImporterWordsPickImporter(ud: UserData)
    ensures MainMenuChoice(ud, "Agent Importer").state == At(Importer, Country)
  {
    var c := Strip(Lower("Agent Importer"));
    assert Lower("Agent Importer") == "agent importer";
    StripLeftOfStripped("agent importer");
    assert StripRight("agent importer") == "agent importer";
    assert c == "agent importer";
    ContainsFromSlice(c, "importer", 6);
  }

  /** The agent sub-menu: exactly "1" and "2" (after stripping) pick a
      flow; anything else returns to the main menu. */
  lemma AgentSubmenuRouting(ud: UserData, text: string)
    ensures var o := AgentSubmenuChoice(ud, text); var c := Strip(text);
      && o.Next? && o.sent.None?
      && (o.state == At(AgentImporter, Country) <==> c == "1")
      && (o.state == At(AgentExporter, Country) <==> c == "2")
      && (o.state == MainMenu <==> c != "1" && c != "2")
      && (c == "1" ==> o.data == ud[AgentChoice := Str("make_payment")])
      && (c == "2" ==> o.data == ud[AgentChoice := Str("forex_rebate")])
      && (c != "1" && c != "2" ==> o.data == ud)
  {
  }

  /** The individual's transfer kind is recorded in Russian exactly when the
      language is "ru"; "back" returns to the main menu. */
  lemma PhysicalChoiceLabel(ud: UserData, text: string)
    ensures var o := PhysicalChoiceStep(ud, text); var c := Strip(Lower(text));
      && o.Next? && o.sent.None?
      && (o.state == At(Physical, Country) ==>
            PhysicalChoice in o.data && o.data - {PhysicalChoice} == ud - {PhysicalChoice} &&
            o.data[PhysicalChoice] in
              (if LangOf(ud) == Str("ru")
               then {Str("Перевод себе"), Str("Перевод родственнику"), Str("Оплата услуг")}
               else {Str("Transfer to self"), Str("Transfer to relative"), Str("Pay for services")}))
      && (o.state != At(Physical, Country) ==> o.data == ud)
      && (o.state == At(Physical, Country) || o.state == MainMenu || o.state == PhysicalChoices)
  {
  }

  // ---------------------------------------------------------------------
  // Steps of a flow
  // ---------------------------------------------------------------------

  /** The country step moves on exactly for valid text and stores it
      stripped. */
  lemma CountryRule(f: Flow, ud: UserData, text: string)
    ensures var o := CountryStep(f, ud, text);
      && (o.state == At(f, Currency) <==> IsValidText(text))
      && (o.state != At(f, Currency) ==> o == Stay(At(f, Country), ud))
      && (IsValidText(text) ==> o.data == ud[Field(f, "country") := Str(Strip(text))])
  {
    ValidatorsIgnoreStrip(text);
  }

  /** "Others" (any case, any surrounding blanks) stores the list read from
      the file and asks again. */
  lemma CurrencyOthers(f: Flow, ud: UserData, text: string, file: Option<Record>)
    requires Upper(Strip(text)) == "OTHERS"
    ensures CurrencyStep(f, ud, text, file) ==
      Stay(At(f, Currency), ud[AvailableList := List(AvailableCurrencies(file))])
  {
  }

  lemma ChosenCurrency(f: Flow, ud: UserData, code: string)
    ensures var ud' := ChooseCurrency(f, ud, code);
      && ud'[Field(f, "currency")] == Str(code) && CurrencyOf(ud', f) == code
      && (AvailableList in ud' <==> AvailableList in ud)
  {
  }

  /** With a non-empty list stored, a number from 1 to its length selects
      that entry, drops the list and moves on to the amount. */
  lemma CurrencyListSelection(f: Flow, ud: UserData, text: string, file: Option<Record>, n: int)
    requires ListMode(ud) && Upper(Strip(text)) != "OTHERS"
    requires ParseInt(Upper(Strip(text))) == Some(n) && 1 <= n <= |ud[AvailableList].items|
    ensures var o := CurrencyStep(f, ud, text, file);
      && o.state == At(f, Amount)
      && AvailableList !in o.data
      && o.data[Field(f, "currency")] == Str(ud[AvailableList].items[n - 1])
      && CurrencyOf(o.data, f) == ud[AvailableList].items[n - 1]
  {
    var code := ud[AvailableList].items[n - 1];
    assert CurrencyStep(f, ud, text, file) == Stay(At(f, Amount), ChooseCurrency(f, ud - {AvailableList}, code));
    ChosenCurrency(f, ud - {AvailableList}, code);
  }

  /** With a non-empty list stored, anything but "Others" or a number in
      range is refused, the standard codes included, and the list stays. */
  lemma CurrencyListRefusals(f: Flow, ud: UserData, text: string, file: Option<Record>)
    requires ListMode(ud) && Upper(Strip(text)) != "OTHERS"
    requires var p := ParseInt(Upper(Strip(text)));
      p.None? || !(1 <= p.value <= |ud[AvailableList].items|)
    ensures CurrencyStep(f, ud, text, file) == Stay(At(f, Currency), ud)
  {
  }

  /** Without a list, only USD, EUR and AED move on. */
  lemma CurrencyStandardCodes(f: Flow, ud: UserData, text: string, file: Option<Record>)
    requires !ListMode(ud)
    ensures var t := Upper(Strip(text)); var o := CurrencyStep(f, ud, text, file);
      && (o.state == At(f, Amount) <==> t in StandardCurrencies)
      && (t in StandardCurrencies ==> o.data[Field(f, "currency")] == Str(t))
      && (t !in StandardCurrencies && t != "OTHERS" ==> o == Stay(At(f, Currency), ud))
  {
  }

  lemma UpperOfDigits(s: string)
    requires AllDigits(s)
    ensures Upper(s) == s
  {
  }

  lemma StripOfDigits(s: string)
    requires |s| >= 1 && AllDigits(s)
    ensures Strip(s) == s
  {
    assert !IsDigit(' ');
    StripOfTrimmed(s);
  }

  /** Typing the number printed before an entry of the list selects that
      entry: the printed list and the selection agree. */
  lemma ListedNumberSelects(f: Flow, ud: UserData, file: Option<Record>, i: nat)
    requires ListMode(ud) && i < |ud[AvailableList].items|
    ensures var list := ud[AvailableList].items;
      var line := NumberedLines(list)[i];
      var typed := NatToString(i + 1);
      && line[..|typed|] == typed
      && CurrencyStep(f, ud, typed, file).state == At(f, Amount)
      && CurrencyOf(CurrencyStep(f, ud, typed, file).data, f) == list[i]
  {
    var typed := NatToString(i + 1);
    StripOfDigits(typed);
    UpperOfDigits(typed);
    ParseIntNatToString(i + 1);
    assert Upper(Strip(typed)) == typed;
    assert typed != "OTHERS" by { assert IsDigit(typed[0]); }
    CurrencyListSelection(f, ud, typed, file, i + 1);
  }

  /** Importer-like amounts: a valid number moves on exactly when the USD
      rate is readable and the commission table has a bracket for the
      dollar value; the amount, the percent and the message are stored. */
  lemma ImporterAmountRule(f: Flow, ud: UserData, text: string, file: Option<Record>)
    requires ImporterLike(f)
    ensures var o := AmountStep(f, ud, text, file); var s := Strip(text);
      && (!IsValidNumber(s) ==> o == Stay(At(f, Amount), ud))
      && (IsValidNumber(s) && GetExchangeRate(file, "USD_RUB").None? ==> o == Stay(At(f, Amount), ud))
      && (o.Next? && o.state == At(f, CommissionChoice) <==>
            IsValidNumber(s) && GetExchangeRate(file, "USD_RUB").Some? &&
            ConvertToUsd(ParseNumber(s), CurrencyOf(ud, f), file).Some? &&
            CalculateCommission(ConvertToUsd(ParseNumber(s), CurrencyOf(ud, f), file).value,
                                GetExchangeRate(file, "USD_RUB").value).percent.Some?)
      && (o.Next? && o.state == At(f, CommissionChoice) ==>
            var q := CalculateCommission(ConvertToUsd(ParseNumber(s), CurrencyOf(ud, f), file).value,
                                         GetExchangeRate(file, "USD_RUB").value);
            o.data == ud[Field(f, "amount") := Str(s)]
                        [Field(f, "commission_percent") := Num(q.percent.value)]
                        [Field(f, "commission_message") := Str(q.message)])
  {
  }

  /** A non-dollar currency with no rate in the file is converted to 0 and
      so reported as below the minimum: the user is asked again. */
  lemma MissingRateLooksBelowMinimum(f: Flow, ud: UserData, text: string, file: Option<Record>)
    requires ImporterLike(f) && IsValidNumber(Strip(text))
    requires GetExchangeRate(file, "USD_RUB").Some?
    requires CurrencyOf(ud, f) != "USD" && GetExchangeRate(file, CurrencyOf(ud, f) + "_RUB").None?
    ensures AmountStep(f, ud, text, file) == Stay(At(f, Amount), ud)
    ensures CalculateCommission(0.0, GetExchangeRate(file, "USD_RUB").value).message == BelowMinimumMessage
  {
    ConversionOutcomes(ParseNumber(Strip(text)), CurrencyOf(ud, f), file);
  }

  /** A stored USD rate of 0 makes a non-dollar conversion divide by zero:
      the handler raises and the conversation stays where it was. */
  lemma ZeroUsdRateRaises(f: Flow, ud: UserData, text: string, env: Env)
    requires f == Physical || ImporterLike(f)
    requires IsValidNumber(Strip(text))
    requires GetExchangeRate(env.file, "USD_RUB") == Some(0.0)
    requires CurrencyOf(ud, f) != "USD" && GetExchangeRate(env.file, CurrencyOf(ud, f) + "_RUB").Some?
    ensures AmountStep(f, ud, text, env.file).Raised?
    ensures Dispatch(Some(At(f, Amount)), ud, Text(text), env) == Turn(Some(At(f, Amount)), ud, None)
  {
    ConversionOutcomes(ParseNumber(Strip(text)), CurrencyOf(ud, f), env.file);
  }

  /** Individuals: a valid number moves on exactly when it is worth at least
      20 000 USD. */
  lemma PhysicalAmountRule(ud: UserData, text: string, file: Option<Record>)
    ensures var o := AmountStep(Physical, ud, text, file); var s := Strip(text);
      && (o.Next? && o.state == At(Physical, CommissionChoice) <==>
            IsValidNumber(s) &&
            ConvertToUsd(ParseNumber(s), CurrencyOf(ud, Physical), file).Some? &&
            ConvertToUsd(ParseNumber(s), CurrencyOf(ud, Physical), file).value >= PhysicalMinimumUsd)
      && (o.Next? && o.state == At(Physical, CommissionChoice) ==>
            o.data == ud[Field(Physical, "amount") := Str(s)])
      && (o.Next? && o.state != At(Physical, CommissionChoice) ==> o == Stay(At(Physical, Amount), ud))
  {
  }

  /** Exporter-like amounts are only validated. */
  lemma ExporterAmountRule(f: Flow, ud: UserData, text: string, file: Option<Record>)
    requires ExporterLike(f)
    ensures var o := AmountStep(f, ud, text, file); var s := Strip(text);
      && (IsValidNumber(s) ==> o == Stay(At(f, CommissionChoice), ud[Field(f, "amount") := Str(s)]))
      && (!IsValidNumber(s) ==> o == Stay(At(f, Amount), ud))
  {
  }

  /** The commission question: a "yes" or "да" anywhere goes on, anything
      else returns to the main menu; user_data is kept either way. */
  lemma CommissionGate(f: Flow, ud: UserData, text: string)
    ensures var o := CommissionChoiceStep(f, ud, text);
      var c := if f == Physical then Strip(Lower(text)) else Lower(text);
      && o.data == ud && o.sent.None?
      && (o.state == At(f, AfterCommission(f)) <==> YesLike(c))
      && (!YesLike(c) ==> o.state == MainMenu)
  {
  }

  /** The free-text steps store the stripped text and move on. */
  lemma FieldRule(f: Flow, step: Step, ud: UserData, text: string)
    requires IsFieldStep(step)
    ensures var o := FieldStep(f, step, ud, text);
      && o.data == ud[Field(f, FieldName(step)) := Str(Strip(text))]
      && o.state.At? && o.state.flow == f && o.state.step != step
  {
  }

  /** The phone step moves on exactly for a valid number and records the
      number and who the user is. */
  lemma PhoneRule(f: Flow, ud: UserData, text: string, user: User)
    ensures var o := PhoneStep(f, ud, text, user);
      && (o.state == At(f, Preview) <==> IsValidPhone(text))
      && (!IsValidPhone(text) ==> o == Stay(At(f, Phone), ud))
      && (IsValidPhone(text) ==>
            o.data == ud[Field(f, "phone") := Str(Strip(text))]
                        [UserId(OwnerOf(f)) := Int(user.id)]
                        [Username(OwnerOf(f)) := UsernameValue(user)])
  {
    ValidatorsIgnoreStrip(text);
  }

  /** The preview: exactly a "yes"/"да" sends the request; either way the
      user is at the main menu with user_data unchanged (the request's
      fields are not cleared). */
  lemma PreviewSendsOnlyOnYes(f: Flow, ud: UserData, text: string)
    ensures var o := PreviewChoiceStep(f, ud, text);
      && o.state == MainMenu && o.data == ud
      && (o.sent.Some? <==> YesLike(Strip(Lower(text))))
      && (o.sent.Some? ==> o.sent.value == NotificationOf(f, ud))
  {
  }

  /** What is sent is `ud.get(k)` for the request's keys, all of which belong
      to the flow (or, for the user keys, to its owner). */
  lemma NotificationReadsOwnKeys(f: Flow, ud: UserData)
    ensures var n := NotificationOf(f, ud); var keys := NotifyKeys(f);
      && n.flow == f && |n.fields| == |keys|
      && (forall i :: 0 <= i < |keys| ==> n.fields[i] == Get(ud, keys[i]))
      && (forall i :: 0 <= i < |keys| ==>
            match keys[i]
            case Field(g, _) => g == f
            case UserId(o) => o == OwnerOf(f)
            case Username(o) => o == OwnerOf(f)
            case PhysicalChoice => f == Physical
            case _ => false)
  {
  }

  /** The two agent flows share one user id key. */
  lemma AgentFlowsShareUserKeys()
    ensures UserId(OwnerOf(AgentImporter)) == UserId(OwnerOf(AgentExporter))
    ensures KeyName(UserId(OwnerOf(AgentImporter))) == "agent_user_id"
  {
  }

  // ---------------------------------------------------------------------
  // Scenarios
  // ---------------------------------------------------------------------

  lemma OthersAtCurrency(f: Flow, ud: UserData, env: Env)
    ensures Dispatch(Some(At(f, Currency)), ud, Text("Others"), env) ==
      Turn(Some(At(f, Currency)), ud[AvailableList := List(AvailableCurrencies(env.file))], None)
  {
    var others := "Others";
    assert Strip(others) == others by {
      StripLeftOfStripped(others);
      assert StripRight(others) == others;
    }
    assert Upper(others) == "OTHERS";
    HandlerAt(f, Currency, ud, others, env);
    CurrencyOthers(f, ud, others, env.file);
  }

  lemma StandardCodeText(code: string)
    requires code in StandardCurrencies
    ensures Upper(Strip(code)) == code && ParseInt(code).None?
  {
    assert Strip(code) == code by {
      StripLeftOfStripped(code);
      assert StripRight(code) == code;
    }
    assert Upper(code) == code;
    assert ParseInt(code).None? by {
      assert !IsDigit(code[0]) && code[0] != '+' && code[0] != '-';
    }
  }

  lemma ListRefusesStandardCode(g: Flow, ud: UserData, env: Env, code: string)
    requires ListMode(ud) && code in StandardCurrencies
    ensures Dispatch(Some(At(g, Currency)), ud, Text(code), env) == Turn(Some(At(g, Currency)), ud, None)
  {
    StandardCodeText(code);
    CurrencyListRefusals(g, ud, code, env.file);
    HandlerAt(g, Currency, ud, code, env);
  }

  /** A list fetched with "Others" survives /menu and then blocks the
      standard codes at the currency step of any flow. */
  lemma StaleListBlocksStandardCodes(f: Flow, g: Flow, ud: UserData, env: Env, code: string)
    requires |AvailableCurrencies(env.file)| > 0
    requires code in StandardCurrencies
    ensures var t1 := Dispatch(Some(At(f, Currency)), ud, Text("Others"), env);
      var t2 := Dispatch(t1.conv, t1.data, Command("menu"), env);
      && t2.conv == Some(MainMenu) && ListMode(t2.data)
      && Dispatch(Some(At(g, Currency)), t2.data, Text(code), env) ==
         Turn(Some(At(g, Currency)), t2.data, None)
  {
    var ud1 := ud[AvailableList := List(AvailableCurrencies(env.file))];
    OthersAtCurrency(f, ud, env);
    MenuKeepsData(At(f, Currency), ud1, env);
    ListRefusesStandardCode(g, ud1, env, code);
  }

  /** A confirmed request leaves its fields behind: the first step of the
      next request of the same flow sees them. */
  lemma SubmissionKeepsFields(f: Flow, ud: UserData, text: string, env: Env)
    requires YesLike(Strip(Lower(text)))
    ensures var t := Dispatch(Some(At(f, Preview)), ud, Text(text), env);
      t.conv == Some(MainMenu) && t.data == ud && t.sent == Some(NotificationOf(f, ud))
  {
  }
}
