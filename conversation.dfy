/**
 * The conversation: the states of the ConversationHandler table, the
 * per-user `user_data` dictionary, one function per handler giving the next
 * state and the new `user_data`, and the dispatch rule that decides which
 * handler (if any) sees an incoming message.
 */
module Conversation {
  import opened Wrappers
  import opened PyText
  import opened Validators
  import opened Commission
  import opened Exchange
  import opened Conversion
  import opened Currencies

  // ---------------------------------------------------------------------
  // States
  // ---------------------------------------------------------------------

  /** The five request flows. */
  datatype Flow = Importer | Exporter | Physical | AgentImporter | AgentExporter

  /** The steps a flow can be at; which steps a flow has is given by Steps. */
  datatype Step =
    | Country | Currency | Amount | CommissionChoice | Inn | Purpose
    | SenderDetails | ReceiverDetails | Phone | Preview

  datatype State = MainMenu | AgentSubmenu | PhysicalChoices | At(flow: Flow, step: Step)

  predicate ImporterLike(f: Flow) { f == Importer || f == AgentImporter }
  predicate ExporterLike(f: Flow) { f == Exporter || f == AgentExporter }

  /** The states each flow has a handler for in the ConversationHandler. */
  function Steps(f: Flow): seq<Step> {
    match f
    case Importer | AgentImporter =>
      [Country, Currency, Amount, CommissionChoice, Inn, Purpose, Phone, Preview]
    case Exporter | AgentExporter =>
      [Country, Currency, Amount, Purpose, CommissionChoice, SenderDetails, ReceiverDetails, Phone, Preview]
    case Physical =>
      [Country, Currency, Amount, CommissionChoice, Phone, Preview]
  }

  /** A state with a handler in the table. */
  predicate Registered(s: State) {
    !s.At? || s.step in Steps(s.flow)
  }

  /** The registered states some handler can return: the exporter purpose
      states have handlers but nothing leads to them. */
  predicate Live(s: State) {
    Registered(s) && !(s.At? && ExporterLike(s.flow) && s.step == Purpose)
  }

  // ---------------------------------------------------------------------
  // user_data
  // ---------------------------------------------------------------------

  datatype Value = Str(s: string) | Num(r: real) | Flag(b: bool) | Int(i: int) | Null | List(items: seq<string>)

  /** Whose user id and username a preview records: both agent flows write
      the same two keys. */
  datatype Owner = ImporterUser | ExporterUser | PhysicalUser | AgentUser

  /** The keys of `user_data`; KeyName gives the Python string of each. */
  datatype Key =
    | Lang | AgentChoice | PhysicalChoice | AvailableList
    | Field(flow: Flow, name: string)
    | UserId(owner: Owner) | Username(owner: Owner)

  type UserData = map<Key, Value>

  function Prefix(f: Flow): string {
    match f
    case Importer => "importer_"
    case Exporter => "exporter_"
    case Physical => "physical_"
    case AgentImporter => "agent_importer_"
    case AgentExporter => "agent_exporter_"
  }

  function OwnerOf(f: Flow): Owner {
    match f
    case Importer => ImporterUser
    case Exporter => ExporterUser
    case Physical => PhysicalUser
    case AgentImporter | AgentExporter => AgentUser
  }

  function OwnerPrefix(o: Owner): string {
    match o
    case ImporterUser => "importer_"
    case ExporterUser => "exporter_"
    case PhysicalUser => "physical_"
    case AgentUser => "agent_"
  }

  function KeyName(k: Key): string {
    match k
    case Lang => "lang"
    case AgentChoice => "agent_choice"
    case PhysicalChoice => "physical_choice"
    case AvailableList => "available_currencies"
    case Field(f, n) => Prefix(f) + n
    case UserId(o) => OwnerPrefix(o) + "user_id"
    case Username(o) => OwnerPrefix(o) + "username"
  }

  /** `ud.get(k)` */
  function Get(ud: UserData, k: Key): Option<Value> {
    if k in ud then Some(ud[k]) else None
  }

  /** `get_user_lang`: `user_data.get("lang", "ru")`. */
  function LangOf(ud: UserData): Value {
    if Lang in ud then ud[Lang] else Str("ru")
  }

  /** `user_data.get('available_currencies')` is a non-empty list. */
  predicate ListMode(ud: UserData) {
    AvailableList in ud && ud[AvailableList].List? && |ud[AvailableList].items| > 0
  }

  /** `user_data.get('<flow>_currency', 'USD')` */
  function CurrencyOf(ud: UserData, f: Flow): string {
    var k := Field(f, "currency");
    if k in ud && ud[k].Str? then ud[k].s else "USD"
  }

  /** The types the handlers rely on when they read user_data back. */
  predicate WellTyped(ud: UserData) {
    && (AvailableList in ud ==> ud[AvailableList].List?)
    && (forall f: Flow :: Field(f, "currency") in ud ==> ud[Field(f, "currency")].Str?)
  }

  // ---------------------------------------------------------------------
  // Handlers
  // ---------------------------------------------------------------------

  datatype User = User(id: int, username: Option<string>)

  /** What a `send_*_data_to_admin` call reports: `ud.get(k)` for each key
      its message shows, in order. */
  datatype Notification = Notification(flow: Flow, fields: seq<Option<Value>>)

  /** A handler's result; Raised is an exception escaping the handler. */
  datatype Outcome = Next(state: State, data: UserData, sent: Option<Notification>) | Raised

  function Stay(s: State, ud: UserData): Outcome { Next(s, ud, None) }

  predicate YesLike(choice: string) { Contains(choice, "yes") || Contains(choice, "да") }

  /** `start`: defaults the language to Russian. */
  function StartCommand(ud: UserData): Outcome {
    Next(MainMenu, if Lang in ud then ud else ud[Lang := Str("ru")], None)
  }

  /** `go_back_to_main_menu` and the `/menu` fallback. */
  function GoBackToMainMenu(ud: UserData): Outcome {
    Next(MainMenu, ud, None)
  }

  /** `cancel_command`: everything but the language is dropped; a missing
      language comes back as `None`. */
  function CancelCommand(ud: UserData): Outcome {
    Next(MainMenu, map[Lang := if Lang in ud then ud[Lang] else Null], None)
  }

  /** `main_menu`: the first keyword group found in the lowered, stripped
      text decides. */
  function MainMenuChoice(ud: UserData, text: string): Outcome {
    var choice := Strip(Lower(text));
    if Contains(choice, "импортер") || Contains(choice, "importer") then Stay(At(Importer, Country), ud)
    else if Contains(choice, "экспортер") || Contains(choice, "exporter") then Stay(At(Exporter, Country), ud)
    else if Contains(choice, "физ") || Contains(choice, "individual") then Stay(PhysicalChoices, ud)
    else if Contains(choice, "агент") || Contains(choice, "agent") then Stay(AgentSubmenu, ud[AgentChoice := Null])
    else Stay(MainMenu, ud)
  }

  /** `agent_submenu` */
  function AgentSubmenuChoice(ud: UserData, text: string): Outcome {
    var choice := Strip(text);
    if choice == "1" then Stay(At(AgentImporter, Country), ud[AgentChoice := Str("make_payment")])
    else if choice == "2" then Stay(At(AgentExporter, Country), ud[AgentChoice := Str("forex_rebate")])
    else GoBackToMainMenu(ud)
  }

  /** `physical_choices`: the stored label is Russian only when the language
      is exactly "ru". */
  function PhysicalChoiceStep(ud: UserData, text: string): Outcome {
    var choice := Strip(Lower(text));
    var ru := LangOf(ud) == Str("ru");
    if Contains(choice, "перевод себе") || Contains(choice, "transfer to self") then
      Stay(At(Physical, Country), ud[PhysicalChoice := Str(if ru then "Перевод себе" else "Transfer to self")])
    else if Contains(choice, "перевод родственнику") || Contains(choice, "transfer to relative") then
      Stay(At(Physical, Country), ud[PhysicalChoice := Str(if ru then "Перевод родственнику" else "Transfer to relative")])
    else if Contains(choice, "оплата услуг") || Contains(choice, "pay for services") then
      Stay(At(Physical, Country), ud[PhysicalChoice := Str(if ru then "Оплата услуг" else "Pay for services")])
    else if Contains(choice, "назад") || Contains(choice, "back") then GoBackToMainMenu(ud)
    else Stay(PhysicalChoices, ud)
  }

  /** `<flow>_country` */
  function CountryStep(f: Flow, ud: UserData, text: string): Outcome {
    var s := Strip(text);
    if IsValidText(s) then Stay(At(f, Currency), ud[Field(f, "country") := Str(s)])
    else Stay(At(f, Country), ud)
  }

  /** A currency chosen; the non-agent flows also clear the manual flag. */
  function ChooseCurrency(f: Flow, ud: UserData, code: string): UserData {
    var ud' := ud[Field(f, "currency") := Str(code)];
    if f == AgentImporter || f == AgentExporter then ud'
    else ud'[Field(f, "currency_manual") := Flag(false)]
  }

  const StandardCurrencies: seq<string> := ["USD", "EUR", "AED"]

  /** `<flow>_currency`: "Others" offers the list read from the file; while a
      non-empty list is stored only a number from it is accepted; otherwise
      only the three standard codes are. */
  ghost function CurrencyStep(f: Flow, ud: UserData, text: string, file: Option<Record>): Outcome {
    var t := Upper(Strip(text));
    if t == "OTHERS" then Stay(At(f, Currency), ud[AvailableList := List(AvailableCurrencies(file))])
    else if ListMode(ud) then
      var list := ud[AvailableList].items;
      match ParseInt(t)
      case None => Stay(At(f, Currency), ud)
      case Some(n) =>
        if 1 <= n <= |list| then Stay(At(f, Amount), ChooseCurrency(f, ud - {AvailableList}, list[n - 1]))
        else Stay(At(f, Currency), ud)
    else if t in StandardCurrencies then Stay(At(f, Amount), ChooseCurrency(f, ud, t))
    else Stay(At(f, Currency), ud)
  }

  /** The physical minimum, in US dollars. */
  const PhysicalMinimumUsd: real := 20000.0

  /** `<flow>_amount`. Exporter-like flows only validate. Importer-like flows
      need the USD rate and a commission bracket; the physical flow needs
      20 000 USD. A conversion that divides by a zero rate raises. */
  function AmountStep(f: Flow, ud: UserData, text: string, file: Option<Record>): Outcome {
    var s := Strip(text);
    if !IsValidNumber(s) then Stay(At(f, Amount), ud)
    else if ExporterLike(f) then Stay(At(f, CommissionChoice), ud[Field(f, "amount") := Str(s)])
    else
      var amount := ParseNumber(s);
      var currency := CurrencyOf(ud, f);
      if f == Physical then PhysicalAmount(ud, s, ConvertToUsd(amount, currency, file))
      else ImporterAmount(f, ud, s, GetExchangeRate(file, "USD_RUB"), amount, currency, file)
  }

  /** The physical flow's minimum check on the converted amount. */
  function PhysicalAmount(ud: UserData, s: string, usd: Option<real>): Outcome {
    match usd
    case None => Raised
    case Some(v) =>
      if v < PhysicalMinimumUsd then Stay(At(Physical, Amount), ud)
      else Stay(At(Physical, CommissionChoice), ud[Field(Physical, "amount") := Str(s)])
  }

  /** The importer-like check: the USD rate first, then the conversion, then
      the commission table. */
  function ImporterAmount(f: Flow, ud: UserData, s: string, usdRate: Option<real>,
                          amount: real, currency: string, file: Option<Record>): Outcome {
    match usdRate
    case None => Stay(At(f, Amount), ud)
    case Some(rate) =>
      match ConvertToUsd(amount, currency, file)
      case None => Raised
      case Some(usd) => Commissioned(f, ud, s, CalculateCommission(usd, rate))
  }

  /** An amount with its quote: refused below the minimum, otherwise stored
      with the percent and the message. */
  function Commissioned(f: Flow, ud: UserData, s: string, q: Quote): Outcome {
    if q.percent.None? then Stay(At(f, Amount), ud)
    else Stay(At(f, CommissionChoice),
              ud[Field(f, "amount") := Str(s)]
                [Field(f, "commission_percent") := Num(q.percent.value)]
                [Field(f, "commission_message") := Str(q.message)])
  }

  /** Where a flow goes once the commission is accepted. */
  function AfterCommission(f: Flow): Step {
    if ImporterLike(f) then Inn else if ExporterLike(f) then SenderDetails else Phone
  }

  /** `<flow>_commission_choice`: only the physical flow strips the text. */
  function CommissionChoiceStep(f: Flow, ud: UserData, text: string): Outcome {
    var choice := if f == Physical then Strip(Lower(text)) else Lower(text);
    if YesLike(choice) then Stay(At(f, AfterCommission(f)), ud)
    else GoBackToMainMenu(ud)
  }

  /** The free-text steps, which store the stripped text unchecked. */
  function FieldName(step: Step): string {
    match step
    case Inn => "inn"
    case Purpose => "purpose"
    case SenderDetails => "sender_details"
    case ReceiverDetails => "receiver_details"
    case _ => ""
  }

  function AfterField(f: Flow, step: Step): Step {
    match step
    case Inn => Purpose
    case Purpose => if ImporterLike(f) then Phone else CommissionChoice
    case SenderDetails => ReceiverDetails
    case _ => Phone
  }

  predicate IsFieldStep(step: Step) {
    step == Inn || step == Purpose || step == SenderDetails || step == ReceiverDetails
  }

  function FieldStep(f: Flow, step: Step, ud: UserData, text: string): Outcome
    requires IsFieldStep(step)
  {
    Stay(At(f, AfterField(f, step)), ud[Field(f, FieldName(step)) := Str(Strip(text))])
  }

  function UsernameValue(u: User): Value {
    match u.username
    case Some(name) => Str(name)
    case None => Null
  }

  /** `<flow>_phone`, followed by `<flow>_preview`, which records who the
      user is. */
  function PhoneStep(f: Flow, ud: UserData, text: string, user: User): Outcome {
    var p := Strip(text);
    if !IsValidPhone(p) then Stay(At(f, Phone), ud)
    else Stay(At(f, Preview),
              ud[Field(f, "phone") := Str(p)]
                [UserId(OwnerOf(f)) := Int(user.id)]
                [Username(OwnerOf(f)) := UsernameValue(user)])
  }

  /** The keys each `send_*_data_to_admin` message shows, in order. */
  function NotifyKeys(f: Flow): seq<Key> {
    var o := OwnerOf(f);
    match f
    case Importer | AgentImporter =>
      [Field(f, "country"), Field(f, "amount"), Field(f, "currency"), Field(f, "inn"),
       Field(f, "purpose"), Field(f, "phone"), UserId(o), Username(o)]
    case Exporter | AgentExporter =>
      [Field(f, "country"), Field(f, "amount"), Field(f, "currency"), Field(f, "purpose"),
       Field(f, "sender_details"), Field(f, "receiver_details"), Field(f, "phone"), UserId(o), Username(o)]
    case Physical =>
      [PhysicalChoice, Field(f, "country"), Field(f, "amount"), Field(f, "currency"),
       Field(f, "phone"), UserId(o), Username(o)]
  }

  function NotificationOf(f: Flow, ud: UserData): Notification {
    var keys := NotifyKeys(f);
    Notification(f, seq(|keys|, i requires 0 <= i < |keys| => Get(ud, keys[i])))
  }

  /** `<flow>_preview_choice`: a yes sends the request; either way the user
      is back at the main menu with user_data as it was. */
  function PreviewChoiceStep(f: Flow, ud: UserData, text: string): Outcome {
    var choice := Strip(Lower(text));
    if YesLike(choice) then Next(MainMenu, ud, Some(NotificationOf(f, ud)))
    else GoBackToMainMenu(ud)
  }

  // ---------------------------------------------------------------------
  // Dispatch
  // ---------------------------------------------------------------------

  /** A text message, or a command (`/name`, without the slash). */
  datatype Message = Text(text: string) | Command(name: string)

  /** What the handler of an incoming text may look at besides user_data. */
  datatype Env = Env(file: Option<Record>, user: User)

  /** Conversation state (None before /start), user_data, and what went to
      the administrators. */
  datatype Turn = Turn(conv: Option<State>, data: UserData, sent: Option<Notification>)

  /** Commands registered outside the conversation, ahead of it. */
  const GlobalCommands: set<string> := {"help", "faq", "contact", "about", "language"}

  /** The handler registered for a state, applied to a text message. */
  ghost function TextHandler(s: State, ud: UserData, text: string, env: Env): Outcome {
    match s
    case MainMenu => MainMenuChoice(ud, text)
    case AgentSubmenu => AgentSubmenuChoice(ud, text)
    case PhysicalChoices => PhysicalChoiceStep(ud, text)
    case At(f, step) =>
      if step !in Steps(f) then Stay(s, ud)
      else match step
        case Country => CountryStep(f, ud, text)
        case Currency => CurrencyStep(f, ud, text, env.file)
        case Amount => AmountStep(f, ud, text, env.file)
        case CommissionChoice => CommissionChoiceStep(f, ud, text)
        case Phone => PhoneStep(f, ud, text, env.user)
        case Preview => PreviewChoiceStep(f, ud, text)
        case _ => FieldStep(f, step, ud, text)
  }

  /** A handler's outcome becomes the new turn; an exception leaves the
      conversation where it was. */
  function Apply(conv: Option<State>, ud: UserData, o: Outcome): Turn {
    if o.Raised? then Turn(conv, ud, None) else Turn(Some(o.state), o.data, o.sent)
  }

  /** Which handler sees a message, and its effect. */
  ghost function Dispatch(conv: Option<State>, ud: UserData, msg: Message, env: Env): Turn {
    if msg.Command? && msg.name in GlobalCommands then Turn(conv, ud, None)
    else match conv
      case None =>
        if msg == Command("start") then Apply(conv, ud, StartCommand(ud)) else Turn(conv, ud, None)
      case Some(s) =>
        match msg
        case Command(name) =>
          if name == "cancel" then Apply(conv, ud, CancelCommand(ud))
          else if name == "menu" then Apply(conv, ud, GoBackToMainMenu(ud))
          else Turn(conv, ud, None)
        case Text(text) => Apply(conv, ud, TextHandler(s, ud, text, env))
  }

  /** The invariant every turn keeps. */
  predicate Valid(conv: Option<State>, ud: UserData) {
    WellTyped(ud) && (conv.Some? ==> Live(conv.value))
  }
}
