# tg-upaybot in Dafny

A model of the Telegram payment-request bot. A user picks a request flow
(importer, exporter, individual, or one of the two agent flows). The bot then
collects a country, a currency, an amount (quoted with a commission), the
flow's text fields and a phone number. It shows a preview and, on a "yes",
notifies the administrators. The model has three parts:

- **Pure logic of the handlers.**
  - `PyText`: Python's `str.strip`, `lower`/`upper`, `in` on strings, `int()` and decimal parsing.
  - `Validators`: the four regular-expression validators.
  - `Commission`: the commission brackets.
  - `Conversion`: the cross-rate conversion to US dollars over the rate file.
  - `Currencies`: the sorted list of available currencies and its numbered text form.
- **The conversation.**
  - `Conversation`: one function per handler, from `(state, user_data, text)` to the next state, the new `user_data` and the notification sent, if any. It also has the dispatch rule of the `ConversationHandler` table in `main.py`, including the global commands and the `/cancel` and `/menu` fallbacks.
  - `ConversationFacts`: what the handlers promise.
  - `Session`: a class holding one user's state, the `user_data` dictionary (updated in place, popped and cleared as the handlers do) and the notifications sent so far. `Receive` and the `On*` methods for each kind of state are proved to produce exactly the turn `Dispatch` describes. The helpers they call are proved equal to the handler functions they carry out: `Commit` to an `Outcome`, `OnStart` and `OnCancel` to `StartCommand` and `CancelCommand`, `SetCurrency` and `ChooseListed` to `ChooseCurrency`, and `CurrencyInput` to `CurrencyStep`.
- **The rate updater.**
  - `Exchange`: the per-entry loop of `fetch_cbr_rates`.
  - The `RateStore` class, whose `file` field is `exchange_rates.json`, with `save_rates`, `load_existing_rates` and `update_rates`.

The model takes its inputs as parameters instead of performing them:
- the parsed HTTP reply (`Response`);
- the moment of an update (`now`);
- the sender's user id and name (`User`);
- the rate file the handlers read (`Env.file`).

Amounts and rates are `real`: exact, with no float rounding.

Behaviours of the code worth noting, each proved:
- `update_rates` has no staleness or same-day check. It always fetches, and on a failed fetch it re-saves the old rates under a fresh timestamp.
- A confirmed preview does not clear `user_data`. It only returns to the main menu (`SubmissionKeepsFields`).
- A currency with no rate in the file converts to 0 USD. The amount step then answers "below minimum" rather than "rate unavailable" (`MissingRateLooksBelowMinimum`).
- The `/help`, `/contact` and `/faq` fallbacks of the conversation never fire. The global command handlers are registered first, in the same group, and take those commands (`GlobalCommandsChangeNothing`).
- The states `EXPORTER_PURPOSE` and `AGENT_EXPORTER_PURPOSE` have handlers in the table, but no handler returns them (`ExporterPurposeUnreachable`).
- "Agent importer" typed at the main menu starts the plain importer flow: the main menu tests "importer" before "agent" (`AgentImporterWordsPickImporter`).

## Model

| member | source | states |
|---|---|---|
| PyText.StripLeftShape | handlers.py:116-121 | `lstrip` removes exactly a maximal prefix of Python whitespace: the result is a suffix of the input, every removed character is whitespace, and the first one kept is not |
| PyText.StripRightShape | handlers.py:116-121 | `rstrip` removes exactly a maximal suffix of whitespace: the result is a prefix, every removed character is whitespace, and the last one kept is not |
| PyText.StripIsTrimmedSlice | handlers.py:116-121 | `strip()` is a slice `s[i..j]` with only whitespace outside it and non-whitespace at both ends |
| PyText.StripIdempotent | handlers.py:116-121 | stripping twice is stripping once, so the validators' own `.strip()` after a handler's strip changes nothing |
| PyText.CaseKeepsSpaces | handlers.py:303 | lowering or uppering a character never turns whitespace into non-whitespace or back |
| PyText.StripCommutesWithCase | handlers.py:303 | `text.lower().strip()` equals `text.strip().lower()`, and likewise with `upper` (handlers.py:1115), so the handlers' different orders give the same string |
| PyText.ContainsAt | handlers.py:307-352 | Python's `w in s` holds iff `w` occurs at some index of `s` |
| PyText.NotContainsMissingChar | handlers.py:307-352 | a word with a character that the text lacks is not in the text |
| PyText.ContainsFromSlice | handlers.py:307-352 | a word found at some position of the text is `in` the text |
| PyText.RemoveAllAbsent | handlers.py:1090 | removing an absent pattern (the `_RUB` suffix of a plain code) leaves the text unchanged |
| PyText.NatToStringValue | handlers.py:1104 | the decimal digits printed for `n` (the list numbering) read back as `n` |
| PyText.DigitsValueFront | handlers.py:1128 | the value of a digit string is its leading digit times a power of ten plus the value of the rest |
| PyText.ParseGroupedDigits | handlers.py:1128 | `int()` over plain digits, from an accumulator, is the accumulator shifted left plus the digits' value |
| PyText.ParseIntNatToString | handlers.py:1128 | `int()` of the printed number `n` gives back `n`, so every list number a user types parses |
| Validators.LeadingDigits | handlers.py:123-128 | the count of leading digits: all of them digits, and the character after them is not a digit |
| Validators.ParseNumber | handlers.py:123-128 | an amount accepted by the number validator parses to a non-negative value |
| Validators.ValidatorsIgnoreStrip | handlers.py:116-142 | each validator gives the same answer on the stripped text as on the raw text |
| Validators.TextRejectsDigits | handlers.py:116-121 | a text containing any digit is not a valid name or country |
| Validators.TextRejectsBlank | handlers.py:116-121 | a text of whitespace only, the empty text included, is rejected |
| Validators.TextRejectsYo | handlers.py:116-121 | "Ё" and "ё" lie outside the ranges А-Я and а-я: a text holding either letter anywhere is rejected |
| Validators.TextAcceptsWords | handlers.py:116-121 | any non-empty run of ASCII letters, А-Я/а-я, spaces and hyphens with no whitespace at either end is accepted and already stripped |
| Validators.NumberShape | handlers.py:123-128 | an accepted number, stripped, is a digit run or two digit runs around one dot |
| Validators.NumberAcceptsInteger | handlers.py:123-128 | every non-empty digit run is accepted and parses to its value |
| Validators.FractionParts | handlers.py:123-128 | `a.b` with two digit runs splits at the dot into `a` and `b` and needs no stripping |
| Validators.NumberAcceptsFraction | handlers.py:123-128 | `a.b` with two digit runs is accepted and parses to `a + b / 10^len(b)` |
| Validators.NumberOfNatString | handlers.py:123-128 | every printed natural number is a valid amount with that value |
| Validators.CurrencyIsText | handlers.py:130-135 | a valid currency code (3 to 5 ASCII letters) is also valid text |
| Validators.PhoneShape | handlers.py:137-142 | a phone is accepted iff, stripped, it is 7 to 15 digits, or a '+' followed by 7 to 15 digits |
| Validators.ValidatorsDisjoint | handlers.py:116-142 | no text is both a valid name and a valid number, or both a valid name and a valid phone |
| Validators.PhoneWithoutPlusIsNumber | handlers.py:123-142 | a phone without '+' is also a valid amount |
| Commission.BracketsOrdered | handlers.py:82-107 | the bracket table's lower bounds strictly increase, so its brackets are contiguous and never overlap |
| Commission.CommissionFollowsTable | handlers.py:82-107 | the percent `calculate_commission` chooses is the percent of the bracket holding the amount |
| Commission.CommissionBrackets | handlers.py:88-106 | no commission iff the amount is below 5000 USD, with the "below minimum" message; otherwise 5.0 on [5000, 50000), 3.5 on [50000, 100000), 3.0 on [100000, 500000) and 2.5 from 500000 on, each iff |
| Commission.CommissionMonotone | handlers.py:88-106 | above the minimum, a larger amount never pays a higher percentage |
| Commission.FloorAnnounced | handlers.py:91-97 | in the 5% bracket, a commission under 100000 roubles is announced as the minimum |
| Commission.FloorNotAnnounced | handlers.py:91-106 | outside that case, no message mentions a minimum |
| Commission.FloorMessage | handlers.py:91-106 | when a commission applies, its message mentions "minimum" iff the amount is in the 5% bracket and 5% of it in roubles is under 100000 |
| Conversion.GetExchangeRate | handlers.py:69-80 | a rate is read iff the file exists and holds a number under the key, and then it is that number |
| Conversion.UsdIsIdentity | handlers.py:1971-1987 | an amount in USD converts to itself, whatever the file holds |
| Conversion.ConversionOutcomes | handlers.py:1971-1987 | for other currencies: 0 when either rate is missing; a ZeroDivisionError iff both rates are there and the USD rate is 0; otherwise `amount * cur_rate / usd_rate` |
| Conversion.CrossRateRoundTrip | handlers.py:1971-1987 | with positive rates, the converted amount is worth as many roubles as the original, and converting back gives the original |
| Conversion.ConversionScales | handlers.py:1971-1987 | conversion is linear in the amount |
| Exchange.FetchCbrRates | exchange.py:22-61 | `None` on a network error, a status other than 200, a parse failure or a zero nominal; otherwise the keys are exactly the entries' `code_RUB`, and each key holds `value / nominal` of the last entry with that key |
| Exchange.RecordShape | exchange.py:71-74 | the saved record is the rates plus one "timestamp" key holding the clock value, with every rate unchanged |
| Exchange.LoadAfterSave | exchange.py:85-99 | loading after saving gives back exactly the saved rates when none of them is named "timestamp" |
| Exchange.RateKeyIsNotTimestamp | exchange.py:49 | no fetched key can be "timestamp", since every key ends in "_RUB" |
| Exchange.RateStore.SaveRates | exchange.py:63-83 | `save_rates(None)` returns False and leaves the file alone; otherwise it returns True and the file holds the rates plus a timestamp |
| Exchange.RateStore.LoadExistingRates | exchange.py:85-102 | `None` when there is no file; otherwise the file's record without its "timestamp" key |
| Exchange.RateStore.UpdateRates | exchange.py:104-127 | the value returned and the file left behind are exactly those of the update policy: load, always fetch, then save |
| Exchange.UpdateFailsWithoutStore | exchange.py:116-119 | a failed fetch with no file returns `None` and writes nothing |
| Exchange.UpdateFallsBackToStore | exchange.py:120-123 | a failed fetch with a file returns its rates and re-saves them unchanged under a fresh timestamp |
| Exchange.UpdateReplacesWholesale | exchange.py:125-127 | a successful fetch returns the new rates, written as JSON numbers (exchange.py:76-78), and the file holds exactly them (nothing merged from before) plus the timestamp |
| Exchange.UpdateReturnsWhatItStores | exchange.py:104-127 | the update returns `None` iff the fetch fails and there is no file; whatever it returns is what the file then holds, timestamp aside |
| Currencies.StrLeReflexive | handlers.py:1091 | the string order of `sorted` is reflexive |
| Currencies.StrLeTotal | handlers.py:1091 | the string order is total |
| Currencies.StrLeAntisymmetric | handlers.py:1091 | the string order is antisymmetric |
| Currencies.StrLeTransitive | handlers.py:1091 | the string order is transitive |
| Currencies.Insert | handlers.py:1091 | inserting adds exactly one copy of the element |
| Currencies.InsertSorted | handlers.py:1091 | inserting into a sorted list keeps it sorted |
| Currencies.Sort | handlers.py:1091 | sorting is a permutation |
| Currencies.SortSorted | handlers.py:1091 | the sorted list is sorted |
| Currencies.SortUnique | handlers.py:1091 | two sorted permutations of the same strings are equal, so `sorted` has one answer |
| Currencies.SortIsSortedPermutation | handlers.py:1091 | `sorted` gives a sorted permutation of its input |
| Currencies.CodesOfRemove | handlers.py:1090 | the codes of a key set are those of the set without one key plus that key's code |
| Currencies.CodesOfMembers | handlers.py:1090 | a code is among the listed codes iff some key other than "timestamp" yields it |
| Currencies.AvailableFromFile | handlers.py:1081-1093 | the available currencies are sorted, are one per key other than "timestamp" with "_RUB" removed, and contain exactly the codes of such keys |
| Currencies.CodeOfRateKey | handlers.py:1090 | removing "_RUB" from `CODE_RUB` gives back the letter code |
| Currencies.GetAvailableCurrencies | handlers.py:1081-1093 | the list built by the loop over the file's keys and the sort is the specified one: the file's sorted codes, or USD, EUR, AED when there is no file |
| Currencies.SortOfCodes | handlers.py:1081-1093 | sorting any list with the file's codes yields the available list |
| Currencies.FirstNewline | handlers.py:1104 | the first newline of a text: a newline with none before it |
| Currencies.FirstNewlineAfter | handlers.py:1104 | in `a + "\n" + rest`, with `a` a single line, the first newline is the one after `a` |
| Currencies.SplitJoin | handlers.py:1104 | splitting the newline-joined lines gives back the lines |
| Currencies.CurrencyListReadsBack | handlers.py:1104 | the formatted list, split at newlines, has one line per currency, and line `i` is the number `i+1`, a dot, a space and the code |
| ConversationFacts.WriteKeepsTyped | handlers.py:1120-1137 | any write keeps the `user_data` typing (a list under `available_currencies`, a string under each currency key) when the value has the right type |
| ConversationFacts.MainMenuKeepsTyped | handlers.py:301-357 | the main menu keeps `user_data` well typed |
| ConversationFacts.AgentSubmenuKeepsTyped | handlers.py:395-421 | the agent submenu keeps `user_data` well typed |
| ConversationFacts.PhysicalChoicesKeepTyped | handlers.py:1581-1616 | the individual's choice menu keeps `user_data` well typed |
| ConversationFacts.MainMenuKeepsLive | handlers.py:301-357 | the main menu only leads to reachable, registered states |
| ConversationFacts.AgentSubmenuKeepsLive | handlers.py:395-421 | the agent submenu only leads to reachable, registered states |
| ConversationFacts.PhysicalChoicesKeepLive | handlers.py:1581-1616 | the choice menu only leads to reachable, registered states |
| ConversationFacts.CountryKeepsTyped | handlers.py:976-1000 | the country step keeps `user_data` well typed |
| ConversationFacts.CurrencyKeepsTyped | handlers.py:1113-1185 | the currency step keeps `user_data` well typed |
| ConversationFacts.CommissionedKeepsTyped | handlers.py:1042-1079 | storing a quote keeps `user_data` well typed |
| ConversationFacts.ImporterAmountKeepsTyped | handlers.py:1002-1079 | the importer amount step keeps `user_data` well typed |
| ConversationFacts.AmountKeepsTyped | handlers.py:1002-1079 | every flow's amount step keeps `user_data` well typed |
| ConversationFacts.CommissionedState | handlers.py:1029-1079 | after a quote, the flow is at its amount or its commission-choice state |
| ConversationFacts.AmountKeepsLive | handlers.py:1002-1079 | the amount step only leads to reachable states |
| ConversationFacts.PhoneKeepsTyped | handlers.py:1237-1286 | the phone step keeps `user_data` well typed |
| ConversationFacts.FieldKeepsTyped | handlers.py:1218-1235 | the free-text field steps keep `user_data` well typed |
| ConversationFacts.HandlerAt | main.py:140-281 | the table maps each live flow state to its handler: country, currency, amount, commission choice, field, phone, preview |
| ConversationFacts.FieldHandlerAt | main.py:140-281 | each registered INN, purpose, sender or receiver state has the field handler |
| ConversationFacts.HandlerKeepsTyped | main.py:140-281 | every handler of the table keeps `user_data` well typed |
| ConversationFacts.CountryStates | handlers.py:976-1000 | the country step stays or moves to the currency step |
| ConversationFacts.CurrencyStates | handlers.py:1113-1185 | the currency step stays or moves to the amount step |
| ConversationFacts.PhoneStates | handlers.py:1237-1248 | the phone step stays or moves to the preview |
| ConversationFacts.CommissionChoiceStates | handlers.py:1206-1216 | the commission choice returns to the menu or moves to the flow's next step |
| ConversationFacts.LiveAfterCountry | handlers.py:976-1000 | the country handler only leads to live states |
| ConversationFacts.LiveAfterCurrency | handlers.py:1113-1185 | the currency handler only leads to live states |
| ConversationFacts.LiveAfterAmount | handlers.py:1002-1079 | the amount handler only leads to live states |
| ConversationFacts.LiveAfterCommissionChoice | handlers.py:1206-1216 | the commission-choice handler only leads to live states (never to an exporter purpose state) |
| ConversationFacts.LiveAfterPhone | handlers.py:1237-1248 | the phone handler only leads to live states |
| ConversationFacts.LiveAfterPreview | handlers.py:1288-1303 | the preview handler only leads to live states |
| ConversationFacts.LiveAfterField | handlers.py:1218-1235 | the field handlers only lead to live states |
| ConversationFacts.HandlerKeepsLive | main.py:140-281 | from a live state, every handler leads to a live state |
| ConversationFacts.DispatchKeepsValid | main.py:128-291 | every message, commands included, keeps the conversation in a live state with well-typed `user_data` |
| ConversationFacts.ExporterPurposeUnreachable | main.py:185 | no turn from a valid conversation enters the exporter or agent-exporter purpose state |
| ConversationFacts.GlobalCommandsChangeNothing | main.py:128-132 | `/help`, `/faq`, `/contact`, `/about` and `/language` change neither the state nor `user_data`, in or out of a conversation |
| ConversationFacts.StartOnlyOpens | handlers.py:288-299 | `/start` opens the main menu and sets the language to "ru" only when none is set; inside a conversation it is ignored, and text before `/start` is ignored |
| ConversationFacts.CancelKeepsOnlyLanguage | handlers.py:1863-1880 | `/cancel` returns to the main menu with `user_data` exactly `{lang: previous value}` (`None` when there was none), sends nothing, and a second `/cancel` gives the same turn |
| ConversationFacts.MenuKeepsData | handlers.py:274-280 | `/menu` from any state returns to the main menu and keeps `user_data` |
| ConversationFacts.OtherCommandsIgnored | main.py:282-288 | any other command in a conversation changes nothing |
| ConversationFacts.CurrencyReprompt | handlers.py:1113-1185 | when the currency step stays, it sends nothing and either keeps `user_data` or, on "OTHERS", only stores the fresh list |
| ConversationFacts.AmountReprompt | handlers.py:1002-1079 | when the amount step re-prompts, `user_data` is unchanged |
| ConversationFacts.RepromptAtMenus | handlers.py:301-357 | a menu that stays where it is keeps `user_data` |
| ConversationFacts.RepromptAtCountry | handlers.py:976-1000 | a refused country keeps `user_data` |
| ConversationFacts.RepromptAtCurrency | handlers.py:1113-1185 | a currency re-prompt keeps `user_data` apart from storing the list on "OTHERS" |
| ConversationFacts.RepromptAtAmount | handlers.py:1002-1079 | an amount re-prompt keeps `user_data` |
| ConversationFacts.RepromptAtCommissionChoice | handlers.py:1206-1216 | the commission choice never re-prompts with changed data |
| ConversationFacts.RepromptAtPhone | handlers.py:1237-1248 | a refused phone keeps `user_data` |
| ConversationFacts.RepromptAtPreview | handlers.py:1288-1303 | the preview never re-prompts with changed data |
| ConversationFacts.RepromptAtField | handlers.py:1218-1235 | the field steps never re-prompt with changed data |
| ConversationFacts.RepromptKeepsData | main.py:140-281 | any handler that leaves the state unchanged sends nothing and leaves `user_data` unchanged, except that "OTHERS" at a currency step stores the fresh list |
| ConversationFacts.MainMenuRouting | handlers.py:301-357 | the main menu tests the lowercased, stripped text for importer/импортер, then exporter/экспортер, then физ/individual, then агент/agent, and takes the first that matches, each iff; anything else stays; only the agent route writes `user_data` (the agent choice it resets) |
| ConversationFacts.AgentImporterWordsPickImporter | handlers.py:303-308 | "Agent Importer" at the main menu starts the importer flow, not the agent submenu |
| ConversationFacts.AgentSubmenuRouting | handlers.py:395-421 | "1" starts the agent importer flow and records "make_payment", "2" starts the agent exporter flow and records "forex_rebate", each iff; anything else returns to the main menu unchanged |
| ConversationFacts.PhysicalChoiceLabel | handlers.py:1581-1616 | a recognised choice records one of the three labels in the user's language, changes nothing else and starts the individual flow; otherwise `user_data` is unchanged and the state is the main menu or the choice menu |
| ConversationFacts.CountryRule | handlers.py:976-1000 | the country step advances iff the text is valid, storing it stripped; otherwise nothing changes |
| ConversationFacts.CurrencyOthers | handlers.py:1115-1123 | "OTHERS" (in any case, stripped) stores the fresh available list and stays at the currency step |
| ConversationFacts.ChosenCurrency | handlers.py:1133-1134 | choosing a currency stores it under the flow's key and leaves the stored list as it was |
| ConversationFacts.CurrencyListSelection | handlers.py:1126-1149 | with a list stored, a number `n` with 1 <= n <= len selects entry `n-1`, stores it, pops the list and moves to the amount step |
| ConversationFacts.CurrencyListRefusals | handlers.py:1150-1162 | with a list stored, any other text keeps the state and `user_data`, the list included |
| ConversationFacts.CurrencyStandardCodes | handlers.py:1164-1185 | with no list stored, the step advances iff the code is USD, EUR or AED, storing the code; any other text except "OTHERS" changes nothing |
| ConversationFacts.ListedNumberSelects | handlers.py:1104-1149 | every line of the shown list starts with the number that, typed back, selects that line's currency |
| ConversationFacts.ImporterAmountRule | handlers.py:1002-1079 | the importer amount step advances iff the amount is valid, the USD rate is there, the conversion succeeds and a commission applies; it then stores the amount, percent and message; an invalid amount or a missing USD rate changes nothing |
| ConversationFacts.MissingRateLooksBelowMinimum | handlers.py:1016-1040 | a currency with no rate in the file converts to 0, and the step answers as though the amount were below the minimum |
| ConversationFacts.ZeroUsdRateRaises | handlers.py:1971-1987 | a stored USD rate of 0 makes the amount step raise, which leaves the state and `user_data` as they were |
| ConversationFacts.PhysicalAmountRule | handlers.py:1718-1759 | the individual's amount step advances iff the amount is valid and converts to at least the minimum in USD, storing only the amount; otherwise nothing changes |
| ConversationFacts.ExporterAmountRule | handlers.py:1428-1449 | the exporter amount step stores any valid amount and moves on; an invalid amount changes nothing |
| ConversationFacts.CommissionGate | handlers.py:1206-1216 | the commission choice moves on iff the lowercased text contains "yes" or "да", otherwise it returns to the main menu; `user_data` is kept either way |
| ConversationFacts.FieldRule | handlers.py:1218-1235 | a field step stores the stripped text under its key and moves to a different step of the same flow |
| ConversationFacts.PhoneRule | handlers.py:1237-1286 | the phone step advances iff the phone is valid, storing it with the sender's id and username; otherwise nothing changes |
| ConversationFacts.PreviewSendsOnlyOnYes | handlers.py:1288-1303 | the preview returns to the main menu with `user_data` unchanged, and sends the flow's notification iff the answer contains "yes" or "да" |
| ConversationFacts.NotificationReadsOwnKeys | handlers.py:1305-1319 | the notification is read from the flow's own keys, in order |
| ConversationFacts.AgentFlowsShareUserKeys | handlers.py:648-687 | both agent flows store the sender under the same `agent_user_id` key |
| ConversationFacts.OthersAtCurrency | handlers.py:1115-1123 | "Others" at any currency step stores the fresh list and stays |
| ConversationFacts.StandardCodeText | handlers.py:1165 | USD, EUR and AED read as themselves and are not numbers |
| ConversationFacts.ListRefusesStandardCode | handlers.py:1126-1162 | while a list is stored, even USD, EUR and AED are refused, in every flow |
| ConversationFacts.StaleListBlocksStandardCodes | handlers.py:274-280 | "OTHERS" then `/menu` leaves the list stored, so a currency step of any flow then refuses USD, EUR and AED |
| ConversationFacts.SubmissionKeepsFields | handlers.py:1288-1303 | a confirmed preview sends the notification and keeps `user_data` |
| Session.Sent | handlers.py:1305-1319 | the notifications a turn appends: one on submission, none otherwise |
| Session.Session.constructor | main.py:138-291 | a new session has no conversation, empty `user_data` and nothing sent, and satisfies the session invariant |
| Session.Session.Commit | main.py:138-291 | a raised handler changes nothing; otherwise the session takes the handler's state and data and appends what it sent |
| Session.Session.OnStart | handlers.py:288-299 | `/start` sets the language to "ru" only when none is set and opens the main menu |
| Session.Session.OnCancel | handlers.py:1863-1880 | reads the language, clears `user_data`, puts the language back and returns to the main menu; the result is `cancel_command`'s |
| Session.Session.SetCurrency | handlers.py:1133-1134 | stores the chosen currency, and the manual flag where the flow keeps one |
| Session.Session.ChooseListed | handlers.py:1132-1137 | sets the currency and then pops the stored list, giving the chosen data without the list |
| Session.Session.CurrencyInput | handlers.py:1113-1185 | the currency handler updates the session in place to exactly the currency step's state and data |
| Session.Session.OnCurrency | main.py:140-281 | a message at a currency state gives exactly the turn of the dispatch rule |
| Session.Session.OnCountry | handlers.py:976-1000 | a message at a country state gives exactly the turn of the dispatch rule |
| Session.Session.OnAmount | handlers.py:1002-1079 | a message at an amount state gives exactly the turn of the dispatch rule |
| Session.Session.OnCommissionChoice | handlers.py:1206-1216 | a message at a commission-choice state gives exactly the turn of the dispatch rule |
| Session.Session.OnField | handlers.py:1218-1235 | a message at a field state gives exactly the turn of the dispatch rule |
| Session.Session.OnPhone | handlers.py:1237-1286 | a message at a phone state gives exactly the turn of the dispatch rule |
| Session.Session.OnPreview | handlers.py:1288-1303 | a message at a preview state gives exactly the turn of the dispatch rule, appending the notification on a yes |
| Session.Session.OnMenu | handlers.py:301-357 | a message at one of the three menus gives exactly the turn of the dispatch rule |
| Session.Session.Receive | main.py:128-291 | every incoming command or text updates the session to exactly the dispatch rule's turn and keeps the session valid |
| Commission.CalculateCommission | handlers.py:82-107 | the commission quote; its behaviour is stated by CommissionBrackets, CommissionFollowsTable, CommissionMonotone and FloorMessage |
| Conversion.ConvertToUsd | handlers.py:1971-1987 | the cross-rate conversion; its behaviour is stated by UsdIsIdentity, ConversionOutcomes, CrossRateRoundTrip and ConversionScales |
| Validators.IsValidText | handlers.py:116-121 | the text validator; its behaviour is stated by TextRejectsDigits, TextRejectsBlank, TextRejectsYo, TextAcceptsWords and ValidatorsDisjoint |
| Validators.IsValidNumber | handlers.py:123-128 | the number validator; its behaviour is stated by NumberShape, NumberAcceptsInteger and NumberAcceptsFraction, which together give `\d+(\.\d+)?` |
| Validators.IsValidCurrency | handlers.py:130-135 | the currency-code validator; its behaviour is stated by CurrencyIsText and ValidatorsIgnoreStrip |
| Validators.IsValidPhone | handlers.py:137-142 | the phone validator; its behaviour is stated by PhoneShape and PhoneWithoutPlusIsNumber |
| Currencies.AvailableCurrencies | handlers.py:1081-1093 | the list offered after "Others"; its behaviour is stated by AvailableFromFile, and GetAvailableCurrencies computes it |
| Currencies.FormatCurrencyList | handlers.py:1095-1111 | the numbered list message; the list between its header and footer is described by CurrencyListReadsBack and ListedNumberSelects |
| Exchange.RecordOf | exchange.py:71-74 | the record `save_rates` writes; its behaviour is stated by RecordShape and LoadAfterSave |
| Exchange.WithoutTimestamp | exchange.py:98 | the timestamp removal of `load_existing_rates`; LoadAfterSave shows it undoes RecordOf |
| Exchange.UpdatePolicy | exchange.py:104-127 | the update's outcome; its branches are stated by UpdateFailsWithoutStore, UpdateFallsBackToStore, UpdateReplacesWholesale and UpdateReturnsWhatItStores, and RateStore.UpdateRates carries it out |
| Conversation.StartCommand | handlers.py:288-299 | `start`; its behaviour is stated by StartOnlyOpens |
| Conversation.GoBackToMainMenu | handlers.py:274-280 | the return to the main menu; MenuKeepsData and CommissionGate show that it keeps `user_data` |
| Conversation.CancelCommand | handlers.py:1863-1880 | `cancel_command`; its behaviour is stated by CancelKeepsOnlyLanguage |
| Conversation.MainMenuChoice | handlers.py:301-357 | `main_menu`; its behaviour is stated by MainMenuRouting and AgentImporterWordsPickImporter |
| Conversation.AgentSubmenuChoice | handlers.py:395-421 | `agent_submenu`; its behaviour is stated by AgentSubmenuRouting |
| Conversation.PhysicalChoiceStep | handlers.py:1581-1616 | `physical_choices`; its behaviour is stated by PhysicalChoiceLabel |
| Conversation.CountryStep | handlers.py:976-1000 | `<flow>_country`; its behaviour is stated by CountryRule |
| Conversation.ChooseCurrency | handlers.py:1133-1134 | the currency write; its behaviour is stated by ChosenCurrency |
| Conversation.CurrencyStep | handlers.py:1113-1185 | `<flow>_currency`; its behaviour is stated by CurrencyOthers, CurrencyListSelection, CurrencyListRefusals, CurrencyStandardCodes and CurrencyReprompt |
| Conversation.AmountStep | handlers.py:1002-1079 | `<flow>_amount`; its behaviour is stated by ImporterAmountRule, PhysicalAmountRule, ExporterAmountRule, MissingRateLooksBelowMinimum and ZeroUsdRateRaises |
| Conversation.PhysicalAmount | handlers.py:1718-1759 | the individual's minimum check; its behaviour is stated by PhysicalAmountRule |
| Conversation.ImporterAmount | handlers.py:1012-1079 | the importer-like rate and commission check; its behaviour is stated by ImporterAmountRule |
| Conversation.Commissioned | handlers.py:1029-1079 | storing a quote; its behaviour is stated by ImporterAmountRule and CommissionedState |
| Conversation.CommissionChoiceStep | handlers.py:1206-1216 | `<flow>_commission_choice`; its behaviour is stated by CommissionGate |
| Conversation.FieldStep | handlers.py:1218-1235 | the free-text field steps; their behaviour is stated by FieldRule |
| Conversation.PhoneStep | handlers.py:1237-1286 | `<flow>_phone` with the preview's user record; its behaviour is stated by PhoneRule |
| Conversation.NotificationOf | handlers.py:1305-1319 | the request sent to the administrators; its behaviour is stated by NotificationReadsOwnKeys |
| Conversation.PreviewChoiceStep | handlers.py:1288-1303 | `<flow>_preview_choice`; its behaviour is stated by PreviewSendsOnlyOnYes |
| Conversation.TextHandler | main.py:140-281 | the state table; its behaviour is stated by HandlerAt, FieldHandlerAt, HandlerKeepsLive and RepromptKeepsData |
| Conversation.Dispatch | main.py:128-291 | which handler sees a message; its behaviour is stated by DispatchKeepsValid, GlobalCommandsChangeNothing, StartOnlyOpens, CancelKeepsOnlyLanguage, MenuKeepsData and OtherCommandsIgnored, and Session.Receive carries it out |

## Left out

- Telegram I/O: replies, keyboards, `set_my_commands` and the bot's polling loop. A turn records only the next state, the new `user_data` and the notification sent to the administrators, if any.
- The bilingual text table `_` and the prompt texts. The model keeps only the commission messages, because the "minimum" wording is decided by the amount.
- `language_command` and `language_callback`: they answer through an inline keyboard and a callback query, which the model does not carry. The model takes the language as whatever `user_data` holds.
- `importer_currency_manual`: no state in the table leads to it, so it is never called.
- `send_*_data_to_admin`: the messages to the administrators are network transport. The model records which `user_data` fields the notification reads, not its text.
- The HTTP request, the XML parse and the `','` to `'.'` decimal fix in `fetch_cbr_rates`. The reply comes in already parsed as a `Response`.
- Exchange.RateStore.SaveRates: a failure to write the file (the exception branch returning False) is not modelled. With rates given, the write always succeeds.
- Exchange.RateStore.LoadExistingRates: a corrupt or unreadable file is not modelled. A file is either absent or holds a decoded record; the same holds for the handlers' reads of the file (`get_exchange_rate`, `get_available_currencies`).
- Python floats: amounts and rates are exact reals, so rounding and the `:.2f` formatting in the messages are not modelled.
- Python's Unicode rules are narrowed. `\d` is ASCII digits only, and `lower`/`upper` map ASCII and basic Cyrillic.
- PyText.ParseInt: only ASCII digits are read. Python's `int()` at the currency-list step (handlers.py:1128) also reads other decimal digits, so `int('３')` selects entry 3, which the model refuses.
- Conversion.GetExchangeRate: a string under a rate key is read as no rate. Python's `float(rate)` (handlers.py:78) would read a numeric string such as "92.5". The files `save_rates` writes hold only numbers under rate keys; the timestamp is the only string.
- The key order of the JSON record. The available list is sorted, so the order the file lists its keys in does not show.
- Logging and the clock: the update time is a parameter.
- Concurrency between users and the job queue are not modelled. Each session is one user's, and `update_rates` is one call.
