/**
 * One user's session as the running bot holds it: the ConversationHandler's
 * current state, the `context.user_data` dictionary the handlers update in
 * place, and the notifications sent to the administrators so far. Receive
 * and the On* methods for each kind of state are proved to leave exactly the
 * turn that Dispatch describes; the helpers they call (Commit, OnStart,
 * OnCancel, SetCurrency, ChooseListed, CurrencyInput) are each proved equal
 * to the handler function they carry out.
 */
module Session {
  import opened Wrappers
  import opened PyText
  import opened Validators
  import opened Exchange
  import opened Currencies
  import opened Conversation
  import opened ConversationFacts

  /** The notification a turn sent, as a list of zero or one. */
  function Sent(n: Option<Notification>): seq<Notification> {
    if n.Some? then [n.value] else []
  }

  class Session {
    var conv: Option<State>
    var userData: UserData
    var outbox: seq<Notification>

    /** A user who has not sent /start yet. */
    constructor ()
      ensures conv == None && userData == map[] && outbox == []
      ensures Valid()
    {
      conv := None;
      userData := map[];
      outbox := [];
    }

    ghost predicate Valid()
      reads this
    {
      Conversation.Valid(conv, userData)
    }

    /** Takes over a handler's outcome; an exception changes nothing. */
    method Commit(o: Outcome)
      modifies this
      ensures o.Raised? ==> conv == old(conv) && userData == old(userData) && outbox == old(outbox)
      ensures o.Next? ==>
        conv == Some(o.state) && userData == o.data && outbox == old(outbox) + Sent(o.sent)
    {
      if o.Next? {
        conv := Some(o.state);
        userData := o.data;
        outbox := outbox + Sent(o.sent);
      }
    }

    /** `start` */
    method OnStart()
      requires conv.None?
      modifies this
      ensures conv == Some(MainMenu) && outbox == old(outbox)
      ensures userData == StartCommand(old(userData)).data
    {
      if Lang !in userData {
        userData := userData[Lang := Str("ru")];
      }
      conv := Some(MainMenu);
    }

    /** `cancel_command`: reads the language, clears user_data, puts the
        language back. */
    method OnCancel()
      modifies this
      ensures conv == Some(MainMenu) && outbox == old(outbox)
      ensures userData == CancelCommand(old(userData)).data
    {
      var lang := if Lang in userData then userData[Lang] else Null;
      userData := map[];
      userData := userData[Lang := lang];
      conv := Some(MainMenu);
    }

    /** `user_data['<flow>_currency'] = code`, and the manual flag for the
        flows that keep one. */
    method SetCurrency(f: Flow, code: string)
      modifies this
      ensures userData == ChooseCurrency(f, old(userData), code)
      ensures conv == old(conv) && outbox == old(outbox)
    {
      userData := userData[Field(f, "currency") := Str(code)];
      if f != AgentImporter && f != AgentExporter {
        userData := userData[Field(f, "currency_manual") := Flag(false)];
      }
    }

    /** An entry picked from the stored list: the currency is set, then the
        list is popped. */
    method ChooseListed(f: Flow, code: string)
      modifies this
      ensures userData == ChooseCurrency(f, old(userData) - {AvailableList}, code)
      ensures conv == old(conv) && outbox == old(outbox)
    {
      SetCurrency(f, code);
      userData := userData - {AvailableList};
    }

    /** `<flow>_currency`, with the list read from the file by
        GetAvailableCurrencies and popped once an entry is chosen. */
    method CurrencyInput(f: Flow, text: string, file: Option<Record>)
      requires conv == Some(At(f, Currency))
      modifies this
      ensures var o := CurrencyStep(f, old(userData), text, file);
        conv == Some(o.state) && userData == o.data && outbox == old(outbox)
    {
      var t := Upper(Strip(text));
      if t == "OTHERS" {
        CurrencyOthers(f, userData, text, file);
        var list := GetAvailableCurrencies(file);
        userData := userData[AvailableList := List(list)];
      } else if ListMode(userData) {
        var list := userData[AvailableList].items;
        var p := ParseInt(t);
        if p.Some? && 1 <= p.value <= |list| {
          CurrencyListSelection(f, userData, text, file, p.value);
          assert CurrencyStep(f, userData, text, file) ==
            Stay(At(f, Amount), ChooseCurrency(f, userData - {AvailableList}, list[p.value - 1]));
          ChooseListed(f, list[p.value - 1]);
          conv := Some(At(f, Amount));
        } else {
          CurrencyListRefusals(f, userData, text, file);
        }
      } else {
        CurrencyStandardCodes(f, userData, text, file);
        if t in StandardCurrencies {
          assert CurrencyStep(f, userData, text, file) == Stay(At(f, Amount), ChooseCurrency(f, userData, t));
          SetCurrency(f, t);
          conv := Some(At(f, Amount));
        }
      }
    }

    method OnCurrency(f: Flow, text: string, env: Env)
      requires conv == Some(At(f, Currency))
      modifies this
      ensures var t := Dispatch(old(conv), old(userData), Text(text), env);
        conv == t.conv && userData == t.data && outbox == old(outbox) + Sent(t.sent)
    {
      HandlerAt(f, Currency, userData, text, env);
      CurrencyInput(f, text, env.file);
    }

    /** `<flow>_country` */
    method OnCountry(f: Flow, text: string, env: Env)
      requires conv == Some(At(f, Country))
      modifies this
      ensures var t := Dispatch(old(conv), old(userData), Text(text), env);
        conv == t.conv && userData == t.data && outbox == old(outbox) + Sent(t.sent)
    {
      HandlerAt(f, Country, userData, text, env);
      var country := Strip(text);
      if IsValidText(country) {
        userData := userData[Field(f, "country") := Str(country)];
        conv := Some(At(f, Currency));
      }
    }

    /** `<flow>_amount`: the quote is computed by AmountStep and taken over. */
    method OnAmount(f: Flow, text: string, env: Env)
      requires conv == Some(At(f, Amount))
      modifies this
      ensures var t := Dispatch(old(conv), old(userData), Text(text), env);
        conv == t.conv && userData == t.data && outbox == old(outbox) + Sent(t.sent)
    {
      HandlerAt(f, Amount, userData, text, env);
      Commit(AmountStep(f, userData, text, env.file));
    }

    /** `<flow>_commission_choice` */
    method OnCommissionChoice(f: Flow, text: string, env: Env)
      requires conv == Some(At(f, CommissionChoice))
      modifies this
      ensures var t := Dispatch(old(conv), old(userData), Text(text), env);
        conv == t.conv && userData == t.data && outbox == old(outbox) + Sent(t.sent)
    {
      HandlerAt(f, CommissionChoice, userData, text, env);
      var choice := if f == Physical then Strip(Lower(text)) else Lower(text);
      conv := if YesLike(choice) then Some(At(f, AfterCommission(f))) else Some(MainMenu);
    }

    /** `<flow>_inn`, `_purpose`, `_sender_details`, `_receiver_details` */
    method OnField(f: Flow, step: Step, text: string, env: Env)
      requires conv == Some(At(f, step)) && IsFieldStep(step) && step in Steps(f)
      modifies this
      ensures var t := Dispatch(old(conv), old(userData), Text(text), env);
        conv == t.conv && userData == t.data && outbox == old(outbox) + Sent(t.sent)
    {
      FieldHandlerAt(f, step, userData, text, env);
      userData := userData[Field(f, FieldName(step)) := Str(Strip(text))];
      conv := Some(At(f, AfterField(f, step)));
    }

    /** `<flow>_phone` and the preview that follows it */
    method OnPhone(f: Flow, text: string, env: Env)
      requires conv == Some(At(f, Phone))
      modifies this
      ensures var t := Dispatch(old(conv), old(userData), Text(text), env);
        conv == t.conv && userData == t.data && outbox == old(outbox) + Sent(t.sent)
    {
      HandlerAt(f, Phone, userData, text, env);
      var phone := Strip(text);
      if IsValidPhone(phone) {
        userData := userData[Field(f, "phone") := Str(phone)];
        userData := userData[UserId(OwnerOf(f)) := Int(env.user.id)];
        userData := userData[Username(OwnerOf(f)) := UsernameValue(env.user)];
        conv := Some(At(f, Preview));
      }
    }

    /** `<flow>_preview_choice`: a yes sends the request. */
    method OnPreview(f: Flow, text: string, env: Env)
      requires conv == Some(At(f, Preview))
      modifies this
      ensures var t := Dispatch(old(conv), old(userData), Text(text), env);
        conv == t.conv && userData == t.data && outbox == old(outbox) + Sent(t.sent)
    {
      HandlerAt(f, Preview, userData, text, env);
      if YesLike(Strip(Lower(text))) {
        outbox := outbox + [NotificationOf(f, userData)];
      }
      conv := Some(MainMenu);
    }

    /** The three menus, computed by their functions and taken over. */
    method OnMenu(text: string, env: Env)
      requires conv == Some(MainMenu) || conv == Some(AgentSubmenu) || conv == Some(PhysicalChoices)
      modifies this
      ensures var t := Dispatch(old(conv), old(userData), Text(text), env);
        conv == t.conv && userData == t.data && outbox == old(outbox) + Sent(t.sent)
    {
      if conv == Some(MainMenu) {
        Commit(MainMenuChoice(userData, text));
      } else if conv == Some(AgentSubmenu) {
        Commit(AgentSubmenuChoice(userData, text));
      } else {
        Commit(PhysicalChoiceStep(userData, text));
      }
    }

    /** One incoming message: the turn Dispatch describes, with what it sent
        appended to the outbox; the invariant is kept. */
    method Receive(msg: Message, env: Env)
      modifies this
      ensures var t := Dispatch(old(conv), old(userData), msg, env);
        conv == t.conv && userData == t.data && outbox == old(outbox) + Sent(t.sent)
      ensures old(Valid()) ==> Valid()
    {
      ghost var t := Dispatch(conv, userData, msg, env);
      if Valid() {
        DispatchKeepsValid(conv, userData, msg, env);
      }
      match msg
      case Command(name) =>
        if name in GlobalCommands {
        } else if conv.None? {
          if name == "start" {
            OnStart();
          }
        } else if name == "cancel" {
          OnCancel();
        } else if name == "menu" {
          conv := Some(MainMenu);
        }
      case Text(text) =>
        if conv.Some? {
          match conv.value
          case At(f, step) =>
            if step !in Steps(f) {
            } else if IsFieldStep(step) {
              OnField(f, step, text, env);
            } else {
              match step
              case Country => OnCountry(f, text, env);
              case Currency => OnCurrency(f, text, env);
              case Amount => OnAmount(f, text, env);
              case CommissionChoice => OnCommissionChoice(f, text, env);
              case Phone => OnPhone(f, text, env);
              case Preview => OnPreview(f, text, env);
            }
          case _ => OnMenu(text, env);
        }
    }
  }
}
