/**
 * The table of user-facing messages for the backend's error codes and the
 * way the login and register pages turn a failed request into the text
 * they show.
 */
module ErrorUtils {
  import opened Wrappers

  const UserAlreadyExists := "USER_ALREADY_EXISTS"
  const InvalidCredentials := "INVALID_USERNAME_OR_PASSWORD"
  const UsernameNotFound := "USERNAME_NOT_FOUND"

  /** The three known codes and their Ukrainian messages. */
  const ErrorMessages: map<string, string> := map[
    UserAlreadyExists := "Користувач з таким логіном вже існує",
    InvalidCredentials := "Неправильний логін або пароль",
    UsernameNotFound := "Користувача з таким логіном не існує"
  ]

  /** The text shown for a non-ok reply whose code is unknown or missing. */
  const Fallback := "Реєстрація не вдалася"

  /**
   * The properties every object inherits from `Object.prototype`. Looking
   * one of them up in the table finds the inherited member (a function, or
   * the prototype object itself for `__proto__`) rather than nothing.
   */
  const PrototypeKeys: set<string> := {
    "constructor", "hasOwnProperty", "isPrototypeOf", "propertyIsEnumerable",
    "toString", "toLocaleString", "valueOf", "__proto__",
    "__defineGetter__", "__defineSetter__", "__lookupGetter__", "__lookupSetter__"
  }

  /** What `errorMessages[code]` finds: one of the table's messages, or an inherited member. */
  datatype Found = Message(text: string) | PrototypeMember(name: string)

  /**
   * `errorMessages[code]` on the object literal: a message exactly for the
   * three known codes, the inherited member for a prototype property name,
   * and nothing (`undefined`) for every other code.
   */
  function Lookup(code: string): (r: Option<Found>)
    ensures r.Some? <==> code == "USER_ALREADY_EXISTS" || code == "INVALID_USERNAME_OR_PASSWORD" ||
                         code == "USERNAME_NOT_FOUND" || code in PrototypeKeys
    ensures code == "USER_ALREADY_EXISTS" ==> r == Some(Message("Користувач з таким логіном вже існує"))
    ensures code == "INVALID_USERNAME_OR_PASSWORD" ==> r == Some(Message("Неправильний логін або пароль"))
    ensures code == "USERNAME_NOT_FOUND" ==> r == Some(Message("Користувача з таким логіном не існує"))
    ensures code in PrototypeKeys ==> r == Some(PrototypeMember(code))
  {
    if code in ErrorMessages then Some(Message(ErrorMessages[code]))
    else if code in PrototypeKeys then Some(PrototypeMember(code))
    else None
  }

  /** The outcome of a login or register request as the page sees it. */
  datatype Failure =
    | Rejected(code: Option<string>)   // a non-ok reply; `code` is its `message` field, if any
    | Threw(reason: string)            // the request or the JSON decoding threw

  /**
   * The value a failed request hands to the page's error setter:
   * `errorMessages[code] || "Реєстрація не вдалася"` for a rejected request
   * and the thrown error's own message otherwise. Whatever the lookup finds
   * is truthy, so the expression gives the fallback exactly when the lookup
   * finds nothing; a text it gives for a rejected request is a mapped
   * message or the fallback, never a raw code, and a code naming an
   * inherited member evaluates to that member, skipping the fallback.
   */
  function FailureMessage(f: Failure): (m: Found)
    ensures f.Rejected? ==> (m == Message(Fallback) <==> f.code.None? || Lookup(f.code.value).None?)
    ensures f.Rejected? && f.code.Some? && Lookup(f.code.value).Some? ==> m == Lookup(f.code.value).value
    ensures f.Rejected? && m.Message? ==> (m.text == Fallback || m.text in ErrorMessages.Values) && m.text !in ErrorMessages
    ensures m.PrototypeMember? <==> f.Rejected? && f.code.Some? && f.code.value in PrototypeKeys
    ensures f.Threw? ==> m == Message(f.reason)
  {
    match f
    case Rejected(code) =>
      if code.Some? && Lookup(code.value).Some? then Lookup(code.value).value else Message(Fallback)
    case Threw(reason) => Message(reason)
  }

  /** A code such as "constructor" evaluates to the inherited member, not the fallback text, although it names no error. */
  lemma InheritedCodeSkipsFallback()
    ensures FailureMessage(Rejected(Some("constructor"))) == PrototypeMember("constructor")
    ensures FailureMessage(Rejected(Some("SOMETHING_ELSE"))) == Message(Fallback)
  {
    assert "SOMETHING_ELSE" !in ErrorMessages;
  }

  /** The three messages are different from each other and from the fallback. */
  lemma MessagesDistinguishCodes(a: string, b: string)
    requires a in ErrorMessages && b in ErrorMessages && a != b
    ensures ErrorMessages[a] != ErrorMessages[b] && ErrorMessages[a] != Fallback
  {
  }
}
