/** The sign-in error page: the `error` query parameter picks the message shown, a notice about
    accounts linked to another provider, and a box repeating the error code. */
module AuthErrorPage {
  import opened Wrappers

  /** `errorMessages`: the message for each error code the authentication library reports, and
      the `default` one. */
  const ErrorMessages: map<string, string> := map[
    "Configuration" := "Серверийн тохиргоонд алдаа гарсан байна.",
    "AccessDenied" := "Хандах эрх хүрэлцэхгүй байна.",
    "Verification" := "Баталгаажуулалтын холбоос хүчингүй эсвэл хугацаа дууссан байна.",
    "OAuthSignin" := "OAuth нэвтрэх үед алдаа гарлаа.",
    "OAuthCallback" := "OAuth callback алдаа.",
    "OAuthCreateAccount" := "OAuth аккаунт үүсгэх үед алдаа гарлаа.",
    "EmailCreateAccount" := "Email аккаунт үүсгэх үед алдаа гарлаа.",
    "Callback" := "Callback алдаа.",
    "OAuthAccountNotLinked" := NotLinkedMessage,
    "EmailSignin" := "Email илгээх боломжгүй байна.",
    "CredentialsSignin" := "Нэвтрэх нэр эсвэл нууц үг буруу байна.",
    "SessionRequired" := "Энэ хуудсыг үзэхийн тулд нэвтэрнэ үү.",
    "default" := DefaultMessage
  ]

  const DefaultMessage: string := "Нэвтрэх үед алдаа гарлаа."

  const NotLinked: string := "OAuthAccountNotLinked"

  const NotLinkedMessage: string := "Энэ email хаяг өөр провайдертай холбогдсон байна."

  /** A query parameter is truthy when present and not empty. */
  predicate Present(error: Option<string>) {
    error.Some? && error.value != ""
  }

  /** The message shown: the table's entry for a known code, the default message for an unknown,
      empty or missing one. */
  function ErrorMessage(error: Option<string>): (m: string)
    ensures Present(error) && error.value in ErrorMessages ==> m == ErrorMessages[error.value]
    ensures !(Present(error) && error.value in ErrorMessages) ==> m == DefaultMessage
    ensures m in ErrorMessages.Values
  {
    assert ErrorMessages["default"] == DefaultMessage;
    if Present(error) && error.value in ErrorMessages && ErrorMessages[error.value] != "" then ErrorMessages[error.value]
    else DefaultMessage
  }

  /** Whether the notice about an e-mail address linked to another provider is shown. */
  function ShowNotLinkedNotice(error: Option<string>): (shown: bool)
    ensures shown <==> error == Some(NotLinked)
  {
    error.Some? && error.value == NotLinked
  }

  /** The text of the error-code box, shown only for a present code. */
  function ErrorCodeBox(error: Option<string>): (box: Option<string>)
    ensures box.Some? <==> Present(error)
    ensures box.Some? ==> box.value == "Error code: " + error.value
  {
    if Present(error) then Some("Error code: " + error.value) else None
  }

  /** A page with the not-linked notice always names its code in the error-code box. */
  lemma NoticeComesWithCode(error: Option<string>)
    requires ShowNotLinkedNotice(error)
    ensures ErrorCodeBox(error) == Some("Error code: OAuthAccountNotLinked")
  {
    assert error == Some(NotLinked);
    assert "Error code: " + NotLinked == "Error code: OAuthAccountNotLinked";
  }

  /** A page with the not-linked notice shows the message for that code, not the default one. */
  lemma NoticeComesWithMessage(error: Option<string>)
    requires ShowNotLinkedNotice(error)
    ensures ErrorMessage(error) == NotLinkedMessage
    ensures NotLinkedMessage != DefaultMessage
  {
    assert error == Some(NotLinked);
    assert ErrorMessages[NotLinked] == NotLinkedMessage;
  }

  /** The names `errorMessages[error]` also finds on a plain object literal: the members it
      inherits from `Object.prototype`. */
  const InheritedMembers: set<string> := {
    "constructor", "hasOwnProperty", "isPrototypeOf", "propertyIsEnumerable", "toLocaleString",
    "toString", "valueOf", "__proto__", "__defineGetter__", "__defineSetter__",
    "__lookupGetter__", "__lookupSetter__"
  }

  /** What a property read on the table yields in JavaScript. */
  datatype Property = Text(text: string) | Member(name: string) | Undefined

  /** `errorMessages[name]` as written: own entries first, then inherited members. */
  function PropertyOf(name: string): (p: Property)
    ensures p.Text? <==> name in ErrorMessages
    ensures p.Member? <==> name !in ErrorMessages && name in InheritedMembers
  {
    if name in ErrorMessages then Text(ErrorMessages[name])
    else if name in InheritedMembers then Member(name)
    else Undefined
  }

  /** `error ? errorMessages[error] || errorMessages.default : errorMessages.default` as written:
      an inherited member is truthy, so it is what gets shown. */
  function ErrorMessageAsWritten(error: Option<string>): Property {
    if !Present(error) then Text(DefaultMessage)
    else
      var p := PropertyOf(error.value);
      if p.Member? || (p.Text? && p.text != "") then p else Text(DefaultMessage)
  }

  /** The two agree on every code that is not an inherited member's name; on those, the page as
      written shows a function or an object instead of any message, e.g. for `?error=toString`. */
  lemma InheritedLookupCounterexample(error: Option<string>)
    ensures !(Present(error) && error.value in InheritedMembers) ==> ErrorMessageAsWritten(error) == Text(ErrorMessage(error))
    ensures ErrorMessageAsWritten(Some("toString")) == Member("toString")
    ensures ErrorMessage(Some("toString")) == DefaultMessage
  {
    assert "toString" !in ErrorMessages;
  }
}
