/** The records the application keeps as JSON text in browser storage, and
    the JSON library itself as an input: `JSON.stringify` and `JSON.parse`
    are not modelled, a `JsonCodec` stands for them. */
module Json {
  import opened Js

  /** A user record as the backend returns it. Missing properties are `None`. */
  datatype User = User(
    id: Option<string>,
    name: Option<string>,
    email: Option<string>,
    companyId: Option<string>,
    firstname: Option<string>,
    lastname: Option<string>,
    avatarUrl: Option<string>)

  /** The profile the OAuth callback stages for the registration form. */
  datatype GoogleUserData = GoogleUserData(
    email: Option<string>,
    firstname: Option<string>,
    lastname: Option<string>,
    picture: Option<string>,
    sub: Option<string>)

  /** What `JSON.parse` did with a stored text: it threw, it produced a
      falsy value (`null`, `false`, `0`, `""`), or it produced an object. */
  datatype Parsed<T> = Threw | Falsy | Value(value: T)

  /** `JSON.stringify` and `JSON.parse` for the two record types. */
  datatype JsonCodec = JsonCodec(
    stringifyUser: User -> string,
    parseUser: string -> Parsed<User>,
    stringifyGoogle: GoogleUserData -> string,
    parseGoogle: string -> Parsed<GoogleUserData>)

  /** `JSON.parse(localStorage.getItem(key))` guarded by the truthiness test
      the callers apply first: an absent or empty text reads as falsy. */
  function ParseStored<T>(text: Option<string>, parse: string -> Parsed<T>): (r: Parsed<T>)
    ensures !TruthyOpt(text) ==> r == Falsy
    ensures TruthyOpt(text) ==> r == parse(text.value)
  {
    if TruthyOpt(text) then parse(text.value) else Falsy
  }
}
