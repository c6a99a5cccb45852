/**
  The user-data system prompt: who the user is (their address), where they are, what device they
  use and their Farcaster profile, each section present only when its data is.
 */
module UserData {
  import opened Wrappers
  import opened Js
  import opened ValidateChatUser

  /** `${x}` for a `string | null`. */
  function Interpolated(x: Option<string>): (r: string)
    ensures x.Some? ==> r == x.value
    ensures x.None? ==> r == "null"
  {
    if x.Some? then x.value else "null"
  }

  /** `!x` for a `string | null`. */
  predicate Blank(x: Option<string>) {
    x.None? || x.value == ""
  }

  /** The address sentence. */
  function AddressLine(address: string): (r: string)
    ensures address != "" ==> r == "The address of the user is " + address + ". "
    ensures address == "" ==> r == "The user is not logged in. "
  {
    if address != "" then "The address of the user is " + address + ". " else "The user is not logged in. "
  }

  const LocationAdvice :=
    " from geolocation. If the user is not in the US or English speaking country, feel free to ask questions in their "
    + "language. At the start, you may want to ask user which language they prefer in conversation with you. In the same "
    + "message do not ask more questions - let the user first pick the language. Do not mention you know the city - it "
    + "may be not accurate."

  /** getLocationPrompt: empty exactly when city, country and region are all blank. */
  function GetLocationPrompt(user: ChatUser): (r: string)
    ensures r == "" <==> Blank(user.city) && Blank(user.country) && Blank(user.countryRegion)
    ensures r != "" ==>
      r == "### Language and location\n\nHere is the user's location: " + Interpolated(user.city) + ", "
           + Interpolated(user.country) + ", " + Interpolated(user.countryRegion) + LocationAdvice
  {
    if Blank(user.city) && Blank(user.country) && Blank(user.countryRegion) then ""
    else
      "### Language and location\n\nHere is the user's location: " + Interpolated(user.city) + ", "
      + Interpolated(user.country) + ", " + Interpolated(user.countryRegion) + LocationAdvice
  }

  const UserAgentAdvice :=
    ". If the user is on mobile, you should be incredibly concise and to the point. They do not have a lot of time or "
    + "space to read, so you must be incredibly concise and keep your questions and responses to them short in as few "
    + "words as possible, unless they ask for clarification or it's otherwise necessary."

  /** getUserAgentPrompt: empty exactly when the user agent is blank. */
  function GetUserAgentPrompt(user: ChatUser): (r: string)
    ensures r == "" <==> Blank(user.userAgent)
    ensures r != "" ==> r == "### User agent\n\nHere is the user agent: " + user.userAgent.value + UserAgentAdvice
  {
    if Blank(user.userAgent) then ""
    else "### User agent\n\nHere is the user agent: " + user.userAgent.value + UserAgentAdvice
  }

  const NoFarcasterAccount :=
    "The user has no Farcaster account connected to the address. Please prompt them to verify their address by to "
    + "click their profile picture in the top right corner of the app."

  const ProfileAdvice :=
    ". You may learn something about the user from this information.\n\n    In context of Farcaster account please "
    + "refer to the 'username' field (@username), not 'displayName'."

  /** getFarcasterProfilePrompt: the no-account notice for a missing profile, else the profile's JSON. */
  function GetFarcasterProfilePrompt(json: JsonCodec, profile: Value): (r: Result<string>)
    ensures !Truthy(profile) ==> r == Ok(NoFarcasterAccount)
    ensures Truthy(profile) && json.stringify(profile).None? ==> r.Err?
    ensures Truthy(profile) && json.stringify(profile).Some? ==>
      r == Ok("Here is the user's Farcaster profile: " + json.stringify(profile).value + ProfileAdvice)
  {
    if !Truthy(profile) then Ok(NoFarcasterAccount)
    else match json.stringify(profile)
      case None => Err("JSON.stringify failed")
      case Some(text) => Ok("Here is the user's Farcaster profile: " + text + ProfileAdvice)
  }

  /**
    getUserDataPrompt, given the profile `getFarcasterProfileByAddress(user.address)` resolved to:
    the four sections in order, each on its own indented line.
   */
  function GetUserDataPrompt(json: JsonCodec, user: ChatUser, profile: Value): (r: Result<string>)
    ensures r.Ok? <==> GetFarcasterProfilePrompt(json, profile).Ok?
    ensures r.Ok? ==>
      r.value == "## User data\n\n  " + AddressLine(user.address) + "\n\n  " + GetLocationPrompt(user) + "\n\n  "
                 + GetUserAgentPrompt(user) + "\n\n  " + GetFarcasterProfilePrompt(json, profile).value + "\n  "
  {
    match GetFarcasterProfilePrompt(json, profile)
    case Err(e) => Err(e)
    case Ok(farcaster) =>
      Ok("## User data\n\n  " + AddressLine(user.address) + "\n\n  " + GetLocationPrompt(user) + "\n\n  "
         + GetUserAgentPrompt(user) + "\n\n  " + farcaster + "\n  ")
  }

  /** A user with only a city still gets the location section, with the missing parts as "null". */
  lemma CityAloneLocates(address: string, city: string)
    requires city != ""
    ensures var p := GetLocationPrompt(ChatUser(address, Some(city), None, None, None));
      p != "" && p == "### Language and location\n\nHere is the user's location: " + city + ", null, null" + LocationAdvice
  {
  }
}
