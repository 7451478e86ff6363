/** One phone of a batch: the per-item outcome of the external lookup and the
    `SearchResult` record the task appends for it (telegram_bot.py:62-71,
    131-208). The network calls themselves are not modelled; what they
    returned or raised is given as an `Outcome`. */
module Lookup {
  import opened Basics
  import opened Phone
  import opened Decimal

  /** What `get_profile_photos(contact.id, limit=1)` did: returned a list of
      `count` photos, or raised (any exception is swallowed). */
  datatype PhotoQuery = Listed(count: nat) | QueryFailed

  /** The entity returned by `get_entity`; `hasPhoto` is the truthiness of
      `contact.photo`, `photos` what the photo query would do if asked. */
  datatype Contact = Contact(
    id: int,
    username: Option<string>,
    firstName: Option<string>,
    lastName: Option<string>,
    hasPhoto: bool,
    photos: PhotoQuery)

  /** How the lookup of one cleaned phone ended. */
  datatype Outcome =
    | Resolved(contact: Contact)  // get_entity returned
    | Unresolved                  // get_entity raised ValueError
    | FloodWait(seconds: nat)     // FloodWaitError with e.seconds
    | Raised(message: string)     // any other exception, str(e)

  /** The include_* flags of a search request. */
  datatype Fields = Fields(includeUsername: bool, includeName: bool, includePhoto: bool)

  datatype SearchResult = SearchResult(
    phone: string,
    telegramId: Option<int>,
    username: Option<string>,
    firstName: Option<string>,
    lastName: Option<string>,
    photo: Option<bool>,
    found: bool,
    error: Option<string>,
    accountUsed: string)

  /** Which branch of the loop body an item takes. */
  datatype Path = Invalid | LookedUp | FloodWaited | Failed

  const InvalidPhoneError: string := "Invalid phone number"

  function FloodWaitError(seconds: nat): string {
    "Flood wait: " + NatToString(seconds) + " seconds"
  }

  /** A not-found record: every optional field at its default. */
  function Miss(phone: string, account: string, error: Option<string>): SearchResult {
    SearchResult(phone, None, None, None, None, None, false, error, account)
  }

  function PathOf(phone: string, outcome: Outcome): (p: Path)
    ensures p == Invalid <==> NoDigit(phone)
    ensures p == LookedUp <==> !NoDigit(phone) && (outcome.Resolved? || outcome.Unresolved?)
    ensures p == FloodWaited <==> !NoDigit(phone) && outcome.FloodWait?
    ensures p == Failed <==> !NoDigit(phone) && outcome.Raised?
  {
    if Digits(phone) == [] then Invalid
    else match outcome
      case Resolved(_) => LookedUp
      case Unresolved => LookedUp
      case FloodWait(_) => FloodWaited
      case Raised(_) => Failed
  }

  /** The `photo` field of a found record. */
  function PhotoFlag(fields: Fields, c: Contact): (photo: Option<bool>)
    ensures !fields.includePhoto <==> photo == None
    ensures photo == Some(true) <==> fields.includePhoto && c.hasPhoto && c.photos.Listed? && c.photos.count > 0
  {
    if !fields.includePhoto then None
    else if c.hasPhoto then
      match c.photos
      case Listed(count) => Some(count > 0)
      case QueryFailed => Some(false)
    else Some(false)
  }

  /** The record appended for one phone. */
  function ItemResult(account: string, fields: Fields, phone: string, outcome: Outcome): (r: SearchResult)
    // every branch keeps the caller's phone string, not the cleaned one
    ensures r.phone == phone && r.accountUsed == account
    ensures r.found <==> PathOf(phone, outcome) == LookedUp && outcome.Resolved?
    // a phone without digits is never looked up
    ensures NoDigit(phone) ==> r == Miss(phone, account, Some(InvalidPhoneError))
    ensures r.found ==> r.telegramId == Some(outcome.contact.id) && r.error == None
    ensures r.found ==> r.username == (if fields.includeUsername then outcome.contact.username else None)
    ensures r.found ==> r.firstName == (if fields.includeName then outcome.contact.firstName else None)
    ensures r.found ==> r.lastName == (if fields.includeName then outcome.contact.lastName else None)
    ensures r.found ==> r.photo == PhotoFlag(fields, outcome.contact)
    ensures r.found ==> (r.photo == None <==> !fields.includePhoto)
    ensures r.found && fields.includePhoto && outcome.contact.photos.QueryFailed? ==> r.photo == Some(false)
    // every miss carries no identity fields
    ensures !r.found ==> r == Miss(phone, account, r.error)
    ensures PathOf(phone, outcome) == LookedUp && outcome.Unresolved? ==> r.error == None
    ensures PathOf(phone, outcome) == FloodWaited ==> r.error == Some(FloodWaitError(outcome.seconds))
    ensures PathOf(phone, outcome) == Failed ==> r.error == Some(outcome.message)
  {
    match PathOf(phone, outcome)
    case Invalid => Miss(phone, account, Some(InvalidPhoneError))
    case LookedUp =>
      if outcome.Resolved? then
        var c := outcome.contact;
        SearchResult(
          phone,
          Some(c.id),
          if fields.includeUsername then c.username else None,
          if fields.includeName then c.firstName else None,
          if fields.includeName then c.lastName else None,
          PhotoFlag(fields, c),
          true,
          None,
          account)
      else Miss(phone, account, None)
    case FloodWaited => Miss(phone, account, Some(FloodWaitError(outcome.seconds)))
    case Failed => Miss(phone, account, Some(outcome.message))
  }

  /** The flood-wait message names the wait, and different waits give
      different messages. */
  lemma FloodWaitErrorInjective(m: nat, n: nat)
    requires FloodWaitError(m) == FloodWaitError(n)
    ensures m == n
  {
    var pre := "Flood wait: ";
    var post := " seconds";
    assert FloodWaitError(m)[|pre|..|FloodWaitError(m)| - |post|] == NatToString(m);
    assert FloodWaitError(n)[|pre|..|FloodWaitError(n)| - |post|] == NatToString(n);
    NatToStringInjective(m, n);
  }
}
