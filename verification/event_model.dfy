/**
 * The event record of the in-memory event service: its status enumeration, the stored
 * record, the public projection, and the validation rules applied to a create request
 * and to a requested status change.
 *
 * Times are carried as `Instant`s: the ISO 8601 text the client sent together with the
 * millisecond value that `new Date(text)` gives it. Parsing itself is external; where the
 * service parses raw request text, the parser is a parameter that answers None for an
 * unparsable string (an "Invalid Date"). The clock is a parameter `now`, in milliseconds.
 */
module EventModel {
  import opened Wrappers
  import opened Text

  datatype Status = DRAFT | PUBLISHED | CANCELLED

  /** The enumeration's string value. */
  function StatusName(s: Status): string {
    match s
    case DRAFT => "DRAFT"
    case PUBLISHED => "PUBLISHED"
    case CANCELLED => "CANCELLED"
  }

  /** Membership of a request string in the enumeration's values. */
  function StatusFromText(t: string): (r: Option<Status>)
    ensures r.Some? <==> t == "DRAFT" || t == "PUBLISHED" || t == "CANCELLED"
    ensures r.Some? ==> StatusName(r.value) == t
  {
    if t == "DRAFT" then Some(DRAFT)
    else if t == "PUBLISHED" then Some(PUBLISHED)
    else if t == "CANCELLED" then Some(CANCELLED)
    else None
  }

  lemma StatusNameRoundTrip(s: Status)
    ensures StatusFromText(StatusName(s)) == Some(s)
  {
  }

  /** An ISO 8601 timestamp as sent, with the instant it denotes in milliseconds since the epoch. */
  datatype Instant = Instant(text: string, millis: int)

  /**
   * A stored event. `status` is None when a PATCH without a status overwrote it with
   * `undefined`; optional text fields are None when absent.
   */
  datatype Event = Event(
    id: string,
    title: string,
    startAt: Instant,
    endAt: Instant,
    location: string,
    status: Option<Status>,
    internalNotes: Option<string>,
    createdBy: Option<string>,
    updatedAt: string)

  /** The redacted view served to unauthenticated callers: no notes, creator or last-modified time. */
  datatype PublicEvent = PublicEvent(
    id: string,
    title: string,
    startAt: Instant,
    endAt: Instant,
    location: string,
    status: Status,
    isUpcoming: bool)

  /** A create request as received; each optional field is None when the body omits it. */
  datatype CreateEventInput = CreateEventInput(
    title: string,
    startAt: string,
    endAt: string,
    location: string,
    status: Option<string>,
    internalNotes: Option<string>,
    createdBy: Option<string>)

  /** JavaScript truthiness of an optional string: present and non-empty. */
  predicate Truthy(o: Option<string>) {
    o.Some? && o.value != ""
  }

  const TITLE_EMPTY := "Title cannot be empty"
  const TITLE_TOO_LONG := "Title cannot exceed 200 characters"
  const MAX_TITLE_LENGTH := 200
  const START_INVALID := "startAt must be a valid ISO 8601 datetime"
  const END_INVALID := "endAt must be a valid ISO 8601 datetime"
  const START_NOT_BEFORE_END := "startAt must be before endAt"
  const START_IN_PAST := "Events cannot start in the past"
  const STATUS_INVALID := "Status must be one of: DRAFT, PUBLISHED, CANCELLED"
  const DRAFT_ONLY := "DRAFT events can only transition to PUBLISHED or CANCELLED"
  const PUBLISHED_ONLY := "PUBLISHED events can only transition to CANCELLED"
  const CANCELLED_FINAL := "CANCELLED events cannot be modified"
  const LOCATION_EMPTY := "Location cannot be empty"
  const EMAIL_INVALID := "createdBy must be a valid email address"

  function ValidateTitle(title: string): (errors: seq<string>) {
    (if title == "" || Trim(title) == "" then [TITLE_EMPTY] else [])
    + (if |title| > MAX_TITLE_LENGTH then [TITLE_TOO_LONG] else [])
  }

  /** A title passes iff it is not all white space and has at most 200 characters; a blank title gets the "empty" error. */
  lemma TitleRule(title: string)
    ensures ValidateTitle(title) == [] <==> !AllSpace(title) && |title| <= MAX_TITLE_LENGTH
    ensures TITLE_EMPTY in ValidateTitle(title) <==> AllSpace(title)
    ensures TITLE_TOO_LONG in ValidateTitle(title) <==> |title| > MAX_TITLE_LENGTH
  {
    TrimEmptyIffAllSpace(title);
  }

  function ValidateDates(startAt: string, endAt: string, parse: string -> Option<int>, now: int): (errors: seq<string>) {
    var start, end := parse(startAt), parse(endAt);
    (if start.None? then [START_INVALID] else [])
    + (if end.None? then [END_INVALID] else [])
    + (if start.Some? && end.Some? then
         (if start.value >= end.value then [START_NOT_BEFORE_END] else [])
         + (if start.value < now then [START_IN_PAST] else [])
       else [])
  }

  /**
   * Once both times parse, ordering and "in the past" are judged on the instants; a start
   * exactly at `now` is not in the past. The dates pass iff both parse, start < end and start >= now.
   */
  lemma DatesRule(startAt: string, endAt: string, parse: string -> Option<int>, now: int)
    ensures var errors := ValidateDates(startAt, endAt, parse, now);
      && (START_INVALID in errors <==> parse(startAt).None?)
      && (END_INVALID in errors <==> parse(endAt).None?)
      && (parse(startAt).Some? && parse(endAt).Some? ==>
            && (START_NOT_BEFORE_END in errors <==> parse(startAt).value >= parse(endAt).value)
            && (START_IN_PAST in errors <==> parse(startAt).value < now))
      && (errors == [] <==>
            parse(startAt).Some? && parse(endAt).Some?
            && parse(startAt).value < parse(endAt).value && now <= parse(startAt).value)
  {
  }

  function ValidateStatus(status: string): (errors: seq<string>)
    ensures errors == [] <==> StatusFromText(status).Some?
    ensures errors != [] ==> errors == [STATUS_INVALID]
  {
    if StatusFromText(status).None? then [STATUS_INVALID] else []
  }

  /**
   * The status-transition rule of the in-memory service. `current` is None when the stored
   * status is undefined, and then no branch of the rule applies.
   */
  function ValidateStatusTransition(current: Option<Status>, requested: Status): (errors: seq<string>) {
    (if current == Some(DRAFT) && requested != PUBLISHED && requested != CANCELLED then [DRAFT_ONLY] else [])
    + (if current == Some(PUBLISHED) && requested != CANCELLED then [PUBLISHED_ONLY] else [])
    + (if current == Some(CANCELLED) then [CANCELLED_FINAL] else [])
  }

  /** The whitelist: the only transitions the lifecycle permits. */
  predicate AllowedTransition(from: Status, to: Status) {
    || (from == DRAFT && to == PUBLISHED)
    || (from == DRAFT && to == CANCELLED)
    || (from == PUBLISHED && to == CANCELLED)
  }

  /**
   * The rule accepts exactly the three whitelisted pairs and answers every other pair,
   * self-transitions included, with exactly one message; from CANCELLED nothing is accepted.
   */
  lemma TransitionWhitelist(from: Status, to: Status)
    ensures ValidateStatusTransition(Some(from), to) == [] <==> AllowedTransition(from, to)
    ensures !AllowedTransition(from, to) ==> |ValidateStatusTransition(Some(from), to)| == 1
    ensures from == CANCELLED ==> ValidateStatusTransition(Some(from), to) == [CANCELLED_FINAL]
    ensures ValidateStatusTransition(Some(from), from) != []
  {
  }

  /** With no stored status the rule reports nothing, whatever is requested. */
  lemma TransitionFromUndefined(to: Status)
    ensures ValidateStatusTransition(None, to) == []
  {
  }

  /** No white space and no `@`: the character class `[^\s@]`, repeated at least once. */
  predicate EmailAtom(s: string) {
    |s| > 0 && forall i :: 0 <= i < |s| ==> !IsSpace(s[i]) && s[i] != '@'
  }

  /** `e` matches the pattern with its `@` at index `at` and the separating dot at index `dot`. */
  predicate EmailSplitAt(e: string, at: int, dot: int) {
    && 0 < at && at + 1 < dot < |e| - 1 && e[at] == '@' && e[dot] == '.'
    && EmailAtom(e[..at]) && EmailAtom(e[at + 1..dot]) && EmailAtom(e[dot + 1..])
  }

  /** The regular expression `^[^\s@]+@[^\s@]+\.[^\s@]+$`, read as the split points where it matches. */
  ghost predicate MatchesEmailPattern(e: string) {
    exists at, dot :: EmailSplitAt(e, at, dot)
  }

  /** A dot with at least one character on each side. */
  predicate HasInnerDot(d: string) {
    exists k :: 0 < k < |d| - 1 && d[k] == '.'
  }

  predicate NoSpaceOrAt(s: string) {
    forall i :: 0 <= i < |s| ==> !IsSpace(s[i]) && s[i] != '@'
  }

  /** The creator e-mail check: one `@` with a non-empty local part, and a domain holding an inner dot. */
  predicate IsValidEmail(e: string) {
    match IndexOf(e, '@')
    case None => false
    case Some(at) => at > 0 && NoSpaceOrAt(e[..at]) && NoSpaceOrAt(e[at + 1..]) && HasInnerDot(e[at + 1..])
  }

  /** The check agrees with the regular expression on every string, both ways. */
  lemma EmailCheckMatchesPattern(e: string)
    ensures IsValidEmail(e) <==> MatchesEmailPattern(e)
  {
    if IsValidEmail(e) {
      EmailCheckSound(e);
    }
    if MatchesEmailPattern(e) {
      var at, dot :| EmailSplitAt(e, at, dot);
      EmailCheckComplete(e, at, dot);
    }
  }

  lemma EmailCheckSound(e: string)
    requires IsValidEmail(e)
    ensures EmailSplitAt(e, IndexOf(e, '@').value, IndexOf(e, '@').value + 1 + EmailDot(e[IndexOf(e, '@').value + 1..]))
  {
    var at := IndexOf(e, '@').value;
    var d := e[at + 1..];
    var dot := at + 1 + EmailDot(d);
    assert e[at + 1..dot] == d[..dot - at - 1];
    assert e[dot + 1..] == d[dot - at..];
  }

  /** The index of an inner dot of a domain that has one. */
  ghost function EmailDot(d: string): (k: nat)
    requires HasInnerDot(d)
    ensures 0 < k < |d| - 1 && d[k] == '.'
  {
    var k :| 0 < k < |d| - 1 && d[k] == '.'; k
  }

  lemma EmailCheckComplete(e: string, at: int, dot: int)
    requires EmailSplitAt(e, at, dot)
    ensures IsValidEmail(e)
  {
    assert '@' !in e[..at];
    FirstIndex(e, '@', at);
    var d := e[at + 1..];
    assert d == e[at + 1..dot] + ['.'] + e[dot + 1..];
    assert d[dot - at - 1] == '.';
    assert NoSpaceOrAt(d);
  }

  lemma FirstIndex(s: string, c: char, i: nat)
    requires i < |s| && s[i] == c && c !in s[..i]
    ensures IndexOf(s, c) == Some(i)
  {
    var j := IndexOf(s, c).value;
    assert forall k :: 0 <= k < i ==> s[..i][k] == s[k];
    assert forall k :: 0 <= k < j ==> s[..j][k] == s[k];
  }

  function ValidateCreateEvent(input: CreateEventInput, parse: string -> Option<int>, now: int): (errors: seq<string>) {
    ValidateTitle(input.title)
    + ValidateDates(input.startAt, input.endAt, parse, now)
    + LocationErrors(input.location)
    + StatusErrors(input.status)
    + CreatorErrors(input.createdBy)
  }

  function LocationErrors(location: string): (errors: seq<string>) {
    if location == "" || Trim(location) == "" then [LOCATION_EMPTY] else []
  }

  function CreatorErrors(createdBy: Option<string>): (errors: seq<string>) {
    if Truthy(createdBy) && !IsValidEmail(createdBy.value) then [EMAIL_INVALID] else []
  }

  /** A create request passes iff each check passes; status and creator are judged only when given. */
  lemma CreateRule(input: CreateEventInput, parse: string -> Option<int>, now: int)
    ensures ValidateCreateEvent(input, parse, now) == [] <==>
      && ValidateTitle(input.title) == []
      && ValidateDates(input.startAt, input.endAt, parse, now) == []
      && !AllSpace(input.location)
      && (Truthy(input.status) ==> StatusFromText(input.status.value).Some?)
      && (Truthy(input.createdBy) ==> MatchesEmailPattern(input.createdBy.value))
  {
    TrimEmptyIffAllSpace(input.location);
    if Truthy(input.createdBy) {
      EmailCheckMatchesPattern(input.createdBy.value);
    }
  }

  /** The status errors of a create request: judged only when a status is given. */
  function StatusErrors(status: Option<string>): (errors: seq<string>)
    ensures !Truthy(status) ==> errors == []
  {
    if Truthy(status) then ValidateStatus(status.value) else []
  }

  /**
   * The errors come title first, then dates, location, status and e-mail, each group in its
   * own order; so the first error reported belongs to the first check that fails.
   */
  lemma CreateErrorOrder(input: CreateEventInput, parse: string -> Option<int>, now: int)
    ensures var errors := ValidateCreateEvent(input, parse, now);
      var t := ValidateTitle(input.title);
      var d := ValidateDates(input.startAt, input.endAt, parse, now);
      var l := LocationErrors(input.location);
      var st := StatusErrors(input.status);
      var c := CreatorErrors(input.createdBy);
      && |errors| == |t| + |d| + |l| + |st| + |c|
      && errors[..|t|] == t
      && errors[|t|..|t| + |d|] == d
      && errors[|t| + |d|..|t| + |d| + |l|] == l
      && errors[|t| + |d| + |l|..|t| + |d| + |l| + |st|] == st
      && errors[|t| + |d| + |l| + |st|..] == c
      && (t != [] ==> errors[0] == t[0])
      && (t == [] && d != [] ==> errors[0] == d[0])
      && (t == [] && d == [] && l != [] ==> errors[0] == LOCATION_EMPTY)
      && (t == [] && d == [] && l == [] && st != [] ==> errors[0] == st[0])
      && (t == [] && d == [] && l == [] && st == [] && c != [] ==> errors[0] == EMAIL_INVALID)
  {
    var t := ValidateTitle(input.title);
    var d := ValidateDates(input.startAt, input.endAt, parse, now);
    var l := LocationErrors(input.location);
    var st := StatusErrors(input.status);
    var c := CreatorErrors(input.createdBy);
    ConcatParts(t, d, l, st, c);
  }

  /** Where each of five concatenated parts sits, and which part supplies the first element. */
  lemma ConcatParts<T>(a: seq<T>, b: seq<T>, c: seq<T>, d: seq<T>, e: seq<T>)
    ensures var x := a + b + c + d + e;
      && |x| == |a| + |b| + |c| + |d| + |e|
      && x[..|a|] == a
      && x[|a|..|a| + |b|] == b
      && x[|a| + |b|..|a| + |b| + |c|] == c
      && x[|a| + |b| + |c|..|a| + |b| + |c| + |d|] == d
      && x[|a| + |b| + |c| + |d|..] == e
      && (a != [] ==> x[0] == a[0])
      && (a == [] && b != [] ==> x[0] == b[0])
      && (a == [] && b == [] && c != [] ==> x[0] == c[0])
      && (a == [] && b == [] && c == [] && d != [] ==> x[0] == d[0])
      && (a == [] && b == [] && c == [] && d == [] && e != [] ==> x[0] == e[0])
  {
    var x := a + b + c + d + e;
    assert x[|a|..] == b + c + d + e;
    assert x[|a| + |b|..] == c + d + e;
    assert x[|a| + |b| + |c|..] == d + e;
  }

  /** Strictly after `now`. */
  predicate IsUpcoming(startAt: Instant, now: int) {
    startAt.millis > now
  }

  predicate IsPublicStatus(s: Option<Status>) {
    s == Some(PUBLISHED) || s == Some(CANCELLED)
  }

  function ToPublicEvent(e: Event, now: int): (r: Option<PublicEvent>)
    ensures r.None? <==> !IsPublicStatus(e.status)
    ensures r.Some? ==> Some(r.value.status) == e.status && r.value.status != DRAFT
    ensures r.Some? ==> (r.value.isUpcoming <==> e.startAt.millis > now)
    ensures r.Some? ==> (r.value.id == e.id && r.value.title == e.title && r.value.location == e.location
      && r.value.startAt == e.startAt && r.value.endAt == e.endAt)
  {
    if e.status != Some(PUBLISHED) && e.status != Some(CANCELLED) then None
    else Some(PublicEvent(e.id, e.title, e.startAt, e.endAt, e.location, e.status.value, IsUpcoming(e.startAt, now)))
  }
}
