/**
 * Message composition: the three SMS templates of the notification handler
 * (backend/sms-function.js, lines 37-63), filled from a playdate row joined
 * with its organiser's profile.
 */
module Messages {
  import opened Text
  import opened Js

  /** The organiser's profile, joined to the playdate row through `profiles`. */
  datatype Organizer = Organizer(kidName: string, parentPhone: string)

  /** The fields of a `playdates` row the templates read; `profiles` is null when the join finds no profile. */
  datatype Playdate = Playdate(
    title: JsValue,
    date: string,
    time: string,
    location: JsValue,
    notes: JsValue,
    profiles: Option<Organizer>)

  const Confirmation := "confirmation"
  const Reminder := "reminder"
  const Update := "update"

  predicate Recognized(messageType: string)
  {
    messageType == Confirmation || messageType == Reminder || messageType == Update
  }

  // U+2705 white heavy check mark, U+1F514 bell, U+1F4E2 loudspeaker
  const ConfirmationHeading := "\U{2705} Playdate Confirmed!"
  const ReminderHeading := "\U{1F514} Reminder: Your playdate is tomorrow!"
  const UpdateHeading := "\U{1F4E2} Playdate Update:"

  /** The first line of the template chosen for a recognised type. */
  function Heading(messageType: string): string
    requires Recognized(messageType)
  {
    if messageType == Confirmation then ConfirmationHeading
    else if messageType == Reminder then ReminderHeading
    else UpdateHeading
  }

  const OptOutNotice := "Reply STOP to unsubscribe"
  const AttributionStart := "Organized by "
  const AttributionEnd := "'s family"
  const DefaultTitle := "Playdate"
  // U+1F4C5 calendar, U+1F4CD round pushpin, U+1F389 party popper
  const DatePrefix := "\U{1F4C5} "
  const LocationPrefix := "\U{1F4CD} "
  const ReminderClosing := "See you there! \U{1F389}"

  /** `playdate.title || 'Playdate'` */
  function TitleText(title: JsValue): string
  {
    if Truthy(title) then title.s else DefaultTitle
  }

  /** The nested template `${playdate.location ? `📍 ${playdate.location}` : ''}`. */
  function LocationText(location: JsValue): string
  {
    if Truthy(location) then Render([Quasi(LocationPrefix), Substitution(location.s)]) else ""
  }

  /**
   * The lines the confirmation and the reminder share (lines 42-44 and 51-53
   * of the source): the title, the date and time, and the location.
   */
  function TitleWhenWhere(heading: string, p: Playdate, formatDate: string -> string): seq<TemplatePart>
  {
    [ Quasi(heading + "\n\n"), Substitution(TitleText(p.title)),
      Quasi("\n" + DatePrefix), Substitution(formatDate(p.date)),
      Quasi(" at "), Substitution(p.time),
      Quasi("\n"), Substitution(LocationText(p.location)) ]
  }

  /** The date line and the location line shared by the confirmation and the reminder. */
  function WhenWhere(p: Playdate, formatDate: string -> string): string
  {
    DatePrefix + formatDate(p.date) + " at " + p.time + "\n" + LocationText(p.location)
  }

  function ConfirmationParts(p: Playdate, organizer: Organizer, formatDate: string -> string): seq<TemplatePart>
  {
    TitleWhenWhere(ConfirmationHeading, p, formatDate) + ConfirmationClosing(organizer)
  }

  /** The attribution and opt-out lines that end a confirmation (lines 45-47). */
  function ConfirmationClosing(organizer: Organizer): seq<TemplatePart>
  {
    [ Quasi("\n\n" + AttributionStart), Substitution(organizer.kidName),
      Quasi(AttributionEnd + "\n" + OptOutNotice) ]
  }

  function ReminderParts(p: Playdate, formatDate: string -> string): seq<TemplatePart>
  {
    TitleWhenWhere(ReminderHeading, p, formatDate) + ReminderClosingParts()
  }

  /** The sign-off that ends a reminder (lines 54-55). */
  function ReminderClosingParts(): seq<TemplatePart>
  {
    [ Quasi("\n\n" + ReminderClosing) ]
  }

  function UpdateParts(p: Playdate, organizer: Organizer): seq<TemplatePart>
  {
    [ Quasi(UpdateHeading + "\n\n"), Substitution(TitleText(p.title)),
      Quasi("\n"), Substitution(Interpolate(p.notes)),
      Quasi("\n\nContact: "), Substitution(organizer.parentPhone) ]
  }

  /**
   * The template literal the handler evaluates for `messageType`; none for an
   * unrecognised type, whose message stays the initial empty string. Reading
   * `kid_name` or `parent_phone` from a null `profiles` throws a TypeError.
   */
  function Template(messageType: string, p: Playdate, formatDate: string -> string): Completion<seq<TemplatePart>>
  {
    if messageType == Confirmation then
      match p.profiles
      case None => Throw(NullPropertyError("kid_name"))
      case Some(organizer) => Normal(ConfirmationParts(p, organizer, formatDate))
    else if messageType == Reminder then
      Normal(ReminderParts(p, formatDate))
    else if messageType == Update then
      match p.profiles
      case None => Throw(NullPropertyError("parent_phone"))
      case Some(organizer) => Normal(UpdateParts(p, organizer))
    else
      Normal([])
  }

  /**
   * The SMS body for `messageType`. `formatDate` stands for the `en-US`
   * date rendering, whose result depends on the host's time zone; this model
   * leaves it abstract.
   */
  function Compose(messageType: string, p: Playdate, formatDate: string -> string): (c: Completion<string>)
    ensures !Recognized(messageType) ==> c == Normal("")
    ensures c.Throw? <==> (messageType == Confirmation || messageType == Update) && p.profiles.None?
    ensures c.Throw? ==> c.message == NullPropertyError(if messageType == Confirmation then "kid_name" else "parent_phone")
  {
    match Template(messageType, p, formatDate)
    case Throw(m) => Throw(m)
    case Normal(parts) => Normal(Render(parts))
  }

  /** A confirmation ends with the opt-out line and names the organiser's family. */
  lemma ConfirmationCarriesOptOut(p: Playdate, formatDate: string -> string)
    requires p.profiles.Some?
    ensures Compose(Confirmation, p, formatDate).Normal?
    ensures EndsWith(Compose(Confirmation, p, formatDate).value, "\n" + OptOutNotice)
    ensures Contains(Compose(Confirmation, p, formatDate).value, AttributionStart + p.profiles.value.kidName + AttributionEnd)
  {
    var attribution := AttributionStart + p.profiles.value.kidName + AttributionEnd;
    var front := ConfirmationSplit(p, formatDate);
    ContainsInfix(front, attribution, "\n" + OptOutNotice);
    EndsWithAppend(front + attribution, "\n" + OptOutNotice);
  }

  /** Cuts a confirmation before its attribution line. */
  lemma ConfirmationSplit(p: Playdate, formatDate: string -> string) returns (front: string)
    requires p.profiles.Some?
    ensures Compose(Confirmation, p, formatDate)
         == Normal(front + (AttributionStart + p.profiles.value.kidName + AttributionEnd) + ("\n" + OptOutNotice))
  {
    var kid := p.profiles.value.kidName;
    var lead := TitleWhenWhere(ConfirmationHeading, p, formatDate);
    assert Compose(Confirmation, p, formatDate) == Normal(Render(lead + ConfirmationClosing(p.profiles.value)));
    RenderEndsWithThree(lead, Quasi("\n\n" + AttributionStart), Substitution(kid), Quasi(AttributionEnd + "\n" + OptOutNotice));
    assert AttributionEnd + "\n" + OptOutNotice == AttributionEnd + ("\n" + OptOutNotice);
    AttributionRegroup(Render(lead), "\n\n", AttributionStart, kid, AttributionEnd, "\n" + OptOutNotice);
    front := Render(lead) + "\n\n";
  }

  /** The body of a recognised type is its heading, a blank line and the title line, in that order. */
  lemma TitleLine(messageType: string, p: Playdate, formatDate: string -> string)
    requires Recognized(messageType) && Compose(messageType, p, formatDate).Normal?
    ensures Truthy(p.title) ==> Heading(messageType) + "\n\n" + p.title.s + "\n" <= Compose(messageType, p, formatDate).value
    ensures !Truthy(p.title) ==> Heading(messageType) + "\n\n" + DefaultTitle + "\n" <= Compose(messageType, p, formatDate).value
  {
    var top := Heading(messageType) + "\n\n" + TitleText(p.title) + "\n";
    var rest := AfterTitle(messageType, p, formatDate);
    assert top <= top + rest;
  }

  /** Splits a recognised body after its title line. */
  lemma AfterTitle(messageType: string, p: Playdate, formatDate: string -> string) returns (rest: string)
    requires Recognized(messageType) && Compose(messageType, p, formatDate).Normal?
    ensures Compose(messageType, p, formatDate).value
         == Heading(messageType) + "\n\n" + TitleText(p.title) + "\n" + rest
    ensures messageType == Confirmation ==> rest == WhenWhere(p, formatDate) + Render(ConfirmationClosing(p.profiles.value))
    ensures messageType == Reminder ==> rest == WhenWhere(p, formatDate) + Render(ReminderClosingParts())
    ensures messageType == Update ==> rest == Interpolate(p.notes) + "\n\nContact: " + p.profiles.value.parentPhone
  {
    if messageType == Update {
      var organizer := p.profiles.value;
      assert Compose(messageType, p, formatDate) == Normal(Render(UpdateParts(p, organizer)));
      RenderSix(Quasi(UpdateHeading + "\n\n"), Substitution(TitleText(p.title)),
                Quasi("\n"), Substitution(Interpolate(p.notes)),
                Quasi("\n\nContact: "), Substitution(organizer.parentPhone));
      rest := Interpolate(p.notes) + "\n\nContact: " + organizer.parentPhone;
    } else if messageType == Confirmation {
      var organizer := p.profiles.value;
      var tail := ConfirmationClosing(organizer);
      assert Compose(messageType, p, formatDate)
          == Normal(Render(TitleWhenWhere(ConfirmationHeading, p, formatDate) + tail));
      rest := SharedLinesThen(ConfirmationHeading, p, formatDate, tail);
    } else {
      var tail := ReminderClosingParts();
      assert Compose(messageType, p, formatDate)
          == Normal(Render(TitleWhenWhere(ReminderHeading, p, formatDate) + tail));
      rest := SharedLinesThen(ReminderHeading, p, formatDate, tail);
    }
  }

  /** The shared lines followed by the rest of a template. */
  lemma SharedLinesThen(heading: string, p: Playdate, formatDate: string -> string, tail: seq<TemplatePart>)
    returns (rest: string)
    ensures rest == WhenWhere(p, formatDate) + Render(tail)
    ensures Render(TitleWhenWhere(heading, p, formatDate) + tail)
         == heading + "\n\n" + TitleText(p.title) + "\n" + rest
  {
    RenderAppend(TitleWhenWhere(heading, p, formatDate), tail);
    SharedLines(heading, p, formatDate);
    rest := WhenWhere(p, formatDate) + Render(tail);
  }

  /**
   * A confirmation or a reminder carries the date line `📅 <date> at <time>`,
   * followed by the location line, which is `📍 <location>` for a truthy
   * location and empty otherwise.
   */
  lemma DateAndLocationLines(messageType: string, p: Playdate, formatDate: string -> string)
    requires messageType == Confirmation || messageType == Reminder
    requires Compose(messageType, p, formatDate).Normal?
    ensures Truthy(p.location) ==> Contains(Compose(messageType, p, formatDate).value,
      "\n" + DatePrefix + formatDate(p.date) + " at " + p.time + "\n" + LocationPrefix + p.location.s + "\n")
    ensures !Truthy(p.location) ==> Contains(Compose(messageType, p, formatDate).value,
      "\n" + DatePrefix + formatDate(p.date) + " at " + p.time + "\n" + "\n")
  {
    WhenWhereLines(messageType, p, formatDate);
    var location := LocationText(p.location);
    var when := "\n" + DatePrefix + formatDate(p.date) + " at " + p.time + "\n";
    DateLocationRegroup("\n", DatePrefix, formatDate(p.date), " at ", p.time, "\n", location, "\n");
    assert "\n" + WhenWhere(p, formatDate) + "\n" == when + location + "\n";
    if Truthy(p.location) {
      assert location == LocationPrefix + p.location.s by {
        RenderTwo(Quasi(LocationPrefix), Substitution(p.location.s));
      }
      assert when + location + "\n" == when + LocationPrefix + p.location.s + "\n";
    } else {
      assert when + location + "\n" == when + "\n";
    }
  }

  /** The shared date and location lines stand on lines of their own. */
  lemma WhenWhereLines(messageType: string, p: Playdate, formatDate: string -> string)
    requires messageType == Confirmation || messageType == Reminder
    requires Compose(messageType, p, formatDate).Normal?
    ensures Contains(Compose(messageType, p, formatDate).value, "\n" + WhenWhere(p, formatDate) + "\n")
  {
    var rest := AfterTitle(messageType, p, formatDate);
    var more := ClosingStartsOnNewLine(messageType, p);
    var front := Heading(messageType) + "\n\n" + TitleText(p.title);
    var lines := "\n" + WhenWhere(p, formatDate) + "\n";
    WhenWhereRegroup(front, WhenWhere(p, formatDate), more);
    ContainsInfix(front, lines, more);
  }

  /** No fixed text of `parts` holds the character `c`. */
  predicate FixedTextLacks(parts: seq<TemplatePart>, c: char)
  {
    forall part | part in parts && part.Quasi? :: c !in part.text
  }

  /**
   * Fixed text without a capital O can hold neither the opt-out notice nor
   * the "Organized by" attribution.
   */
  lemma WithoutOptOutOrAttribution(parts: seq<TemplatePart>)
    requires FixedTextLacks(parts, 'O')
    ensures forall part | part in parts && part.Quasi? ::
      !Contains(part.text, OptOutNotice) && !Contains(part.text, AttributionStart)
  {
    assert OptOutNotice[8] == 'O' && AttributionStart[0] == 'O';
    forall part | part in parts && part.Quasi?
      ensures !Contains(part.text, OptOutNotice) && !Contains(part.text, AttributionStart)
    {
      ContainedCharsOccur(part.text, OptOutNotice, 'O');
      ContainedCharsOccur(part.text, AttributionStart, 'O');
    }
  }

  /**
   * A reminder always renders, reads nothing of the organiser, and its fixed
   * text carries neither the opt-out notice nor the organiser attribution.
   */
  lemma ReminderOmitsOptOutAndOrganizer(p: Playdate, formatDate: string -> string, other: Option<Organizer>)
    ensures Template(Reminder, p, formatDate).Normal?
    ensures Compose(Reminder, p.(profiles := other), formatDate) == Compose(Reminder, p, formatDate)
    ensures forall part | part in Template(Reminder, p, formatDate).value && part.Quasi? ::
      !Contains(part.text, OptOutNotice) && !Contains(part.text, AttributionStart)
  {
    var parts := ReminderParts(p, formatDate);
    assert Template(Reminder, p, formatDate) == Normal(parts);
    SharedLinesLackCapitalO(ReminderHeading, p, formatDate);
    assert FixedTextLacks(ReminderClosingParts(), 'O');
    FixedTextLacksAppend(TitleWhenWhere(ReminderHeading, p, formatDate), ReminderClosingParts(), 'O');
    WithoutOptOutOrAttribution(parts);
  }

  /**
   * An update renders whenever the organiser's profile is present, and does
   * not depend on the date, the time, the location or the date format.
   */
  lemma UpdateIgnoresDateAndLocation(p: Playdate, formatDate: string -> string,
                                     date: string, time: string, location: JsValue, otherFormat: string -> string)
    requires p.profiles.Some?
    ensures Compose(Update, p, formatDate).Normal?
    ensures Compose(Update, p.(date := date, time := time, location := location), otherFormat) == Compose(Update, p, formatDate)
  {
  }

  /** The fixed text of an update carries neither the opt-out notice nor an attribution. */
  lemma UpdateOmitsOptOut(p: Playdate, formatDate: string -> string)
    requires p.profiles.Some?
    ensures Template(Update, p, formatDate).Normal?
    ensures forall part | part in Template(Update, p, formatDate).value && part.Quasi? ::
      !Contains(part.text, OptOutNotice) && !Contains(part.text, AttributionStart)
  {
    var parts := UpdateParts(p, p.profiles.value);
    assert Template(Update, p, formatDate) == Normal(parts);
    assert FixedTextLacks(parts, 'O');
    WithoutOptOutOrAttribution(parts);
  }

  /**
   * An update carries the notes on a line of their own (`null` when the row
   * has none) and ends with the organiser's phone number.
   */
  lemma UpdateCarriesNotesAndContact(p: Playdate, formatDate: string -> string)
    requires p.profiles.Some?
    ensures Compose(Update, p, formatDate).Normal?
    ensures Contains(Compose(Update, p, formatDate).value, "\n" + Interpolate(p.notes) + "\n")
    ensures p.notes == Null ==> Contains(Compose(Update, p, formatDate).value, "\nnull\n")
    ensures EndsWith(Compose(Update, p, formatDate).value, "\nContact: " + p.profiles.value.parentPhone)
  {
    var rest := AfterTitle(Update, p, formatDate);
    var front := Heading(Update) + "\n\n" + TitleText(p.title);
    var notes := "\n" + Interpolate(p.notes) + "\n";
    var contact := "\nContact: " + p.profiles.value.parentPhone;
    assert "\n\nContact: " == "\n" + "\nContact: ";
    NotesContactRegroup(front, Interpolate(p.notes), "\nContact: ", p.profiles.value.parentPhone);
    assert Compose(Update, p, formatDate).value == front + notes + contact;
    ContainsInfix(front, notes, contact);
    EndsWithAppend(front + notes, contact);
    if p.notes == Null {
      assert notes == "\nnull\n";
    }
  }

  /** Joining two runs of parts keeps their fixed text free of `c`. */
  lemma FixedTextLacksAppend(a: seq<TemplatePart>, b: seq<TemplatePart>, c: char)
    requires FixedTextLacks(a, c) && FixedTextLacks(b, c)
    ensures FixedTextLacks(a + b, c)
  {
    forall part | part in a + b && part.Quasi? ensures c !in part.text {
      assert part in a || part in b;
    }
  }

  /** The fixed text of the shared lines has no capital O besides what the heading brings. */
  lemma SharedLinesLackCapitalO(heading: string, p: Playdate, formatDate: string -> string)
    requires 'O' !in heading
    ensures FixedTextLacks(TitleWhenWhere(heading, p, formatDate), 'O')
  {
    assert 'O' !in "\n" + DatePrefix;
  }

  /** The closing of a confirmation or a reminder begins with a line break. */
  lemma ClosingStartsOnNewLine(messageType: string, p: Playdate) returns (more: string)
    requires messageType == Confirmation || messageType == Reminder
    requires messageType == Confirmation ==> p.profiles.Some?
    ensures Render(if messageType == Confirmation then ConfirmationClosing(p.profiles.value) else ReminderClosingParts())
         == "\n" + more
  {
    if messageType == Confirmation {
      var closing := ConfirmationClosing(p.profiles.value);
      RenderThree(closing[0], closing[1], closing[2]);
      more := "\n" + AttributionStart + p.profiles.value.kidName + (AttributionEnd + "\n" + OptOutNotice);
    } else {
      assert ReminderClosingParts()[1..] == [];
      more := "\n" + ReminderClosing;
    }
  }

  /** The text of the lines the confirmation and the reminder share. */
  lemma SharedLines(heading: string, p: Playdate, formatDate: string -> string)
    ensures Render(TitleWhenWhere(heading, p, formatDate))
         == heading + "\n\n" + TitleText(p.title) + "\n" + WhenWhere(p, formatDate)
  {
    RenderEight(Quasi(heading + "\n\n"), Substitution(TitleText(p.title)),
                Quasi("\n" + DatePrefix), Substitution(formatDate(p.date)),
                Quasi(" at "), Substitution(p.time),
                Quasi("\n"), Substitution(LocationText(p.location)));
  }

  // Regroupings of string concatenations. Stated over abstract strings, they
  // spare the solver from unfolding the templates' literal text.

  /** Cuts a confirmation's closing parts around its attribution line (used by `ConfirmationSplit`). */
  lemma AttributionRegroup(r: string, a: string, b: string, k: string, c: string, t: string)
    ensures r + ((a + b) + k + (c + t)) == (r + a) + (b + k + c) + t
  {
  }

  /** Isolates the shared date and location lines between line breaks (used by `WhenWhereLines`). */
  lemma WhenWhereRegroup(front: string, middle: string, back: string)
    ensures front + "\n" + (middle + ("\n" + back)) == front + ("\n" + middle + "\n") + back
  {
  }

  /** Opens up the date and location lines into their pieces (used by `DateAndLocationLines`). */
  lemma DateLocationRegroup(a: string, b: string, c: string, d: string, e: string, f: string, g: string, h: string)
    ensures a + (b + c + d + e + f + g) + h == a + b + c + d + e + f + g + h
  {
  }

  /** Isolates an update's notes line and its contact line (used by `UpdateCarriesNotesAndContact`). */
  lemma NotesContactRegroup(front: string, notes: string, contact: string, phone: string)
    ensures front + "\n" + (notes + ("\n" + contact) + phone) == front + ("\n" + notes + "\n") + (contact + phone)
  {
  }
}
