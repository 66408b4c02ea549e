/**
 * `getContextualResponse`: the keyword rule engine that maps the user's text,
 * the active section and the booking state to the assistant's reply. The
 * reply is `None` where the JavaScript yields `undefined`.
 */
module Responder {
  import opened Wrappers
  import opened Text
  import opened Booking

  /** The four keys of the per-section response table. */
  datatype Section = Transport | Accommodation | Tourism | Guide

  function SectionName(k: Section): string {
    match k
    case Transport => "transport"
    case Accommodation => "accommodation"
    case Tourism => "tourism"
    case Guide => "guide"
  }

  /** The table entry a section name selects; any other name (such as "manual") selects none. */
  function SectionOf(name: string): Option<Section> {
    if name == "transport" then Some(Transport)
    else if name == "accommodation" then Some(Accommodation)
    else if name == "tourism" then Some(Tourism)
    else if name == "guide" then Some(Guide)
    else None
  }

  const TransportHelp := "I can help you book transport tickets. Would you like to search for trains, planes, or buses?"
  const AccommodationHelp := "I can help you find the perfect place to stay. Are you interested in hotels, lodges, or camps?"
  const TourismHelp := "Looking to book tickets for tourist attractions? I can help you find the best spots!"
  const GuideHelp := "Need travel guidance? I can provide tips about your destination."

  const TransportSuggest := "Based on popular routes, I can suggest some travel options. Would you like to see them?"
  const AccommodationSuggest := "I can show you our top-rated accommodations in your desired location."
  const TourismSuggest := "Would you like to see popular attractions at your destination?"
  const GuideSuggest := "I can share local insights, safety tips, and cultural information."

  function HelpText(k: Section): string {
    match k
    case Transport => TransportHelp
    case Accommodation => AccommodationHelp
    case Tourism => TourismHelp
    case Guide => GuideHelp
  }

  function SuggestText(k: Section): string {
    match k
    case Transport => TransportSuggest
    case Accommodation => AccommodationSuggest
    case Tourism => TourismSuggest
    case Guide => GuideSuggest
  }

  /**
   * An entry of the response table, or the fallback. `ReplyText` gives its
   * exact wording; the greeting is the line the chat log opens with.
   */
  datatype Reply =
    | Greeting
    | HelpFor(k: Section)
    | TransportForm(missing: string)
    | AccommodationForm(missing: string)
    | SuggestFor(k: Section)
    | Fallback(section: string)

  function ReplyText(r: Reply): string {
    match r
    case Greeting => "Hello! How can I help you with your travel plans today?"
    case HelpFor(k) => HelpText(k)
    case TransportForm(missing) => "I notice you haven't filled in the " + missing + ". Would you like help with that?"
    case AccommodationForm(missing) => "To complete your accommodation booking, I notice you need to fill in " + missing
    case SuggestFor(k) => SuggestText(k)
    case Fallback(section) => "I see you're in the " + section + " section. How can I assist you with " + section + "?"
  }

  /** One row of the response table; only transport and accommodation have a `fillForm` entry. */
  datatype SectionResponses = SectionResponses(help: Reply, fillForm: Option<Reply>, suggest: Reply)

  function Responses(k: Section, b: BookingDetails): SectionResponses {
    match k
    case Transport => SectionResponses(HelpFor(k), Some(TransportForm(MissingTransportFields(b.transport))), SuggestFor(k))
    case Accommodation =>
      SectionResponses(HelpFor(k), Some(AccommodationForm(MissingAccommodationFields(b.accommodation))), SuggestFor(k))
    case Tourism => SectionResponses(HelpFor(k), None, SuggestFor(k))
    case Guide => SectionResponses(HelpFor(k), None, SuggestFor(k))
  }

  /** The keyword that decides the reply; the first of help, book, suggest that occurs wins. */
  datatype Keyword = Help | Book | Suggest | NoKeyword

  function Classify(lowered: string): Keyword {
    if Contains(lowered, "help") then Help
    else if Contains(lowered, "book") then Book
    else if Contains(lowered, "suggest") then Suggest
    else NoKeyword
  }

  /** The rule engine: which table entry answers the text, if any. */
  function Respond(input: string, section: string, b: BookingDetails): Option<Reply> {
    var entry := SectionOf(section);
    match Classify(ToLower(input))
    case Help => if entry.Some? then Some(Responses(entry.value, b).help) else None
    case Book => if entry.Some? then Responses(entry.value, b).fillForm else None
    case Suggest => if entry.Some? then Some(Responses(entry.value, b).suggest) else None
    case NoKeyword => Some(Fallback(section))
  }

  /** `getContextualResponse(input, section)` over the booking state its checkers read. */
  function Resolve(input: string, section: string, b: BookingDetails): Option<string> {
    match Respond(input, section, b)
    case None => None
    case Some(r) => Some(ReplyText(r))
  }

  // ------------------------------------------------------------ properties

  /**
   * Help has the highest priority and is found in any case and anywhere: for
   * each of the four sections, text containing some casing of "help" selects
   * that section's help entry, even when it also contains "book" or "suggest".
   */
  lemma HelpEntry(p: string, w: string, q: string, k: Section, b: BookingDetails)
    requires ToLower(w) == "help"
    ensures Respond(p + w + q, SectionName(k), b) == Some(HelpFor(k))
  {
    ToLowerConcat(p + w, q);
    ToLowerConcat(p, w);
    ContainsInside(ToLower(p), "help", ToLower(q));
  }

  /** The same in words: such text gets exactly the section's fixed help string. */
  lemma HelpReply(p: string, w: string, q: string, k: Section, b: BookingDetails)
    requires ToLower(w) == "help"
    ensures Resolve(p + w + q, SectionName(k), b) == Some(HelpText(k))
  {
    HelpEntry(p, w, q, k, b);
  }

  /**
   * Book beats suggest: text containing some casing of "book" and no "help"
   * selects the section's fillForm entry, which only transport and
   * accommodation have.
   */
  lemma BookEntry(p: string, w: string, q: string, section: string, b: BookingDetails)
    requires ToLower(w) == "book"
    requires !Contains(ToLower(p + w + q), "help")
    ensures Respond(p + w + q, section, b) ==
      match SectionOf(section)
      case Some(Transport) => Some(TransportForm(MissingTransportFields(b.transport)))
      case Some(Accommodation) => Some(AccommodationForm(MissingAccommodationFields(b.accommodation)))
      case _ => None
  {
    ToLowerConcat(p + w, q);
    ToLowerConcat(p, w);
    ContainsInside(ToLower(p), "book", ToLower(q));
  }

  /**
   * With departure, destination and date all filled in, "book" in transport
   * still selects the transport form, now with an empty list of fields.
   */
  lemma TransportFilledEmptyClause(p: string, w: string, q: string, b: BookingDetails)
    requires ToLower(w) == "book"
    requires !Contains(ToLower(p + w + q), "help")
    requires b.transport.from != "" && b.transport.to != "" && b.transport.date != ""
    ensures Respond(p + w + q, "transport", b) == Some(TransportForm(""))
  {
    BookEntry(p, w, q, "transport", b);
    MissingTransportTextEmpty(b.transport);
  }

  /** The same in words: the transport or accommodation template around the missing-field text, else no reply. */
  lemma BookReply(p: string, w: string, q: string, section: string, b: BookingDetails)
    requires ToLower(w) == "book"
    requires !Contains(ToLower(p + w + q), "help")
    ensures Resolve(p + w + q, section, b) ==
      match SectionOf(section)
      case Some(Transport) =>
        Some("I notice you haven't filled in the " + MissingTransportFields(b.transport) + ". Would you like help with that?")
      case Some(Accommodation) =>
        Some("To complete your accommodation booking, I notice you need to fill in " + MissingAccommodationFields(b.accommodation))
      case _ => None
  {
    BookEntry(p, w, q, section, b);
    match SectionOf(section)
    case Some(Transport) =>
    case Some(Accommodation) =>
    case _ =>
  }

  /** Text with "suggest" but neither "help" nor "book" gets the section's suggestion. */
  lemma SuggestReply(p: string, w: string, q: string, k: Section, b: BookingDetails)
    requires ToLower(w) == "suggest"
    requires !Contains(ToLower(p + w + q), "help") && !Contains(ToLower(p + w + q), "book")
    ensures Respond(p + w + q, SectionName(k), b) == Some(SuggestFor(k))
    ensures Resolve(p + w + q, SectionName(k), b) == Some(SuggestText(k))
  {
    ToLowerConcat(p + w, q);
    ToLowerConcat(p, w);
    ContainsInside(ToLower(p), "suggest", ToLower(q));
  }

  /** Text with none of the keywords gets the fallback that names the section, for any section value. */
  lemma DefaultReplyNamesSection(input: string, section: string, b: BookingDetails)
    requires !Contains(ToLower(input), "help") && !Contains(ToLower(input), "book") && !Contains(ToLower(input), "suggest")
    ensures Resolve(input, section, b) ==
      Some("I see you're in the " + section + " section. How can I assist you with " + section + "?")
  {
  }

  /**
   * There is no reply exactly when a keyword matched and the section has no
   * table entry, or when "book" decided the reply in tourism or guide.
   */
  lemma NoReplyIff(input: string, section: string, b: BookingDetails)
    ensures Resolve(input, section, b) == None <==>
      (Classify(ToLower(input)) != NoKeyword && SectionOf(section) == None) ||
      (Classify(ToLower(input)) == Book && SectionOf(section) in {Some(Tourism), Some(Guide)})
  {
  }

  /** Case does not matter: lowering the text first gives the same reply. */
  lemma CaseInsensitive(input: string, section: string, b: BookingDetails)
    ensures Resolve(ToLower(input), section, b) == Resolve(input, section, b)
  {
    ToLowerIdempotent(input);
    assert Respond(ToLower(input), section, b) == Respond(input, section, b);
  }

  /**
   * The reply reads the booking only through departure, destination and date
   * of transport and location and check-in of accommodation.
   */
  lemma ResolveReadsCheckedFieldsOnly(input: string, section: string, b: BookingDetails, c: BookingDetails)
    requires b.transport.from == c.transport.from && b.transport.to == c.transport.to && b.transport.date == c.transport.date
    requires b.accommodation.location == c.accommodation.location && b.accommodation.checkIn == c.accommodation.checkIn
    ensures Resolve(input, section, b) == Resolve(input, section, c)
  {
    assert MissingTransportFields(b.transport) == MissingTransportFields(c.transport);
    assert MissingAccommodationFields(b.accommodation) == MissingAccommodationFields(c.accommodation);
    assert Respond(input, section, b) == Respond(input, section, c);
  }

  /** "please book now" contains "book" and no "help": the book rule decides. */
  lemma PleaseBookNowIsBook(input: string)
    requires input == "please book now"
    ensures Classify(ToLower(input)) == Book
  {
    assert ToLower(input) == input by { ToLowerOfLowerCase(input); }
    assert !Contains(input, "help") by { LetterAbsent(input, "help", 0); }
    assert Contains(input, "book") by {
      assert input == "please " + "book" + " now";
      ContainsInside("please ", "book", " now");
    }
  }

  /** "please book now" in transport, departure and date missing: the transport form listing exactly those two labels. */
  lemma PleaseBookNowExample(input: string, b: BookingDetails)
    requires input == "please book now"
    requires b.transport.from == "" && b.transport.to == "Paris" && b.transport.date == ""
    ensures Respond(input, "transport", b) == Some(TransportForm("departure location, travel date"))
  {
    PleaseBookNowIsBook(input);
    MissingTransportExample(b.transport);
  }

  /** "book this" contains "book" and no "help": the book rule decides. */
  lemma BookThisIsBook(input: string)
    requires input == "book this"
    ensures Classify(ToLower(input)) == Book
  {
    assert ToLower(input) == input by { ToLowerOfLowerCase(input); }
    assert !Contains(input, "help") by { LetterAbsent(input, "help", 1); }
    assert Contains(input, "book") by {
      assert input == "" + "book" + " this";
      ContainsInside("", "book", " this");
    }
  }

  /** "book this" with location and check-in filled: still the accommodation form, with an empty list. */
  lemma AccommodationFilledExample(input: string, b: BookingDetails)
    requires input == "book this"
    requires b.accommodation.location != "" && b.accommodation.checkIn != ""
    ensures Respond(input, "accommodation", b) == Some(AccommodationForm(""))
  {
    BookThisIsBook(input);
    MissingAccommodationTextEmpty(b.accommodation);
  }
}
