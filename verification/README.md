# Travel assistant chat: a Dafny model

The travel booking page (`IntegratedTravelPlatform`) embeds a chat assistant.
The assistant answers free text with a keyword rule engine that looks at the
section the user is in (transport, accommodation, tourism or guide) and at the
booking form. This project models that rule engine and the chat session around
it:

- `Text`: the string primitives the code relies on. These are `toLowerCase`
  (only as far as keyword matching can observe it), `includes`, `trim` (with
  ECMAScript's exact white-space set) and `join(', ')`, plus a splitter that
  undoes the join.
- `Booking`: the `bookingDetails` record and the transport input setters. It
  also holds the two form-completion checkers, modelled as one generic
  "collect the labels of empty fields, in order" walk over a fixed field list.
- `Responder`: `getContextualResponse`. It is a per-section response table and
  a first-match keyword classifier (help, then book, then suggest), with a
  fallback that names the section.
  - `Respond` picks the table entry as a `Reply` value, or `None` where the
    JavaScript yields `undefined`.
  - `ReplyText` gives each entry's exact wording.
  - `Resolve` (the function itself) is `ReplyText` applied to `Respond`'s
    choice, so it returns `Option<string>`.
  - The properties are stated at both levels. The entry-level lemmas are the
    ones the chat session builds on.
- `Chat`: the session state (`messages`, `isLoading`, `inputText`,
  `activeSection`, `bookingDetails`) as the class `ChatSession`.
  - `handleSend` becomes `Send`.
  - The `setTimeout` callback becomes an explicit `FireReply` step over a FIFO
    queue of pending replies.
  - `handleQuickAction` becomes `QuickAction`.
  - The log records each assistant entry as the table entry it answered with.
    `MessageText` renders it with `ReplyText`.
  - The class invariant ties the log to the replies: user entries are the
    submitted texts, and the assistant entries after the greeting are the
    answers to the fired replies, in order.

Behaviour of the code that a reader may not expect, kept as written:

- A scheduled reply is computed from the text, section and booking captured
  when `handleSend` ran. The callback closes over that render's values, so a
  section switch before the reply fires has no effect on it.
  `Chat.ReplyUsesSubmissionSection` exhibits this.
- `handleSend` never looks at `isLoading`. A second message sent while a reply
  is pending is logged and gets its own reply. The first reply to fire turns the
  typing indicator off while the second is still pending
  (`Chat.SecondSendWhileWaiting`).
- "book" in tourism or guide, and any keyword in a section without a table
  entry (the "manual" tab), give `undefined`, not the fallback text. The
  assistant entry is then logged with no text.
- The "guide" quick action does not exist: `handleQuickAction` ignores
  everything but transport, accommodation and tourism.

## Model

| member | source | states |
|---|---|---|
| `Text.ToLower` | prodeghackathon.js:50 | no contract of its own; `ToLowerConcat` and `ToLowerIdempotent` state it; it lowers ASCII capitals and the Kelvin sign, every character on its own |
| `Text.Contains` | prodeghackathon.js:75-80 | no contract of its own; `ContainsIffOccurs` equates it with "occurs at some index", and `ContainsInside` and `LetterAbsent` follow |
| `Text.ToLowerConcat` | prodeghackathon.js:50 | lowering works character by character, so it distributes over concatenation |
| `Text.ToLowerIdempotent` | prodeghackathon.js:50 | lowering already-lowered text changes nothing |
| `Text.ContainsIffOccurs` | prodeghackathon.js:75-80 | `includes` holds exactly when the keyword occurs at some index of the text |
| `Text.ContainsInside` | prodeghackathon.js:75-80 | the keyword test is unanchored: the keyword is found whatever text surrounds it |
| `Text.LetterAbsent` | prodeghackathon.js:75-80 | a keyword with a letter the text lacks is not found |
| `Text.Trim` | prodeghackathon.js:105 | no contract of its own; it is `TrimEnd` after `TrimStart`, whose contracts state it, and `TrimEmptyIffBlank` says when it yields "" |
| `Text.TrimStart` | prodeghackathon.js:105 | the result is a suffix of the input, everything dropped is white space, and it does not start with white space |
| `Text.TrimEnd` | prodeghackathon.js:105 | the result is a prefix of the input, everything dropped is white space, and it does not end with white space |
| `Text.TrimEmptyIffBlank` | prodeghackathon.js:105 | `trim()` yields "" exactly when every character is white space |
| `Text.Join` | prodeghackathon.js:93 | no contract of its own; `SplitJoinRoundTrip` inverts it and `JoinEmptyIff` says when it yields "" |
| `Text.SplitJoinRoundTrip` | prodeghackathon.js:93 | a ", " join of non-empty, comma-free labels splits back into exactly those labels |
| `Text.JoinEmptyIff` | prodeghackathon.js:100 | joining non-empty labels gives "" exactly when there are none |
| `Booking.SetTransportField` | prodeghackathon.js:223-285 | a transport input takes the new value; every other transport field, accommodation and tourism keep theirs |
| `Booking.Missing` | prodeghackathon.js:89-92 | no contract of its own; the `push` walk over a fixed field list, stated by `MissingReportsEmptyFields` |
| `Booking.MissingReportsEmptyFields` | prodeghackathon.js:88-101 | a label is reported iff one of its fields is empty; the report keeps the fields' order; it is empty iff every field is filled |
| `Booking.TransportMissingLabels` | prodeghackathon.js:88-94 | "departure location", "destination", "travel date" are reported exactly when from, to, date are empty, at most once each and in that order |
| `Booking.AccommodationMissingLabels` | prodeghackathon.js:96-101 | "location" and "check-in date" are reported exactly when location and check-in are empty, in that order |
| `Booking.MissingTransportFields` | prodeghackathon.js:88-94 | no contract of its own; `TransportMissingLabels`, `MissingTransportTextEmpty`, `MissingTransportTextSplits` and `MissingTransportTextIgnores` state it |
| `Booking.MissingAccommodationFields` | prodeghackathon.js:96-101 | no contract of its own; `AccommodationMissingLabels`, `MissingAccommodationTextEmpty`, `MissingAccommodationTextSplits` and `MissingAccommodationTextIgnores` state it |
| `Booking.MissingTransportTextEmpty` | prodeghackathon.js:88-94 | the transport text is "" exactly when from, to and date are all set |
| `Booking.MissingTransportTextSplits` | prodeghackathon.js:93 | a non-empty transport text splits back at ", " into exactly the reported labels |
| `Booking.MissingTransportTextIgnores` | prodeghackathon.js:88-94 | type and passengers never affect the transport text |
| `Booking.MissingAccommodationTextEmpty` | prodeghackathon.js:96-101 | the accommodation text is "" exactly when location and check-in are set |
| `Booking.MissingAccommodationTextSplits` | prodeghackathon.js:100 | a non-empty accommodation text splits back at ", " into exactly the reported labels |
| `Booking.MissingAccommodationTextIgnores` | prodeghackathon.js:96-101 | type, check-out, rooms and guests never affect the accommodation text |
| `Booking.MissingTransportExample` | prodeghackathon.js:88-94 | from and date empty, to "Paris": the report is "departure location, travel date" |
| `Responder.ReplyText` | prodeghackathon.js:53-84 | no contract of its own; the exact wording of each table entry, of the fallback and of the greeting; `HelpReply`, `BookReply`, `SuggestReply` and `DefaultReplyNamesSection` state the strings |
| `Responder.Classify` | prodeghackathon.js:75-81 | no contract of its own; the first of help, book, suggest that the lowered text contains; `HelpEntry`, `BookEntry`, `SuggestReply` and `NoReplyIff` state its priority |
| `Responder.Respond` | prodeghackathon.js:49-85 | no contract of its own; `HelpEntry`, `BookEntry`, `TransportFilledEmptyClause`, `SuggestReply`, `CaseInsensitive` and `ResolveReadsCheckedFieldsOnly` state it case by case |
| `Responder.Resolve` | prodeghackathon.js:49-85 | no contract of its own; `HelpReply`, `BookReply`, `SuggestReply`, `DefaultReplyNamesSection` and `NoReplyIff` state it case by case |
| `Responder.HelpEntry` | prodeghackathon.js:75-76 | any casing of "help" anywhere in the text, in any of the four sections, selects that section's help entry, whatever other keywords occur |
| `Responder.HelpReply` | prodeghackathon.js:55-76 | the same in words: the reply is that section's fixed help string |
| `Responder.BookEntry` | prodeghackathon.js:77-78 | "book" (any case) without "help" selects the transport or accommodation form entry over the current missing-field text, and nothing in tourism, guide or an unknown section |
| `Responder.TransportFilledEmptyClause` | prodeghackathon.js:56 | with from, to and date all set, "book" in transport still selects the transport form, with an empty field list |
| `Responder.BookReply` | prodeghackathon.js:56-61 | the same in words: the transport or accommodation template around the missing-field text, else no reply |
| `Responder.SuggestReply` | prodeghackathon.js:57-80 | "suggest" without "help" or "book" selects the section's suggestion entry, whose wording is the section's fixed suggestion |
| `Responder.DefaultReplyNamesSection` | prodeghackathon.js:84 | text with none of the keywords gets "I see you're in the S section. How can I assist you with S?" for any section value S |
| `Responder.NoReplyIff` | prodeghackathon.js:64-81 | the reply is undefined exactly when a keyword matched in a section with no table entry, or "book" matched in tourism or guide |
| `Responder.CaseInsensitive` | prodeghackathon.js:50 | lowering the text beforehand does not change the reply |
| `Responder.ResolveReadsCheckedFieldsOnly` | prodeghackathon.js:53-101 | the reply depends on the booking only through transport from, to, date and accommodation location, check-in |
| `Responder.PleaseBookNowIsBook` | prodeghackathon.js:75-78 | "please book now" contains "book" and no "help", so the book rule decides |
| `Responder.PleaseBookNowExample` | prodeghackathon.js:88-94 | "please book now" in transport with from and date empty selects the transport form listing "departure location, travel date" |
| `Responder.BookThisIsBook` | prodeghackathon.js:75-78 | "book this" contains "book" and no "help", so the book rule decides |
| `Responder.AccommodationFilledExample` | prodeghackathon.js:61 | "book this" in accommodation with location and check-in set still selects the accommodation form, with an empty field list |
| `Chat.MessageText` | prodeghackathon.js:161 | no contract of its own; the text a log entry shows, stated for assistant entries by `BotTextIsResponse` |
| `Chat.BotTextIsResponse` | prodeghackathon.js:112-113 | an assistant entry shows exactly the string `getContextualResponse` returned, or no text for `undefined` |
| `Chat.IsBlank` | prodeghackathon.js:105 | no contract of its own; `!inputText.trim()`, which `TrimEmptyIffBlank` equates with "every character is white space" |
| `Chat.HelpIsNotBlank` | prodeghackathon.js:105 | any casing of "help" passes the blank check |
| `Chat.ChatSession.constructor` | prodeghackathon.js:10-40 | section "transport", empty booking, a log of one greeting, empty input, not loading, nothing pending |
| `Chat.ChatSession.SetInput` | prodeghackathon.js:189 | typing sets the input text and nothing else |
| `Chat.ChatSession.SelectTab` | prodeghackathon.js:303 | a tab sets the active section to its value, whatever it is, and nothing else |
| `Chat.ChatSession.EditTransport` | prodeghackathon.js:223-285 | a transport input edit changes only that field of the booking |
| `Chat.ChatSession.Send` | prodeghackathon.js:104-118 | blank input changes nothing; otherwise exactly one user entry with the untrimmed text is appended, loading goes on, the input is cleared and a reply over the current text, section and booking is queued; the log invariant is kept |
| `Chat.ChatSession.FireReply` | prodeghackathon.js:111-115 | the oldest queued reply appends exactly one assistant entry, its answer from what it captured, and loading goes off; earlier entries are untouched |
| `Chat.ChatSession.QuickAction` | prodeghackathon.js:121-135 | transport, accommodation and tourism set the section; any other action, "guide" included, leaves it; log and loading are untouched |
| `Chat.ReplyUsesSubmissionSection` | prodeghackathon.js:104-135 | "help" sent in transport, then the tourism button, then the reply: the logged reply is the transport help entry |
| `Chat.SecondSendWhileWaiting` | prodeghackathon.js:104-118 | two sends before a reply log the greeting, both user entries in order and then the first reply, answered from what it captured; loading is then off with one reply still pending |
| `Chat.SendThenReply` | prodeghackathon.js:104-118 | a send and its reply grow the log by exactly a user entry followed by the assistant entry the rule engine chose |

## Left out

- The JSX rendering is not modelled: the chat window, the transport form and the page layout (prodeghackathon.js:138-321). An `undefined` reply is kept as `None` in the log; how it renders is not modelled.
- The auto-scroll effect (prodeghackathon.js:44-46) is not modelled: it only touches the DOM.
- The 1000 ms delay of `setTimeout` is replaced by the explicit `FireReply` step. Timers fire in the order they were scheduled; wall-clock time is not modelled.
- The `isChatOpen` toggle (prodeghackathon.js:35, :147, :200) is not modelled. It never touches the chat logic.
- The imported UI components and icons (prodeghackathon.js:1-6) are foreign code.
- The source has no inputs for accommodation or tourism fields, so no setter exists for them. The checkers and the resolver are still stated for every booking value.
- `Text.ToLower` lower-cases only ASCII capitals and the Kelvin sign (U+212A, which `toLowerCase` maps to "k"). The only other character whose lower case holds an ASCII letter is U+0130, which `toLowerCase` turns into "i" and a combining dot; no keyword contains "i", so the model decides every keyword test as the code does. The lowered text is never shown.
- Strings are sequences of Unicode scalar values, not UTF-16 code units. Lone surrogates are not modelled.
