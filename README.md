# Trip planner form logic in Dafny

A model of the form state machines of a React Native trip planner, with
proofs of what each form promises. Three screens are modelled, each as a
Dafny class whose fields are the screen's state and whose methods are its
event handlers:

- `NewTrip` (`src/app/index.tsx`): the two-step new-trip wizard. Its gate
  checks the trimmed destination and both dates before moving on. It keeps a
  guest e-mail list with add and remove operations, one "which modal is open"
  value, and a label for the guest count.
- `Activities` (`src/app/trip/activities.tsx`): the new-activity form. It has
  a guard over three fields, a reset after success, a calendar modal that
  always returns to the form, and a clean-up of the hour field. A pure map
  turns the server's day buckets into list sections.
- `Details` (`src/app/trip/details.tsx`): the new-link form. It checks the
  URL first and then the title, and it resets its fields and its modal after
  a successful create.

`Strings` states the JavaScript string operations the handlers use: `trim`,
`length` in UTF-16 code units, `replace` with a string pattern (first
occurrence only), `${n}`, and ASCII `toLowerCase`. `Alerts` holds the message
box type, and `Wrappers` holds `Option`.

Some things do not belong to the screens and enter as parameters:

- The e-mail and URL validators are predicates `string -> bool`.
- The calendar's range ordering is a function `(DatesSelected, CalendarDay) -> DatesSelected`.
- The date library is a `DateFormat` record of three functions: day of month, weekday name, and clock text.
- Server and storage answers are `bool` or `Option` parameters.
- The clock is an integer `now`.

A handler that calls a server returns the request it would send. A handler
whose loading flag is written more than once returns the list of values
written to it, `creatingWrites`.

Four behaviours are easy to assume but are not in the code; the model
follows the code:

- Duplicate guests are found by exact string comparison. The input is
  lower-cased as it is typed, so two spellings that differ only in case
  collide. No case-insensitive comparison takes place.
- Activity sections are the server's day buckets, mapped one to one and in
  the server's order. The client neither sorts nor groups. A bucket without
  activities gives a section, and that section shows the "no activity" notice.
- A failed trip, activity or link create is only logged. No message is shown.
- "At least 4 characters" counts UTF-16 code units, as JavaScript's `length`
  does. A code point above U+FFFF counts twice.

## Model

| member | source | states |
|---|---|---|
| Strings.TrimStart | src/app/index.tsx:59 | drops leading whitespace; its properties are stated by `Strings.TrimStartFacts` |
| Strings.TrimEnd | src/app/index.tsx:59 | drops trailing whitespace; its properties are stated by `Strings.TrimEndFacts` |
| Strings.Trim | src/app/index.tsx:59-69 | `trim`, used at src/app/trip/details.tsx:39 and 42 too; its properties are stated by `Strings.TrimFacts`, `Strings.TrimStrips`, `Strings.TrimTrimmed` and `Strings.TrimIdempotent` |
| Strings.TrimStartFacts | src/app/index.tsx:59 | dropping leading whitespace leaves the suffix after a blank prefix, and that suffix does not start with whitespace |
| Strings.TrimEndFacts | src/app/index.tsx:59 | dropping trailing whitespace leaves the prefix before a blank suffix, and that prefix does not end with whitespace |
| Strings.TrimFacts | src/app/index.tsx:59-69 | `trim` leaves nothing exactly when the input is blank; what it leaves has no whitespace at either end |
| Strings.TrimParts | src/app/index.tsx:59 | the two halves of `trim` leave nothing exactly when the whole input was blank |
| Strings.BlankConcat | src/app/index.tsx:59 | two blank strings joined are blank |
| Strings.TrimStrips | src/app/trip/details.tsx:39-42 | trimming blank text + core + blank text gives back the core, when the core has no whitespace at either end |
| Strings.TrimTrimmed | src/app/trip/details.tsx:39-42 | a string with no whitespace at either end is its own trim |
| Strings.TrimIdempotent | src/app/index.tsx:59-69 | trimming twice equals trimming once |
| Strings.Utf16Length | src/app/index.tsx:59-69 | `length` is between the number of code points and twice that, and equals the number of code points iff none is above U+FFFF |
| Strings.FindFrom | src/app/trip/activities.tsx:192 | the index found is the first occurrence of the pattern at or after the start; no index means the pattern does not occur there |
| Strings.ReplaceFirst | src/app/trip/activities.tsx:96 | `replace` with a string pattern and a replacement without `$` swaps the first occurrence only, and without an occurrence it returns the input unchanged |
| Strings.NotOccursAt | src/app/trip/activities.tsx:96 | a pattern does not occur at a position that does not hold its first character |
| Strings.OccursAtChar | src/app/trip/activities.tsx:192 | a one-character pattern occurs exactly where that character stands |
| Strings.RemoveAbsentChar | src/app/trip/activities.tsx:192 | removing a character that does not occur changes nothing |
| Strings.RemoveFirstCharAt | src/app/trip/activities.tsx:192 | removing the first `c`, which stands at `i`, cuts out exactly position `i` |
| Strings.FirstIndexOfChar | src/app/trip/activities.tsx:192 | a character that occurs has a first position, and no earlier position holds it |
| Strings.RemoveFirstCharDropsOne | src/app/trip/activities.tsx:192 | removing the first `c` cuts out at most one position and keeps the rest in order |
| Strings.MultisetCut | src/app/trip/activities.tsx:192 | cutting out one position takes exactly that character out of the multiset |
| Strings.RemoveFirstCharMultiset | src/app/trip/activities.tsx:192 | removing the first `c` takes exactly one `c` out of the multiset of characters, if there is one |
| Strings.DigitChar | src/app/index.tsx:231 | a digit value below 10 maps to a decimal digit character |
| Strings.DigitValue | src/app/index.tsx:231 | a digit character has a value below 10 and maps back to itself |
| Strings.NatToDecimal | src/app/index.tsx:231 | `${n}` is non-empty, all decimal digits, and has no leading zero unless n is 0 |
| Strings.DecimalRoundTrip | src/app/index.tsx:231 | reading back the decimal text of n gives n |
| Strings.LeadingDigits | src/app/index.tsx:231 | the result is the longest prefix of the input made of digits |
| Strings.LeadingDigitsOf | src/app/index.tsx:231 | the digits in front of a non-digit are exactly the leading digits |
| Strings.LowerAscii | src/app/index.tsx:304 | an upper-case ASCII letter becomes the lower-case letter at the same place in the alphabet; every other character is kept |
| Strings.ToLowerAscii | src/app/index.tsx:304 | lower-casing keeps the length and lower-cases each character on its own |
| Strings.LowerAsciiSameUpToCase | src/app/index.tsx:304 | two characters that differ only in ASCII case lower-case to the same character |
| Strings.ToLowerAsciiSameUpToCase | src/app/index.tsx:304 | two strings that agree up to ASCII case, position by position, have the same lower case |
| Strings.LowerAsciiFixes | src/app/index.tsx:304 | lower-cased text has no upper-case ASCII letter, and a string is its own lower case iff it has none |
| NewTrip.HasBothDates | src/app/index.tsx:60-61 | both ends of the range are picked; used by `NewTrip.DecideNextStep` |
| NewTrip.DetailsComplete | src/app/index.tsx:58-69 | both dates picked and a trimmed destination of at least 4 code units; used by `NewTrip.DecideNextStep` |
| NewTrip.DecideNextStep | src/app/index.tsx:57-84 | missing fields iff the destination is blank or a date is unset; too short iff the fields are there but the trimmed destination has fewer than 4 code units; otherwise the first step moves on and the second asks for confirmation |
| NewTrip.NextStepAlert | src/app/index.tsx:63-83 | every outcome of the gate shows a message, except the move to the guests step |
| NewTrip.NextStepBlankExamples | src/app/index.tsx:58-67 | "", a blank destination and a missing end date are all missing fields |
| NewTrip.NextStepIgnoresBlanks | src/app/index.tsx:59-69 | blanks around the destination never change the gate's outcome |
| NewTrip.NextStepShortExample | src/app/index.tsx:69-74 | "NYC" with both dates is too short |
| NewTrip.NextStepCompleteExample | src/app/index.tsx:76-83 | "Paris" with both dates moves the first step on and asks for confirmation in the second |
| NewTrip.NextStepSurrogatePairExample | src/app/index.tsx:69 | two emoji above U+FFFF are four code units and so pass the length check |
| NewTrip.AddGuest | src/app/index.tsx:101-112 | an e-mail is appended at the end only when the validator accepts it and it is not yet in the list; the old list is a prefix and no other entry changes |
| NewTrip.AddGuestKeepsNoDuplicates | src/app/index.tsx:106-110 | an add never introduces a duplicate |
| NewTrip.AddGuestTwice | src/app/index.tsx:106-110 | adding the same e-mail a second time changes nothing |
| NewTrip.Without | src/app/index.tsx:95-99 | removal keeps exactly the entries different from the removed e-mail, and never makes the list longer |
| NewTrip.WithoutAbsent | src/app/index.tsx:95-99 | removing an e-mail that is not in the list leaves the list as it is |
| NewTrip.WithoutAppend | src/app/index.tsx:95-99 | removal works piece by piece, so the kept entries stay in order |
| NewTrip.WithoutEntry | src/app/index.tsx:95-99 | in a list without duplicates, removing entry k cuts out exactly that entry |
| NewTrip.WithoutKeepsInvariant | src/app/index.tsx:95-99 | removal keeps the list free of duplicates and of upper-case letters |
| NewTrip.GuestCountLabel | src/app/index.tsx:227-233 | the text of the guests field; its properties are stated by `NewTrip.GuestCountLabelReadsBack` |
| NewTrip.DateText | src/app/index.tsx:133-134 | the ISO text of a picked day, absent when the day is unset; used by `NewTrip.TripForm.CreateTrip` |
| NewTrip.GuestCountLabelReadsBack | src/app/index.tsx:227-233 | the label is "" iff there are no guests, otherwise the count in decimal with the singular for 1 and the plural for more, and the count reads back from it |
| NewTrip.TripForm.constructor | src/app/index.tsx:42-50 | the screen starts at the first step with no modal, no dates, empty fields and an empty list |
| NewTrip.TripForm.ChangeLocationAndDate | src/app/index.tsx:53-55 | back to the first step from any step |
| NewTrip.TripForm.HandleNextStepForm | src/app/index.tsx:57-84 | the outcome and message are those of the gate; only a move to the guests step changes the step, and nothing else changes |
| NewTrip.TripForm.SelectDate | src/app/index.tsx:86-93 | the range becomes what the ordering function makes of the old range and the pressed day |
| NewTrip.TripForm.RemoveEmail | src/app/index.tsx:95-99 | the list loses every entry equal to the e-mail and keeps the no-duplicate invariant |
| NewTrip.TripForm.HandleAddEmail | src/app/index.tsx:101-112 | a rejected e-mail shows "E-mail inválido!", a present one "E-mail já foi adicionado!", and both leave list and input as they are; otherwise the e-mail is appended and the input cleared |
| NewTrip.TripForm.CreateTrip | src/app/index.tsx:128-144 | sends destination as typed, the picked days and the guest list; on success the loading flag is written on once and the new id is what will be saved; on failure the flag is written on and then off |
| NewTrip.TripForm.SaveTrip | src/app/index.tsx:114-126 | a saved id navigates to "/trip/" + id and ends loading; a failed save shows its message and leaves the flag as it was |
| NewTrip.TripForm.EditDestination | src/app/index.tsx:187-192 | the destination takes the typed text only in the first step |
| NewTrip.TripForm.PressDatesInput | src/app/index.tsx:197-205 | the calendar opens only in the first step |
| NewTrip.TripForm.PressGuestsInput | src/app/index.tsx:210-225 | the guests field, which exists only in the second step, opens the guest list |
| NewTrip.TripForm.CloseModal | src/app/index.tsx:258-281 | closing either modal or confirming the calendar leaves no modal open |
| NewTrip.TripForm.EditEmailToInvite | src/app/index.tsx:301-305 | the typed e-mail is stored lower-cased |
| Activities.DayName | src/app/trip/activities.tsx:96 | the weekday name with its first "-feira" cut; stated by `Activities.DayNameCutsFeira` and `Activities.DayNameKeepsWeekend` |
| Activities.ToItem | src/app/trip/activities.tsx:98-103 | the row of one activity; stated by `Activities.ToItemsMatch` |
| Activities.ToItems | src/app/trip/activities.tsx:98-103 | the rows of one bucket; stated by `Activities.ToItemsMatch` and `Activities.PastStaysPast` |
| Activities.ToSection | src/app/trip/activities.tsx:93-104 | the section of one bucket; stated by `Activities.SectionOfDay` |
| Activities.ToSections | src/app/trip/activities.tsx:93-104 | the sections of the list; stated by `Activities.ToSectionsMatch`, `Activities.SectionOfDay` and `Activities.ToSectionsAppend` |
| Activities.ShowsEmptyNotice | src/app/trip/activities.tsx:146-150 | the header's "no activity" notice shows under a section without rows; stated by `Activities.EmptyNoticeExactly` |
| Activities.SanitizeHour | src/app/trip/activities.tsx:191-193 | the hour field's clean-up; stated by the `Activities.SanitizeHour…` lemmas below |
| Activities.DayNameCutsFeira | src/app/trip/activities.tsx:96 | a weekday name "<name>-feira" is shown as "<name>" |
| Activities.DayNameKeepsWeekend | src/app/trip/activities.tsx:96 | a weekday name without a hyphen is shown as it is |
| Activities.ToItemsMatch | src/app/trip/activities.tsx:98-103 | one row per activity in the same order, id and title copied, hour from the clock text, and past exactly when before `now` |
| Activities.ToSectionsMatch | src/app/trip/activities.tsx:93-104 | one section per day bucket, in the same order, each built from its own bucket |
| Activities.SectionOfDay | src/app/trip/activities.tsx:93-98 | section i has the day number and cut weekday name of bucket i, and as many rows as that bucket has activities |
| Activities.ToSectionsAppend | src/app/trip/activities.tsx:93-104 | concatenated answers give concatenated sections |
| Activities.EmptyNoticeExactly | src/app/trip/activities.tsx:146-150 | the "no activity" notice shows exactly under the days whose bucket is empty |
| Activities.PastStaysPast | src/app/trip/activities.tsx:102 | a row marked past stays past when read at a later time |
| Activities.SanitizeHourMultiset | src/app/trip/activities.tsx:191-193 | the clean-up takes out exactly one "." and one ",", when present, and no other character |
| Activities.SanitizeHourKeepsPlainText | src/app/trip/activities.tsx:191-193 | text without "." and "," is kept as typed |
| Activities.SanitizeHourKeepsOrder | src/app/trip/activities.tsx:191-193 | each of the two steps cuts at most one position, so the other characters keep their order |
| Activities.SanitizeHourSeparatorExamples | src/app/trip/activities.tsx:191-193 | "1.5" and "1,5" both become "15" |
| Activities.SanitizeHourFirstOnlyExample | src/app/trip/activities.tsx:191-193 | only the first "." goes: ".." becomes "." |
| Activities.ActivityForm.constructor | src/app/trip/activities.tsx:43-52 | the tab starts loading, with no modal, empty fields and no sections |
| Activities.ActivityForm.ResetNewActivityFields | src/app/trip/activities.tsx:54-58 | title, date and hour become "" |
| Activities.ActivityForm.GetTripActivities | src/app/trip/activities.tsx:87-113 | an answer replaces the sections by its mapping, a failure keeps them, and both loading flags go off |
| Activities.ActivityForm.HandleCreateTripActivity | src/app/trip/activities.tsx:60-85 | an empty field shows "Preencha todos os campos!", sends nothing and keeps the fields; otherwise the request carries the three fields, and on success the fields are reset and the list reloaded; the loading flag always ends off and the modal closed |
| Activities.ActivityForm.OpenNewActivityModal | src/app/trip/activities.tsx:125 | "New activity" opens the form |
| Activities.ActivityForm.CloseNewActivityModal | src/app/trip/activities.tsx:162 | closing the form leaves no modal open |
| Activities.ActivityForm.PressDateInput | src/app/trip/activities.tsx:180 | pressing the date field switches to the calendar |
| Activities.ActivityForm.SelectActivityDate | src/app/trip/activities.tsx:217 | the pressed day becomes the activity's date |
| Activities.ActivityForm.LeaveCalendarModal | src/app/trip/activities.tsx:213-222 | closing or confirming the calendar goes back to the form |
| Activities.ActivityForm.EditActivityTitle | src/app/trip/activities.tsx:169 | the title takes the typed text |
| Activities.ActivityForm.EditActivityHour | src/app/trip/activities.tsx:191-193 | the hour is the cleaned-up text, no longer than what was typed |
| Details.CheckLink | src/app/trip/details.tsx:39-44 | a bad trimmed URL is reported whatever the title; a good URL with a blank title is a bad title; otherwise the link is ready |
| Details.CheckAlert | src/app/trip/details.tsx:39-44 | a failed check always has a message and a passing one has none |
| Details.CheckLinkIgnoresUrlBlanks | src/app/trip/details.tsx:39 | blanks around the URL never change the outcome of the checks |
| Details.CheckLinkSeesTrimmedUrl | src/app/trip/details.tsx:39 | two URLs with the same trim get the same outcome |
| Details.LinkForm.constructor | src/app/trip/details.tsx:20-28 | the tab starts loading, not creating, with the modal closed, empty fields and no links |
| Details.LinkForm.ResetNewLinkFields | src/app/trip/details.tsx:31-35 | title and URL become "" and the modal closes |
| Details.LinkForm.HandleCreateTripLink | src/app/trip/details.tsx:37-59 | a failed check shows its message, sends nothing, changes no field and never sets the loading flag; otherwise the request carries title and URL as typed, and on success the fields are reset, the modal closed and the links reloaded; the flag always ends off |
| Details.LinkForm.GetTripLinks | src/app/trip/details.tsx:61-69 | an answer replaces the links and ends loading; a failure changes nothing |
| Details.LinkForm.OpenNewLinkModal | src/app/trip/details.tsx:112-115 | "Register new link" opens the modal |
| Details.LinkForm.CloseNewLinkModal | src/app/trip/details.tsx:142 | closing the modal closes it and keeps the fields |
| Details.LinkForm.EditLinkTitle | src/app/trip/details.tsx:148 | the title takes the typed text |
| Details.LinkForm.EditLinkUrl | src/app/trip/details.tsx:155 | the URL takes the typed text |

## Left out

- The calendar's range ordering (`calendarUtils`) is not part of this model. `NewTrip.TripForm.SelectDate` applies it as a parameter, and no rule of its own is assumed.
- The e-mail and URL validators are not part of this model. They are predicates passed to the handlers.
- Date formatting and clock reads (`dayjs`) are not modelled. Day number, weekday name and hour text come from `DateFormat`, and "now" is a parameter. The `occurs_at` instant is computed from date plus hour; the request only carries its inputs.
- Server and device-storage calls are not modelled. They are parameters saying whether the call succeeded and what it returned. The trip's ISO date strings are sent as picked, before date formatting.
- The startup flow that reloads a saved trip (`getTrip`, `isGettingTrip`) is a storage-and-navigation sequence. It is not modelled.
- Navigation is not modelled beyond the route `NewTrip.TripForm.SaveTrip` returns.
- Alert buttons and their callbacks are not modelled. "Yes" on the confirmation prompt is `CreateTrip`, and "Continue" on the success message is `SaveTrip`, called by the client in that order.
- Asynchrony is not modelled. Each handler runs to completion. In the link form the reload after a create is only signalled (`reloadLinks`), because it is not awaited.
- The participants list of the details tab only fetches and logs. It is not modelled.
- Rendering, styling, `Keyboard.dismiss` and logging are not modelled.
- NewTrip.TripForm.EditEmailToInvite: lower-cases ASCII letters only, because Dafny has no Unicode case mapping; other letters are kept as typed.
- Strings.ToLowerAscii: same restriction, for the same reason.
- The hour field's two-character limit is enforced by the text box and is not modelled. The contract of `Activities.ActivityForm.EditActivityHour` holds for text of any length.
- Which controls are on screen is not modelled, except for the guests field of the new-trip screen. So these handlers can be called in states where the screen would not show their control: the e-mail input and its buttons, `NewTrip.TripForm.EditEmailToInvite`, `NewTrip.TripForm.HandleAddEmail` and `NewTrip.TripForm.RemoveEmail`, which sit in the guest modal; the new-activity form's fields, `Activities.ActivityForm.EditActivityTitle`, `Activities.ActivityForm.EditActivityHour`, `Activities.ActivityForm.PressDateInput` and `Activities.ActivityForm.HandleCreateTripActivity`, which sit in its modal; `Activities.ActivityForm.SelectActivityDate`, which sits in the calendar modal; `Details.LinkForm.OpenNewLinkModal`, whose button appears only once the links are loaded; and `Details.LinkForm.EditLinkTitle`, `Details.LinkForm.EditLinkUrl` and `Details.LinkForm.HandleCreateTripLink`, which sit in the link modal.
