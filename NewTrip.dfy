/**
 * The new-trip screen: a two-step wizard (trip details, then guest e-mails),
 * a guest list without duplicates, and a single "which modal is open" value.
 * The e-mail validator, the date-range ordering of the calendar and the trip
 * server are not part of the model: they enter as parameters.
 */
module NewTrip {
  import opened Wrappers
  import opened Strings
  import opened Alerts

  /** The two steps of the wizard. */
  datatype StepForm = TripDetails | AddEmailGuests

  /** Which modal is showing: none, the date picker, or the guest list. */
  datatype Modal = NoModal | CalendarModal | GuestsModal

  /** A day picked on the calendar; only its ISO date text is looked at. */
  datatype CalendarDay = CalendarDay(dateString: string)

  /** The range picked so far; either end may still be unset. */
  datatype DatesSelected = DatesSelected(startsAt: Option<CalendarDay>, endsAt: Option<CalendarDay>)

  const MissingFieldsAlert := Alert("Detalhes da viagem", "Preencha todas as informações da viagem para seguir.")
  const ShortDestinationAlert := Alert("Detalhes da viagem", "O destino deve ter pelo menos 4 caracteres.")
  const ConfirmTripAlert := Alert("Nova viagem", "Confirmar viagem?")
  const InvalidEmailAlert := Alert("Convidado", "E-mail inválido!")
  const DuplicateEmailAlert := Alert("Convidado", "E-mail já foi adicionado!")
  const TripCreatedAlert := Alert("Nova viagem", "Viagem criada com sucesso!")
  const SaveTripFailedAlert := Alert("Salvar viagem", "Não foi possível salvar o id da viagem no dispositivo.")

  /** Shortest destination accepted, in UTF-16 code units after trimming. */
  const MinDestinationLength: nat := 4

  // ---------------------------------------------------------------------------
  // the step gate

  /** What pressing the main button leads to. */
  datatype NextStep = MissingFields | ShortDestination | ToGuests | AskConfirm

  predicate HasBothDates(dates: DatesSelected)
  {
    dates.startsAt.Some? && dates.endsAt.Some?
  }

  /** The trip details pass both checks of the gate. */
  predicate DetailsComplete(destination: string, dates: DatesSelected)
  {
    HasBothDates(dates) && Utf16Length(Trim(destination)) >= MinDestinationLength
  }

  /**
   * The gate of the main button. A blank destination or a missing date is
   * reported as missing fields, and that check wins over the length check;
   * complete details move the first step on and ask for confirmation in the
   * second.
   */
  function DecideNextStep(destination: string, dates: DatesSelected, step: StepForm): (r: NextStep)
    ensures r == MissingFields <==> IsBlank(destination) || !HasBothDates(dates)
    ensures r == ShortDestination <==> !IsBlank(destination) && HasBothDates(dates) && !DetailsComplete(destination, dates)
    ensures r == ToGuests <==> DetailsComplete(destination, dates) && step == TripDetails
    ensures r == AskConfirm <==> DetailsComplete(destination, dates) && step.AddEmailGuests?
  {
    TrimFacts(destination);
    var trimmedLength := Utf16Length(Trim(destination));
    if trimmedLength == 0 || dates.startsAt.None? || dates.endsAt.None? then MissingFields
    else if trimmedLength < MinDestinationLength then ShortDestination
    else if step == TripDetails then ToGuests
    else AskConfirm
  }

  /** The message shown for each outcome of the gate; moving to the guests step shows none. */
  function NextStepAlert(outcome: NextStep): (alert: Option<Alert>)
    ensures alert.None? <==> outcome == ToGuests
  {
    match outcome
    case MissingFields => Some(MissingFieldsAlert)
    case ShortDestination => Some(ShortDestinationAlert)
    case ToGuests => None
    case AskConfirm => Some(ConfirmTripAlert)
  }

  /** Worked cases of the gate: blank destinations are missing fields, even with both dates picked. */
  lemma NextStepBlankExamples(dates: DatesSelected, step: StepForm)
    ensures DecideNextStep("", dates, step) == MissingFields
    ensures DecideNextStep(" \t ", dates, step) == MissingFields
    ensures DecideNextStep("Paris", DatesSelected(dates.startsAt, None), step) == MissingFields
  {
  }

  /** Blanks around the destination never change the outcome of the gate. */
  lemma NextStepIgnoresBlanks(pre: string, core: string, post: string, dates: DatesSelected, step: StepForm)
    requires IsBlank(pre) && IsBlank(post)
    requires core == [] || (!IsJsWhitespace(core[0]) && !IsJsWhitespace(core[|core| - 1]))
    ensures DecideNextStep(pre + core + post, dates, step) == DecideNextStep(core, dates, step)
  {
    TrimStrips(pre, core, post);
    TrimTrimmed(core);
  }

  /** Worked case of the gate: three characters are too short. */
  lemma NextStepShortExample(dates: DatesSelected, step: StepForm)
    requires HasBothDates(dates)
    ensures DecideNextStep("NYC", dates, step) == ShortDestination
  {
    TrimTrimmed("NYC");
  }

  /** Worked case of the gate: "Paris" moves the first step on and asks for confirmation in the second. */
  lemma NextStepCompleteExample(dates: DatesSelected, step: StepForm)
    requires HasBothDates(dates)
    ensures DecideNextStep("Paris", dates, step) == if step == TripDetails then ToGuests else AskConfirm
  {
    TrimTrimmed("Paris");
  }

  /**
   * Worked case of the gate: two code points above U+FFFF are four UTF-16
   * code units, so JavaScript's length accepts them as a destination.
   */
  lemma NextStepSurrogatePairExample(dates: DatesSelected)
    requires HasBothDates(dates)
    ensures DecideNextStep("\U{1F3DD}\U{1F3DD}", dates, TripDetails) == ToGuests
  {
    TrimTrimmed("\U{1F3DD}\U{1F3DD}");
  }

  // ---------------------------------------------------------------------------
  // the guest list

  predicate NoDuplicates(list: seq<string>)
  {
    forall i, j :: 0 <= i < j < |list| ==> list[i] != list[j]
  }

  /** Every entry is free of upper-case ASCII letters. */
  predicate AllLowerAscii(list: seq<string>)
  {
    forall i :: 0 <= i < |list| ==> IsLowerAscii(list[i])
  }

  /**
   * The list after an add: an e-mail the validator `accepted` and not already
   * present (exact comparison) goes to the end; otherwise nothing changes.
   */
  function AddGuest(list: seq<string>, email: string, accepted: bool): (r: seq<string>)
    ensures |r| == |list| + (if accepted && email !in list then 1 else 0)
    ensures r[..|list|] == list
    ensures email in r <==> email in list || accepted
    ensures forall x :: x != email ==> (x in r <==> x in list)
  {
    if !accepted || email in list then list else list + [email]
  }

  /** An add never introduces a duplicate. */
  lemma AddGuestKeepsNoDuplicates(list: seq<string>, email: string, accepted: bool)
    requires NoDuplicates(list)
    ensures NoDuplicates(AddGuest(list, email, accepted))
  {
  }

  /** Adding the same e-mail a second time changes nothing, so it appears once. */
  lemma AddGuestTwice(list: seq<string>, email: string, accepted: bool)
    ensures AddGuest(AddGuest(list, email, accepted), email, accepted) == AddGuest(list, email, accepted)
  {
  }

  /** The list with every entry equal to `e` dropped, the others kept in order. */
  function Without(list: seq<string>, e: string): (r: seq<string>)
    ensures forall x :: x in r <==> x in list && x != e
    ensures |r| <= |list|
  {
    if list == [] then []
    else (if list[0] == e then [] else [list[0]]) + Without(list[1..], e)
  }

  /** Removing an e-mail that is not in the list leaves the list as it is. */
  lemma {:induction false} WithoutAbsent(list: seq<string>, e: string)
    requires e !in list
    ensures Without(list, e) == list
  {
    if list != [] {
      WithoutAbsent(list[1..], e);
    }
  }

  /** Removal works piece by piece, so the kept entries stay in their order. */
  lemma {:induction false} WithoutAppend(a: seq<string>, b: seq<string>, e: string)
    ensures Without(a + b, e) == Without(a, e) + Without(b, e)
  {
    if a == [] {
      assert a + b == b;
    } else {
      assert (a + b)[1..] == a[1..] + b;
      WithoutAppend(a[1..], b, e);
    }
  }

  /** In a list without duplicates, removing entry `k` cuts out exactly that entry. */
  lemma {:induction false} WithoutEntry(list: seq<string>, k: nat)
    requires NoDuplicates(list) && k < |list|
    ensures Without(list, list[k]) == list[..k] + list[k + 1..]
  {
    if k == 0 {
      assert list[0] !in list[1..] by {
        forall i | 0 <= i < |list[1..]| ensures list[1..][i] != list[0] {
          assert list[1..][i] == list[i + 1];
        }
      }
      WithoutAbsent(list[1..], list[0]);
    } else {
      var tail := list[1..];
      assert NoDuplicates(tail) by {
        forall i, j | 0 <= i < j < |tail| ensures tail[i] != tail[j] {
          assert tail[i] == list[i + 1] && tail[j] == list[j + 1];
        }
      }
      assert tail[k - 1] == list[k] != list[0];
      WithoutEntry(tail, k - 1);
      assert list[..k] + list[k + 1..] == [list[0]] + (tail[..k - 1] + tail[k..]);
    }
  }

  /** A removal keeps the list free of duplicates and of upper-case letters. */
  lemma {:induction false} WithoutKeepsInvariant(list: seq<string>, e: string)
    requires NoDuplicates(list) && AllLowerAscii(list)
    ensures NoDuplicates(Without(list, e)) && AllLowerAscii(Without(list, e))
  {
    if list != [] {
      WithoutKeepsInvariant(list[1..], e);
      assert list[0] !in list[1..];
    }
  }

  // ---------------------------------------------------------------------------
  // the guest count label

  /** The text of the guests field for a list of `count` e-mails. */
  function GuestCountLabel(count: nat): string
  {
    if count > 0 then
      if count == 1 then "1 pessoa convidada" else NatToDecimal(count) + " pessoas convidadas"
    else ""
  }

  /** The number a label starts with. */
  function CountInLabel(text: string): nat
  {
    DecimalValue(LeadingDigits(text))
  }

  /**
   * The label is empty exactly for no guests; otherwise it is the count in
   * decimal followed by the singular for one guest and the plural for more,
   * and the count can be read back from it.
   */
  lemma GuestCountLabelReadsBack(count: nat)
    ensures GuestCountLabel(count) == "" <==> count == 0
    ensures count > 0 ==>
              GuestCountLabel(count) == NatToDecimal(count) + (if count == 1 then " pessoa convidada" else " pessoas convidadas")
    ensures count > 0 ==> CountInLabel(GuestCountLabel(count)) == count
  {
    if count > 0 {
      var suffix := if count == 1 then " pessoa convidada" else " pessoas convidadas";
      var digits := NatToDecimal(count);
      assert suffix[0] == ' ';
      if count == 1 {
        assert digits == "1";
        assert GuestCountLabel(count) == digits + suffix;
      }
      LeadingDigitsOf(digits, suffix);
      DecimalRoundTrip(count);
    }
  }

  // ---------------------------------------------------------------------------
  // the screen

  /** What is sent to the trip server. Date text is the picked days' ISO text, before date formatting. */
  datatype TripRequest = TripRequest(destination: string, startsAt: Option<string>, endsAt: Option<string>,
                                     emailsToInvite: seq<string>)

  function DateText(day: Option<CalendarDay>): Option<string>
  {
    match day
    case None => None
    case Some(d) => Some(d.dateString)
  }

  /** The state of the new-trip screen. */
  class TripForm {
    var selectedDates: DatesSelected
    var destination: string
    var emailToInvite: string
    var emailsToInvite: seq<string>
    var stepForm: StepForm
    var showModal: Modal
    var isCreatingTrip: bool

    /** The guest list has no duplicates, and typed e-mails are lower case. */
    ghost predicate Valid()
      reads this
    {
      NoDuplicates(emailsToInvite) && AllLowerAscii(emailsToInvite) && IsLowerAscii(emailToInvite)
    }

    constructor ()
      ensures Valid()
      ensures selectedDates == DatesSelected(None, None) && destination == ""
      ensures emailToInvite == "" && emailsToInvite == []
      ensures stepForm == TripDetails && showModal == NoModal && !isCreatingTrip
    {
      selectedDates := DatesSelected(None, None);
      destination := "";
      emailToInvite := "";
      emailsToInvite := [];
      stepForm := TripDetails;
      showModal := NoModal;
      isCreatingTrip := false;
    }

    /** "Change place and date": back to the first step from anywhere. */
    method ChangeLocationAndDate()
      requires Valid()
      modifies this`stepForm
      ensures Valid()
      ensures stepForm == TripDetails
    {
      stepForm := TripDetails;
    }

    /**
     * The main button. Only a move to the guests step changes the state; every
     * other outcome leaves it as it was and shows its message (in the second
     * step, the confirmation prompt).
     */
    method HandleNextStepForm() returns (outcome: NextStep, alert: Option<Alert>)
      requires Valid()
      modifies this`stepForm
      ensures Valid()
      ensures outcome == DecideNextStep(destination, selectedDates, old(stepForm))
      ensures alert == NextStepAlert(outcome)
      ensures stepForm == if outcome == ToGuests then AddEmailGuests else old(stepForm)
    {
      var trimmedLength := Utf16Length(Trim(destination));
      if trimmedLength == 0 || selectedDates.startsAt.None? || selectedDates.endsAt.None? {
        return MissingFields, Some(MissingFieldsAlert);
      }
      if trimmedLength < MinDestinationLength {
        return ShortDestination, Some(ShortDestinationAlert);
      }
      if stepForm == TripDetails {
        stepForm := AddEmailGuests;
        return ToGuests, None;
      }
      return AskConfirm, Some(ConfirmTripAlert);
    }

    /** A day pressed on the calendar; the range is recomputed by `order`, which is not modelled. */
    method SelectDate(selectedDay: CalendarDay, order: (DatesSelected, CalendarDay) -> DatesSelected)
      requires Valid()
      modifies this`selectedDates
      ensures Valid()
      ensures selectedDates == order(old(selectedDates), selectedDay)
    {
      selectedDates := order(selectedDates, selectedDay);
    }

    /** Removes every entry equal to the given e-mail. */
    method RemoveEmail(emailToRemove: string)
      requires Valid()
      modifies this`emailsToInvite
      ensures Valid()
      ensures emailsToInvite == Without(old(emailsToInvite), emailToRemove)
    {
      WithoutKeepsInvariant(emailsToInvite, emailToRemove);
      emailsToInvite := Without(emailsToInvite, emailToRemove);
    }

    /**
     * Adds the typed e-mail: rejected by the validator or already present, the
     * list and the input stay as they are and a message is shown; otherwise it
     * goes to the end of the list and the input is cleared.
     */
    method HandleAddEmail(isEmail: string -> bool) returns (alert: Option<Alert>)
      requires Valid()
      modifies this`emailsToInvite, this`emailToInvite
      ensures Valid()
      ensures emailsToInvite == AddGuest(old(emailsToInvite), old(emailToInvite), isEmail(old(emailToInvite)))
      ensures !isEmail(old(emailToInvite)) ==> alert == Some(InvalidEmailAlert) && emailToInvite == old(emailToInvite)
      ensures isEmail(old(emailToInvite)) && old(emailToInvite) in old(emailsToInvite)
              ==> alert == Some(DuplicateEmailAlert) && emailToInvite == old(emailToInvite)
      ensures isEmail(old(emailToInvite)) && old(emailToInvite) !in old(emailsToInvite)
              ==> alert == None && emailToInvite == ""
    {
      if !isEmail(emailToInvite) {
        return Some(InvalidEmailAlert);
      }
      if emailToInvite in emailsToInvite {
        return Some(DuplicateEmailAlert);
      }
      AddGuestKeepsNoDuplicates(emailsToInvite, emailToInvite, true);
      emailsToInvite := emailsToInvite + [emailToInvite];
      emailToInvite := "";
      alert := None;
    }

    /**
     * "Yes" on the confirmation prompt: sends the trip with the destination as
     * typed. When the server answers with an id, the loading flag stays on and
     * the id is what "Continue" will save; when it fails, the flag goes off and
     * the form is kept for a retry. `creatingWrites` lists the values written
     * to the loading flag, in order.
     */
    method CreateTrip(created: Option<string>)
      returns (request: TripRequest, alert: Option<Alert>, toSave: Option<string>, creatingWrites: seq<bool>)
      requires Valid()
      modifies this`isCreatingTrip
      ensures Valid()
      ensures request == TripRequest(destination, DateText(selectedDates.startsAt), DateText(selectedDates.endsAt), emailsToInvite)
      ensures created.Some? ==>
                isCreatingTrip && alert == Some(TripCreatedAlert) && toSave == created && creatingWrites == [true]
      ensures created.None? ==>
                !isCreatingTrip && alert == None && toSave == None && creatingWrites == [true, false]
    {
      isCreatingTrip := true;
      creatingWrites := [true];
      request := TripRequest(destination, DateText(selectedDates.startsAt), DateText(selectedDates.endsAt), emailsToInvite);
      if created.None? {
        isCreatingTrip := false;
        return request, None, None, creatingWrites + [false];
      }
      alert := Some(TripCreatedAlert);
      toSave := created;
    }

    /**
     * Stores the new trip's id on the device: on success navigate to the trip
     * and turn the loading flag off; on failure show a message and leave the
     * flag as it was.
     */
    method SaveTrip(tripId: string, saved: bool) returns (route: Option<string>, alert: Option<Alert>)
      requires Valid()
      modifies this`isCreatingTrip
      ensures Valid()
      ensures saved ==> route == Some("/trip/" + tripId) && alert == None && !isCreatingTrip
      ensures !saved ==> route == None && alert == Some(SaveTripFailedAlert) && isCreatingTrip == old(isCreatingTrip)
    {
      if saved {
        route := Some("/trip/" + tripId);
        isCreatingTrip := false;
        alert := None;
      } else {
        route := None;
        alert := Some(SaveTripFailedAlert);
      }
    }

    /** Typing in the destination field, which is editable only in the first step. */
    method EditDestination(text: string)
      requires Valid()
      modifies this`destination
      ensures Valid()
      ensures destination == if old(stepForm) == TripDetails then text else old(destination)
    {
      if stepForm == TripDetails {
        destination := text;
      }
    }

    /** Pressing the dates field opens the calendar, but only in the first step. */
    method PressDatesInput()
      requires Valid()
      modifies this`showModal
      ensures Valid()
      ensures showModal == if stepForm == TripDetails then CalendarModal else old(showModal)
    {
      if stepForm == TripDetails {
        showModal := CalendarModal;
      }
    }

    /** Pressing the guests field, which is shown only in the second step, opens the guest list. */
    method PressGuestsInput()
      requires Valid() && stepForm == AddEmailGuests
      modifies this`showModal
      ensures Valid()
      ensures showModal == GuestsModal
    {
      showModal := GuestsModal;
    }

    /** Closing either modal, or confirming the calendar. */
    method CloseModal()
      requires Valid()
      modifies this`showModal
      ensures Valid()
      ensures showModal == NoModal
    {
      showModal := NoModal;
    }

    /** Typing in the e-mail field stores the text lower-cased. */
    method EditEmailToInvite(text: string)
      requires Valid()
      modifies this`emailToInvite
      ensures Valid()
      ensures emailToInvite == ToLowerAscii(text)
    {
      LowerAsciiFixes(text);
      emailToInvite := ToLowerAscii(text);
    }
  }

  /**
   * A run through the wizard: a long enough destination and two picked days
   * open the guests step.
   */
  method WizardScenario(order: (DatesSelected, CalendarDay) -> DatesSelected, start: CalendarDay, end: CalendarDay,
                        destination: string)
    requires order(order(DatesSelected(None, None), start), end) == DatesSelected(Some(start), Some(end))
    requires Utf16Length(Trim(destination)) >= MinDestinationLength
  {
    var form := new TripForm();
    form.EditDestination(destination);
    form.SelectDate(start, order);
    form.SelectDate(end, order);
    assert form.stepForm == TripDetails && form.destination == destination;
    assert DetailsComplete(form.destination, form.selectedDates);
    var outcome, alert := form.HandleNextStepForm();
    assert outcome == ToGuests && form.stepForm == AddEmailGuests;
  }

  /** Two case variants of one address, typed one after the other, end up as one guest. */
  method GuestScenario(isEmail: string -> bool, typed: string, retyped: string)
    requires |typed| == |retyped| && forall i :: 0 <= i < |typed| ==> SameUpToCase(typed[i], retyped[i])
    requires isEmail(ToLowerAscii(typed))
  {
    ToLowerAsciiSameUpToCase(typed, retyped);
    var form := new TripForm();
    form.EditEmailToInvite(typed);
    var alert := form.HandleAddEmail(isEmail);
    assert form.emailsToInvite == [ToLowerAscii(typed)];
    form.EditEmailToInvite(retyped);
    alert := form.HandleAddEmail(isEmail);
    assert alert == Some(DuplicateEmailAlert) && form.emailsToInvite == [ToLowerAscii(typed)];
  }
}
