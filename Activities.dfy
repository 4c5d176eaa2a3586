/**
 * The activities tab of a trip: the new-activity form with its two modals,
 * the hour field's clean-up, and the conversion of the server's day buckets
 * into the sections of the list. The activity server and the date library
 * are not part of the model: server answers enter as parameters, and dates
 * are read through the functions of a `DateFormat`.
 */
module Activities {
  import opened Wrappers
  import opened Strings
  import opened Alerts

  /** Which modal is showing: none, the date picker, or the new-activity form. */
  datatype Modal = NoModal | CalendarModal | NewActivityModal

  /** An activity as the server lists it; `occursAt` is the instant it denotes. */
  datatype ServerActivity = ServerActivity(id: string, title: string, occursAt: int)

  /** One day bucket of the server's answer: the day and its activities, in the server's order. */
  datatype DayActivities = DayActivities(date: string, activities: seq<ServerActivity>)

  /** A section header: day of the month and weekday name. */
  datatype DayTitle = DayTitle(dayNumber: int, dayName: string)

  /** A row of the list. */
  datatype ActivityItem = ActivityItem(id: string, title: string, hour: string, isBefore: bool)

  /** A section of the list: one day and its rows. */
  datatype Section = Section(title: DayTitle, data: seq<ActivityItem>)

  /**
   * What the date library is asked: the day of the month of a date, the full
   * (Portuguese) weekday name of a date, and the "hh:mmh" text of an instant.
   */
  datatype DateFormat = DateFormat(dayOfMonth: string -> int, weekdayName: string -> string,
                                   clockText: int -> string)

  const FillAllFieldsAlert := Alert("Cadastrar atividade", "Preencha todos os campos!")
  const ActivityCreatedAlert := Alert("Cadastrar atividade", "Nova atividade cadastrada com sucesso!")

  // ---------------------------------------------------------------------------
  // from day buckets to sections

  /** The weekday shown in a header: "-feira" is cut from the name ("segunda-feira" reads "segunda"). */
  function DayName(date: string, fmt: DateFormat): string
  {
    ReplaceFirst(fmt.weekdayName(date), "-feira", "")
  }

  /** A weekday name of the form "<name>-feira" is shown as "<name>" ("segunda-feira" reads "segunda"). */
  lemma DayNameCutsFeira(date: string, fmt: DateFormat, name: string)
    requires fmt.weekdayName(date) == name + "-feira" && '-' !in name
    ensures DayName(date, fmt) == name
  {
    var w := name + "-feira";
    forall j | 0 <= j < |name| ensures !OccursAt(w, "-feira", j) {
      assert w[j] == name[j] != '-';
      NotOccursAt(w, "-feira", j);
    }
    assert OccursAt(w, "-feira", |name|) by {
      assert w[|name|..|name| + 6] == "-feira";
    }
    assert w[..|name|] + "" + w[|name| + 6..] == name;
  }

  /** A weekday name without a hyphen ("sábado", "domingo") is shown as it is. */
  lemma DayNameKeepsWeekend(date: string, fmt: DateFormat)
    requires '-' !in fmt.weekdayName(date)
    ensures DayName(date, fmt) == fmt.weekdayName(date)
  {
    var w := fmt.weekdayName(date);
    forall j | 0 <= j <= |w| ensures !OccursAt(w, "-feira", j) {
      if j < |w| {
        assert w[j] != '-';
      }
      NotOccursAt(w, "-feira", j);
    }
  }

  function ToItem(activity: ServerActivity, now: int, fmt: DateFormat): ActivityItem
  {
    ActivityItem(activity.id, activity.title, fmt.clockText(activity.occursAt), activity.occursAt < now)
  }

  function ToItems(activities: seq<ServerActivity>, now: int, fmt: DateFormat): seq<ActivityItem>
  {
    if activities == [] then []
    else [ToItem(activities[0], now, fmt)] + ToItems(activities[1..], now, fmt)
  }

  function ToSection(day: DayActivities, now: int, fmt: DateFormat): Section
  {
    Section(DayTitle(fmt.dayOfMonth(day.date), DayName(day.date, fmt)), ToItems(day.activities, now, fmt))
  }

  /** The sections of the list, read against the clock value `now`. */
  function ToSections(days: seq<DayActivities>, now: int, fmt: DateFormat): seq<Section>
  {
    if days == [] then []
    else [ToSection(days[0], now, fmt)] + ToSections(days[1..], now, fmt)
  }

  /**
   * One row per activity, in the same order: id and title copied unchanged,
   * and a row is marked as past exactly when its activity is before `now`.
   */
  lemma {:induction false} ToItemsMatch(activities: seq<ServerActivity>, now: int, fmt: DateFormat)
    ensures |ToItems(activities, now, fmt)| == |activities|
    ensures forall j :: 0 <= j < |activities| ==>
              var item := ToItems(activities, now, fmt)[j];
              item.id == activities[j].id && item.title == activities[j].title
              && item.hour == fmt.clockText(activities[j].occursAt)
              && (item.isBefore <==> activities[j].occursAt < now)
  {
    if activities != [] {
      ToItemsMatch(activities[1..], now, fmt);
    }
  }

  /** One section per day bucket, in the same order, each built from its own bucket. */
  lemma {:induction false} ToSectionsMatch(days: seq<DayActivities>, now: int, fmt: DateFormat)
    ensures |ToSections(days, now, fmt)| == |days|
    ensures forall i :: 0 <= i < |days| ==> ToSections(days, now, fmt)[i] == ToSection(days[i], now, fmt)
  {
    if days != [] {
      ToSectionsMatch(days[1..], now, fmt);
    }
  }

  /** A section has as many rows as its bucket has activities, under the bucket's day. */
  lemma SectionOfDay(days: seq<DayActivities>, i: nat, now: int, fmt: DateFormat)
    requires i < |days|
    ensures |ToSections(days, now, fmt)| == |days|
    ensures ToSections(days, now, fmt)[i].title == DayTitle(fmt.dayOfMonth(days[i].date), DayName(days[i].date, fmt))
    ensures |ToSections(days, now, fmt)[i].data| == |days[i].activities|
  {
    ToSectionsMatch(days, now, fmt);
    ToItemsMatch(days[i].activities, now, fmt);
  }

  /** Buckets are converted independently, so concatenated answers give concatenated sections. */
  lemma {:induction false} ToSectionsAppend(a: seq<DayActivities>, b: seq<DayActivities>, now: int, fmt: DateFormat)
    ensures ToSections(a + b, now, fmt) == ToSections(a, now, fmt) + ToSections(b, now, fmt)
  {
    if a == [] {
      assert a + b == b;
    } else {
      assert (a + b)[1..] == a[1..] + b;
      ToSectionsAppend(a[1..], b, now, fmt);
    }
  }

  /** The header shows "no activity on this date" under a section without rows. */
  predicate ShowsEmptyNotice(section: Section)
  {
    |section.data| == 0
  }

  /** The notice shows exactly under the days whose bucket has no activity. */
  lemma EmptyNoticeExactly(days: seq<DayActivities>, i: nat, now: int, fmt: DateFormat)
    requires i < |days|
    ensures |ToSections(days, now, fmt)| == |days|
    ensures ShowsEmptyNotice(ToSections(days, now, fmt)[i]) <==> days[i].activities == []
  {
    SectionOfDay(days, i, now, fmt);
  }

  /** A row marked as past stays past when read later. */
  lemma PastStaysPast(activities: seq<ServerActivity>, j: nat, now: int, later: int, fmt: DateFormat)
    requires j < |activities| && now <= later
    ensures |ToItems(activities, now, fmt)| == |activities| == |ToItems(activities, later, fmt)|
    ensures ToItems(activities, now, fmt)[j].isBefore ==> ToItems(activities, later, fmt)[j].isBefore
  {
    ToItemsMatch(activities, now, fmt);
    ToItemsMatch(activities, later, fmt);
  }

  // ---------------------------------------------------------------------------
  // the hour field

  /** What the hour field keeps of the typed text: the first "." and then the first "," are removed. */
  function SanitizeHour(text: string): string
  {
    ReplaceFirst(ReplaceFirst(text, ".", ""), ",", "")
  }

  /** Exactly one "." and one "," are taken out when present; no other character changes. */
  lemma SanitizeHourMultiset(text: string)
    ensures multiset(SanitizeHour(text)) == multiset(text) - multiset{'.'} - multiset{','}
  {
    RemoveFirstCharMultiset(text, '.');
    RemoveFirstCharMultiset(ReplaceFirst(text, ".", ""), ',');
  }

  /** Text without "." and "," is kept as typed. */
  lemma SanitizeHourKeepsPlainText(text: string)
    requires '.' !in text && ',' !in text
    ensures SanitizeHour(text) == text
  {
    RemoveAbsentChar(text, '.');
    RemoveAbsentChar(text, ',');
  }

  /** The characters that remain keep their order: each of the two steps cuts at most one position out. */
  lemma SanitizeHourKeepsOrder(text: string)
    ensures DropsAtMostOne(text, ReplaceFirst(text, ".", ""))
    ensures DropsAtMostOne(ReplaceFirst(text, ".", ""), SanitizeHour(text))
  {
    RemoveFirstCharDropsOne(text, '.');
    RemoveFirstCharDropsOne(ReplaceFirst(text, ".", ""), ',');
  }

  /** A decimal point or a comma is dropped: "1.5" and "1,5" both read "15". */
  lemma SanitizeHourSeparatorExamples()
    ensures SanitizeHour("1.5") == "15"
    ensures SanitizeHour("1,5") == "15"
  {
    RemoveFirstCharAt("1.5", '.', 1);
    assert "1.5"[..1] + "1.5"[2..] == "15";
    SanitizeHourKeepsPlainText("15");
    RemoveAbsentChar("1,5", '.');
    RemoveFirstCharAt("1,5", ',', 1);
    assert "1,5"[..1] + "1,5"[2..] == "15";
  }

  /** Only the first separator of a kind goes: ".." reads ".". */
  lemma SanitizeHourFirstOnlyExample()
    ensures SanitizeHour("..") == "."
  {
    RemoveFirstCharAt("..", '.', 0);
    assert ".."[..0] + ".."[1..] == ".";
    RemoveAbsentChar(".", ',');
  }

  // ---------------------------------------------------------------------------
  // the screen

  /** What is sent to the activity server; the instant is computed from date and hour by the date library. */
  datatype ActivityRequest = ActivityRequest(tripId: string, date: string, hour: string, title: string)

  /** The state of the activities tab. */
  class ActivityForm {
    const tripId: string
    var showModal: Modal
    var isCreatingActivity: bool
    var isLoadingActivities: bool
    var activityTitle: string
    var activityDate: string
    var activityHour: string
    var tripActivities: seq<Section>

    constructor (tripId: string)
      ensures this.tripId == tripId && showModal == NoModal
      ensures !isCreatingActivity && isLoadingActivities
      ensures activityTitle == "" && activityDate == "" && activityHour == "" && tripActivities == []
    {
      this.tripId := tripId;
      showModal := NoModal;
      isCreatingActivity := false;
      isLoadingActivities := true;
      activityTitle := "";
      activityDate := "";
      activityHour := "";
      tripActivities := [];
    }

    /** Clears the three fields of the form. */
    method ResetNewActivityFields()
      modifies this`activityTitle, this`activityDate, this`activityHour
      ensures activityTitle == "" && activityDate == "" && activityHour == ""
    {
      activityTitle := "";
      activityDate := "";
      activityHour := "";
    }

    /**
     * Loads the activity list: a server answer replaces the sections, read
     * against the clock value `now`; a failure keeps them. Either way both
     * loading flags go off.
     */
    method GetTripActivities(fetched: Option<seq<DayActivities>>, now: int, fmt: DateFormat)
      modifies this`tripActivities, this`isCreatingActivity, this`isLoadingActivities
      ensures tripActivities == if fetched.Some? then ToSections(fetched.value, now, fmt) else old(tripActivities)
      ensures !isCreatingActivity && !isLoadingActivities
    {
      if fetched.Some? {
        tripActivities := ToSections(fetched.value, now, fmt);
      }
      isCreatingActivity := false;
      isLoadingActivities := false;
    }

    /**
     * "Save activity". `created` says whether the server accepted the request
     * and `fetched` what the list reload then got. The loading flag is turned
     * on first, even when the check fails, and `creatingWrites` lists the
     * values written to it in order. Whatever happens, the flag ends off and
     * the modal closed.
     */
    method HandleCreateTripActivity(created: bool, fetched: Option<seq<DayActivities>>, now: int, fmt: DateFormat)
      returns (request: Option<ActivityRequest>, alert: Option<Alert>, creatingWrites: seq<bool>)
      modifies this`showModal, this`isCreatingActivity, this`isLoadingActivities,
               this`activityTitle, this`activityDate, this`activityHour, this`tripActivities
      ensures !isCreatingActivity && showModal == NoModal
      ensures old(activityTitle) == "" || old(activityDate) == "" || old(activityHour) == "" ==>
                request == None && alert == Some(FillAllFieldsAlert) && creatingWrites == [true, false]
                && activityTitle == old(activityTitle) && activityDate == old(activityDate)
                && activityHour == old(activityHour)
                && tripActivities == old(tripActivities) && isLoadingActivities == old(isLoadingActivities)
      ensures old(activityTitle) != "" && old(activityDate) != "" && old(activityHour) != "" ==>
                request == Some(ActivityRequest(tripId, old(activityDate), old(activityHour), old(activityTitle)))
      ensures old(activityTitle) != "" && old(activityDate) != "" && old(activityHour) != "" && !created ==>
                alert == None && creatingWrites == [true, false]
                && activityTitle == old(activityTitle) && activityDate == old(activityDate)
                && activityHour == old(activityHour)
                && tripActivities == old(tripActivities) && isLoadingActivities == old(isLoadingActivities)
      ensures old(activityTitle) != "" && old(activityDate) != "" && old(activityHour) != "" && created ==>
                alert == Some(ActivityCreatedAlert) && creatingWrites == [true, false, false]
                && activityTitle == "" && activityDate == "" && activityHour == ""
                && tripActivities == (if fetched.Some? then ToSections(fetched.value, now, fmt) else old(tripActivities))
                && !isLoadingActivities
    {
      isCreatingActivity := true;
      creatingWrites := [true];
      if activityTitle == "" || activityDate == "" || activityHour == "" {
        request, alert := None, Some(FillAllFieldsAlert);
      } else {
        request := Some(ActivityRequest(tripId, activityDate, activityHour, activityTitle));
        alert := None;
        if created {
          alert := Some(ActivityCreatedAlert);
          ResetNewActivityFields();
          GetTripActivities(fetched, now, fmt);
          creatingWrites := creatingWrites + [false];
        }
      }
      // the finally block
      isCreatingActivity := false;
      creatingWrites := creatingWrites + [false];
      showModal := NoModal;
    }

    /** "New activity" opens the form. */
    method OpenNewActivityModal()
      modifies this`showModal
      ensures showModal == NewActivityModal
    {
      showModal := NewActivityModal;
    }

    /** Closing the form closes every modal. */
    method CloseNewActivityModal()
      modifies this`showModal
      ensures showModal == NoModal
    {
      showModal := NoModal;
    }

    /** Pressing the date field switches to the date picker. */
    method PressDateInput()
      modifies this`showModal
      ensures showModal == CalendarModal
    {
      showModal := CalendarModal;
    }

    /** A day pressed on the date picker becomes the activity's date. */
    method SelectActivityDate(dateString: string)
      modifies this`activityDate
      ensures activityDate == dateString
    {
      activityDate := dateString;
    }

    /** Closing or confirming the date picker goes back to the form, never to no modal. */
    method LeaveCalendarModal()
      modifies this`showModal
      ensures showModal == NewActivityModal
    {
      showModal := NewActivityModal;
    }

    /** Typing the title. */
    method EditActivityTitle(text: string)
      modifies this`activityTitle
      ensures activityTitle == text
    {
      activityTitle := text;
    }

    /** Typing the hour. */
    method EditActivityHour(text: string)
      modifies this`activityHour
      ensures activityHour == SanitizeHour(text)
      ensures |activityHour| <= |text|
    {
      SanitizeHourMultiset(text);
      assert |multiset(SanitizeHour(text))| <= |multiset(text)|;
      activityHour := SanitizeHour(text);
    }
  }
}
