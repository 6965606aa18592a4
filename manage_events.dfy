/** The "All Events" table of the manage-events page: two fixed pages of
    events, the pager between them, the Edit/Repeat button that opens the
    wizard on a draft made from a row, and the row click that hands the
    row to the analytics page. */
module ManageEvents {
  import opened Values

  datatype EventRow = EventRow(date: string, name: string, category: string, status: string, action: string)

  /** `eventsPage1` */
  const EventsPage1: seq<EventRow> := [
    EventRow("May 3, 2025", "Elyzium Band Live", "Entertainment", "Ongoing", "Edit"),
    EventRow("May 14–16, 2025", "Bharat Marine Systems 2025", "Defense", "Upcoming", "Edit"),
    EventRow("May 14–16, 2025", "GeoSpace Bharat 2025", "Technology", "Upcoming", "Edit"),
    EventRow("May 14–16, 2025", "SwaRaksha Mahotsav 2025", "Public Safety", "Upcoming", "Edit"),
    EventRow("May 14–16, 2025", "Drone Shaurya Global Summit & Expo", "Technology", "Upcoming", "Edit")
  ]

  /** `eventsPage2` */
  const EventsPage2: seq<EventRow> := [
    EventRow("March 21, 2025", "MARITZA CORREA Vizag", "Music Concert", "Past", "Repeat"),
    EventRow("March 21, 2025", "MARITZA CORREA Vizag", "Music Concert", "Past", "Repeat"),
    EventRow("March 21, 2025", "MARITZA CORREA Vizag", "Music Concert", "Past", "Repeat")
  ]

  /** The rows shown on `page`: page 1 is the first list, any other page
      the second. */
  function PageEvents(page: int): (rows: seq<EventRow>)
    ensures page == 1 ==> rows == EventsPage1
    ensures page != 1 ==> rows == EventsPage2
  {
    if page == 1 then EventsPage1 else EventsPage2
  }

  // ---------------------------------------------------------------------
  // The pager.

  /** The previous-page arrow: `Math.max(1, currentPage - 1)`. */
  function PreviousPage(page: int): (r: int)
    ensures 1 <= page <= 2 ==> r == 1
    ensures r >= 1 && (page > 1 ==> r == page - 1)
  {
    if page - 1 > 1 then page - 1 else 1
  }

  /** The next-page arrow: `Math.min(2, currentPage + 1)`. */
  function NextPage(page: int): (r: int)
    ensures 1 <= page <= 2 ==> r == 2
    ensures r <= 2 && (page < 2 ==> r == page + 1)
  {
    if page + 1 < 2 then page + 1 else 2
  }

  class AllEventsSection {
    var currentPage: int

    ghost predicate Valid()
      reads this
    {
      currentPage == 1 || currentPage == 2
    }

    constructor()
      ensures Valid() && currentPage == 1
    {
      currentPage := 1;
    }

    method Previous()
      requires Valid()
      modifies this
      ensures Valid() && currentPage == PreviousPage(old(currentPage))
    {
      currentPage := PreviousPage(currentPage);
    }

    method Next()
      requires Valid()
      modifies this
      ensures Valid() && currentPage == NextPage(old(currentPage))
    {
      currentPage := NextPage(currentPage);
    }

    /** The numbered page buttons, 1 and 2. */
    method GoTo(page: int)
      requires page == 1 || page == 2
      modifies this
      ensures Valid() && currentPage == page
    {
      currentPage := page;
    }

    function Events(): (rows: seq<EventRow>)
      reads this
      ensures rows == PageEvents(currentPage)
    {
      PageEvents(currentPage)
    }
  }

  /** The pager's two arrows undo each other on either page. */
  lemma ArrowsUndo(page: int)
    requires page == 1 || page == 2
    ensures PreviousPage(NextPage(page)) == 1 && NextPage(PreviousPage(page)) == 2
    ensures PageEvents(NextPage(page)) == EventsPage2 && PageEvents(PreviousPage(page)) == EventsPage1
  {
  }

  // ---------------------------------------------------------------------
  // The row buttons.

  const ContactDefaults: Value :=
    Obj(map["mobile" := Str(""), "email" := Str(""), "website" := Str(""), "additionalLinks" := Str("")])

  /** `handleAction(event)`: the draft stored for the wizard. A repeated
      event starts with no date or times; an edited one keeps the row's
      date. */
  function ActionDraft(row: EventRow): (d: Value)
    ensures d.Obj?
    ensures Get(d, "eventName") == Str(row.name) && Get(d, "category") == Str(row.category)
    ensures Get(d, "description") == Str("Description for " + row.name)
    ensures row.action == "Repeat" ==> Get(d, "date") == Str("")
    ensures row.action != "Repeat" ==> Get(d, "date") == Str(row.date)
    ensures Get(d, "time") == Str("") && Get(d, "endTime") == Str("") && Get(d, "venue") == Str("")
    ensures Get(d, "contactInfo") == ContactDefaults
  {
    var formData := map[
      "eventName" := Str(row.name),
      "category" := Str(row.category),
      "description" := Str("Description for " + row.name),
      "date" := Str(row.date),
      "time" := Str(""),
      "endTime" := Str(""),
      "venue" := Str(""),
      "googleMapsUrl" := Str(""),
      "personnel" := Str(""),
      "tagline" := Str(""),
      "contactInfo" := ContactDefaults
    ];
    if row.action == "Repeat" then
      Obj(formData["date" := Str("")]["time" := Str("")]["endTime" := Str("")])
    else Obj(formData)
  }

  /** An Edit draft and a Repeat draft of the same event differ only in
      the date. */
  lemma EditAndRepeatDifferInDate(row: EventRow)
    requires row.action == "Edit"
    ensures var edit := ActionDraft(row); var repeat := ActionDraft(row.(action := "Repeat"));
      edit.fields.Keys == repeat.fields.Keys
      && forall k :: k in edit.fields && k != "date" ==> edit.fields[k] == repeat.fields[k]
  {
  }

  /** `handleRowClick(event)`: the summary stored for the analytics page. */
  function RowClickData(row: EventRow): (d: Value)
    ensures d.Obj? && d.fields.Keys == {"eventName", "date", "category", "status"}
    ensures Get(d, "eventName") == Str(row.name) && Get(d, "date") == Str(row.date)
    ensures Get(d, "category") == Str(row.category) && Get(d, "status") == Str(row.status)
  {
    Obj(map["eventName" := Str(row.name), "date" := Str(row.date),
            "category" := Str(row.category), "status" := Str(row.status)])
  }
}
