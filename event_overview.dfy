/** The analytics page's event header: fixed defaults, over which the
    summary the manage-events table stored for the clicked row is merged
    once, on mount. */
module EventOverview {
  import opened Values
  import opened ManageEvents

  datatype EventData = EventData(eventName: Value, date: Value, time: Value, status: Value, location: Value)

  const Defaults: EventData :=
    EventData(Str("Martiza Concert Vizag"), Str("25 June 2025"), Str("12:00 PM"), Str("Past"), Str("Visakhapatnam"))

  /** What reading "analyticsEventData" gives: no entry (or an empty one),
      text that does not parse, or the parsed value. */
  datatype StoredData = NoEntry | Unparseable | Parsed(v: Value)

  /** The `setEventData(prev => ...)` update with the parsed value: a truthy
      stored name, date or status replaces the current one. Reading a
      property of a parsed `null` throws, so the update has no result for
      it. */
  function Merge(prev: EventData, parsed: Value): (r: EventData)
    requires !Nullish(parsed)
    ensures r.time == prev.time && r.location == prev.location
    ensures Truthy(Get(parsed, "eventName")) ==> r.eventName == Get(parsed, "eventName")
    ensures !Truthy(Get(parsed, "eventName")) ==> r.eventName == prev.eventName
    ensures Truthy(Get(parsed, "date")) ==> r.date == Get(parsed, "date")
    ensures !Truthy(Get(parsed, "date")) ==> r.date == prev.date
    ensures Truthy(Get(parsed, "status")) ==> r.status == Get(parsed, "status")
    ensures !Truthy(Get(parsed, "status")) ==> r.status == prev.status
  {
    prev.(eventName := Or(Get(parsed, "eventName"), prev.eventName),
          date := Or(Get(parsed, "date"), prev.date),
          status := Or(Get(parsed, "status"), prev.status))
  }

  /** Merging the same value again changes nothing. */
  lemma MergeIdempotent(prev: EventData, parsed: Value)
    requires !Nullish(parsed)
    ensures Merge(Merge(prev, parsed), parsed) == Merge(prev, parsed)
  {
  }

  /** A stored category, or any key other than the three, is ignored. */
  lemma MergeIgnoresOtherKeys(prev: EventData, parsed: Value, key: string, x: Value)
    requires parsed.Obj? && key !in {"eventName", "date", "status"}
    ensures Merge(prev, With(parsed, key, x)) == Merge(prev, parsed)
  {
    assert Get(With(parsed, key, x), "eventName") == Get(parsed, "eventName");
    assert Get(With(parsed, key, x), "date") == Get(parsed, "date");
    assert Get(With(parsed, key, x), "status") == Get(parsed, "status");
  }

  /** A clicked row with a name, a date and a status shows them, under the
      default time and place. */
  lemma RowClickShown(row: EventRow)
    requires row.name != [] && row.date != [] && row.status != []
    ensures Merge(Defaults, RowClickData(row)) ==
      EventData(Str(row.name), Str(row.date), Defaults.time, Str(row.status), Defaults.location)
  {
  }

  class EventOverviewPanel {
    var eventData: EventData
    /** The render threw: the panel is replaced by the nearest error
        boundary. */
    var crashed: bool

    constructor()
      ensures eventData == Defaults && !crashed
    {
      eventData := Defaults;
      crashed := false;
    }

    /** The mount effect. For a parsed `null` the updater throws; React
        suppresses the error when it computes the state eagerly and throws
        it again when it runs the updater during render, outside the
        effect's `try`, so the panel crashes. */
    method LoadEffect(stored: StoredData)
      modifies this
      ensures stored.Parsed? && !Nullish(stored.v) ==>
        eventData == Merge(old(eventData), stored.v) && crashed == old(crashed)
      ensures stored.Parsed? && Nullish(stored.v) ==> eventData == old(eventData) && crashed
      ensures !stored.Parsed? ==> eventData == old(eventData) && crashed == old(crashed)
    {
      if stored.Parsed? {
        if Nullish(stored.v) {
          crashed := true;
        } else {
          eventData := Merge(eventData, stored.v);
        }
      }
    }
  }

  /** With no entry, or one that does not parse, the header shows the
      defaults. */
  method MountWithout(stored: StoredData) returns (panel: EventOverviewPanel)
    requires !stored.Parsed?
    ensures panel.eventData == Defaults && !panel.crashed
  {
    panel := new EventOverviewPanel();
    panel.LoadEffect(stored);
  }

  /** A stored "null" crashes the panel. */
  method MountNull() returns (panel: EventOverviewPanel)
    ensures panel.crashed
  {
    panel := new EventOverviewPanel();
    panel.LoadEffect(Parsed(Null));
  }
}
