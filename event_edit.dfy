/**
 * The event publishing configuration: the fetched events give the list of categories and the
 * selection of published events; submitting the form rewrites every event's `publish` flag from
 * the submitted selection.
 */
module EventEdit {
  import opened Wrappers
  import opened Seqs

  /**
   * One event's configuration. Fields other than the three the page reads are carried unchanged
   * in `attributes`.
   */
  datatype EventConfig = EventConfig(displayName: string, category: string, publish: bool, attributes: seq<string>)

  /** What the configuration hook holds: nothing yet, an exception object, or the events. */
  datatype EventData = NoEvents | EventsException | Events(list: seq<EventConfig>)

  /** A checkbox option of a category: its label (`caption`) and value are the event's display name. */
  datatype EventOption = EventOption(caption: string, value: string)

  const EventsConfigurationField := "events-configuration"

  function Categories(list: seq<EventConfig>): seq<string>
  {
    seq(|list|, i requires 0 <= i < |list| => list[i].category)
  }

  /** The display names of the published events, in list order. */
  function PublishedNames(list: seq<EventConfig>): (r: seq<string>)
    ensures forall i :: 0 <= i < |list| && list[i].publish ==> list[i].displayName in r
    ensures forall n :: n in r ==> exists i :: 0 <= i < |list| && list[i].publish && list[i].displayName == n
  {
    if list == [] then []
    else
      var p := list[..|list| - 1];
      var e := list[|list| - 1];
      assert forall i :: 0 <= i < |p| ==> p[i] == list[i];
      PublishedNames(p) + (if e.publish then [e.displayName] else [])
  }

  /** The loop of the effect: the distinct categories and the selection, in one pass. */
  method CategoriesAndSelection(list: seq<EventConfig>) returns (categories: seq<string>, selected: seq<string>)
    ensures categories == Distinct(Categories(list))
    ensures selected == PublishedNames(list)
  {
    categories := [];
    selected := [];
    for i := 0 to |list|
      invariant categories == Distinct(Categories(list[..i]))
      invariant selected == PublishedNames(list[..i])
    {
      assert list[..i + 1][..i] == list[..i];
      assert Categories(list[..i + 1]) == Categories(list[..i]) + [list[i].category];
      var eventType := list[i];
      if eventType.category !in categories {
        categories := categories + [eventType.category];
      }
      if eventType.publish {
        selected := selected + [eventType.displayName];
      }
    }
    assert list[..|list|] == list;
  }

  /** Every event's category is listed once, and only those categories are. */
  lemma CategoriesListed(list: seq<EventConfig>)
    ensures NoDup(Distinct(Categories(list)))
    ensures forall i :: 0 <= i < |list| ==> list[i].category in Distinct(Categories(list))
    ensures forall c :: c in Distinct(Categories(list)) ==> exists i :: 0 <= i < |list| && list[i].category == c
  {
    var cs := Categories(list);
    DistinctFacts(cs);
    forall i | 0 <= i < |list| ensures list[i].category in Distinct(cs) {
      assert cs[i] == list[i].category;
    }
    forall c | c in Distinct(cs) ensures exists i :: 0 <= i < |list| && list[i].category == c {
      var k :| 0 <= k < |Distinct(cs)| && Distinct(cs)[k] == c;
      var i :| 0 <= i < |cs| && cs[i] == c;
      assert list[i].category == c;
    }
  }

  /** Each event copied with `publish` set to whether its display name is in the selection. */
  function Republished(list: seq<EventConfig>, events: seq<string>): (r: seq<EventConfig>)
    ensures |r| == |list|
  {
    seq(|list|, i requires 0 <= i < |list| => list[i].(publish := list[i].displayName in events))
  }

  /** The loop of `handleSubmit`. */
  method RewritePublish(eventList: seq<EventConfig>, events: seq<string>) returns (updatedEventList: seq<EventConfig>)
    ensures updatedEventList == Republished(eventList, events)
  {
    updatedEventList := [];
    for i := 0 to |eventList|
      invariant updatedEventList == Republished(eventList[..i], events)
    {
      var event := eventList[i];
      var enabledEvent := event;
      if event.displayName in events {
        enabledEvent := enabledEvent.(publish := true);
      } else {
        enabledEvent := enabledEvent.(publish := false);
      }
      updatedEventList := updatedEventList + [enabledEvent];
    }
    assert eventList[..|eventList|] == eventList;
  }

  /**
   * The submitted list keeps the order and every field but `publish`, and publishes exactly the
   * selected events.
   */
  lemma RepublishedFields(list: seq<EventConfig>, events: seq<string>, i: nat)
    requires i < |list|
    ensures var e := Republished(list, events)[i];
      && e.displayName == list[i].displayName && e.category == list[i].category
      && e.attributes == list[i].attributes
      && (e.publish <==> list[i].displayName in events)
  {
  }

  /** The display names of the events, in list order. */
  function DisplayNames(list: seq<EventConfig>): seq<string>
  {
    seq(|list|, i requires 0 <= i < |list| => list[i].displayName)
  }

  /**
   * Submitting the selection the page started with changes nothing, provided no two events share
   * a display name.
   */
  lemma SubmitInitialSelection(list: seq<EventConfig>)
    requires NoDup(DisplayNames(list))
    ensures Republished(list, PublishedNames(list)) == list
  {
    var sel := PublishedNames(list);
    forall i | 0 <= i < |list| ensures Republished(list, sel)[i] == list[i] {
      if list[i].displayName in sel {
        var j :| 0 <= j < |list| && list[j].publish && list[j].displayName == list[i].displayName;
        assert DisplayNames(list)[j] == DisplayNames(list)[i];
      }
    }
  }

  /** The names a submitted list publishes are exactly the selected names that some event carries. */
  lemma ResubmitSelection(list: seq<EventConfig>, events: seq<string>)
    ensures forall n :: n in PublishedNames(Republished(list, events)) <==> n in events && n in DisplayNames(list)
  {
    var r := Republished(list, events);
    forall n ensures n in PublishedNames(r) <==> n in events && n in DisplayNames(list) {
      if n in events && n in DisplayNames(list) {
        var i :| 0 <= i < |list| && DisplayNames(list)[i] == n;
        assert r[i].publish && r[i].displayName == n;
      }
      if n in PublishedNames(r) {
        var i :| 0 <= i < |r| && r[i].publish && r[i].displayName == n;
        assert DisplayNames(list)[i] == n;
      }
    }
  }

  /** `getEventsofCategory`'s result: the events of `category`, in order, as options. */
  function EventsOfCategory(category: string, list: seq<EventConfig>): (r: seq<EventOption>)
    ensures forall k :: 0 <= k < |r| ==> r[k].caption == r[k].value
    ensures forall k :: 0 <= k < |r| ==> exists i :: 0 <= i < |list| && list[i].category == category && list[i].displayName == r[k].caption
    ensures forall i :: 0 <= i < |list| && list[i].category == category ==> EventOption(list[i].displayName, list[i].displayName) in r
  {
    if list == [] then []
    else
      var p := list[..|list| - 1];
      var e := list[|list| - 1];
      assert forall i :: 0 <= i < |p| ==> p[i] == list[i];
      EventsOfCategory(category, p) + (if e.category == category then [EventOption(e.displayName, e.displayName)] else [])
  }

  method GetEventsOfCategory(category: string, eventList: seq<EventConfig>) returns (eventsInCategory: seq<EventOption>)
    ensures eventsInCategory == EventsOfCategory(category, eventList)
  {
    eventsInCategory := [];
    for i := 0 to |eventList|
      invariant eventsInCategory == EventsOfCategory(category, eventList[..i])
    {
      assert eventList[..i + 1][..i] == eventList[..i];
      var eventType := eventList[i];
      if eventType.category == category {
        eventsInCategory := eventsInCategory + [EventOption(eventType.displayName, eventType.displayName)];
      }
    }
    assert eventList[..|eventList|] == eventList;
  }


  class EventsEditPage {
    var eventCategories: Option<seq<string>>
    var eventList: Option<seq<EventConfig>>
    var selectedEvents: Option<seq<string>>

    constructor()
      ensures eventCategories.None? && eventList.None? && selectedEvents.None?
    {
      eventCategories, eventList, selectedEvents := None, None, None;
    }

    /**
     * The effect on the fetched configuration. Nothing, an exception object (which raises the
     * retrieval alert) or a fetch error leave the page unset; otherwise the list is stored with
     * its categories and its published selection.
     */
    method ReceiveEventConfig(data: EventData, hasFetchError: bool) returns (retrieveErrorAlert: bool)
      modifies this
      ensures retrieveErrorAlert <==> data.EventsException?
      ensures data.Events? && !hasFetchError ==>
        && eventList == Some(data.list)
        && eventCategories == Some(Distinct(Categories(data.list)))
        && selectedEvents == Some(PublishedNames(data.list))
      ensures !(data.Events? && !hasFetchError) ==>
        eventList == old(eventList) && eventCategories == old(eventCategories) && selectedEvents == old(selectedEvents)
    {
      retrieveErrorAlert := false;
      if data.NoEvents? {
        return;
      }
      if data.EventsException? {
        retrieveErrorAlert := true;
        return;
      }
      if hasFetchError {
        return;
      }
      eventList := Some(data.list);
      var categories, selectedEventsList := CategoriesAndSelection(data.list);
      selectedEvents := Some(selectedEventsList);
      eventCategories := Some(categories);
    }

    /** `handleEventChange`: the selection becomes the form's value, `undefined` when it has none. */
    method HandleEventChange(values: map<string, seq<string>>)
      modifies this
      ensures selectedEvents == if EventsConfigurationField in values then Some(values[EventsConfigurationField]) else None
      ensures eventList == old(eventList) && eventCategories == old(eventCategories)
    {
      if EventsConfigurationField in values {
        selectedEvents := Some(values[EventsConfigurationField]);
      } else {
        selectedEvents := None;
      }
    }

    /**
     * `handleSubmit`'s request body. `None` when the loop throws: there is no list yet, or the
     * form has no selection while the list has events.
     */
    method HandleSubmit(values: map<string, seq<string>>) returns (updatedEventList: Option<seq<EventConfig>>)
      ensures eventList.None? ==> updatedEventList.None?
      ensures eventList.Some? && EventsConfigurationField in values ==>
        updatedEventList == Some(Republished(eventList.value, values[EventsConfigurationField]))
      ensures eventList.Some? && EventsConfigurationField !in values ==>
        updatedEventList == if eventList.value == [] then Some([]) else None
    {
      if eventList.None? {
        return None;
      }
      if EventsConfigurationField !in values {
        return if eventList.value == [] then Some([]) else None;
      }
      var list := RewritePublish(eventList.value, values[EventsConfigurationField]);
      updatedEventList := Some(list);
    }
  }
}
