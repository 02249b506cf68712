/**
  `DetectedEventsViewModel`: loads a document's detected events, keeps the set of
  selected event ids, and exposes the selected events in list order.
  `load` is split at its one suspension point: `BeginLoad` is what runs before the
  fetch is awaited, `FinishLoad` what runs with its outcome.
 */
module DetectedEventsView {
  import opened Wrappers
  import opened ApiError
  import opened DetectedEvents

  /** The ids of a list of events. */
  function Ids(events: seq<DetectedEvent>): set<string>
  {
    set e | e in events :: e.id
  }

  /** The error text `load` shows: an `APIError`'s own description, anything else
      prefixed. */
  function LoadErrorText(f: Failure): string
  {
    if f.Api? then Description(f.error) else "Failed to load events: " + LocalizedDescription(f)
  }

  /** The selection after `toggle`. */
  function Toggled(selection: set<string>, id: string): (r: set<string>)
    ensures id in r <==> id !in selection
    ensures forall other :: other != id ==> (other in r <==> other in selection)
  {
    if id in selection then selection - {id} else selection + {id}
  }

  /** `selectedEvents`: the events whose id is selected. */
  function SelectedOf(events: seq<DetectedEvent>, selection: set<string>): (r: seq<DetectedEvent>)
    ensures |r| <= |events|
    ensures forall e :: e in r <==> e in events && e.id in selection
  {
    if events == [] then []
    else (if events[0].id in selection then [events[0]] else []) + SelectedOf(events[1..], selection)
  }

  class DetectedEventsViewModel {
    var events: seq<DetectedEvent>
    var selectedEventIds: set<string>
    var isLoading: bool
    var error: Option<string>

    constructor ()
      ensures events == [] && selectedEventIds == {} && !isLoading && error == None
    {
      events := [];
      selectedEventIds := {};
      isLoading := false;
      error := None;
    }

    /** The view model's `selectedEvents`, over its own fields. */
    function SelectedEvents(): seq<DetectedEvent>
      reads this
    {
      SelectedOf(events, selectedEventIds)
    }

    /** `load(documentId:)` up to the fetch. */
    method BeginLoad()
      modifies this
      ensures isLoading && error == None
      ensures events == old(events) && selectedEventIds == old(selectedEventIds)
    {
      isLoading := true;
      error := None;
    }

    /** `load(documentId:)` after the fetch: on success the events are replaced and all
        of them are selected; on failure only the error text is set. */
    method FinishLoad(outcome: Result<DetectedEventsData, Failure>)
      modifies this
      ensures !isLoading
      ensures outcome.Ok? ==> events == outcome.value.events && selectedEventIds == Ids(outcome.value.events)
      ensures outcome.Ok? ==> error == old(error) && SelectedEvents() == outcome.value.events
      ensures outcome.Err? ==> events == old(events) && selectedEventIds == old(selectedEventIds)
      ensures outcome.Err? ==> error == Some(LoadErrorText(outcome.error))
    {
      match outcome {
        case Ok(data) =>
          events := data.events;
          selectedEventIds := Ids(data.events);
          LoadSelectsAll(data.events);
        case Err(f) =>
          error := Some(LoadErrorText(f));
      }
      isLoading := false;
    }

    /** `toggle(_:)`. */
    method Toggle(event: DetectedEvent)
      modifies this
      ensures selectedEventIds == Toggled(old(selectedEventIds), event.id)
      ensures events == old(events) && isLoading == old(isLoading) && error == old(error)
    {
      if event.id in selectedEventIds {
        selectedEventIds := selectedEventIds - {event.id};
      } else {
        selectedEventIds := selectedEventIds + {event.id};
      }
    }
  }

  /** Toggling the same event twice restores the selection. */
  lemma ToggleInvolution(selection: set<string>, id: string)
    ensures Toggled(Toggled(selection, id), id) == selection
  {
  }

  /** The filter keeps list order: it distributes over concatenation, and a single
      event is kept exactly when its id is selected. */
  lemma {:induction false} SelectedOfAppend(a: seq<DetectedEvent>, b: seq<DetectedEvent>, selection: set<string>)
    ensures SelectedOf(a + b, selection) == SelectedOf(a, selection) + SelectedOf(b, selection)
  {
    if a == [] {
      assert a + b == b;
    } else {
      assert (a + b)[1..] == a[1..] + b;
      SelectedOfAppend(a[1..], b, selection);
    }
  }

  /** Selected ids with no matching event contribute nothing. */
  lemma {:induction false} SelectedOfIgnoresUnknownIds(events: seq<DetectedEvent>, selection: set<string>)
    ensures SelectedOf(events, selection) == SelectedOf(events, selection * Ids(events))
  {
    if events != [] {
      SelectedOfIgnoresUnknownIds(events[1..], selection);
      SelectedOfSameOnIds(events[1..], selection * Ids(events[1..]), selection * Ids(events));
    }
  }

  /** Two selections that agree on the ids present filter alike. */
  lemma {:induction false} SelectedOfSameOnIds(events: seq<DetectedEvent>, s1: set<string>, s2: set<string>)
    requires forall e :: e in events ==> (e.id in s1 <==> e.id in s2)
    ensures SelectedOf(events, s1) == SelectedOf(events, s2)
  {
    if events != [] {
      assert events[0] in events;
      assert forall e :: e in events[1..] ==> e in events;
      SelectedOfSameOnIds(events[1..], s1, s2);
    }
  }

  /** Right after a successful load every event is selected, in list order. */
  lemma {:induction false} LoadSelectsAll(events: seq<DetectedEvent>)
    ensures SelectedOf(events, Ids(events)) == events
  {
    SelectedOfAllIds(events, Ids(events));
  }

  lemma {:induction false} SelectedOfAllIds(events: seq<DetectedEvent>, selection: set<string>)
    requires Ids(events) <= selection
    ensures SelectedOf(events, selection) == events
  {
    if events != [] {
      assert events[0] in events;
      assert Ids(events[1..]) <= Ids(events) by {
        forall id | id in Ids(events[1..]) ensures id in Ids(events) {
          var e :| e in events[1..] && e.id == id;
          assert e in events;
        }
      }
      SelectedOfAllIds(events[1..], selection);
    }
  }

  /** Events loaded through `fetchDetectedEvents` can fail only with an `APIError`, so
      the error shown is that error's own description. */
  lemma FetchErrorText(e: APIError)
    ensures LoadErrorText(Api(e)) == Description(e)
    ensures forall d :: LoadErrorText(Foreign(d)) == "Failed to load events: " + d
  {
  }
}
