/**
 * The admin list of events: the events fetched from the store, a search box
 * over title and location, and per-row delete. Adding and editing happen on
 * pages of their own.
 */
module EventsAdmin {
  import opened Wrappers
  import opened JsText
  import opened SeqOps
  import opened Store
  import opened Records
  import opened AdminCommon

  const DeletePrompt := "¿Estás seguro de que deseas eliminar este evento?"
  const DeleteFailedAlert := "Error al eliminar el evento"

  function EventId(e: Event): string { e.id }

  predicate Matches(e: Event, term: string) {
    IncludesIgnoringCase(e.title, term) || IncludesIgnoringCase(e.location, term)
  }

  /** The search box: the term in the title or in the location. */
  function SearchEvents(events: seq<Event>, term: string): (r: seq<Event>)
    ensures forall e :: e in r <==> (e in events &&
      (IncludesIgnoringCase(e.title, term) || IncludesIgnoringCase(e.location, term)))
    ensures IsSubsequence(r, events)
    ensures forall e :: multiset(r)[e] == if Matches(e, term) then multiset(events)[e] else 0
  {
    var keep := (e: Event) => Matches(e, term);
    FilterIsSubsequence(events, keep);
    FilterMultiplicity(events, keep);
    Filter(events, keep)
  }

  lemma EmptySearchKeepsAll(events: seq<Event>)
    ensures SearchEvents(events, "") == events
  {
    forall i | 0 <= i < |events| ensures Matches(events[i], "") {
      EmptyQueryMatches(events[i].title);
    }
    FilterAll(events, (e: Event) => Matches(e, ""));
  }

  class EventsPage {
    var events: seq<Event>
    var loading: bool
    var searchTerm: string
    var requests: seq<Call<Event>>
    var alerts: seq<string>
    var confirms: seq<string>

    /** The initial state, and the mount effect's fetch. */
    constructor ()
      ensures events == [] && loading && searchTerm == ""
      ensures requests == [Select] && alerts == [] && confirms == []
    {
      events := [];
      loading := true;
      searchTerm := "";
      requests := [Select];
      alerts := [];
      confirms := [];
    }

    function Shown(): seq<Event>
      reads this
    {
      SearchEvents(events, searchTerm)
    }

    /** The answer to the fetch: an error is only logged. */
    method Fetched(answer: Fetch<Event>)
      modifies this`events, this`loading
      ensures events == AfterFetch(old(events), answer) && !loading
    {
      events := AfterFetch(events, answer);
      loading := false;
    }

    method SearchChanged(term: string)
      modifies this`searchTerm
      ensures searchTerm == term
    {
      searchTerm := term;
    }

    /** A row's delete button: the confirm dialog's answer, then the store's
        answer to the delete. */
    method HandleDelete(id: string, confirmed: bool, answer: Outcome)
      modifies this`events, this`requests, this`alerts, this`confirms
      ensures confirms == old(confirms) + [DeletePrompt]
      ensures !confirmed ==> requests == old(requests) && events == old(events) && alerts == old(alerts)
      ensures confirmed ==> requests == old(requests) + [Delete(id)]
      ensures confirmed && answer.Ok? ==>
        events == RemoveById(old(events), id, EventId) && alerts == old(alerts)
      ensures confirmed && answer.Failed? ==>
        events == old(events) && alerts == old(alerts) + [DeleteFailedAlert]
    {
      confirms := confirms + [DeletePrompt];
      if !confirmed {
        return;
      }
      requests := requests + [Delete(id)];
      if answer.Failed? {
        alerts := alerts + [DeleteFailedAlert];
      } else {
        events := RemoveById(events, id, EventId);
      }
    }
  }
}
