/**
 * The public events section: the events fetched from the store, shown for
 * the selected station's city, each drawn as a card, and the e-mail
 * subscription form posted to an outside form service.
 */
module EventsSection {
  import opened Wrappers
  import opened SeqOps
  import opened Store
  import opened Records

  const SubscribeEndpoint := "https://formspree.io/f/mqedgrkv"
  const RejectedAlert := "Hubo un error al suscribirse. Por favor intenta de nuevo."
  const NetworkAlert := "Hubo un error al suscribirse."

  /** JavaScript truthiness of an optional string. */
  predicate Truthy(s: Option<string>) {
    s.Some? && s.value != ""
  }

  /** `e.city === selectedCity || !e.city`. */
  predicate ShownIn(e: Event, city: City) {
    e.city == Some(city.Name()) || !Truthy(e.city)
  }

  function EventsIn(events: seq<Event>, city: City): (r: seq<Event>)
    ensures forall e :: e in r <==> e in events && (e.city == Some(city.Name()) || !Truthy(e.city))
    ensures IsSubsequence(r, events)
    ensures forall e :: multiset(r)[e] == if ShownIn(e, city) then multiset(events)[e] else 0
  {
    var keep := (e: Event) => ShownIn(e, city);
    FilterIsSubsequence(events, keep);
    FilterMultiplicity(events, keep);
    Filter(events, keep)
  }

  /** An event without a city, or with an empty one, appears under both
      cities. */
  lemma CitylessEventsShowEverywhere(events: seq<Event>, e: Event)
    requires e in events && !Truthy(e.city)
    ensures e in EventsIn(events, Hermosillo) && e in EventsIn(events, Obregon)
  {
  }

  /** An event recorded for one of the two cities appears under that city and
      not under the other. */
  lemma CityEventsShowOnce(events: seq<Event>, e: Event, c: City, selected: City)
    requires e in events && e.city == Some(c.Name())
    ensures e in EventsIn(events, selected) <==> selected == c
  {
  }

  /** Any other city text, such as `Obregon` without its accent, hides the
      event under both cities. */
  lemma OtherCityTextIsHidden(events: seq<Event>, e: Event, selected: City)
    requires e.city == Some("Obregon")
    ensures e !in EventsIn(events, selected)
  {
    assert "Obregon"[5] == 'o' && "Obregón"[5] == 'ó';
  }

  /** What a card draws besides its text: the featured badge, the image and
      the outbound link, each only when its field is set. */
  datatype Card = Card(badge: bool, image: Option<string>, link: Option<string>)

  function CardOf(e: Event): (c: Card)
    ensures c.badge <==> e.featured
    ensures c.image.Some? <==> Truthy(e.imageUrl)
    ensures c.image.Some? ==> c.image == e.imageUrl
    ensures c.link.Some? <==> Truthy(e.link)
    ensures c.link.Some? ==> c.link == e.link
  {
    Card(e.featured, if Truthy(e.imageUrl) then e.imageUrl else None,
      if Truthy(e.link) then e.link else None)
  }

  /** The post's answer: a response with its `ok` flag, or a thrown error. */
  datatype PostAnswer = Response(ok: bool) | NetworkError

  class EventsView {
    var events: seq<Event>
    var selectedCity: City
    var loading: bool
    var email: string
    var isSubmitting: bool
    var submitted: bool
    var requests: seq<Call<Event>>
    /** The addresses posted to the form service, in order. */
    var posts: seq<string>
    var alerts: seq<string>

    /** The initial state, and the mount effect's fetch. */
    constructor ()
      ensures events == [] && selectedCity == Hermosillo && loading
      ensures email == "" && !isSubmitting && !submitted
      ensures requests == [Select] && posts == [] && alerts == []
    {
      events := [];
      selectedCity := Hermosillo;
      loading := true;
      email := "";
      isSubmitting := false;
      submitted := false;
      requests := [Select];
      posts := [];
      alerts := [];
    }

    function Shown(): seq<Event>
      reads this
    {
      EventsIn(events, selectedCity)
    }

    /** The answer to the fetch: a thrown error is only logged. */
    method Fetched(answer: Fetch<Event>)
      modifies this`events, this`loading
      ensures events == AfterFetch(old(events), answer) && !loading
    {
      events := AfterFetch(events, answer);
      loading := false;
    }

    /** The Hermosillo and Obregón buttons. */
    method SelectCity(city: City)
      modifies this`selectedCity
      ensures selectedCity == city
    {
      selectedCity := city;
    }

    method EmailChanged(value: string)
      modifies this`email
      ensures email == value
    {
      email := value;
    }

    /** The form's submit, with the form service's answer to the post. */
    method HandleSubmit(answer: PostAnswer)
      modifies this`isSubmitting, this`submitted, this`email, this`posts, this`alerts
      ensures posts == old(posts) + [old(email)]
      ensures !isSubmitting
      ensures answer == Response(true) ==> submitted && email == "" && alerts == old(alerts)
      ensures answer == Response(false) ==>
        submitted == old(submitted) && email == old(email) && alerts == old(alerts) + [RejectedAlert]
      ensures answer.NetworkError? ==>
        submitted == old(submitted) && email == old(email) && alerts == old(alerts) + [NetworkAlert]
    {
      isSubmitting := true;
      posts := posts + [email];
      match answer {
        case Response(ok) =>
          if ok {
            submitted := true;
            email := "";
          } else {
            alerts := alerts + [RejectedAlert];
          }
        case NetworkError =>
          alerts := alerts + [NetworkAlert];
      }
      isSubmitting := false;
    }
  }
}
