/**
 * The projection of the backend's restaurant records into the featured-event
 * cards (`FeaturedEvents`): one card per record, in order, with a few fields
 * copied and the rest fixed or defaulted.
 */
module FeaturedEvents {
  import opened Optional

  /** A restaurant record as the backend sends it; `capacidad_maxima` may be missing or null. */
  datatype RestauranteApi = RestauranteApi(
    id_restaurante: int,
    nombre: string,
    direccion: string,
    url_imagen: string,
    capacidad_maxima: Option<int>)

  /** The record one card shows. */
  datatype Event = Event(
    id: int,
    title: string,
    address: string,
    image: string,
    currentUsers: int,
    maxUsers: int,
    careers: seq<string>)

  /** The capacity a card shows when the record has none. */
  const DefaultMaxUsers: int := 10

  /** The single career label every card carries. */
  const CareersPorDefecto: seq<string> := ["Disponible para todos"]

  /**
   * `capacidad_maxima || 10`: the record's capacity when it is truthy, the default when
   * it is missing or 0; never 0.
   */
  function MaxUsers(capacidad: Option<int>): (r: int)
    ensures capacidad.Some? && capacidad.value != 0 ==> r == capacidad.value
    ensures capacidad == None || capacidad == Some(0) ==> r == DefaultMaxUsers
    ensures r != 0
  {
    match capacidad
    case Some(n) => if n != 0 then n else DefaultMaxUsers
    case None => DefaultMaxUsers
  }

  /** One card built from one record. */
  function ToEvent(r: RestauranteApi): Event {
    Event(r.id_restaurante, r.nombre, r.direccion, r.url_imagen, 0, MaxUsers(r.capacidad_maxima), CareersPorDefecto)
  }

  /**
   * `data.map(...)`: exactly one card per record, in the same order, with id, title,
   * address and image copied, no current users, the capacity or its default, and the
   * one default career.
   */
  function ToEvents(data: seq<RestauranteApi>): (events: seq<Event>)
    ensures |events| == |data|
    ensures forall i :: 0 <= i < |data| ==>
      events[i].id == data[i].id_restaurante && events[i].title == data[i].nombre &&
      events[i].address == data[i].direccion && events[i].image == data[i].url_imagen
    ensures forall i :: 0 <= i < |data| ==>
      events[i].currentUsers == 0 && events[i].careers == ["Disponible para todos"]
    ensures forall i :: 0 <= i < |data| ==> events[i].maxUsers == MaxUsers(data[i].capacidad_maxima)
    decreases |data|
  {
    if data == [] then []
    else [ToEvent(data[0])] + ToEvents(data[1..])
  }

  /** The cards of a concatenation are the cards of each part, one after the other. */
  lemma {:induction false} ToEventsAppend(a: seq<RestauranteApi>, b: seq<RestauranteApi>)
    ensures ToEvents(a + b) == ToEvents(a) + ToEvents(b)
    decreases |a|
  {
    if a != [] {
      assert (a + b)[1..] == a[1..] + b;
      ToEventsAppend(a[1..], b);
    }
  }
}
