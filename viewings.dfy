/** The viewings map screen: viewing appointments shown as coloured map
    markers and as cards, a selected viewing and the visible map region. */
module Viewings {
  import opened Arrays
  import Theme

  datatype Status = Scheduled | Pending | Completed
  datatype PropertyType = House | Apartment | Condo | Commercial

  /** Latitudes, longitudes and their spans are only ever copied and
      compared, never computed with. */
  datatype Coordinate = Coordinate(latitude: real, longitude: real)
  datatype Region = Region(latitude: real, longitude: real, latitudeDelta: real, longitudeDelta: real)

  datatype Viewing = Viewing(
    id: string,
    title: string,
    address: string,
    price: string,
    date: string,
    time: string,
    agent: string,
    status: Status,
    coordinate: Coordinate,
    propertyType: PropertyType)

  /** The region the map opens on, over Los Angeles. */
  const InitialRegion: Region := Region(34.0522, -118.2437, 0.5, 0.5)

  /** The span "View on Map" zooms to. */
  const CloseUpDelta: real := 0.01

  /** The marker and status-badge colour of a viewing. */
  function MarkerColor(status: Status): (color: string)
    ensures color == Theme.PrimaryOrange <==> status == Scheduled
    ensures color == Theme.AccentYellow <==> status == Pending
    ensures color == Theme.SemanticSuccess <==> status == Completed
  {
    match status
    case Scheduled => Theme.PrimaryOrange
    case Pending => Theme.AccentYellow
    case Completed => Theme.SemanticSuccess
  }

  /** The icon name drawn for a kind of property. */
  function PropertyIcon(propertyType: PropertyType): string
  {
    match propertyType
    case House => "home"
    case Apartment => "business"
    case Condo => "business-outline"
    case Commercial => "storefront"
  }

  /** The icon name drawn on a viewing's status badge. */
  function StatusIcon(status: Status): string
  {
    match status
    case Scheduled => "calendar"
    case Pending => "time"
    case Completed => "checkmark-circle"
  }

  /** Different statuses get different marker colours, and different
      badge icons. */
  lemma StatusMarksDistinct(s: Status, t: Status)
    requires s != t
    ensures MarkerColor(s) != MarkerColor(t)
    ensures StatusIcon(s) != StatusIcon(t)
  {
  }

  /** Different kinds of property get different icons. */
  lemma PropertyIconInjective(a: PropertyType, b: PropertyType)
    requires PropertyIcon(a) == PropertyIcon(b)
    ensures a == b
  {
  }

  /** The label a legend entry shows for a status. */
  function StatusLabel(status: Status): string
  {
    match status
    case Scheduled => "Scheduled"
    case Pending => "Pending"
    case Completed => "Completed"
  }

  /** The legend under the map: a colour dot and a label per status. */
  const Legend: seq<(string, string)> := [
    (Theme.PrimaryOrange, "Scheduled"),
    (Theme.AccentYellow, "Pending"),
    (Theme.SemanticSuccess, "Completed")
  ]

  /** The statuses, in the order the legend lists them. */
  const Statuses: seq<Status> := [Scheduled, Pending, Completed]

  /** Each legend entry's dot has exactly the marker colour of the status its
      label names, and every status has an entry. */
  lemma LegendMatchesMarkers()
    ensures |Legend| == |Statuses|
    ensures forall k :: 0 <= k < |Legend| ==> Legend[k].1 == StatusLabel(Statuses[k])
    ensures forall k :: 0 <= k < |Legend| ==> Legend[k].0 == MarkerColor(Statuses[k])
    ensures forall s: Status :: s in Statuses
  {
    forall s: Status
      ensures s in Statuses
    {
      match s
      case Scheduled => assert Statuses[0] == s;
      case Pending => assert Statuses[1] == s;
      case Completed => assert Statuses[2] == s;
    }
  }

  /** The second button on a card. */
  function SecondaryAction(v: Viewing): string
  {
    if v.status == Completed then "View Details" else "Reschedule"
  }

  /** The "Upcoming Viewings" cards: every viewing that is not completed,
      in order. */
  function Upcoming(viewings: seq<Viewing>): (r: seq<Viewing>)
    ensures IsSublist(r, viewings)
    ensures forall v :: v in r <==> v in viewings && v.status != Completed
    ensures forall v :: multiset(r)[v] == if v.status != Completed then multiset(viewings)[v] else 0
  {
    var notDone := (v: Viewing) => v.status != Completed;
    FilterIsSublist(notDone, viewings);
    Filter(notDone, viewings)
  }

  /** Every upcoming card offers "Reschedule": "View Details" is only for
      completed viewings, and those are not shown. */
  lemma UpcomingOffersReschedule(viewings: seq<Viewing>)
    ensures forall v :: v in Upcoming(viewings) ==> SecondaryAction(v) == "Reschedule"
  {
  }

  /** The number of scheduled viewings, counted one viewing at a time. */
  function CountScheduled(viewings: seq<Viewing>): nat
    decreases |viewings|
  {
    if viewings == [] then 0
    else (if viewings[0].status == Scheduled then 1 else 0) + CountScheduled(viewings[1..])
  }

  lemma {:induction false} FilterScheduledCounts(viewings: seq<Viewing>)
    ensures |Filter((v: Viewing) => v.status == Scheduled, viewings)| == CountScheduled(viewings)
    decreases |viewings|
  {
    if viewings != [] {
      FilterScheduledCounts(viewings[1..]);
    }
  }

  /** The header's "N scheduled viewings": the number of scheduled viewings,
      no more than the upcoming cards. */
  function ScheduledCount(viewings: seq<Viewing>): (n: nat)
    ensures n == CountScheduled(viewings)
    ensures n <= |Upcoming(viewings)| <= |viewings|
    ensures n == 0 <==> forall v :: v in viewings ==> v.status != Scheduled
  {
    var scheduled := (v: Viewing) => v.status == Scheduled;
    var notDone := (v: Viewing) => v.status != Completed;
    FilterScheduledCounts(viewings);
    FilterMonotone(scheduled, notDone, viewings);
    SublistLength(Filter(scheduled, viewings), Filter(notDone, viewings));
    FilterIsSublist(notDone, viewings);
    SublistLength(Filter(notDone, viewings), viewings);
    |Filter(scheduled, viewings)|
  }

  /** The region "View on Map" moves to: centred on the coordinate, zoomed in. */
  function CloseUpOn(c: Coordinate): Region
  {
    Region(c.latitude, c.longitude, CloseUpDelta, CloseUpDelta)
  }

  /** The viewing whose callout is open, if any. */
  datatype Selection = NoSelection | Selected(viewing: Viewing)

  /** The screen's state over its fixed list of viewings. */
  class ViewingsMapScreen {
    const viewings: seq<Viewing>
    var selectedViewing: Selection
    var mapRegion: Region

    /** Only a viewing from the list can be selected. */
    ghost predicate Valid()
      reads this
    {
      selectedViewing.Selected? ==> selectedViewing.viewing in viewings
    }

    /** The screen opens on the initial region with nothing selected. */
    constructor (viewings: seq<Viewing>)
      ensures Valid()
      ensures this.viewings == viewings
      ensures selectedViewing == NoSelection && mapRegion == InitialRegion
    {
      this.viewings := viewings;
      selectedViewing := NoSelection;
      mapRegion := InitialRegion;
    }

    /** "View on Map" on an upcoming card: select the viewing and zoom the
        map onto it. */
    method ViewOnMap(v: Viewing)
      requires Valid()
      requires v in Upcoming(viewings)
      modifies this
      ensures Valid()
      ensures selectedViewing == Selected(v)
      ensures mapRegion == CloseUpOn(v.coordinate)
      ensures mapRegion.latitude == v.coordinate.latitude && mapRegion.longitude == v.coordinate.longitude
      ensures mapRegion.latitudeDelta == mapRegion.longitudeDelta == 0.01
    {
      mapRegion := CloseUpOn(v.coordinate);
      selectedViewing := Selected(v);
    }

    /** A marker was pressed: select its viewing, leave the map where it is. */
    method PressMarker(v: Viewing)
      requires Valid()
      requires v in viewings
      modifies this
      ensures Valid()
      ensures selectedViewing == Selected(v) && mapRegion == old(mapRegion)
    {
      selectedViewing := Selected(v);
    }

    /** The locate button: back to the initial region, selection kept. */
    method Locate()
      requires Valid()
      modifies this
      ensures Valid()
      ensures mapRegion == InitialRegion && selectedViewing == old(selectedViewing)
    {
      mapRegion := InitialRegion;
    }

    /** The map reports a region the user panned or zoomed to. */
    method RegionChanged(region: Region)
      requires Valid()
      modifies this
      ensures Valid()
      ensures mapRegion == region && selectedViewing == old(selectedViewing)
    {
      mapRegion := region;
    }
  }

  /** Whatever the user does on the map, the locate button brings back
      exactly the region the screen opened on, and keeps the selection. */
  method LocateRestoresInitialRegion(viewings: seq<Viewing>, v: Viewing, panned: Region)
    returns (region: Region, selection: Selection)
    requires v in Upcoming(viewings)
    ensures region == InitialRegion && selection == Selected(v)
  {
    var screen := new ViewingsMapScreen(viewings);
    screen.ViewOnMap(v);
    screen.RegionChanged(panned);
    screen.PressMarker(v);
    screen.Locate();
    region, selection := screen.mapRegion, screen.selectedViewing;
  }
}
