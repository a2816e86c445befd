/**
 * The search results screen: the cars of the city the coordinates fall in, narrowed to
 * the chosen vehicle type and to the city's radius; the radius estimated from the
 * reverse-geocoded place; the displayed EV price; and the filter sheet that edits the
 * search parameters.
 */
module Search {
  import opened Wrappers
  import opened Text
  import LocationSearch

  // ---------------------------------------------------------------------------
  // Cars by city
  // ---------------------------------------------------------------------------

  /** A car of the catalogue. */
  datatype Car = Car(id: string, name: string, brand: string, carType: string, price: nat, rating: real,
                     lat: real, lon: real, available: bool, year: nat, imageUrl: string)

  /** The catalogue, one list per supported city. */
  datatype Catalogue = Catalogue(newYork: seq<Car>, london: seq<Car>)

  /** The New York box, inclusive on all four sides. */
  predicate InNewYork(lat: real, lon: real) {
    40.5 <= lat <= 40.9 && -74.3 <= lon <= -73.7
  }

  /** The London box, inclusive on all four sides. */
  predicate InLondon(lat: real, lon: real) {
    51.3 <= lat <= 51.7 && -0.5 <= lon <= 0.3
  }

  /**
   * The cars of the city whose box holds the coordinates: New York is tried first, then
   * London, and elsewhere there are none. A coordinate that is NaN (`None`) fails every
   * comparison.
   */
  function CityCars(cat: Catalogue, lat: Option<real>, lon: Option<real>): (r: seq<Car>)
    ensures lat.Some? && lon.Some? && InNewYork(lat.value, lon.value) ==> r == cat.newYork
    ensures lat.Some? && lon.Some? && InLondon(lat.value, lon.value) ==> r == cat.london
    ensures !(lat.Some? && lon.Some? && (InNewYork(lat.value, lon.value) || InLondon(lat.value, lon.value))) ==> r == []
  {
    if lat.Some? && lon.Some? && InNewYork(lat.value, lon.value) then cat.newYork
    else if lat.Some? && lon.Some? && InLondon(lat.value, lon.value) then cat.london
    else []
  }

  /** `s.filter(keep)`: the elements that satisfy `keep`, in their order. */
  function Filter<T>(s: seq<T>, keep: T -> bool): (r: seq<T>)
    ensures |r| <= |s|
    ensures forall i | 0 <= i < |r| :: keep(r[i]) && r[i] in s
    ensures forall i | 0 <= i < |s| :: keep(s[i]) ==> s[i] in r
  {
    if s == [] then [] else (if keep(s[0]) then [s[0]] else []) + Filter(s[1..], keep)
  }

  /** Filtering keeps the order: it distributes over concatenation. */
  lemma {:induction false} FilterAppend<T>(a: seq<T>, b: seq<T>, keep: T -> bool)
    ensures Filter(a + b, keep) == Filter(a, keep) + Filter(b, keep)
  {
    if a != [] {
      FilterAppend(a[1..], b, keep);
      assert (a + b)[0] == a[0];
      assert (a + b)[1..] == a[1..] + b;
      assert Filter(a + b, keep) == (if keep(a[0]) then [a[0]] else []) + Filter(a[1..] + b, keep);
    } else {
      assert a + b == b;
    }
  }

  /** Types compared as `String(x).toLowerCase()`. */
  predicate SameType(carType: string, vehicleType: string) {
    Lower(carType) == Lower(vehicleType)
  }

  /** The type filter: with a vehicle type, the cars of that type in any letter case; without one, all. */
  function TypeFilter(cars: seq<Car>, vehicleType: Option<string>): (r: seq<Car>)
    ensures !Truthy(vehicleType) ==> r == cars
  {
    if Truthy(vehicleType) then Filter(cars, (c: Car) => SameType(c.carType, vehicleType.value)) else cars
  }

  /** With a vehicle type, a car is kept exactly when its type matches. */
  lemma TypeFilterExact(cars: seq<Car>, vehicleType: string, c: Car)
    requires vehicleType != ""
    ensures c in TypeFilter(cars, Some(vehicleType)) <==> c in cars && SameType(c.carType, vehicleType)
  {
    var r := TypeFilter(cars, Some(vehicleType));
    if c in r {
      var i :| 0 <= i < |r| && r[i] == c;
    }
    if c in cars && SameType(c.carType, vehicleType) {
      var i :| 0 <= i < |cars| && cars[i] == c;
    }
  }

  /** A car as shown in the results, with its distance. */
  datatype Rental = Rental(id: string, name: string, carType: string, price: nat, rating: real,
                           distance: real, available: bool, year: nat, imageUrl: string)

  function ToRental(c: Car, distance: real): Rental {
    Rental(c.id, c.name, c.carType, c.price, c.rating, distance, c.available, c.year, c.imageUrl)
  }

  /**
   * The cars within `radius` of the search point, as results. The distance of each car
   * is a parameter.
   */
  function WithinRadius(cars: seq<Car>, distance: Car -> real, radius: real): (r: seq<Rental>)
    ensures |r| <= |cars|
    ensures forall i | 0 <= i < |r| :: r[i].distance <= radius
  {
    if cars == [] then []
    else
      (if distance(cars[0]) <= radius then [ToRental(cars[0], distance(cars[0]))] else [])
      + WithinRadius(cars[1..], distance, radius)
  }

  /** `x` is the result made from one of `cars`. */
  predicate FromCars(x: Rental, cars: seq<Car>, distance: Car -> real) {
    exists k | 0 <= k < |cars| :: x == ToRental(cars[k], distance(cars[k]))
  }

  /**
   * A car is among the results exactly when it lies within the radius: each car within
   * it gives a result, and each result comes from one of the cars.
   */
  lemma {:induction false} WithinRadiusExact(cars: seq<Car>, distance: Car -> real, radius: real, c: Car)
    ensures ToRental(c, distance(c)) in WithinRadius(cars, distance, radius)
            <== c in cars && distance(c) <= radius
    ensures forall x | x in WithinRadius(cars, distance, radius) :: FromCars(x, cars, distance)
  {
    if cars != [] {
      WithinRadiusExact(cars[1..], distance, radius, c);
      var r := WithinRadius(cars, distance, radius);
      var head := if distance(cars[0]) <= radius then [ToRental(cars[0], distance(cars[0]))] else [];
      var rest := WithinRadius(cars[1..], distance, radius);
      assert r == head + rest;
      forall x | x in r
        ensures FromCars(x, cars, distance)
      {
        var i :| 0 <= i < |r| && r[i] == x;
        if i < |head| {
          assert r[i] == ToRental(cars[0], distance(cars[0]));
        } else {
          assert r[i] == rest[i - |head|];
          assert rest[i - |head|] in rest;
          assert FromCars(rest[i - |head|], cars[1..], distance);
          var k :| 0 <= k < |cars[1..]| && rest[i - |head|] == ToRental(cars[1..][k], distance(cars[1..][k]));
          assert cars[1..][k] == cars[k + 1];
          assert r[i] == ToRental(cars[k + 1], distance(cars[k + 1]));
        }
      }
      if c in cars && distance(c) <= radius && c != cars[0] {
        assert c in cars[1..];
      }
    }
  }

  // ---------------------------------------------------------------------------
  // The city radius
  // ---------------------------------------------------------------------------

  /** The parts of the reverse-geocoder's address that the radius depends on. */
  datatype Address = Address(city: Option<string>, town: Option<string>, municipality: Option<string>,
                             village: Option<string>, country: Option<string>)

  /** The geocoder's reply: a JSON object with an optional address, or a failed request or parse. */
  datatype GeoReply = Failed | Reply(address: Option<Address>)

  datatype Coordinates = Coordinates(lat: Option<real>, lon: Option<real>)

  /** What `getCityBoundaries` returns. */
  datatype CityData = CityData(name: Option<string>, country: Option<string>, radius: real, coordinates: Option<Coordinates>)

  /** `data.address?.city || data.address?.town || data.address?.municipality`. */
  function CityName(address: Option<Address>): Option<string> {
    if address.None? then None
    else Or(Or(address.value.city, address.value.town), address.value.municipality)
  }

  function Country(address: Option<Address>): Option<string> {
    if address.None? then None else address.value.country
  }

  /** The radius by kind of place, in km: a named city 40, a town 20, a village 10, otherwise 25. */
  function KindRadius(address: Option<Address>): real {
    if !Truthy(CityName(address)) then 25.0
    else if Truthy(address.value.city) then 40.0
    else if Truthy(address.value.town) then 20.0
    else if Truthy(address.value.village) then 10.0
    else 25.0
  }

  /** The factor by country, applied only to a named place. */
  function CountryFactor(address: Option<Address>): real {
    var country := Country(address);
    if !Truthy(CityName(address)) then 1.0
    else if country == Some("United States") then 1.5
    else if country == Some("China") || country == Some("India") then 1.3
    else if country == Some("Australia") || country == Some("Canada") then 1.2
    else 1.0
  }

  /**
   * `getCityBoundaries`: the place's name and country, and a radius of its kind's base
   * times its country's factor; a failed request gives "Unknown City" and 25 km.
   */
  method GetCityBoundaries(lat: Option<real>, lon: Option<real>, reply: GeoReply) returns (city: CityData)
    ensures reply.Failed? ==> city == CityData(Some("Unknown City"), None, 25.0, None)
    ensures reply.Reply? ==> city.name == CityName(reply.address) && city.country == Country(reply.address)
                             && city.coordinates == Some(Coordinates(lat, lon))
    ensures reply.Reply? ==> city.radius == KindRadius(reply.address) * CountryFactor(reply.address)
    ensures 10.0 <= city.radius <= 60.0
  {
    if reply.Failed? {
      return CityData(Some("Unknown City"), None, 25.0, None);
    }
    var address := reply.address;
    var cityName := CityName(address);
    var country := Country(address);
    var estimatedRadius := 25.0;
    if Truthy(cityName) {
      if Truthy(address.value.city) {
        estimatedRadius := 40.0;
      } else if Truthy(address.value.town) {
        estimatedRadius := 20.0;
      } else if Truthy(address.value.village) {
        estimatedRadius := 10.0;
      }
      if country == Some("United States") {
        estimatedRadius := estimatedRadius * 1.5;
      } else if country == Some("China") || country == Some("India") {
        estimatedRadius := estimatedRadius * 1.3;
      } else if country == Some("Australia") || country == Some("Canada") {
        estimatedRadius := estimatedRadius * 1.2;
      }
    }
    city := CityData(cityName, country, estimatedRadius, Some(Coordinates(lat, lon)));
  }

  /** Without a city, town or municipality name the radius stays 25 km, whatever the country. */
  lemma UnnamedPlaceRadius(address: Option<Address>)
    requires !Truthy(CityName(address))
    ensures KindRadius(address) * CountryFactor(address) == 25.0
  {
  }

  /** The largest radius is a US city's 60 km; the smallest a village's 10 km. */
  lemma RadiusExtremes(address: Address)
    ensures Truthy(address.city) && address.country == Some("United States")
            ==> KindRadius(Some(address)) * CountryFactor(Some(address)) == 60.0
    ensures !Truthy(address.city) && !Truthy(address.town) && Truthy(address.municipality) && Truthy(address.village)
            && address.country == Some("France")
            ==> KindRadius(Some(address)) * CountryFactor(Some(address)) == 10.0
  {
  }

  // ---------------------------------------------------------------------------
  // The EV price
  // ---------------------------------------------------------------------------

  /** `Math.round(price * 0.88)`, in integers: 88% rounded half up. */
  function EvPrice(price: nat): (r: nat) {
    (88 * price + 50) / 100
  }

  /** The displayed daily price: EV cars (type "ev" in any case) get 12% off, others pay the list price. */
  function DisplayPrice(carType: string, price: nat): (r: nat)
    ensures r <= price
  {
    EvPriceNearest(price);
    if Lower(carType) == "ev" then EvPrice(price) else price
  }

  /**
   * The EV price is the integer nearest to 88% of the price: 88p never ends in exactly
   * 50 hundredths, so there is no tie and it is strictly within half a unit.
   */
  lemma EvPriceNearest(price: nat)
    ensures -50 < 100 * EvPrice(price) - 88 * price < 50
    ensures EvPrice(price) <= price
  {
    var q := EvPrice(price);
    assert 100 * q <= 88 * price + 50 < 100 * q + 100;
    if 100 * q == 88 * price + 50 {
      assert false;
    }
  }

  /** No other integer is as close: the EV price is the unique nearest. */
  lemma EvPriceUnique(price: nat, n: int)
    requires -50 < 100 * n - 88 * price < 50
    ensures n == EvPrice(price)
  {
    EvPriceNearest(price);
  }

  // ---------------------------------------------------------------------------
  // The screen and its filter sheet
  // ---------------------------------------------------------------------------

  /** The route parameters; every one may be absent. */
  datatype Params = Params(startDate: Option<string>, endDate: Option<string>, pickupTime: Option<string>,
                           dropoffTime: Option<string>, pickupLocation: Option<string>,
                           latitude: Option<string>, longitude: Option<string>, vehicleType: Option<string>)

  /** `x || null`. */
  function OrNull(x: Option<string>): (r: Option<string>)
    ensures r.None? || Truthy(r)
  {
    if Truthy(x) then x else None
  }

  /** `x || fallback` for a string. */
  function OrText(x: Option<string>, fallback: string): (r: string) {
    if Truthy(x) then x.value else fallback
  }

  /** `String(n)` for a coordinate; NaN prints as "NaN". Printing a number is a parameter. */
  function NumberText(n: Option<real>, show: real -> string): string {
    if n.Some? then show(n.value) else "NaN"
  }

  /** The filter sheet's draft: vehicle type, pickup place, dates and times. */
  datatype Draft = Draft(vehicle: Option<string>, pickup: Option<LocationSearch.Suggestion>,
                         startDate: Option<string>, endDate: Option<string>, pickupTime: string, dropoffTime: string)

  /**
   * Opening the filter sheet: the draft starts from the parameters, times default to
   * "10:00", and the pickup is the current place only when both coordinates are given.
   * `number` is JavaScript's `Number` on a coordinate text.
   */
  function OpenDraft(p: Params, number: string -> Option<real>): (d: Draft)
    ensures d.pickup.Some? <==> Truthy(p.latitude) && Truthy(p.longitude)
    ensures d.pickup.Some? ==> d.pickup.value.lat == number(p.latitude.value) && d.pickup.value.lon == number(p.longitude.value)
                               && d.pickup.value.labelText == OrText(p.pickupLocation, "")
    ensures d.pickupTime != "" && d.dropoffTime != ""
  {
    Draft(OrNull(p.vehicleType),
          if Truthy(p.latitude) && Truthy(p.longitude) then
            Some(LocationSearch.Suggestion("current", OrText(p.pickupLocation, ""), number(p.latitude.value),
                                           number(p.longitude.value), LocationSearch.City))
          else None,
          OrNull(p.startDate), OrNull(p.endDate),
          OrText(p.pickupTime, "10:00"), OrText(p.dropoffTime, "10:00"))
  }

  /**
   * Apply: the new parameters come from the draft; the place's label and coordinates
   * from the draft pickup when there is one, else from the old parameters; anything
   * missing becomes "".
   */
  function ApplyParams(d: Draft, p: Params, show: real -> string): (q: Params)
    ensures q.latitude.Some? && q.longitude.Some? && q.vehicleType.Some? && q.startDate.Some? && q.endDate.Some?
    ensures d.pickup.Some? ==> q.latitude.value == NumberText(d.pickup.value.lat, show)
                               && q.longitude.value == NumberText(d.pickup.value.lon, show)
    ensures d.pickup.None? ==> q.latitude.value == OrText(p.latitude, "") && q.longitude.value == OrText(p.longitude, "")
    ensures Truthy(d.startDate) ==> q.startDate == d.startDate
    ensures !Truthy(d.startDate) ==> q.startDate == Some("")
    ensures Truthy(d.endDate) ==> q.endDate == d.endDate
    ensures !Truthy(d.endDate) ==> q.endDate == Some("")
    ensures Truthy(d.vehicle) ==> q.vehicleType == d.vehicle
    ensures !Truthy(d.vehicle) ==> q.vehicleType == Some("")
    ensures q.pickupTime == Some(d.pickupTime) && q.dropoffTime == Some(d.dropoffTime)
    ensures d.pickup.Some? && d.pickup.value.labelText != "" ==> q.pickupLocation == Some(d.pickup.value.labelText)
    ensures !(d.pickup.Some? && d.pickup.value.labelText != "") ==>
              (Truthy(p.pickupLocation) ==> q.pickupLocation == p.pickupLocation)
              && (!Truthy(p.pickupLocation) ==> q.pickupLocation == Some(""))
  {
    var place := if d.pickup.Some? && d.pickup.value.labelText != "" then d.pickup.value.labelText
                 else OrText(p.pickupLocation, "");
    Params(Some(OrText(d.startDate, "")), Some(OrText(d.endDate, "")), Some(d.pickupTime), Some(d.dropoffTime),
           Some(place),
           Some(if d.pickup.Some? then NumberText(d.pickup.value.lat, show) else OrText(p.latitude, "")),
           Some(if d.pickup.Some? then NumberText(d.pickup.value.lon, show) else OrText(p.longitude, "")),
           Some(OrText(d.vehicle, "")))
  }

  /**
   * Applying a draft and opening the sheet again gives the same draft back: its type,
   * dates and times, and its pickup's coordinates and label, provided the pickup's
   * coordinates print as non-empty text that reads back as the same number (as
   * JavaScript's shortest round-trip printing does for finite numbers).
   */
  lemma OpenAfterApply(d: Draft, p: Params, show: real -> string, number: string -> Option<real>)
    requires d.pickup.Some? && d.pickup.value.lat.Some? ==> number(show(d.pickup.value.lat.value)) == d.pickup.value.lat
    requires d.pickup.Some? && d.pickup.value.lon.Some? ==> number(show(d.pickup.value.lon.value)) == d.pickup.value.lon
    requires d.pickup.Some? && d.pickup.value.lat.Some? ==> show(d.pickup.value.lat.value) != ""
    requires d.pickup.Some? && d.pickup.value.lon.Some? ==> show(d.pickup.value.lon.value) != ""
    requires number("NaN") == None
    requires d.vehicle.None? || Truthy(d.vehicle)
    requires d.startDate.None? || Truthy(d.startDate)
    requires d.endDate.None? || Truthy(d.endDate)
    requires d.pickupTime != "" && d.dropoffTime != ""
    ensures var e := OpenDraft(ApplyParams(d, p, show), number);
            e.vehicle == d.vehicle && e.startDate == d.startDate && e.endDate == d.endDate
            && e.pickupTime == d.pickupTime && e.dropoffTime == d.dropoffTime
    ensures var e := OpenDraft(ApplyParams(d, p, show), number);
            d.pickup.Some? ==> e.pickup.Some? && e.pickup.value.lat == d.pickup.value.lat
                               && e.pickup.value.lon == d.pickup.value.lon
                               && (d.pickup.value.labelText != "" ==> e.pickup.value.labelText == d.pickup.value.labelText)
  {
  }

  class SearchScreen {
    var loading: bool
    var carRentals: seq<Rental>
    var cityInfo: Option<CityData>
    var showFilter: bool
    var showCalendar: bool
    var draftVehicle: Option<string>
    var draftPickup: Option<LocationSearch.Suggestion>
    var draftStartDate: Option<string>
    var draftEndDate: Option<string>
    var draftPickupTime: string
    var draftDropoffTime: string

    function CurrentDraft(): Draft
      reads this
    {
      Draft(draftVehicle, draftPickup, draftStartDate, draftEndDate, draftPickupTime, draftDropoffTime)
    }

    /** The first render: loading, no results, and a draft taken from the parameters without a pickup. */
    constructor(p: Params)
      ensures loading && carRentals == [] && cityInfo.None? && !showFilter && !showCalendar
      ensures CurrentDraft() == OpenDraft(p, _ => None).(pickup := None)
    {
      loading := true;
      carRentals := [];
      cityInfo := None;
      showFilter := false;
      showCalendar := false;
      draftVehicle := OrNull(p.vehicleType);
      draftPickup := None;
      draftStartDate := OrNull(p.startDate);
      draftEndDate := OrNull(p.endDate);
      draftPickupTime := OrText(p.pickupTime, "10:00");
      draftDropoffTime := OrText(p.dropoffTime, "10:00");
    }

    /**
     * `fetchCarRentals`: the results are the cars of the city box, of the chosen type,
     * within the city's radius, in catalogue order; loading ends.
     */
    method FetchCarRentals(p: Params, reply: GeoReply, cat: Catalogue,
                           number: string -> Option<real>, distance: Car -> real)
      requires p.latitude.Some? && p.longitude.Some?
      modifies this
      ensures !loading && cityInfo.Some?
      ensures reply.Failed? ==> cityInfo == Some(CityData(Some("Unknown City"), None, 25.0, None))
      ensures reply.Reply? ==> cityInfo.value.name == CityName(reply.address) && cityInfo.value.country == Country(reply.address)
                               && cityInfo.value.coordinates == Some(Coordinates(number(p.latitude.value), number(p.longitude.value)))
      ensures reply.Reply? ==> cityInfo.value.radius == KindRadius(reply.address) * CountryFactor(reply.address)
      ensures carRentals == WithinRadius(TypeFilter(CityCars(cat, number(p.latitude.value), number(p.longitude.value)),
                                                    p.vehicleType),
                                         distance, cityInfo.value.radius)
      ensures forall i | 0 <= i < |carRentals| :: carRentals[i].distance <= cityInfo.value.radius <= 60.0
      ensures CurrentDraft() == old(CurrentDraft()) && showFilter == old(showFilter) && showCalendar == old(showCalendar)
    {
      loading := true;
      var lat := number(p.latitude.value);
      var lon := number(p.longitude.value);
      var cityData := GetCityBoundaries(lat, lon, reply);
      cityInfo := Some(cityData);
      var searchRadius := cityData.radius;
      var availableCars: seq<Car>;
      if lat.Some? && lon.Some? && InNewYork(lat.value, lon.value) {
        availableCars := cat.newYork;
      } else if lat.Some? && lon.Some? && InLondon(lat.value, lon.value) {
        availableCars := cat.london;
      } else {
        availableCars := [];
      }
      var filteredByType := TypeFilter(availableCars, p.vehicleType);
      carRentals := WithinRadius(filteredByType, distance, searchRadius);
      loading := false;
    }

    /** The effect on the coordinates and type: a search runs only when both coordinates are given. */
    method OnSearchParams(p: Params, reply: GeoReply, cat: Catalogue,
                          number: string -> Option<real>, distance: Car -> real)
      modifies this
      ensures !(Truthy(p.latitude) && Truthy(p.longitude)) ==> carRentals == old(carRentals) && loading == old(loading)
                                                               && cityInfo == old(cityInfo)
      ensures Truthy(p.latitude) && Truthy(p.longitude) ==> !loading && cityInfo.Some?
      ensures CurrentDraft() == old(CurrentDraft())
    {
      if Truthy(p.latitude) && Truthy(p.longitude) {
        FetchCarRentals(p, reply, cat, number, distance);
      }
    }

    /** The filter button: the draft is reset from the parameters and the sheet opens. */
    method OpenFilters(p: Params, number: string -> Option<real>)
      modifies this
      ensures CurrentDraft() == OpenDraft(p, number) && showFilter
      ensures carRentals == old(carRentals) && cityInfo == old(cityInfo) && showCalendar == old(showCalendar)
    {
      draftVehicle := OrNull(p.vehicleType);
      draftStartDate := OrNull(p.startDate);
      draftEndDate := OrNull(p.endDate);
      draftPickupTime := OrText(p.pickupTime, "10:00");
      draftDropoffTime := OrText(p.dropoffTime, "10:00");
      var latStr := p.latitude;
      var lonStr := p.longitude;
      if Truthy(latStr) && Truthy(lonStr) {
        draftPickup := Some(LocationSearch.Suggestion("current", OrText(p.pickupLocation, ""), number(latStr.value),
                                                      number(lonStr.value), LocationSearch.City));
      } else {
        draftPickup := None;
      }
      showFilter := true;
    }

    /** The Apply button: the parameters are replaced from the draft and the sheet closes. */
    method ApplyFilters(p: Params, show: real -> string) returns (next: Params)
      modifies this
      ensures next == ApplyParams(CurrentDraft(), p, show)
      ensures !showFilter && CurrentDraft() == old(CurrentDraft())
      ensures carRentals == old(carRentals) && cityInfo == old(cityInfo)
    {
      next := ApplyParams(CurrentDraft(), p, show);
      showFilter := false;
    }

    /** The filter sheet's close and Cancel buttons: the sheet closes and the draft is kept. */
    method CloseFilters()
      modifies this
      ensures !showFilter
      ensures CurrentDraft() == old(CurrentDraft()) && showCalendar == old(showCalendar)
      ensures carRentals == old(carRentals) && cityInfo == old(cityInfo) && loading == old(loading)
    {
      showFilter := false;
    }

    /** A place chosen in the sheet's location picker becomes the draft pickup. */
    method OnDraftPickup(s: LocationSearch.Suggestion)
      modifies this
      ensures CurrentDraft() == old(CurrentDraft()).(pickup := Some(s))
      ensures showFilter == old(showFilter) && showCalendar == old(showCalendar)
    {
      draftPickup := Some(s);
    }

    /** A vehicle type chosen in the sheet's grid becomes the draft vehicle. */
    method OnDraftVehicle(v: Option<string>)
      modifies this
      ensures CurrentDraft() == old(CurrentDraft()).(vehicle := v)
      ensures showFilter == old(showFilter) && showCalendar == old(showCalendar)
    {
      draftVehicle := v;
    }

    /** The dates field opens the calendar. */
    method OpenCalendar()
      modifies this
      ensures showCalendar
      ensures CurrentDraft() == old(CurrentDraft()) && showFilter == old(showFilter)
    {
      showCalendar := true;
    }

    /** The calendar closes without confirming: the draft dates and times are kept. */
    method CloseCalendar()
      modifies this
      ensures !showCalendar
      ensures CurrentDraft() == old(CurrentDraft()) && showFilter == old(showFilter)
    {
      showCalendar := false;
    }

    /** The calendar's Confirm: the draft takes the chosen dates and times and the calendar closes. */
    method OnCalendarConfirm(s: string, e: string, pt: string, dt: string)
      modifies this
      ensures draftStartDate == Some(s) && draftEndDate == Some(e)
      ensures draftPickupTime == pt && draftDropoffTime == dt && !showCalendar
      ensures draftVehicle == old(draftVehicle) && draftPickup == old(draftPickup) && showFilter == old(showFilter)
    {
      draftStartDate := Some(s);
      draftEndDate := Some(e);
      draftPickupTime := pt;
      draftDropoffTime := dt;
      showCalendar := false;
    }
  }
}
