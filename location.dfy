/** Where the car is, by exact comparison of coordinate strings.

    The car's latitude and longitude, already turned into strings, are
    compared with three configured places in the order home, work 1, work 2.
    A configured coordinate comes from the environment and is absent (Python's
    None) when the variable is not set; an absent coordinate equals no string.
 */
module Location {

  datatype Option<T> = None | Some(value: T)

  /** A configured place: its latitude and longitude strings, if set. */
  datatype Site = Site(lat: Option<string>, long: Option<string>)

  /** The four messages the matcher can end with. */
  datatype Place = Home | Work1 | Work2 | Unknown

  /** Both components equal; an unset component matches nothing. */
  predicate Matches(site: Site, lat: string, long: string)
  {
    site.lat == Some(lat) && site.long == Some(long)
  }

  /** The branch chain: the first place whose coordinates both match wins. */
  function Locate(lat: string, long: string, home: Site, work1: Site, work2: Site): (p: Place)
    ensures p == Unknown <==> !Matches(home, lat, long) && !Matches(work1, lat, long) && !Matches(work2, lat, long)
  {
    if Matches(home, lat, long) then Home
    else if Matches(work1, lat, long) then Work1
    else if Matches(work2, lat, long) then Work2
    else Unknown
  }

  /** Places in the order they are tried. */
  function Order(): seq<Place>
  {
    [Home, Work1, Work2]
  }

  /** An independent description: the index of the first site in a list that
      matches, or the length of the list if none does. */
  function FirstMatch(sites: seq<Site>, lat: string, long: string): (i: nat)
    ensures i <= |sites|
    ensures i < |sites| ==> Matches(sites[i], lat, long)
    ensures forall j :: 0 <= j < i ==> !Matches(sites[j], lat, long)
  {
    if sites == [] then 0
    else if Matches(sites[0], lat, long) then 0
    else 1 + FirstMatch(sites[1..], lat, long)
  }

  /** The matcher reports the first matching place of the list home, work 1,
      work 2, and "unknown" when the search runs off its end. */
  lemma LocateIsFirstMatch(lat: string, long: string, home: Site, work1: Site, work2: Site)
    ensures var i := FirstMatch([home, work1, work2], lat, long);
      Locate(lat, long, home, work1, work2) == if i < 3 then Order()[i] else Unknown
  {
    var sites := [home, work1, work2];
    var i := FirstMatch(sites, lat, long);
    if i > 0 {
      assert !Matches(sites[0], lat, long);
    }
    if i > 1 {
      assert !Matches(sites[1], lat, long);
    }
    if i > 2 {
      assert !Matches(sites[2], lat, long);
    }
  }

  /** Home is reported exactly when both home coordinates match. */
  lemma HomeIff(lat: string, long: string, home: Site, work1: Site, work2: Site)
    ensures Locate(lat, long, home, work1, work2) == Home <==> Matches(home, lat, long)
  {
  }

  /** The work places are reported only when they match and every place
      before them does not. */
  lemma WorkIff(lat: string, long: string, home: Site, work1: Site, work2: Site)
    ensures Locate(lat, long, home, work1, work2) == Work1
        <==> !Matches(home, lat, long) && Matches(work1, lat, long)
    ensures Locate(lat, long, home, work1, work2) == Work2
        <==> !Matches(home, lat, long) && !Matches(work1, lat, long) && Matches(work2, lat, long)
  {
  }

  /** Two places configured with the same coordinates: the earlier one in the
      order home, work 1, work 2 always wins, so the later is never reported. */
  lemma EarlierPlaceWins(lat: string, long: string, home: Site, work1: Site, work2: Site)
    ensures home == work1 ==> Locate(lat, long, home, work1, work2) != Work1
    ensures home == work2 || work1 == work2 ==> Locate(lat, long, home, work1, work2) != Work2
  {
  }

  /** A place with an unset coordinate is never reported. */
  lemma UnsetNeverMatches(lat: string, long: string, home: Site, work1: Site, work2: Site)
    ensures home.lat == None || home.long == None ==> Locate(lat, long, home, work1, work2) != Home
    ensures work1.lat == None || work1.long == None ==> Locate(lat, long, home, work1, work2) != Work1
    ensures work2.lat == None || work2.long == None ==> Locate(lat, long, home, work1, work2) != Work2
  {
  }
}
