/** What `get_location_data` answers: the specification the store's lookup
    method is proved against. Only two query modes exist, and a lookup is a
    first-match scan in insertion order. */
module Queries {
  import opened Wrappers
  import opened Locations

  /** The supported query modes, kept by the store as `query_types`. */
  const QueryTypes: seq<string> := ["name", "author"]

  /** `InvalidQuery` is the source's `False`, `NotFound` its `None`. */
  datatype LookupResult = InvalidQuery | NotFound | Found(loc: Location)

  /** Mode "name" compares with the record's name, mode "author" with its
      short author name; comparisons are exact. */
  function Matches(l: Location, token: string, query: string): (m: bool)
    ensures m ==> query in QueryTypes
    ensures m ==> token == l.name || token == l.author.name
    ensures m && query == "author" && WellFormed(l) ==> '#' !in token
  {
    (query == "name" && token == l.name) || (query == "author" && token == l.author.name)
  }

  /** The index of the first record that matches, if any. */
  function FirstMatch(locs: seq<Location>, token: string, query: string): (r: Option<nat>)
    ensures r.Some? ==> r.value < |locs| && Matches(locs[r.value], token, query)
    ensures r.Some? ==> forall j :: 0 <= j < r.value ==> !Matches(locs[j], token, query)
    ensures r.None? <==> forall j :: 0 <= j < |locs| ==> !Matches(locs[j], token, query)
  {
    if locs == [] then None
    else if Matches(locs[0], token, query) then Some(0)
    else match FirstMatch(locs[1..], token, query)
      case None => None
      case Some(k) => Some(k + 1)
  }

  function Lookup(locs: seq<Location>, token: string, query: string): (r: LookupResult)
    ensures query !in QueryTypes ==> r == InvalidQuery
    ensures query in QueryTypes ==> r != InvalidQuery
    ensures r == NotFound <==> query in QueryTypes && forall j :: 0 <= j < |locs| ==> !Matches(locs[j], token, query)
    ensures r.Found? ==> exists i :: 0 <= i < |locs| && locs[i] == r.loc && Matches(r.loc, token, query)
                                     && forall j :: 0 <= j < i ==> !Matches(locs[j], token, query)
  {
    if query !in QueryTypes then InvalidQuery
    else match FirstMatch(locs, token, query)
      case None => NotFound
      case Some(k) => Found(locs[k])
  }

  /** A new record at the end never hides an earlier match: the lookup in the
      longer store is the old answer if there was one, else the new record if
      it matches, else still nothing. */
  lemma {:induction false} LookupAppend(locs: seq<Location>, l: Location, token: string, query: string)
    requires query in QueryTypes
    ensures Lookup(locs + [l], token, query) ==
              if Lookup(locs, token, query).Found? then Lookup(locs, token, query)
              else if Matches(l, token, query) then Found(l)
              else NotFound
  {
    FirstMatchAppend(locs, l, token, query);
  }

  lemma {:induction false} FirstMatchAppend(locs: seq<Location>, l: Location, token: string, query: string)
    ensures FirstMatch(locs + [l], token, query) ==
              if FirstMatch(locs, token, query).Some? then FirstMatch(locs, token, query)
              else if Matches(l, token, query) then Some(|locs|)
              else None
  {
    if locs != [] {
      assert (locs + [l])[1..] == locs[1..] + [l];
      FirstMatchAppend(locs[1..], l, token, query);
    }
  }

  /** Saving a location and then looking its name up always finds a record
      with that name; if the name was not yet taken it is the saved record,
      with its coordinates and the saving user as author. Duplicate names
      are never reported as ambiguous: the oldest record wins. */
  lemma SaveThenLookupByName(locs: seq<Location>, id: string, name: string, user: User,
                             x: int, y: int, z: Option<string>, desc: Option<string>)
    ensures Lookup(locs + [NewLocation(id, name, user, x, y, z, desc)], name, "name").Found?
    ensures Lookup(locs + [NewLocation(id, name, user, x, y, z, desc)], name, "name").loc.name == name
    ensures Lookup(locs, name, "name") == NotFound ==>
              Lookup(locs + [NewLocation(id, name, user, x, y, z, desc)], name, "name").loc
                == Location(id, name, AuthorOf(user), Coords(x, y, z), desc)
    ensures Lookup(locs, name, "name").Found? ==>
              Lookup(locs + [NewLocation(id, name, user, x, y, z, desc)], name, "name") == Lookup(locs, name, "name")
  {
    LookupAppend(locs, NewLocation(id, name, user, x, y, z, desc), name, "name");
  }

  /** Author lookups compare with the short name, which never holds a `#`:
      in a store of well-formed records a full account name such as
      `someone#1234` finds nothing. */
  lemma FullAccountNameNeverFound(locs: seq<Location>, token: string)
    requires forall i :: 0 <= i < |locs| ==> WellFormed(locs[i])
    requires '#' in token
    ensures Lookup(locs, token, "author") == NotFound
  {
  }
}
