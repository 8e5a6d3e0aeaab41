/** The location store: class `Operator` of operations.py, run in local mode
    (records kept in memory) or database mode (whose storage branch does
    nothing). */
module Operations {
  import opened Wrappers
  import opened Numerals
  import opened Locations
  import opened Queries
  import opened Render

  /** How a call of `add_location` ends: normally, or with the ValueError
      that Python's `int()` raises on an x or y that is not an integer. */
  datatype AddOutcome = Done | RaisedValueError

  class Operator {
    /** Whether records are kept in memory. */
    const local: bool
    /** The stored records, oldest first. */
    var locations: seq<Location>

    /** Only local mode ever stores a record, and every stored record's short
        author name is derived from its full account name. */
    ghost predicate Valid()
      reads this
    {
      && (!local ==> locations == [])
      && forall i :: 0 <= i < |locations| ==> WellFormed(locations[i])
    }

    constructor (local: bool)
      ensures this.local == local && locations == []
      ensures Valid()
    {
      this.local := local;
      locations := [];
    }

    /** `add_location`: in local mode, converts x and y and appends one new
        record at the end; in database mode, does nothing. */
    method AddLocation(id: string, name: string, user: User, x: string, y: string,
                       z: Option<string> := None, desc: Option<string> := None)
      returns (outcome: AddOutcome)
      requires Valid()
      modifies this
      ensures Valid()
      ensures !local ==> outcome == Done && locations == old(locations)
      ensures local && (ParseInt(x).None? || ParseInt(y).None?) ==>
                outcome == RaisedValueError && locations == old(locations)
      ensures local && ParseInt(x).Some? && ParseInt(y).Some? ==>
                && outcome == Done
                && locations == old(locations) + [NewLocation(id, name, user, ParseInt(x).value, ParseInt(y).value, z, desc)]
    {
      if local {
        var xv, yv := ParseInt(x), ParseInt(y);
        if xv.None? || yv.None? {
          return RaisedValueError;
        }
        var entry := NewLocation(id, name, user, xv.value, yv.value, z, desc);
        locations := locations + [entry];
      }
      return Done;
    }

    /** `get_location_data`: rejects an unsupported query mode, otherwise
        scans the records in order and stops at the first match. A store in
        database mode finds nothing, and neither does an author lookup by a
        full account name. */
    method GetLocationData(searchToken: string, query: string := "name") returns (r: LookupResult)
      requires Valid()
      ensures r == Lookup(locations, searchToken, query)
      ensures !local ==> !r.Found?
      ensures query == "author" && '#' in searchToken ==> r == NotFound
    {
      if query == "author" && '#' in searchToken {
        FullAccountNameNeverFound(locations, searchToken);
      }
      if query !in QueryTypes {
        return InvalidQuery;
      }
      var searched: Option<Location> := None;
      var i := 0;
      while i < |locations|
        invariant 0 <= i <= |locations|
        invariant searched.None?
        invariant forall j :: 0 <= j < i ==> !Matches(locations[j], searchToken, query)
      {
        var entry := locations[i];
        if query == "name" {
          if searchToken == entry.name {
            searched := Some(entry);
            break;
          }
        } else if query == "author" {
          if searchToken == entry.author.name {
            searched := Some(entry);
            break;
          }
        }
        i := i + 1;
      }
      if searched.None? {
        return NotFound;
      }
      return Found(searched.value);
    }

    /** `location_list`: the header followed by one short line per record. */
    method LocationList() returns (s: string)
      ensures s == Listing(locations)
    {
      s := ListHeader;
      for i := 0 to |locations|
        invariant s == Listing(locations[..i])
      {
        ListingOfLongerPrefix(locations, i);
        s := s + ShortLocationStr(locations[i]) + "\n";
      }
      assert locations[..|locations|] == locations;
    }
  }
}
