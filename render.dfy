/** The plain-text views of the store: the long form of one record, the
    one-line form, and the listing of all records. */
module Render {
  import opened Wrappers
  import opened Text
  import opened Numerals
  import opened Locations

  /** `location_str`: a Name, an Author and a Coordinates line, then an
      Altitude line only when z is given and a Description line only when a
      description is given. */
  function LocationStr(l: Location): (r: string)
    ensures r == JoinLines(LocationLines(l))
  {
    var base := ["Name: " + l.name, "Author: " + l.author.name, "Coordinates: " + CoordsText(l.coords)];
    var alt, desc := OptionalLines("Altitude: ", l.coords.z), OptionalLines("Description: ", l.desc);
    JoinThree(base[0], base[1], base[2]);
    JoinLinesAppend(base, alt);
    JoinLinesAppend(base + alt, desc);
    assert JoinLines(alt) == OptionalLine("Altitude: ", l.coords.z);
    assert JoinLines(desc) == OptionalLine("Description: ", l.desc);
    ("Name: " + l.name) + "\n"
    + ("Author: " + l.author.name) + "\n"
    + ("Coordinates: " + CoordsText(l.coords)) + "\n"
    + OptionalLine("Altitude: ", l.coords.z)
    + OptionalLine("Description: ", l.desc)
  }

  /** A labelled line for a field that is given, nothing for one that is not. */
  function OptionalLine(caption: string, v: Option<string>): string
  {
    if v.Some? then caption + v.value + "\n" else ""
  }

  /** `short_location_str`: name and author each left-justified in a column of
      15, then the coordinates. */
  function ShortLocationStr(l: Location): (r: string)
    ensures |r| == ColumnWidth(l.name) + ColumnWidth(l.author.name) + 2 + |CoordsText(l.coords)|
  {
    PadRight(l.name, 15) + " " + PadRight(l.author.name, 15) + " " + CoordsText(l.coords)
  }

  /** The coordinate pair as both renderers write it: `(x, y)`, one line from
      which both numbers read back. */
  function CoordsText(c: Coords): (r: string)
    ensures NoNewline(r)
  {
    "(" + IntToString(c.x) + ", " + IntToString(c.y) + ")"
  }

  /** Both numbers read back from the coordinate text: it is `(`, the text of
      x, a comma and a space, the text of y, and `)`. */
  lemma CoordsTextReadBack(c: Coords)
    ensures var r := CoordsText(c);
            exists k :: 1 <= k <= |r| - 3 && r[0] == '(' && r[k..k + 2] == ", " && r[|r| - 1] == ')'
                        && ParseInt(r[1..k]) == Some(c.x) && ParseInt(r[k + 2..|r| - 1]) == Some(c.y)
  {
    ParseIntToString(c.x);
    ParseIntToString(c.y);
    PairTextParts(IntToString(c.x), IntToString(c.y));
    var k := 1 + |IntToString(c.x)|;
    assert CoordsText(c)[1..k] == IntToString(c.x);
  }

  /** Where the parts of `(a, b)` lie. */
  lemma PairTextParts(a: string, b: string)
    ensures var r := "(" + a + ", " + b + ")";
            var k := 1 + |a|;
            && |r| == |a| + |b| + 4 && r[0] == '(' && r[|r| - 1] == ')'
            && r[1..k] == a && r[k..k + 2] == ", " && r[k + 2..|r| - 1] == b
  {
    var r := "(" + a + ", " + b + ")";
    assert r == "(" + (a + (", " + (b + ")")));
  }

  const ListTitle: string := "List of Registered Locations..."

  /** The title and an empty line. */
  const ListHeader: string := ListTitle + "\n\n"

  function ShortLines(locs: seq<Location>): (lines: seq<string>)
    ensures |lines| == |locs|
  {
    seq(|locs|, i requires 0 <= i < |locs| => ShortLocationStr(locs[i]))
  }

  /** `location_list`: the header, then one short line per record, in store
      order. */
  function Listing(locs: seq<Location>): (r: string)
    ensures r == JoinLines([ListTitle, ""] + ShortLines(locs))
  {
    HeaderIsJoin();
    JoinLinesAppend([ListTitle, ""], ShortLines(locs));
    ListHeader + JoinLines(ShortLines(locs))
  }

  /** The header is the title line and an empty line, each one line. */
  lemma HeaderIsJoin()
    ensures JoinLines([ListTitle, ""]) == ListHeader
    ensures NoNewline(ListTitle) && NoNewline("")
  {
    JoinLinesSnoc([], ListTitle);
    JoinLinesSnoc([ListTitle], "");
  }

  /** The text fields of a record hold no newline, so each rendered line is
      one line of output. */
  predicate SingleLineFields(l: Location)
  {
    && NoNewline(l.name) && NoNewline(l.author.name)
    && (l.coords.z.Some? ==> NoNewline(l.coords.z.value))
    && (l.desc.Some? ==> NoNewline(l.desc.value))
  }

  /** The lines `location_str` emits, without their newlines. */
  function LocationLines(l: Location): seq<string>
  {
    FieldLines(l.name, l.author.name, CoordsText(l.coords), l.coords.z, l.desc)
  }

  /** The captioned lines for given field texts. */
  function FieldLines(name: string, author: string, coords: string, z: Option<string>, desc: Option<string>): seq<string>
  {
    ["Name: " + name, "Author: " + author, "Coordinates: " + coords]
    + OptionalLines("Altitude: ", z)
    + OptionalLines("Description: ", desc)
  }

  function OptionalLines(caption: string, v: Option<string>): seq<string>
  {
    if v.Some? then [caption + v.value] else []
  }

  lemma JoinThree(a: string, b: string, c: string)
    ensures JoinLines([a, b, c]) == a + "\n" + b + "\n" + c + "\n"
  {
    JoinLinesSnoc([], a);
    JoinLinesSnoc([a], b);
    JoinLinesSnoc([a, b], c);
  }

  /** None of the lines of a record with single-line fields holds a newline. */
  lemma LocationLinesHaveNoNewline(l: Location)
    requires SingleLineFields(l)
    ensures forall i :: 0 <= i < |LocationLines(l)| ==> NoNewline(LocationLines(l)[i])
  {
    assert NoNewline("Name: ") && NoNewline("Author: ") && NoNewline("Coordinates: ");
    assert NoNewline("Altitude: ") && NoNewline("Description: ");
  }

  /** The lines of `location_str`, in order: exactly three fixed ones, then
      Altitude if and only if z is given, then Description if and only if a
      description is given. */
  lemma LocationStrLines(l: Location)
    requires SingleLineFields(l)
    ensures SplitLines(LocationStr(l)) == LocationLines(l)
    ensures |SplitLines(LocationStr(l))| == 3 + (if l.coords.z.Some? then 1 else 0) + (if l.desc.Some? then 1 else 0)
  {
    LocationLinesHaveNoNewline(l);
    SplitJoinLines(LocationLines(l));
  }

  /** A line that starts with one caption does not start with another that
      differs from it within both their lengths. */
  lemma CaptionsExclusive(line: string, p: string, q: string, k: nat)
    requires HasPrefix(line, p) && k < |p| && k < |q| && p[k] != q[k]
    ensures !HasPrefix(line, q)
  {
    assert line[k] == p[k];
  }

  /** Whether some line starts with the given caption. */
  predicate HasCaptionedLine(lines: seq<string>, caption: string)
  {
    exists i :: 0 <= i < |lines| && HasPrefix(lines[i], caption)
  }

  /** Among the lines of a record, an Altitude line exists if and only if z
      is given. */
  lemma AltitudeLineIffZ(l: Location)
    ensures HasCaptionedLine(LocationLines(l), "Altitude: ") <==> l.coords.z.Some?
  {
    AltitudeCaption(l.name, l.author.name, CoordsText(l.coords), l.coords.z, l.desc);
  }

  lemma AltitudeCaption(name: string, author: string, coords: string, z: Option<string>, desc: Option<string>)
    ensures HasCaptionedLine(FieldLines(name, author, coords, z, desc), "Altitude: ") <==> z.Some?
  {
    var n, a, c := "Name: " + name, "Author: " + author, "Coordinates: " + coords;
    var alt := "Altitude: ";
    CaptionsExclusive(n, "Name: ", alt, 0);
    CaptionsExclusive(a, "Author: ", alt, 1);
    CaptionsExclusive(c, "Coordinates: ", alt, 0);
    if z.Some? {
      var zl := alt + z.value;
      assert HasPrefix(zl, alt);
      assert FieldLines(name, author, coords, z, desc)[3] == zl by {
        assert FieldLines(name, author, coords, z, desc) == [n, a, c, zl] + OptionalLines("Description: ", desc);
      }
    } else if desc.Some? {
      var d := "Description: " + desc.value;
      CaptionsExclusive(d, "Description: ", alt, 0);
      assert FieldLines(name, author, coords, z, desc) == [n, a, c, d];
    } else {
      assert FieldLines(name, author, coords, z, desc) == [n, a, c];
    }
  }

  /** Among the lines of a record, a Description line exists if and only if
      a description is given. */
  lemma DescriptionLineIffDesc(l: Location)
    ensures HasCaptionedLine(LocationLines(l), "Description: ") <==> l.desc.Some?
  {
    DescriptionCaption(l.name, l.author.name, CoordsText(l.coords), l.coords.z, l.desc);
  }

  lemma DescriptionCaption(name: string, author: string, coords: string, z: Option<string>, desc: Option<string>)
    ensures HasCaptionedLine(FieldLines(name, author, coords, z, desc), "Description: ") <==> desc.Some?
  {
    var n, a, c := "Name: " + name, "Author: " + author, "Coordinates: " + coords;
    var dc := "Description: ";
    CaptionsExclusive(n, "Name: ", dc, 0);
    CaptionsExclusive(a, "Author: ", dc, 0);
    CaptionsExclusive(c, "Coordinates: ", dc, 0);
    if desc.Some? {
      var d := dc + desc.value;
      assert HasPrefix(d, dc);
      assert FieldLines(name, author, coords, z, desc)[|FieldLines(name, author, coords, z, desc)| - 1] == d;
    } else if z.Some? {
      var zl := "Altitude: " + z.value;
      CaptionsExclusive(zl, "Altitude: ", dc, 0);
      assert FieldLines(name, author, coords, z, desc) == [n, a, c, zl];
    } else {
      assert FieldLines(name, author, coords, z, desc) == [n, a, c];
    }
  }

  /** In the text `location_str` produces, the Altitude line appears exactly
      when z is given and the Description line exactly when a description is
      given. */
  lemma OptionalLinesPresence(l: Location)
    requires SingleLineFields(l)
    ensures HasCaptionedLine(SplitLines(LocationStr(l)), "Altitude: ") <==> l.coords.z.Some?
    ensures HasCaptionedLine(SplitLines(LocationStr(l)), "Description: ") <==> l.desc.Some?
  {
    LocationStrLines(l);
    AltitudeLineIffZ(l);
    DescriptionLineIffDesc(l);
  }

  /** The width a name takes in a column of 15: its length, at least 15. */
  function ColumnWidth(name: string): nat
  {
    if |name| < 15 then 15 else |name|
  }

  /** The column layout of `short_location_str`: the name in full, padded
      with spaces to its column width; a space; the author name in full,
      padded likewise; a space; then the coordinates. Nothing is truncated. */
  lemma ShortLocationStrColumns(l: Location)
    ensures |ShortLocationStr(l)| == ColumnWidth(l.name) + ColumnWidth(l.author.name) + 2 + |CoordsText(l.coords)|
    ensures ShortLocationStr(l)[..ColumnWidth(l.name)] == PadRight(l.name, 15)
    ensures ShortLocationStr(l)[ColumnWidth(l.name)] == ' '
    ensures ShortLocationStr(l)[ColumnWidth(l.name) + 1..ColumnWidth(l.name) + 1 + ColumnWidth(l.author.name)]
              == PadRight(l.author.name, 15)
    ensures ShortLocationStr(l)[ColumnWidth(l.name) + 1 + ColumnWidth(l.author.name)] == ' '
    ensures ShortLocationStr(l)[ColumnWidth(l.name) + ColumnWidth(l.author.name) + 2..] == CoordsText(l.coords)
  {
  }

  /** When both names fit their 15-character columns, every short line has
      the same layout: author from position 16, coordinates from position 32. */
  lemma ShortLocationStrAligned(l: Location)
    requires |l.name| <= 15 && |l.author.name| <= 15
    ensures |ShortLocationStr(l)| == 32 + |CoordsText(l.coords)|
    ensures ShortLocationStr(l)[..|l.name|] == l.name
    ensures ShortLocationStr(l)[16..16 + |l.author.name|] == l.author.name
    ensures ShortLocationStr(l)[32..] == CoordsText(l.coords)
    ensures forall i :: |l.name| <= i < 16 ==> ShortLocationStr(l)[i] == ' '
    ensures forall i :: 16 + |l.author.name| <= i < 32 ==> ShortLocationStr(l)[i] == ' '
  {
    var r, name, author := ShortLocationStr(l), PadRight(l.name, 15), PadRight(l.author.name, 15);
    assert r == (name + " ") + (author + " ") + CoordsText(l.coords);
    assert r[..16] == name + " " && r[16..32] == author + " ";
  }

  /** One short line holds no newline when the two names hold none. */
  lemma ShortLineHasNoNewline(l: Location)
    requires NoNewline(l.name) && NoNewline(l.author.name)
    ensures NoNewline(ShortLocationStr(l))
  {
    var name, author := PadRight(l.name, 15), PadRight(l.author.name, 15);
    assert name == l.name + name[|l.name|..];
    assert author == l.author.name + author[|l.author.name|..];
    assert '\n' !in name[|l.name|..];
    assert '\n' !in author[|l.author.name|..];
  }

  /** Saving a record extends the listing by exactly that record's line. */
  lemma ListingAppend(locs: seq<Location>, l: Location)
    ensures Listing(locs + [l]) == Listing(locs) + ShortLocationStr(l) + "\n"
  {
    var lines := [ListTitle, ""] + ShortLines(locs);
    assert [ListTitle, ""] + ShortLines(locs + [l]) == lines + [ShortLocationStr(l)];
    JoinLinesSnoc(lines, ShortLocationStr(l));
  }

  /** The listing of the first i + 1 records is that of the first i, then
      record i's line. */
  lemma ListingOfLongerPrefix(locs: seq<Location>, i: nat)
    requires i < |locs|
    ensures Listing(locs[..i + 1]) == Listing(locs[..i]) + ShortLocationStr(locs[i]) + "\n"
  {
    assert locs[..i + 1] == locs[..i] + [locs[i]];
    ListingAppend(locs[..i], locs[i]);
  }

  /** No short line of a store without newlines in its names holds one. */
  lemma ShortLinesHaveNoNewline(locs: seq<Location>)
    requires forall i :: 0 <= i < |locs| ==> NoNewline(locs[i].name) && NoNewline(locs[i].author.name)
    ensures forall i :: 0 <= i < |locs| ==> NoNewline(ShortLines(locs)[i])
  {
    forall i | 0 <= i < |locs|
      ensures NoNewline(ShortLines(locs)[i])
    {
      ShortLineHasNoNewline(locs[i]);
    }
  }

  /** The lines of `location_list`: the title, an empty line, and then
      exactly one short line per record, in store order. */
  lemma ListingLines(locs: seq<Location>)
    requires forall i :: 0 <= i < |locs| ==> NoNewline(locs[i].name) && NoNewline(locs[i].author.name)
    ensures SplitLines(Listing(locs)) == [ListTitle, ""] + ShortLines(locs)
    ensures |SplitLines(Listing(locs))| == |locs| + 2
  {
    var lines := [ListTitle, ""] + ShortLines(locs);
    ShortLinesHaveNoNewline(locs);
    HeaderIsJoin();
    assert forall i :: 2 <= i < |lines| ==> lines[i] == ShortLines(locs)[i - 2];
    SplitJoinLines(lines);
  }
}
