# Location store of a game-world coordinates bot

This project models the in-memory location store of a chat bot that lets players of a
multiplayer game register named points (coordinates plus author and description) and look
them up again. The store is class `Operator` in `operations.py`. It keeps an ordered list of
location records. It can append one (`add_location`), check the required input fields
(`verify_location_data`), find the first record with a given name or short author name
(`get_location_data`), and render records as plain text (`location_str`,
`short_location_str`, `location_list`).

Modules, in dependency order:

- `Wrappers` (wrappers.dfy): `Option`, the stand-in for Python's `None`.
- `Text` (text.dfy): prefix before a separator (`split(c)[0]`), left-justified padding
  (`{:<15}`), and joining and splitting newline-terminated lines.
- `Numerals` (numerals.dfy): the integer-string grammar, `int(s)` as `ParseInt` and
  `str(n)` as `IntToString`. Printing then parsing gives back every integer. Parsing then
  printing gives back every canonical text (no `+`, no leading zero, no `-0`). The forms
  `+t`, `-t` and `0t` parse to the value of `t`, its negation and the value of `t`.
- `Locations` (locations.dfy): the record datatypes and the record `add_location` builds.
- `Validation` (validation.dfy): `verify_location_data`.
- `Queries` (queries.dfy): the lookup specification: query modes, first match, and the
  three outcomes `InvalidQuery` (the source's `False`), `NotFound` (its `None`) and
  `Found(loc)`.
- `Render` (render.dfy): the three text renderers and the line structure of their output.
- `Operations` (operations.dfy): class `Operator`, with the record list as a `seq` field
  that `AddLocation` reassigns. `GetLocationData` and `LocationList` are the source's loops,
  proved against `Queries.Lookup` and `Render.Listing`.

Parameters instead of effects: the record id that the source draws from `uuid.uuid4()` is
passed to `AddLocation` as `id`. The chat user is passed as a `User` value holding its
account name and numeric id.

Behaviour of `operations.py` worth knowing:

- Duplicate names are not reported as ambiguous: the lookup returns the oldest matching
  record (`Queries.SaveThenLookupByName`).
- `add_location` defaults `z` and `desc` to `None` and stores them unchanged. It does not
  substitute "0" for a missing altitude or "N/A" for a missing description.
- The store has no operation that searches, edits, deletes, or computes
  distances or bearings.

## Model

| member | source | states |
|---|---|---|
| `Operations.Operator.constructor` | operations.py:6-10 | a new store has the given mode and no records, and satisfies the store invariant |
| `Operations.Operator.AddLocation` | operations.py:13-32 | in local mode with integer x and y: exactly one record is appended at the end, with the given id, name, z and desc, coordinates `int(x)`, `int(y)`, and the user as author; earlier records are kept in order. In local mode with a non-integer x or y: ValueError and no change. In database mode: no change. The invariant (database mode stores nothing; every short author name is derived from the full name) is preserved |
| `Validation.VerifyLocationData` | operations.py:35-52 | false when name, x or y is absent; otherwise true exactly when both x and y are integer strings (optional sign, one or more digits) |
| `Validation.VerifyAcceptsPrintedIntegers` | operations.py:44-52 | every pair of integers written in decimal passes verification and converts back to the same pair |
| `Numerals.ParseInt` | operations.py:46-47 | `int(s)` succeeds exactly on the integer-string grammar; without a leading `-` the value is non-negative, with one it is non-positive |
| `Numerals.LeadingZeroValue` | operations.py:23 | a leading zero does not change the value of a digit string |
| `Numerals.ParseIntForms` | operations.py:23 | for digits `t`: `int("+" + t) == int(t)`, `int("-" + t) == -int(t)`, and `int("0" + t) == int(t)`, so `+5`, `007` and `-0` give 5, 7 and 0 |
| `Numerals.NatToString` | operations.py:87 | the decimal text of a natural number is a non-empty digit string with no leading zero whose value is that number |
| `Numerals.IntToString` | operations.py:87 | the text of an integer is non-empty and made only of `-` and digits |
| `Numerals.IntToStringCanonical` | operations.py:87 | the text of an integer starts with `-` exactly when the number is negative, and is otherwise canonical: no leading zero, so 0 is `0`, never `-0` |
| `Numerals.ParseIntToString` | operations.py:23 | printing then parsing an integer gives back the same integer |
| `Numerals.NatToStringOfDigits` | operations.py:87 | a digit string with no leading zero is exactly the text `str` writes for its value |
| `Numerals.IntToStringOfParse` | operations.py:23 | parsing then printing gives back every canonical integer text |
| `Text.PrefixBefore` | operations.py:22 | `s.split(c)[0]` is a prefix of `s` holding no `c`, followed in `s` by `c` unless it is all of `s`; it is all of `s` when `c` does not occur |
| `Text.PrefixBeforeSeparator` | operations.py:22 | the part before the first separator is exactly what precedes it, whatever follows |
| `Locations.AuthorOf` | operations.py:22 | the author entry keeps the full account name and id; its short name is the prefix of the account name before the first `#` (all of it when there is none), and holds no `#` |
| `Locations.NewLocation` | operations.py:19-25 | the new record has the given id, name, coordinates, altitude and description, the user's author entry, and is well formed (short author name derived from the full one) |
| `Locations.AuthorOfTaggedUser` | operations.py:22 | for account name `base#tag` the author entry is (`base`, `base#tag`, id); for a name without `#` the short name is the whole name |
| `Queries.Matches` | operations.py:67-76 | a record matches only in a supported mode, only by its name or its short author name, and never by an author token holding `#` when well formed |
| `Queries.FirstMatch` | operations.py:64-76 | the index found holds a match and no earlier record matches; there is no index exactly when no record matches |
| `Queries.Lookup` | operations.py:55-81 | an unsupported mode gives `InvalidQuery` whatever the records; a supported mode never does; `NotFound` exactly when no record matches, `[]` included; `Found(l)` means `l` is the first matching record in list order |
| `Queries.FirstMatchAppend` | operations.py:64-76 | appending a record keeps an earlier first match; otherwise the new record is the first match if it matches |
| `Queries.LookupAppend` | operations.py:64-76 | after appending a record the lookup gives the old answer if there was a match, or the new record if only it matches, or still `NotFound` |
| `Queries.SaveThenLookupByName` | operations.py:62-81 | after saving under a name, a name lookup always finds a record with that name. It is the saved record, with its coordinates and the user as author, when the name was free. Otherwise it is the older record |
| `Queries.FullAccountNameNeverFound` | operations.py:73-76 | in a store of well-formed records an author lookup with a token containing `#` finds nothing |
| `Operations.Operator.GetLocationData` | operations.py:55-81 | the method's answer equals `Queries.Lookup` on the current records; it changes nothing; a store in database mode finds nothing, and an author lookup by a token holding `#` gives `NotFound` |
| `Text.PadRight` | operations.py:122 | `{:<w}`: length is the larger of w and the text's length; the text comes first, unchanged; the rest is spaces |
| `Render.LocationStr` | operations.py:84-96 | the long form is the record's lines (Name, Author, Coordinates, then Altitude and Description when given) each followed by a newline |
| `Render.LocationStrLines` | operations.py:84-96 | with single-line fields, the long form splits into Name, Author and Coordinates lines, then Altitude if z is given, then Description if desc is given: 3 to 5 lines |
| `Render.AltitudeLineIffZ` | operations.py:89-91 | an Altitude line is among the record's lines if and only if z is given |
| `Render.DescriptionLineIffDesc` | operations.py:93-94 | a Description line is among the record's lines if and only if a description is given |
| `Render.OptionalLinesPresence` | operations.py:89-94 | for a record with single-line fields, in the rendered text the Altitude line appears exactly when z is given and the Description line exactly when desc is given |
| `Render.CoordsText` | operations.py:87 | the coordinate text `(x, y)` is one line |
| `Render.CoordsTextReadBack` | operations.py:87 | the coordinate text is `(`, a text that `int` reads as x, `, `, a text that `int` reads as y, and `)` |
| `Render.ShortLocationStr` | operations.py:118-124 | the one-line form is as long as the two name columns, two spaces and the coordinate text |
| `Render.ShortLocationStrColumns` | operations.py:122 | the one-line form is the name padded to its column, a space, the author padded to its column, a space, and `(x, y)`; nothing is truncated |
| `Render.ShortLocationStrAligned` | operations.py:118-124 | when both names fit in 15 characters, the name starts at 0, the author at 16 and the coordinates at 32, with spaces between |
| `Render.ShortLineHasNoNewline` | operations.py:122 | a one-line form is one line when the names hold no newline |
| `Render.ListingAppend` | operations.py:130-131 | appending a record extends the listing by exactly its short line and a newline |
| `Render.ListingOfLongerPrefix` | operations.py:130-131 | the listing of the first i + 1 records is the listing of the first i, then record i's short line and a newline |
| `Render.HeaderIsJoin` | operations.py:128 | the header is the title line and an empty line, neither holding a newline |
| `Render.Listing` | operations.py:127-133 | the listing is the title line, an empty line and the short lines in store order, each followed by a newline |
| `Render.ListingLines` | operations.py:127-133 | with single-line names, the listing splits into the title, an empty line, and exactly one short line per record in list order: two more lines than records |
| `Operations.Operator.LocationList` | operations.py:127-133 | the method's text equals `Render.Listing` of the current records, the header followed by one short line per record; it changes nothing |

## Left out

- `Operator.location_embed` and `location_list_embed` (operations.py:99-147): they build
  chat-library embed objects, which are a foreign UI type.
- The console messages that `print` writes (operations.py:41, 49, 58, 79) are I/O.
- The `config` argument and field of `Operator` (operations.py:6-8): the modelled
  operations never read it. config.py only loads environment variables.
- The database branch of `add_location` (operations.py:31-32) is an empty `pass`. It is
  modelled as "no change".
- The record id from `uuid.uuid4()` is a parameter. Its uniqueness is not modelled.
- disc_mc_bot.py is the asynchronous chat front end and argument parsing, and is not part
  of this model. It calls `remove_location_data`, `search_locations`, `distance` and
  `create_distance_embed`, which `operations.py` does not define. Its ownership check reads
  `author["id"]`, a key the store never writes (it writes `discord_id`).
- Validation.VerifyLocationData: Python's `int()` also accepts surrounding whitespace,
  underscores between digits and non-ASCII digits; the model accepts only an optional ASCII
  sign and ASCII digits.
- Operations.Operator.AddLocation: `x` and `y` are strings. Python's `int()` also takes
  numbers (`int(3.9) == 3`) and raises `TypeError` on `None` and on values that are neither
  numbers nor strings; neither is modelled.
- Operations.Operator.AddLocation: `z` and `desc` are kept as optional text. The source
  stores whatever value it is given and formats it with `str()` when rendering.
- Text.PadRight: the padding width counts characters of the model's strings. Python counts
  code points.
- Operations.Operator.GetLocationData: the source returns the stored dictionary itself, so a
  caller that changes the result changes the store. The model returns a copy of the record
  as a value; no modelled operation changes a record after it is stored.
