/** The location record the store keeps, one per registered point. In the
    source each record is a dictionary with the keys id, name, author
    (name, discord_name, discord_id), coords (x, y, z) and desc. */
module Locations {
  import opened Wrappers
  import Text

  /** The chat user who issues a command: full account name (which may carry
      a `#` discriminator) and numeric account id. */
  datatype User = User(name: string, id: nat)

  /** `name` is the short display name, `discordName` the full account name,
      `discordId` the account id. */
  datatype Author = Author(name: string, discordName: string, discordId: nat)

  /** `x` and `y` are converted to integers when a record is created; `z` is
      stored as given, so it is kept as its text, and may be absent. */
  datatype Coords = Coords(x: int, y: int, z: Option<string>)

  datatype Location = Location(id: string, name: string, author: Author, coords: Coords, desc: Option<string>)

  /** The author entry written for `user`: its name up to the first `#`,
      its full name and its id. */
  function AuthorOf(user: User): (a: Author)
    ensures a.discordName == user.name && a.discordId == user.id
    ensures Text.HasPrefix(user.name, a.name) && '#' !in a.name
    ensures |a.name| < |user.name| ==> user.name[|a.name|] == '#'
    ensures '#' !in user.name ==> a.name == user.name
  {
    Author(Text.PrefixBefore(user.name, '#'), user.name, user.id)
  }

  /** The record `add_location` builds, with `x` and `y` already converted. */
  function NewLocation(id: string, name: string, user: User, x: int, y: int, z: Option<string>, desc: Option<string>): (l: Location)
    ensures l.id == id && l.name == name && l.coords == Coords(x, y, z) && l.desc == desc
    ensures l.author == AuthorOf(user) && WellFormed(l)
  {
    Location(id, name, AuthorOf(user), Coords(x, y, z), desc)
  }

  /** A record whose short author name was derived from its full name, as
      every record `add_location` writes is. */
  predicate WellFormed(l: Location)
  {
    l.author.name == Text.PrefixBefore(l.author.discordName, '#')
  }

  /** For an account name `base#tag`, the short name is `base`; without a `#`
      it is the whole name. Either way it holds no `#`. */
  lemma AuthorOfTaggedUser(base: string, tag: string, id: nat)
    requires '#' !in base
    ensures AuthorOf(User(base + "#" + tag, id)) == Author(base, base + "#" + tag, id)
    ensures AuthorOf(User(base, id)) == Author(base, base, id)
  {
    Text.PrefixBeforeSeparator(base, '#', tag);
  }
}
