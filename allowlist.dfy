/** The channel allow-list match (`includes` in index.js). */
module AllowList {

  /** A channel as the listing service returns it, reduced to the fields
      the engine reads. */
  datatype RawChannel = RawChannel(
    id: string,
    name: string,
    nameNormalized: string,
    previousNames: seq<string>,
    creator: string)

  /** `names.some(name => x === name)`. */
  function SomeEqual(names: seq<string>, x: string): (r: bool)
    ensures r <==> x in names
    decreases |names|
  {
    names != [] && (names[0] == x || SomeEqual(names[1..], x))
  }

  /** `previous.some(p => names.some(name => p === name))`. */
  function SomeListed(previous: seq<string>, names: seq<string>): (r: bool)
    ensures r <==> exists p :: p in previous && p in names
    decreases |previous|
  {
    previous != [] && (SomeEqual(names, previous[0]) || SomeListed(previous[1..], names))
  }

  /** A channel is selected when its name, its normalized name or one of its
      former names is on the allow-list. */
  function Includes(it: RawChannel, names: seq<string>): (r: bool)
    ensures r <==> || it.name in names
                   || it.nameNormalized in names
                   || exists p :: p in it.previousNames && p in names
  {
    SomeEqual(names, it.name) || SomeEqual(names, it.nameNormalized) || SomeListed(it.previousNames, names)
  }
}
