/** POSIX paths as Python's `pathlib` keeps them: a flag for a leading `/`
    and the list of components. */
module Paths {

  datatype Path = Path(absolute: bool, parts: seq<string>)

  /** The last component of a path (`pathlib`'s `.name`), empty for `/` and `.`. */
  function Name(p: Path): string
  {
    if p.parts == [] then "" else p.parts[|p.parts| - 1]
  }

  /** `pathlib`'s `.parent`: drops the last component; `/` and `.` are their
      own parents. */
  function Parent(p: Path): (q: Path)
    ensures q.absolute == p.absolute
    ensures p.parts == [] ==> q == p
    ensures p.parts != [] ==> |q.parts| + 1 == |p.parts| && p.parts == q.parts + [Name(p)]
  {
    if p.parts == [] then p else Path(p.absolute, p.parts[..|p.parts| - 1])
  }

  /** `p / name` for a single component `name`. */
  function Join(p: Path, name: string): (q: Path)
    ensures q.absolute == p.absolute
    ensures Parent(q) == p && Name(q) == name
  {
    Path(p.absolute, p.parts + [name])
  }

  /** The components separated by `/`. */
  function Slashed(parts: seq<string>): string
  {
    if |parts| == 0 then ""
    else if |parts| == 1 then parts[0]
    else Slashed(parts[..|parts| - 1]) + "/" + parts[|parts| - 1]
  }

  /** `str(p)`: a relative path with no component is `.`. */
  function ToString(p: Path): string
  {
    if p.absolute then "/" + Slashed(p.parts)
    else if p.parts == [] then "."
    else Slashed(p.parts)
  }

  /** `str(p / name)` is `str(p)`, a slash and `name`, except that `.`
      contributes nothing and `/` contributes only its slash. */
  lemma ToStringJoin(p: Path, name: string)
    ensures ToString(Join(p, name)) ==
      if p.parts != [] then ToString(p) + "/" + name
      else if p.absolute then "/" + name
      else name
  {
  }
}
