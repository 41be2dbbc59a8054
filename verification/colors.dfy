/**
 The fixed ANSI colour table of the logger (logger.go, `colors`) and Go's
 map-index semantics: indexing a missing key yields the zero value, which for
 a `string` map is the empty string.
 */
module Colors {

  /** The escape character, written `\033` in the Go source. */
  const Esc: char := '\U{1B}'

  /** A Select Graphic Rendition sequence: ESC `[` code `m`. */
  function Escape(code: string): string {
    [Esc] + "[" + code + "m"
  }

  /** The eight colour names, in the order of their codes 30..37. */
  const Names: seq<string> :=
    ["black", "red", "green", "yellow", "blue", "magenta", "cyan", "white"]

  const Reset: string := Escape("0")

  const Table: map<string, string> := map[
    "black"   := Escape("30"),
    "red"     := Escape("31"),
    "green"   := Escape("32"),
    "yellow"  := Escape("33"),
    "blue"    := Escape("34"),
    "magenta" := Escape("35"),
    "cyan"    := Escape("36"),
    "white"   := Escape("37"),
    "reset"   := Reset
  ]

  /** Go's `m[key]` on a `map[string]string`. */
  function Lookup(m: map<string, string>, key: string): (r: string)
    ensures key in m ==> r == m[key]
    ensures key !in m ==> r == ""
  {
    if key in m then m[key] else ""
  }

  /** `colors[name]`: the escape for a colour name, empty for an unknown one. */
  function Color(name: string): (r: string)
    ensures name in Table ==> r == Table[name]
    ensures name !in Table ==> r == ""
  {
    Lookup(Table, name)
  }

  /** The table holds exactly the eight colours and `reset`; colour number
      `i` (black = 0 .. white = 7) is ESC `[3i m` and `reset` is ESC `[0m`. */
  lemma TableShape()
    ensures Table.Keys == {"black", "red", "green", "yellow", "blue", "magenta", "cyan", "white", "reset"}
    ensures Table["reset"] == [Esc] + "[0m"
    ensures forall i :: 0 <= i < |Names| ==> Names[i] in Table && Table[Names[i]] == [Esc] + "[3" + [('0' as int + i) as char] + "m"
  {
  }
}
