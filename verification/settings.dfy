/**
 * The configuration dictionary the loader builds: named sections, each a
 * dictionary of values, with Python's truthiness for the checks made on them.
 */
module Settings {

  /**
   * A configuration value: `None`, a boolean, an integer, a string or a list,
   * as configparser and `json.loads` produce them.
   */
  datatype Value = Null | Flag(b: bool) | Number(n: int) | Str(s: string) | Items(items: seq<Value>)

  /** Python's `bool(v)`. */
  predicate Truthy(v: Value) {
    match v
    case Null => false
    case Flag(b) => b
    case Number(n) => n != 0
    case Str(s) => s != ""
    case Items(xs) => xs != []
  }

  /** Whether Python's `len(v)` is defined (it raises `TypeError` otherwise). */
  predicate HasLength(v: Value) {
    v.Str? || v.Items?
  }

  type Section = map<string, Value>

  type Config = map<string, Section>

  /** `section.get(key)`: `None` when the key is absent. */
  function Lookup(section: Section, key: string): (v: Value)
    ensures key in section ==> v == section[key]
    ensures key !in section ==> v == Null
  {
    if key in section then section[key] else Null
  }

  /** `config.get(name, {})`: an empty section when it is absent. */
  function SectionOf(config: Config, name: string): (s: Section)
    ensures name in config ==> s == config[name]
    ensures name !in config ==> s == map[]
  {
    if name in config then config[name] else map[]
  }

  /** `config.get(section, {}).get(key)`: `None` when the section or the key is absent. */
  function Get(config: Config, section: string, key: string): (v: Value)
    ensures section in config && key in config[section] ==> v == config[section][key]
    ensures section in config && key !in config[section] ==> v == Null
    ensures section !in config ==> v == Null
  {
    Lookup(SectionOf(config, section), key)
  }
}
