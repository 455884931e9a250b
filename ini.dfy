/**
 * An INI file as `configparser.RawConfigParser` holds it once read: a map
 * from section name to that section's key/value map. The text format itself
 * is not modelled.
 */
module IniFile {

  type Section = map<string, string>

  type Ini = map<string, Section>

  /**
   * configparser reserves this name for the section whose keys every other
   * section inherits; `add_section` refuses it and `has_section` never
   * reports it, whatever the map holds under it.
   */
  const DEFAULT_SECTION := "DEFAULT"

  /** `parser.has_section(section)` */
  predicate HasSection(ini: Ini, section: string) {
    section != DEFAULT_SECTION && section in ini
  }

  /** `parser.has_option(section, key)` */
  predicate HasOption(ini: Ini, section: string, key: string) {
    section in ini && key in ini[section]
  }

  /** The keys of `name`, or none when the section is absent. */
  function SectionOf(ini: Ini, name: string): Section {
    if name in ini then ini[name] else map[]
  }
}
