/** A settings file after ConfigParser has read it: section name to option
    name to value, where an option written without `=` has no value
    (the parser is built with `allow_no_value=True`). */
module IniDocument {
  import opened Wrappers

  type Section = map<string, Option<string>>
  type Document = map<string, Section>

  /** What `ConfigParser.get(section, option)` does: a value, or one of its two errors. */
  datatype Lookup = Found(value: Option<string>) | NoSection | NoOption

  function RawGet(doc: Document, section: string, option: string): Lookup {
    if section !in doc then NoSection
    else if option !in doc[section] then NoOption
    else Found(doc[section][option])
  }
}
