/** Columns that may be null, and their normalisation to UNKNOWN. */
module Columns {
  import opened Options

  /** A column that may be null; an empty string counts as missing too. */
  type Column = Option<string>

  const UNKNOWN := Some("UNKNOWN")

  /** A null or empty column is filled with UNKNOWN, and any other stays. */
  predicate Filled(c: Column, c': Column) {
    && (c == None || c == Some("") ==> c' == Some("UNKNOWN"))
    && (c != None && c != Some("") ==> c' == c)
  }

  function NormalColumn(c: Column): Column { if c.None? || c.value == "" then UNKNOWN else c }
}
