/** The display name of a game format: the name the format table gives it, else the
    format code itself, else "Unknown". */
module ReadableFormat {

  /** `getReadableFormat(format)` with the `FORMATS` table as a parameter. */
  function GetReadableFormat(formats: map<string, string>, format: string): (r: string)
    ensures format in formats ==> r == formats[format]
    ensures format !in formats && format != "" ==> r == format
    ensures format !in formats && format == "" ==> r == "Unknown"
  {
    if format in formats then formats[format]
    else if format != "" then format
    else "Unknown"
  }

  /** When the table names every format with a non-empty name, every display name is
      non-empty. */
  lemma ReadableFormatNonEmpty(formats: map<string, string>, format: string)
    requires forall f :: f in formats ==> formats[f] != ""
    ensures GetReadableFormat(formats, format) != ""
  {
  }

  /** A display name is one of the table's names, the code itself, or "Unknown"; a code
      the table does not know always comes back unchanged or as "Unknown". */
  lemma ReadableFormatOrigins(formats: map<string, string>, format: string)
    ensures var r := GetReadableFormat(formats, format);
      r in formats.Values || r == format || r == "Unknown"
    ensures format !in formats ==> GetReadableFormat(formats, format) in {format, "Unknown"}
  {
    if format in formats {
      assert formats[format] in formats.Values;
    }
  }

  /** The display name of a code depends on the table's entry for that code alone: two
      tables that agree on it give the same name, whatever else they hold, and a table
      that lacks it gives the same name as the empty table. */
  lemma ReadableFormatLocal(formats: map<string, string>, other: map<string, string>, format: string)
    requires format in formats <==> format in other
    requires format in formats ==> formats[format] == other[format]
    ensures GetReadableFormat(formats, format) == GetReadableFormat(other, format)
    ensures format !in formats ==> GetReadableFormat(formats, format) == GetReadableFormat(map[], format)
  {
  }
}
