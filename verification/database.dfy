/**
 * The rows the pipelines write: diary entries and analyses. The tables are
 * sequences in insertion order; the database assigns entry ids, which are
 * parameters here.
 */
module Database {
  import opened Wrappers
  import opened Errors

  /** A stored diary entry; the id is the one the database assigns. */
  datatype Entry = Entry(id: nat, userId: string, content: string)

  /** The four analysis fields handed to `AnalysisService.create`. */
  datatype AnalysisFields = AnalysisFields(emotion: string, themes: string, patterns: string, positivePoints: string)

  /** A stored analysis row; each field is `NULL` when the given value is falsy. */
  datatype StoredAnalysis = StoredAnalysis(
    entryId: nat,
    userId: string,
    emotion: Option<string>,
    themes: Option<string>,
    patterns: Option<string>,
    positivePoints: Option<string>)

  /** A thrown error and the name of the class that constructed it. */
  datatype Thrown = Thrown(error: JsError, constructorName: string)

  /** `value || null`. */
  function NullIfEmpty(s: string): (r: Option<string>)
    ensures r.Some? <==> s != ""
    ensures r.Some? ==> r.value == s
  {
    if s == "" then None else Some(s)
  }

  /** The row `AnalysisService.create` inserts for an entry. */
  function StoreAnalysis(entry: Entry, userId: string, fields: AnalysisFields): (r: StoredAnalysis)
    ensures r.entryId == entry.id && r.userId == userId
    ensures r.emotion.Some? <==> fields.emotion != ""
    ensures r.themes.Some? <==> fields.themes != ""
    ensures r.patterns.Some? <==> fields.patterns != ""
    ensures r.positivePoints.Some? <==> fields.positivePoints != ""
  {
    StoredAnalysis(entry.id, userId, NullIfEmpty(fields.emotion), NullIfEmpty(fields.themes),
                   NullIfEmpty(fields.patterns), NullIfEmpty(fields.positivePoints))
  }

  /** The fields read back from a row, a `NULL` column as the empty text. */
  function RowFields(row: StoredAnalysis): AnalysisFields {
    AnalysisFields(row.emotion.GetOr(""), row.themes.GetOr(""), row.patterns.GetOr(""), row.positivePoints.GetOr(""))
  }

  /** Storing loses nothing: reading the row back gives the fields that were written. */
  lemma StoredFieldsRoundTrip(entry: Entry, userId: string, fields: AnalysisFields)
    ensures RowFields(StoreAnalysis(entry, userId, fields)) == fields
  {
  }
}
