/**
 * The two conversions the forms apply between nullable database columns
 * and their text inputs: `value || ''` when a form is pre-filled, and
 * `value || null` when it is submitted.
 */
module FormFields {
  import opened Wrappers

  /** `s || null`: the empty input becomes null. */
  function NullIfEmpty(s: string): (r: Option<string>)
    ensures r.None? <==> s == ""
    ensures r.Some? ==> r.value == s
  {
    if s == "" then None else Some(s)
  }

  /** `o || ''`: null (and the empty string) become the empty input. */
  function EmptyIfNull(o: Option<string>): (r: string)
    ensures r == "" <==> o.None? || o == Some("")
    ensures o.Some? ==> r == o.value
  {
    if o.Some? then o.value else ""
  }

  /** Pre-filling and submitting unchanged gives back the column, except
      that an empty string comes back as null. */
  lemma NullIfEmptyAfterEmptyIfNull(o: Option<string>)
    ensures NullIfEmpty(EmptyIfNull(o)) == (if o == Some("") then None else o)
  {
  }

  /** Submitting and pre-filling again gives back the input. */
  lemma EmptyIfNullAfterNullIfEmpty(s: string)
    ensures EmptyIfNull(NullIfEmpty(s)) == s
  {
  }
}
