/**
 * The pure decisions of the `finish` callback (index.js:42-61): which text is
 * used, the summarisation prompt built around it, the `photo_urls` list and
 * the structured report forwarded downstream.
 */
module Report {
  import opened Wrappers
  import opened JsText

  /** The form fields received so far, by field name. */
  type Fields = map<string, string>

  const DescriptionField: string := "description"
  const CitizenIdField: string := "citizen_id"
  const LocationField: string := "location"
  const PhotoUrlsField: string := "photo_urls"

  /** Opening of the summarisation prompt, up to and including the opening quote. */
  const PromptPrefix: string :=
    "Summarize the following citizen report in one clear sentence. Extract the core issue. Report: \""

  /** Closing of the summarisation prompt. */
  const PromptSuffix: string := "\""

  /** `fields.<name>`: the value, or `undefined` when no such field was sent. */
  function Get(fields: Fields, name: string): (v: Option<string>)
    ensures v.Some? <==> name in fields
    ensures v.Some? ==> v.value == fields[name]
  {
    if name in fields then Some(fields[name]) else None
  }

  /** JavaScript truthiness of a field value: present and not the empty string. */
  predicate Truthy(v: Option<string>)
  {
    v.Some? && v.value != ""
  }

  /** The `description` field was sent and is not empty (no trimming). */
  predicate HasDescription(fields: Fields)
  {
    Truthy(Get(fields, DescriptionField))
  }

  /**
   * `fields.description || reportText`: the description when it is truthy,
   * otherwise the transcript, whatever that holds (possibly `""`).
   */
  function SourceText(fields: Fields, reportText: string): (text: string)
    ensures HasDescription(fields) ==> text == fields[DescriptionField]
    ensures !HasDescription(fields) ==> text == reportText
    ensures text == "" <==> !HasDescription(fields) && reportText == ""
  {
    var description := Get(fields, DescriptionField);
    if Truthy(description) then description.value else reportText
  }

  /** The prompt sent to the summariser: the fixed wording, then the text verbatim in quotes. */
  function Prompt(text: string): (prompt: string)
    ensures |prompt| == |PromptPrefix| + |text| + |PromptSuffix|
    ensures prompt[..|PromptPrefix|] == PromptPrefix
    ensures prompt[|PromptPrefix|..|prompt| - |PromptSuffix|] == text
    ensures prompt[|prompt| - |PromptSuffix|..] == PromptSuffix
  {
    PromptPrefix + text + PromptSuffix
  }

  /** The text between the fixed prompt wording and the closing quote. */
  function QuotedText(prompt: string): string
    requires |prompt| >= |PromptPrefix| + |PromptSuffix|
  {
    prompt[|PromptPrefix|..|prompt| - |PromptSuffix|]
  }

  /**
   * The prompt hides nothing of the text: it can be read back from the
   * prompt, so distinct texts give distinct prompts.
   */
  lemma PromptRoundTrip(text: string, other: string)
    ensures QuotedText(Prompt(text)) == text
    ensures Prompt(text) == Prompt(other) ==> text == other
  {
  }

  /**
   * `fields.photo_urls ? fields.photo_urls.split(',') : []`. A non-empty
   * field becomes its comma-separated pieces, untrimmed and with empty
   * pieces kept.
   */
  function PhotoUrls(fields: Fields): (urls: seq<string>)
    ensures !Truthy(Get(fields, PhotoUrlsField)) ==> urls == []
    ensures Truthy(Get(fields, PhotoUrlsField)) ==>
      && |urls| == Occurrences(fields[PhotoUrlsField], ',') + 1
      && (forall i :: 0 <= i < |urls| ==> ',' !in urls[i])
      && Join(urls, ",") == fields[PhotoUrlsField]
  {
    var field := Get(fields, PhotoUrlsField);
    if Truthy(field) then
      JoinSplit(field.value, ',');
      Split(field.value, ',')
    else []
  }

  /**
   * A list of at least one comma-free URL, sent joined by commas, comes back
   * as the same list.
   */
  lemma {:induction false} PhotoUrlsRoundTrip(fields: Fields, urls: seq<string>)
    requires |urls| >= 1 && Join(urls, ",") != ""
    requires forall i :: 0 <= i < |urls| ==> ',' !in urls[i]
    requires Get(fields, PhotoUrlsField) == Some(Join(urls, ","))
    ensures PhotoUrls(fields) == urls
  {
    SplitJoin(urls, ',');
  }

  /**
   * The record forwarded downstream. Fields that were not sent are
   * `undefined` in the source and are left out of its JSON encoding; here
   * they are `None`.
   */
  datatype StructuredReport = StructuredReport(
    citizenId: Option<string>,
    originalText: string,
    summary: string,
    location: Option<string>,
    photoUrls: seq<string>)

  /** The structured report built from the fields, the chosen text and the summariser's answer. */
  function Assemble(fields: Fields, text: string, summary: string): (r: StructuredReport)
    ensures r.citizenId.Some? <==> CitizenIdField in fields
    ensures r.citizenId.Some? ==> r.citizenId.value == fields[CitizenIdField]
    ensures r.location.Some? <==> LocationField in fields
    ensures r.location.Some? ==> r.location.value == fields[LocationField]
    ensures r.originalText == text && r.summary == summary
    ensures Truthy(Get(fields, PhotoUrlsField)) ==>
      && |r.photoUrls| == Occurrences(fields[PhotoUrlsField], ',') + 1
      && (forall i :: 0 <= i < |r.photoUrls| ==> ',' !in r.photoUrls[i])
      && Join(r.photoUrls, ",") == fields[PhotoUrlsField]
    ensures !Truthy(Get(fields, PhotoUrlsField)) ==> r.photoUrls == []
  {
    StructuredReport(
      citizenId := Get(fields, CitizenIdField),
      originalText := text,
      summary := summary,
      location := Get(fields, LocationField),
      photoUrls := PhotoUrls(fields))
  }
}
