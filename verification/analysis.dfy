/**
 * The status text chosen by `handleMessage` when the analysis bridge delivers
 * a response. The response's `data` field is either text, which is handed to
 * `JSON.parse`, or an already structured value. `JSON.parse` is not modelled:
 * it is the `parse` parameter, giving `None` where it throws.
 */
module Analysis {
  import opened Wrappers

  /**
   * A value as far as `handleMessage` looks at it: `null`, on which reading
   * `.title` throws, or any other value with its `title` property (`None` when
   * that property is missing or falsy; a truthy title is held as the text it
   * renders to, which is empty for an empty array).
   */
  datatype Json = JNull | JValue(title: Option<string>)

  /**
   * The `data` of a response that is present and truthy: a string, or a
   * structured value (never null here, since null is falsy).
   */
  datatype Data = Text(text: string) | Structured(title: Option<string>)

  const ANALYSIS_COMPLETE: string := "Analysis Complete."
  const ANALYSIS_PREFIX: string := "Analysis: "
  const UNKNOWN_OBJECT: string := "Unknown Object"
  const RAW_PREFIX: string := "LLM Text: "
  const RAW_SUFFIX: string := "..."
  const RAW_LIMIT: nat := 30

  /** `Analysis: ${parsed.title || 'Unknown Object'}` */
  function TitleStatus(title: Option<string>): (status: string)
    ensures |status| >= |ANALYSIS_PREFIX| && status[..|ANALYSIS_PREFIX|] == ANALYSIS_PREFIX
    ensures title.Some? ==> status == ANALYSIS_PREFIX + title.value
    ensures title.None? ==> status == ANALYSIS_PREFIX + UNKNOWN_OBJECT
  {
    if title.Some? then ANALYSIS_PREFIX + title.value
    else ANALYSIS_PREFIX + UNKNOWN_OBJECT
  }

  /** `LLM Text: ${text.substring(0, 30)}...` */
  function RawStatus(text: string): (status: string)
    ensures |status| > |RAW_PREFIX| && status[..|RAW_PREFIX|] == RAW_PREFIX
  {
    RAW_PREFIX + text[..if |text| < RAW_LIMIT then |text| else RAW_LIMIT] + RAW_SUFFIX
  }

  /**
   * The status for a response whose `data` is `data` (`None` when absent or
   * falsy other than the empty string). A string is parsed; a structured value
   * is used as it is; a parse that throws, or a parsed `null` whose `.title`
   * throws, falls back to the first 30 characters of the text.
   */
  function AnalysisStatus(data: Option<Data>, parse: string -> Option<Json>): (status: string)
    ensures data == None || data == Some(Text("")) ==> status == ANALYSIS_COMPLETE
    ensures data.Some? && data.value.Structured? ==> status == TitleStatus(data.value.title)
  {
    match data
    case None => ANALYSIS_COMPLETE
    case Some(Structured(title)) => TitleStatus(title)
    case Some(Text(s)) =>
      if s == "" then ANALYSIS_COMPLETE
      else match parse(s)
        case Some(JValue(title)) => TitleStatus(title)
        case _ => RawStatus(s)
  }

  /** A text that parses to a value with a truthy title shows that title. */
  lemma ParsedTitleShown(s: string, parse: string -> Option<Json>, title: string)
    requires s != "" && parse(s) == Some(JValue(Some(title)))
    ensures AnalysisStatus(Some(Text(s)), parse) == "Analysis: " + title
  {
  }

  /** A text that parses to a value without a title shows "Unknown Object". */
  lemma ParsedWithoutTitle(s: string, parse: string -> Option<Json>)
    requires s != "" && parse(s) == Some(JValue(None))
    ensures AnalysisStatus(Some(Text(s)), parse) == "Analysis: Unknown Object"
  {
  }

  /**
   * A text that does not parse (or parses to null) shows its own first
   * min(30, |s|) characters between "LLM Text: " and "...".
   */
  lemma UnparsedTextTruncated(s: string, parse: string -> Option<Json>)
    requires s != "" && (parse(s) == None || parse(s) == Some(JNull))
    ensures var status := AnalysisStatus(Some(Text(s)), parse);
      && |status| == |RAW_PREFIX| + (if |s| < RAW_LIMIT then |s| else RAW_LIMIT) + |RAW_SUFFIX|
      && status[..|RAW_PREFIX|] == "LLM Text: "
      && status[|status| - 3..] == "..."
      && forall i :: 0 <= i < |status| - |RAW_PREFIX| - |RAW_SUFFIX| ==> status[|RAW_PREFIX| + i] == s[i]
  {
  }

  /** What kind of status a response produced, read back from the text alone. */
  datatype StatusKind = Complete | Titled | RawText

  /**
   * Every status is exactly one of the three kinds: "Analysis Complete.",
   * "Analysis: <title>" or "LLM Text: <prefix>...", and which one is
   * determined by the response.
   */
  lemma StatusKindOf(data: Option<Data>, parse: string -> Option<Json>)
    ensures var status := AnalysisStatus(data, parse);
      var kind :=
        if data == None || data == Some(Text("")) then Complete
        else if data.value.Structured? || (parse(data.value.text).Some? && parse(data.value.text).value.JValue?) then Titled
        else RawText;
      && (kind == Complete <==> status == ANALYSIS_COMPLETE)
      && (kind == Titled <==> |status| >= |ANALYSIS_PREFIX| && status[..|ANALYSIS_PREFIX|] == ANALYSIS_PREFIX)
      && (kind == RawText <==> |status| >= |RAW_PREFIX| && status[..|RAW_PREFIX|] == RAW_PREFIX)
  {
    var status := AnalysisStatus(data, parse);
    // The three texts already differ at one character.
    assert ANALYSIS_COMPLETE[8] == ' ' && ANALYSIS_PREFIX[8] == ':';
    assert ANALYSIS_COMPLETE[0] == ANALYSIS_PREFIX[0] == 'A' && RAW_PREFIX[0] == 'L';
    assert status[0] == status[..|RAW_PREFIX|][0];
    if status != ANALYSIS_COMPLETE {
      assert status[8] == status[..|RAW_PREFIX|][8];
    }
  }
}
