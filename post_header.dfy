/**
 * The post page header's formatting (components/posts/post-detail/post-header.js):
 * the reading-time text and the type badge's label and icon.
 */
module PostHeader {
  import opened Wrappers
  import opened JsStrings

  const MinSuffix := " min read"

  /** `formattedReadingTime`: nothing for a missing or empty value; "min" is never appended twice. */
  function FormattedReadingTime(readingTime: Option<string>): (shown: string)
    ensures (readingTime.None? || readingTime == Some("")) ==> shown == ""
    ensures readingTime.Some? && Contains(readingTime.value, "min") ==> shown == readingTime.value
    ensures readingTime.Some? && readingTime.value != "" && !Contains(readingTime.value, "min") ==>
              shown == readingTime.value + MinSuffix
  {
    if readingTime.None? || readingTime.value == "" then ""
    else if Contains(readingTime.value, "min") then readingTime.value
    else readingTime.value + MinSuffix
  }

  /** Every non-empty result mentions "min". */
  lemma FormattedMentionsMin(readingTime: Option<string>)
    ensures FormattedReadingTime(readingTime) == "" || Contains(FormattedReadingTime(readingTime), "min")
  {
    var r := readingTime.GetOr("");
    if r != "" && !Contains(r, "min") {
      var shown := r + MinSuffix;
      assert shown[|r| + 1..|r| + 4] == "min";
      ContainsAt(shown, "min", |r| + 1);
    }
  }

  /** Formatting an already formatted reading time changes nothing. */
  lemma FormattingIdempotent(readingTime: Option<string>)
    ensures FormattedReadingTime(Some(FormattedReadingTime(readingTime))) == FormattedReadingTime(readingTime)
  {
    FormattedMentionsMin(readingTime);
  }

  /** The translation key of a post type's label, if it has one. */
  function TypeLabelKey(postType: string): (key: Option<string>)
    ensures key.Some? <==> postType in {"project", "tutorial", "article"}
    ensures key.Some? ==> key.value == postType + "Type"
  {
    match postType
    case "project" => Some("projectType")
    case "tutorial" => Some("tutorialType")
    case "article" => Some("articleType")
    case _ => None
  }

  /** `getTypeLabel`: the translated label of the three known types, "" for any other. */
  function GetTypeLabel(postType: string, t: string -> string): (text: string)
    ensures TypeLabelKey(postType).Some? ==> text == t(TypeLabelKey(postType).value)
    ensures TypeLabelKey(postType).None? ==> text == ""
  {
    match TypeLabelKey(postType)
    case Some(key) => t(key)
    case None => ""
  }

  /** `getTypeIcon`. */
  function GetTypeIcon(postType: string): (icon: string)
    ensures postType == "project" ==> icon == "💻"
    ensures postType == "tutorial" ==> icon == "🎓"
    ensures postType == "article" ==> icon == "📝"
    ensures postType !in {"project", "tutorial", "article"} ==> icon == "📄"
  {
    match postType
    case "project" => "💻"
    case "tutorial" => "🎓"
    case "article" => "📝"
    case _ => "📄"
  }

  /** Each known type has its own icon, and an unknown type shows the generic one and no label. */
  lemma TypeBadgeDistinct(t: string -> string, other: string)
    requires other !in {"project", "tutorial", "article"}
    ensures |{GetTypeIcon("project"), GetTypeIcon("tutorial"), GetTypeIcon("article"), GetTypeIcon(other)}| == 4
    ensures GetTypeLabel(other, t) == ""
  {
    assert GetTypeIcon(other) == "📄";
  }
}
