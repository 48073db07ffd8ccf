/** How one search result is shown: a shortened title, a m:ss duration, and a `video:<id>` button. */
module Presentation {
  import opened Outcomes
  import opened Text
  import opened Numerals
  import opened Conversation
  import opened Tokens

  const MaxTitleLength := 35
  const KeptTitleLength := 32
  const Ellipsis := "..."
  const UnknownDuration := "Unknown"

  /** One entry of the resolver's search result: `id`, `title` and the optional `duration` in seconds. */
  datatype Candidate = Candidate(id: string, title: string, duration: Option<int>)

  /** A title longer than 35 characters keeps its first 32 and gains "..."; a shorter one is kept. */
  function TruncateTitle(title: string): (r: string)
    ensures |r| <= MaxTitleLength
    ensures |title| <= MaxTitleLength ==> r == title
    ensures |title| > MaxTitleLength ==>
              && |r| == MaxTitleLength
              && r[..KeptTitleLength] == title[..KeptTitleLength]
              && r[KeptTitleLength..] == Ellipsis
  {
    if |title| > MaxTitleLength then title[..KeptTitleLength] + Ellipsis else title
  }

  /** Shortening an already shown title changes nothing. */
  lemma TruncateTitleIdempotent(title: string)
    ensures TruncateTitle(TruncateTitle(title)) == TruncateTitle(title)
  {
  }

  /** Python truthiness of the optional duration: present and non-zero. */
  predicate Truthy(duration: Option<int>)
  {
    duration.Some? && duration.value != 0
  }

  /**
   * `f"{d//60}:{d%60:02d}"` for a truthy duration `d`, "Unknown" otherwise. Python's `//`
   * and `%` by 60 agree with Dafny's, so the seconds are always 0..59.
   * The label reads back as the duration: minutes times 60 plus the two-digit seconds.
   */
  function DurationLabel(duration: Option<int>): (r: string)
    ensures r == UnknownDuration <==> !Truthy(duration)
    ensures Truthy(duration) ==>
              && |r| >= 4 && r[|r| - 3] == ':'
              && AllDigits(r[|r| - 2..]) && DigitsValue(r[|r| - 2..]) < 60
              && IntValue(r[..|r| - 3]) * 60 + DigitsValue(r[|r| - 2..]) == duration.value
    ensures Truthy(duration) ==> r[..|r| - 3] == IntToString(duration.value / 60)
  {
    if Truthy(duration) then
      var d := duration.value;
      var minutes := IntToString(d / 60);
      var seconds := Pad2(d % 60);
      var r := minutes + ":" + seconds;
      IntToStringValue(d / 60);
      assert r[..|r| - 3] == minutes && r[|r| - 2..] == seconds;
      r
    else UnknownDuration
  }

  /** The text of a result button: `f"{title} ({duration_str})"` with the shortened title. */
  function ResultCaption(c: Candidate): string
  {
    TruncateTitle(c.title) + " (" + DurationLabel(c.duration) + ")"
  }

  /** The button for one result: it shows the shortened title and the duration, and carries `video:<id>`. */
  function ResultButton(c: Candidate): (b: Button)
    ensures b.caption == TruncateTitle(c.title) + " (" + DurationLabel(c.duration) + ")"
    ensures StartsWith(b.caption, TruncateTitle(c.title))
    ensures StartsWith(b.data, VideoPrefix) && b.data[|VideoPrefix|..] == c.id
    ensures RouteOf(b.data) == NoAction
  {
    VideoTokenNoAction(c.id);
    CallbackButton(ResultCaption(c), VideoToken(c.id))
  }
}
