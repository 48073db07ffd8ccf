/** The handler for button presses: acknowledge, then branch on the callback data. */
module Callbacks {
  import opened Conversation
  import opened Tokens
  import opened Downloads

  /** `str(IndexError)` for `parts[2]` on data with fewer than three pieces. */
  const IndexErrorMessage := "list index out of range"

  function StartingText(videoId: string, quality: string): string
  {
    "\U{23F3} Starting download of video " + videoId + " in " + quality
    + " quality...\nPlease wait, this may take a moment."
  }

  /**
   * A button press. The acknowledgement always comes first. `help` edits the caption to the
   * help text; data beginning `download:` edits the message to the progress text and runs
   * the download (or raises IndexError when it has fewer than three `:`-pieces); anything
   * else, the `video:<id>` data of search results included, does nothing more.
   */
  method ButtonCallback(dir: Directory, data: string,
                        fetch: FetchOutcome, tag: StepOutcome, send: StepOutcome)
    returns (trace: seq<Action>)
    requires dir.Valid()
    modifies dir
    ensures dir.Valid()
    ensures |trace| >= 1 && trace[0] == Answer
    ensures data == HelpData ==> trace == [Answer, EditCaption(HelpText)] && dir.files == old(dir.files)
    ensures RouteOf(data) == NoAction ==> trace == [Answer] && dir.files == old(dir.files)
    ensures RouteOf(data) == MalformedDownload ==>
              trace == [Answer, HandlerCrash(IndexErrorMessage)] && dir.files == old(dir.files)
    ensures RouteOf(data).StartDownload? ==>
              var id, quality := RouteOf(data).videoId, RouteOf(data).quality;
              var run := Pipeline(id, quality, old(dir.files), fetch, tag, send);
              trace == [Answer, EditText(StartingText(id, quality))] + run.trace && dir.files == run.listing
  {
    trace := [Answer];
    match RouteOf(data) {
      case ShowHelp =>
        trace := trace + [EditCaption(HelpText)];
      case StartDownload(id, quality) =>
        trace := trace + [EditText(StartingText(id, quality))];
        var rest := DownloadMusic(dir, id, quality, fetch, tag, send);
        trace := trace + rest;
      case MalformedDownload =>
        trace := trace + [HandlerCrash(IndexErrorMessage)];
      case NoAction =>
    }
  }
}
