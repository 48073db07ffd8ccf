/** The /search command and the handler for plain text messages (YouTube links). */
module Commands {
  import opened Outcomes
  import opened Text
  import opened Conversation
  import opened Tokens
  import opened Presentation

  const UsageText := "Please provide a search term. Example: /search Bohemian Rhapsody"
  const NoResultsText := "No results found. Try a different search term."
  const SelectSongText := MusicNote + " Select a song to download:"
  /** The resolver is asked for the first five matches. */
  const SearchScheme := "ytsearch5:"

  function SearchingText(query: string): string
  {
    "\U{1F50D} Searching for: " + query
  }

  function SearchErrorText(message: string): string
  {
    "Error searching: " + message
  }

  /**
   * /search: without arguments, the usage prompt alone. Otherwise the arguments joined by
   * spaces are echoed and searched; a failure is reported, an empty result says
   * "No results found" with no keyboard, and otherwise one row with one button per result
   * is offered, in result order.
   */
  method SearchMusic(args: seq<string>, results: Lookup<seq<Candidate>>) returns (actions: seq<Action>)
    ensures args == [] ==> actions == [Reply(UsageText, None)]
    ensures args != [] ==>
              && |actions| == 3
              && actions[0] == Reply(SearchingText(Join(args, ' ')), None)
              && actions[1] == Resolve(SearchScheme + Join(args, ' '))
    ensures args != [] && results.LookupFailed? ==>
              actions[2] == Reply(SearchErrorText(results.message), None)
    ensures args != [] && results == Found([]) ==> actions[2] == Reply(NoResultsText, None)
    ensures args != [] && results.Found? && results.value != [] ==>
              && actions[2].Reply? && actions[2].text == SelectSongText && actions[2].markup.Some?
              && var keyboard := actions[2].markup.value;
                 && |keyboard| == |results.value|
                 && forall i :: 0 <= i < |keyboard| ==> keyboard[i] == [ResultButton(results.value[i])]
  {
    if args == [] {
      return [Reply(UsageText, None)];
    }
    var query := Join(args, ' ');
    actions := [Reply(SearchingText(query), None), Resolve(SearchScheme + query)];
    match results {
      case LookupFailed(message) =>
        actions := actions + [Reply(SearchErrorText(message), None)];
      case Found(entries) =>
        if entries == [] {
          actions := actions + [Reply(NoResultsText, None)];
          return;
        }
        var keyboard := ResultKeyboard(entries);
        actions := actions + [Reply(SelectSongText, Some(keyboard))];
    }
  }

  /** The loop of the search handler: one row holding one button per result, in result order. */
  method ResultKeyboard(entries: seq<Candidate>) returns (keyboard: Keyboard)
    ensures |keyboard| == |entries|
    ensures forall i :: 0 <= i < |keyboard| ==> keyboard[i] == [ResultButton(entries[i])]
  {
    keyboard := [];
    for i := 0 to |entries|
      invariant |keyboard| == i
      invariant forall k :: 0 <= k < i ==> keyboard[k] == [ResultButton(entries[k])]
    {
      var row := [ResultButton(entries[i])];
      assert (keyboard + [row])[..i] == keyboard;
      keyboard := keyboard + [row];
    }
  }

  /** Two results with different ids get buttons with different callback data. */
  lemma ResultButtonsDistinct(a: Candidate, b: Candidate)
    requires a.id != b.id
    ensures ResultButton(a).data != ResultButton(b).data
  {
  }

  const YouTubeHost := "youtube.com"
  const ShortHost := "youtu.be"

  /** The link check: the message contains `youtube.com` or `youtu.be` somewhere. */
  predicate IsYouTubeLink(text: string)
    ensures IsYouTubeLink(text) <==>
              exists i: nat :: OccursAt(text, YouTubeHost, i) || OccursAt(text, ShortHost, i)
  {
    ContainsIff(text, YouTubeHost);
    ContainsIff(text, ShortHost);
    Contains(text, YouTubeHost) || Contains(text, ShortHost)
  }

  const GuidanceText := "Please send a valid YouTube link or use /search to find music."
  const ProcessingText := "\U{23F3} Processing your YouTube link..."

  function LinkErrorText(message: string): string
  {
    "Error processing the YouTube link: " + message
  }

  function QualityCaption(title: string): string
  {
    MusicNote + " *" + title + "*\n\nSelect audio quality to download:"
  }

  /** What the resolver reports for a link: `id`, `title` and whether a `thumbnail` key is present. */
  datatype LinkInfo = LinkInfo(id: string, title: string, thumbnail: Option<string>)

  /** Three rows, one quality button each: `download:<id>:128k`, `…:256k`, `…:320k`. */
  function QualityKeyboard(id: string): (keyboard: Keyboard)
    ensures |keyboard| == |Qualities|
    ensures forall i :: 0 <= i < |keyboard| ==>
              |keyboard[i]| == 1 && keyboard[i][0].data == DownloadToken(id, Qualities[i])
  {
    [ [CallbackButton(MusicNote + " MP3 (128kbps)", DownloadToken(id, Qualities[0]))],
      [CallbackButton(MusicNote + " MP3 (256kbps)", DownloadToken(id, Qualities[1]))],
      [CallbackButton(MusicNote + " MP3 (320kbps)", DownloadToken(id, Qualities[2]))] ]
  }

  /**
   * Every quality button for a `:`-free id is routed back to that id with its quality,
   * and that quality reaches the transcoder as 128, 256 or 320.
   */
  lemma QualityButtonsRoundTrip(id: string)
    requires Separator !in id
    ensures RouteOf(QualityKeyboard(id)[0][0].data) == StartDownload(id, "128k")
    ensures RouteOf(QualityKeyboard(id)[1][0].data) == StartDownload(id, "256k")
    ensures RouteOf(QualityKeyboard(id)[2][0].data) == StartDownload(id, "320k")
    ensures [Bitrate(Qualities[0]), Bitrate(Qualities[1]), Bitrate(Qualities[2])] == ["128", "256", "320"]
  {
    assert Qualities[0] == "128k" && Qualities[1] == "256k" && Qualities[2] == "320k";
    DownloadTokenRoundTrip(id, "128k");
    DownloadTokenRoundTrip(id, "256k");
    DownloadTokenRoundTrip(id, "320k");
    OfferedBitrates();
  }

  /** The quality offer: a text reply or a photo that carries the quality keyboard. */
  predicate OffersQualities(a: Action, id: string)
  {
    (a.Reply? && a.markup == Some(QualityKeyboard(id))) || (a.ReplyPhoto? && a.keyboard == QualityKeyboard(id))
  }

  /**
   * A plain text message. Without a YouTube host in it: the guidance reply and nothing else.
   * With one: a progress reply, then the resolver is asked about the whole text; its failure
   * is reported; otherwise the quality keyboard is offered with the thumbnail as a photo when
   * the thumbnail answers 200, as text when it answers anything else or there is none, and an
   * exception while fetching it is reported like a resolver failure.
   */
  function HandleYouTubeLink(text: string, info: Lookup<LinkInfo>, thumbnail: HttpResponse): (actions: seq<Action>)
    ensures !IsYouTubeLink(text) ==> actions == [Reply(GuidanceText, None)]
    ensures IsYouTubeLink(text) ==>
              && 3 <= |actions| <= 4
              && actions[..2] == [Reply(ProcessingText, None), Resolve(text)]
    ensures IsYouTubeLink(text) ==> (|actions| == 4 <==> info.Found? && info.value.thumbnail.Some?)
    ensures IsYouTubeLink(text) && |actions| == 4 ==> actions[2] == GetImage(info.value.thumbnail.value)
    ensures IsYouTubeLink(text) && info.LookupFailed? ==>
              actions[|actions| - 1] == Reply(LinkErrorText(info.message), None)
    ensures IsYouTubeLink(text) && info.Found? ==>
              (OffersQualities(actions[|actions| - 1], info.value.id) <==>
               !(info.value.thumbnail.Some? && thumbnail.HttpFailed?))
    ensures IsYouTubeLink(text) && info.Found? &&
            (info.value.thumbnail.None? || (thumbnail.Status? && thumbnail.code != 200)) ==>
              actions[|actions| - 1] == Reply(QualityCaption(info.value.title), Some(QualityKeyboard(info.value.id)))
    ensures IsYouTubeLink(text) && info.Found? && info.value.thumbnail.Some? && thumbnail.HttpFailed? ==>
              actions[|actions| - 1] == Reply(LinkErrorText(thumbnail.message), None)
    ensures IsYouTubeLink(text) && info.Found? && info.value.thumbnail.Some? && thumbnail == Status(200) ==>
              actions[|actions| - 1] ==
                ReplyPhoto(info.value.thumbnail.value, QualityCaption(info.value.title), QualityKeyboard(info.value.id))
  {
    if !IsYouTubeLink(text) then [Reply(GuidanceText, None)]
    else
      var start := [Reply(ProcessingText, None), Resolve(text)];
      match info
      case LookupFailed(message) => start + [Reply(LinkErrorText(message), None)]
      case Found(v) =>
        var caption := QualityCaption(v.title);
        var offer := Reply(caption, Some(QualityKeyboard(v.id)));
        match v.thumbnail
        case None => start + [offer]
        case Some(url) =>
          match thumbnail
          case Status(code) =>
            start + [GetImage(url), if code == 200 then ReplyPhoto(url, caption, QualityKeyboard(v.id)) else offer]
          case HttpFailed(message) => start + [GetImage(url), Reply(LinkErrorText(message), None)]
  }
}
