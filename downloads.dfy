/**
 * The download handler: after the resolver has fetched and transcoded a video into the
 * downloads directory, locate the mp3 and the thumbnail by listing the directory, tag the
 * mp3 (best effort), send it, and remove exactly those two files.
 */
module Downloads {
  import opened Outcomes
  import opened Text
  import opened Conversation
  import opened Tokens

  const Mp3Suffix := ".mp3"
  const ImageSuffixes: seq<string> := [".jpg", ".png", ".webp"]

  predicate NoDuplicates(s: seq<string>)
  {
    forall i, j :: 0 <= i < j < |s| ==> s[i] != s[j]
  }

  /** `s` with every occurrence of `x` removed, the rest in order. */
  function Without(s: seq<string>, x: string): seq<string>
  {
    if s == [] then []
    else (if s[0] == x then [] else [s[0]]) + Without(s[1..], x)
  }

  /** Removing `x` keeps every other name, and on a duplicate-free listing removes one entry at most. */
  lemma {:induction false} WithoutKeepsOthers(s: seq<string>, x: string)
    ensures x !in Without(s, x)
    ensures forall y :: y != x ==> (y in Without(s, x) <==> y in s)
    ensures NoDuplicates(s) ==>
              NoDuplicates(Without(s, x)) && |Without(s, x)| == (if x in s then |s| - 1 else |s|)
  {
    if s != [] {
      WithoutKeepsOthers(s[1..], x);
      assert NoDuplicates(s) ==> NoDuplicates(s[1..]) && s[0] !in s[1..];
    }
  }

  /**
   * The downloads directory. `files` is what `os.listdir` returns, in its order; the names
   * are unique and a path `downloads/<name>` exists exactly when `name` is listed.
   */
  class Directory {
    var files: seq<string>

    ghost predicate Valid()
      reads this
    {
      NoDuplicates(files)
    }

    /** `os.path.exists` */
    function Exists(name: string): bool
      reads this
    {
      name in files
    }

    /** `os.remove`, on a file that exists; nothing else in the directory changes. */
    method Remove(name: string)
      requires Valid() && name in files
      modifies this
      ensures Valid()
      ensures files == Without(old(files), name)
    {
      WithoutKeepsOthers(files, name);
      files := Without(files, name);
    }
  }

  predicate IsMp3(name: string)
  {
    EndsWith(name, Mp3Suffix)
  }

  /** `name.endswith(('.jpg', '.png', '.webp')) and title in name` */
  predicate IsThumbnailFor(name: string, title: string)
  {
    (EndsWith(name, ImageSuffixes[0]) || EndsWith(name, ImageSuffixes[1]) || EndsWith(name, ImageSuffixes[2]))
    && Contains(name, title)
  }

  /** No name is both an mp3 and an image, so the audio file and the thumbnail always differ. */
  lemma Mp3IsNotThumbnail(name: string, title: string)
    requires IsMp3(name)
    ensures !IsThumbnailFor(name, title)
  {
    var n := |name|;
    assert name[n - 4..] == Mp3Suffix;
    assert name[n - 1] == '3';
  }

  /** The name the resolver's output template gives the mp3: `<title>.mp3`. */
  function ExpectedAudio(title: string): (name: string)
    ensures IsMp3(name)
  {
    var name := title + Mp3Suffix;
    assert name[|name| - 4..] == Mp3Suffix;
    name
  }

  /** The index of the first element satisfying `p`, as a `for … break` scan finds it. */
  function FirstIndex(s: seq<string>, p: string -> bool): (r: Option<nat>)
    ensures r.Some? ==> r.value < |s| && p(s[r.value]) && forall j :: 0 <= j < r.value ==> !p(s[j])
    ensures r.None? ==> forall j :: 0 <= j < |s| ==> !p(s[j])
  {
    if s == [] then None
    else if p(s[0]) then Some(0)
    else match FirstIndex(s[1..], p)
      case None => None
      case Some(k) => Some(k + 1)
  }

  /** The audio file the handler settles on; `AudioNameIsFirstMp3` says which. */
  function AudioName(title: string, listing: seq<string>): (name: string)
    ensures IsMp3(name)
  {
    if ExpectedAudio(title) in listing then ExpectedAudio(title)
    else match FirstIndex(listing, IsMp3)
      case Some(k) => listing[k]
      case None => ExpectedAudio(title)
  }

  /**
   * The audio file is `<title>.mp3` if that is listed; otherwise the first listed name ending
   * in `.mp3`; otherwise still `<title>.mp3`, which then does not exist.
   */
  lemma AudioNameIsFirstMp3(title: string, listing: seq<string>)
    ensures var name := AudioName(title, listing);
            && (ExpectedAudio(title) in listing ==> name == ExpectedAudio(title))
            && (ExpectedAudio(title) !in listing ==>
                  if exists k :: 0 <= k < |listing| && IsMp3(listing[k]) then
                    exists k :: 0 <= k < |listing| && name == listing[k] && IsMp3(listing[k])
                                && forall j :: 0 <= j < k ==> !IsMp3(listing[j])
                  else name == ExpectedAudio(title))
  {
  }

  /** The audio file is listed exactly when `<title>.mp3` is, or some mp3 is. */
  lemma AudioNameListed(title: string, listing: seq<string>)
    ensures AudioName(title, listing) in listing <==>
              ExpectedAudio(title) in listing || exists k :: 0 <= k < |listing| && IsMp3(listing[k])
  {
  }

  /** The thumbnail the handler settles on; `ThumbnailNameIsFirstImage` says which. */
  function ThumbnailName(title: string, listing: seq<string>): (thumb: Option<string>)
    ensures thumb.Some? ==> thumb.value in listing && IsThumbnailFor(thumb.value, title)
  {
    match FirstIndex(listing, name => IsThumbnailFor(name, title))
    case Some(k) => Some(listing[k])
    case None => None
  }

  /** The thumbnail is the first listed image whose name contains the title, and none when there is none. */
  lemma ThumbnailNameIsFirstImage(title: string, listing: seq<string>)
    ensures var thumb := ThumbnailName(title, listing);
            && (thumb.None? <==> forall j :: 0 <= j < |listing| ==> !IsThumbnailFor(listing[j], title))
            && (thumb.Some? ==>
                  exists k :: 0 <= k < |listing| && thumb.value == listing[k] && IsThumbnailFor(listing[k], title)
                              && forall j :: 0 <= j < k ==> !IsThumbnailFor(listing[j], title))
  {
  }

  /** The scan for the audio file, with the `for … break` over the listing. */
  method LocateAudio(title: string, listing: seq<string>) returns (name: string)
    ensures name == AudioName(title, listing)
  {
    name := ExpectedAudio(title);
    if name !in listing {
      for i := 0 to |listing|
        invariant name == ExpectedAudio(title)
        invariant forall j :: 0 <= j < i ==> !IsMp3(listing[j])
      {
        if EndsWith(listing[i], Mp3Suffix) {
          name := listing[i];
          break;
        }
      }
    }
  }

  /** The scan for the thumbnail, with the `for … break` over the listing. */
  method FindThumbnail(title: string, listing: seq<string>) returns (thumb: Option<string>)
    ensures thumb == ThumbnailName(title, listing)
  {
    thumb := None;
    for i := 0 to |listing|
      invariant thumb.None?
      invariant forall j :: 0 <= j < i ==> !IsThumbnailFor(listing[j], title)
    {
      if IsThumbnailFor(listing[i], title) {
        thumb := Some(listing[i]);
        break;
      }
    }
  }

  /** What the resolver reports after downloading: the `title` key (if present) and the `uploader` key (if present). */
  datatype MediaInfo = MediaInfo(title: Option<string>, uploader: Option<string>)

  /** The download-and-transcode step: its report, or the text of the exception it raised. */
  datatype FetchOutcome = Fetched(info: MediaInfo) | FetchFailed(message: string)

  /** A step that either succeeds or raises (tag writing, sending the audio). */
  datatype StepOutcome = Succeeded | StepFailed(message: string)

  /** What one run of the handler did: the actions in order, and the directory listing afterwards. */
  datatype Run = Run(trace: seq<Action>, listing: seq<string>)

  const DownloadingText := "\U{23EC} Downloading... Please wait..."
  const CompleteText := "\U{2705} Download complete! Sending file..."
  const NotFoundText := "\U{274C} Error: Downloaded file not found."
  /** `str(KeyError('title'))`, raised when the report has no title. */
  const MissingTitleMessage := "'title'"
  const DefaultPerformer := "YouTube"

  function FailedText(message: string): string
  {
    "\U{274C} Download failed: " + message
  }

  function WatchUrl(videoId: string): string
  {
    "https://www.youtube.com/watch?v=" + videoId
  }

  /** `info.get('uploader', 'YouTube')` */
  function Performer(info: MediaInfo): string
  {
    info.uploader.GetOr(DefaultPerformer)
  }

  function AudioCaption(title: string, quality: string, videoId: string): string
  {
    MusicNote + " *" + title + "*\n"
    + "\U{1F4BE} Quality: " + quality + "\n"
    + "\U{1F517} [YouTube Link](" + WatchUrl(videoId) + ")\n\n"
    + "Downloaded by @ZeroMusicBot"
  }

  /** The removals after a delivery: the audio file, then the thumbnail if one was found. */
  function Cleanup(audio: string, thumb: Option<string>): seq<Action>
  {
    [RemoveFile(audio)] + if thumb.Some? then [RemoveFile(thumb.value)] else []
  }

  /** The listing after the clean-up: the audio file and the thumbnail are gone, every other name stays. */
  function RemoveArtifacts(listing: seq<string>, audio: string, thumb: Option<string>): (r: seq<string>)
    ensures forall n :: n in r <==> n in listing && n != audio && thumb != Some(n)
  {
    WithoutKeepsOthers(listing, audio);
    if thumb.Some? then
      WithoutKeepsOthers(Without(listing, audio), thumb.value);
      Without(Without(listing, audio), thumb.value)
    else Without(listing, audio)
  }

  /**
   * The tag step, attempted when the audio file exists: the tags are written (with the
   * thumbnail as cover) unless tagging raised, in which case nothing is written.
   */
  function TagWrite(audio: string, thumb: Option<string>, title: string, performer: string,
                    listing: seq<string>, tag: StepOutcome): (w: seq<Action>)
    ensures tag.StepFailed? ==> w == []
    ensures audio !in listing ==> w == []
    ensures audio in listing && tag.Succeeded? ==> w == [WriteTags(audio, title, performer, thumb)]
  {
    if audio in listing && tag.Succeeded? then [WriteTags(audio, title, performer, thumb)] else []
  }

  /**
   * From "Download complete" on: a missing audio file ends in "file not found", a send
   * exception in "Download failed"; a delivery removes the audio file and the thumbnail and
   * deletes the status message.
   */
  function Sending(videoId: string, quality: string, title: string, performer: string,
                   audio: string, thumb: Option<string>, listing: seq<string>, send: StepOutcome): (r: Run)
    ensures |r.trace| >= 2 && r.trace[0] == EditText(CompleteText)
  {
    var complete := [EditText(CompleteText)];
    if audio !in listing then Run(complete + [EditText(NotFoundText)], listing)
    else match send
      case StepFailed(message) => Run(complete + [EditText(FailedText(message))], listing)
      case Succeeded =>
        Run(complete + [SendAudio(audio, title, performer, AudioCaption(title, quality, videoId))]
              + Cleanup(audio, thumb) + [DeleteMessage],
            RemoveArtifacts(listing, audio, thumb))
  }

  /** The handler after the fetch reported a title, on the directory `listing` the fetch left. */
  function Delivery(videoId: string, quality: string, title: string, performer: string,
                    listing: seq<string>, tag: StepOutcome, send: StepOutcome): (r: Run)
    ensures forall n :: n in r.listing ==> n in listing
    ensures r.listing != listing ==> send.Succeeded? && AudioName(title, listing) in listing
  {
    var audio := AudioName(title, listing);
    var thumb := ThumbnailName(title, listing);
    var rest := Sending(videoId, quality, title, performer, audio, thumb, listing, send);
    Run(TagWrite(audio, thumb, title, performer, listing, tag) + rest.trace, rest.listing)
  }

  /**
   * The whole handler. The status message becomes "Downloading" and the fetch is asked for
   * the video at `quality` without its `k`s; a fetch exception, or a report without a title,
   * ends in "Download failed" with the directory as the fetch left it; otherwise `Delivery`.
   */
  function Pipeline(videoId: string, quality: string, listing: seq<string>,
                    fetch: FetchOutcome, tag: StepOutcome, send: StepOutcome): (r: Run)
    ensures forall n :: n in r.listing ==> n in listing
    ensures r.listing != listing ==> fetch.Fetched? && fetch.info.title.Some? && send.Succeeded?
  {
    var start := [EditText(DownloadingText), Fetch(WatchUrl(videoId), Bitrate(quality))];
    match fetch
    case FetchFailed(message) => Run(start + [EditText(FailedText(message))], listing)
    case Fetched(info) =>
      if info.title.None? then Run(start + [EditText(FailedText(MissingTitleMessage))], listing)
      else
        var rest := Delivery(videoId, quality, info.title.value, Performer(info), listing, tag, send);
        Run(start + rest.trace, rest.listing)
  }

  /** The handler itself, over the directory the fetch left behind (`dir`). */
  method DownloadMusic(dir: Directory, videoId: string, quality: string,
                       fetch: FetchOutcome, tag: StepOutcome, send: StepOutcome)
    returns (trace: seq<Action>)
    requires dir.Valid()
    modifies dir
    ensures dir.Valid()
    ensures Run(trace, dir.files) == Pipeline(videoId, quality, old(dir.files), fetch, tag, send)
  {
    var bitrate := Bitrate(quality);
    trace := [EditText(DownloadingText), Fetch(WatchUrl(videoId), bitrate)];
    if fetch.FetchFailed? {
      trace := trace + [EditText(FailedText(fetch.message))];
      return;
    }
    var info := fetch.info;
    if info.title.None? {
      trace := trace + [EditText(FailedText(MissingTitleMessage))];
      return;
    }
    var rest := Deliver(dir, videoId, quality, info.title.value, Performer(info), tag, send);
    trace := trace + rest;
  }

  /** Locate, tag, send and clean up, as `Delivery` describes. */
  method Deliver(dir: Directory, videoId: string, quality: string, title: string, performer: string,
                 tag: StepOutcome, send: StepOutcome)
    returns (trace: seq<Action>)
    requires dir.Valid()
    modifies dir
    ensures dir.Valid()
    ensures Run(trace, dir.files) == Delivery(videoId, quality, title, performer, old(dir.files), tag, send)
  {
    var audio := LocateAudio(title, dir.files);
    var thumb := FindThumbnail(title, dir.files);
    var tags := TagStep(dir, title, performer, audio, thumb, tag);
    var rest := SendStep(dir, videoId, quality, title, performer, audio, thumb, send);
    trace := tags + rest;
  }

  /** The best-effort tag step on the located files, as `TagWrite` describes. */
  method TagStep(dir: Directory, title: string, performer: string, audio: string, thumb: Option<string>,
                 tag: StepOutcome)
    returns (trace: seq<Action>)
    requires thumb.Some? ==> thumb.value in dir.files
    ensures trace == TagWrite(audio, thumb, title, performer, dir.files, tag)
  {
    trace := [];
    if dir.Exists(audio) && tag.Succeeded? {
      var cover := if thumb.Some? && dir.Exists(thumb.value) then thumb else None;
      trace := [WriteTags(audio, title, performer, cover)];
    }
  }

  /** Report completion, then send and clean up, as `Sending` describes. */
  method SendStep(dir: Directory, videoId: string, quality: string, title: string, performer: string,
                  audio: string, thumb: Option<string>, send: StepOutcome)
    returns (trace: seq<Action>)
    requires dir.Valid() && IsMp3(audio)
    requires thumb.Some? ==> thumb.value in dir.files && IsThumbnailFor(thumb.value, title)
    modifies dir
    ensures dir.Valid()
    ensures Run(trace, dir.files) == Sending(videoId, quality, title, performer, audio, thumb, old(dir.files), send)
  {
    trace := [EditText(CompleteText)];
    if !dir.Exists(audio) {
      trace := trace + [EditText(NotFoundText)];
      return;
    }
    if send.StepFailed? {
      trace := trace + [EditText(FailedText(send.message))];
      return;
    }
    if thumb.Some? {
      Mp3IsNotThumbnail(audio, title);
    }
    trace := trace + [SendAudio(audio, title, performer, AudioCaption(title, quality, videoId))];
    var removed := RemoveBoth(dir, audio, thumb);
    trace := trace + removed + [DeleteMessage];
  }

  /** The clean-up: remove the audio file if it exists, then the thumbnail if there is one and it exists. */
  method RemoveBoth(dir: Directory, audio: string, thumb: Option<string>) returns (removed: seq<Action>)
    requires dir.Valid() && audio in dir.files
    requires thumb.Some? ==> thumb.value in dir.files && thumb.value != audio
    modifies dir
    ensures dir.Valid()
    ensures removed == Cleanup(audio, thumb)
    ensures dir.files == RemoveArtifacts(old(dir.files), audio, thumb)
  {
    removed := [];
    WithoutKeepsOthers(dir.files, audio);
    if dir.Exists(audio) {
      dir.Remove(audio);
      removed := [RemoveFile(audio)];
    }
    if thumb.Some? && dir.Exists(thumb.value) {
      dir.Remove(thumb.value);
      removed := removed + [RemoveFile(thumb.value)];
    }
  }

  /** No file is sent and none removed. */
  predicate NothingDelivered(trace: seq<Action>)
  {
    forall i :: 0 <= i < |trace| ==> !trace[i].SendAudio? && !trace[i].RemoveFile?
  }

  /** A run on a report with a title: the fetch request, the tag step, then `Sending`. */
  lemma PipelineWithTitle(videoId: string, quality: string, listing: seq<string>,
                          info: MediaInfo, tag: StepOutcome, send: StepOutcome)
    requires info.title.Some?
    ensures var title := info.title.value;
            var audio := AudioName(title, listing);
            var thumb := ThumbnailName(title, listing);
            var after := Sending(videoId, quality, title, Performer(info), audio, thumb, listing, send);
            Pipeline(videoId, quality, listing, Fetched(info), tag, send) ==
              Run([EditText(DownloadingText), Fetch(WatchUrl(videoId), Bitrate(quality))]
                    + (TagWrite(audio, thumb, title, Performer(info), listing, tag) + after.trace),
                  after.listing)
  {
  }

  /** At the level of `Delivery`: a tagging exception only leaves out the leading tag write. */
  lemma DeliveryTagging(videoId: string, quality: string, title: string, performer: string,
                        listing: seq<string>, send: StepOutcome, message: string)
    ensures var audio := AudioName(title, listing);
            var write := WriteTags(audio, title, performer, ThumbnailName(title, listing));
            var tagged := Delivery(videoId, quality, title, performer, listing, Succeeded, send);
            var untagged := Delivery(videoId, quality, title, performer, listing, StepFailed(message), send);
            && untagged.listing == tagged.listing
            && tagged.trace == if audio in listing then [write] + untagged.trace else untagged.trace
  {
    var audio := AudioName(title, listing);
    var thumb := ThumbnailName(title, listing);
    var rest := Sending(videoId, quality, title, performer, audio, thumb, listing, send).trace;
    assert TagWrite(audio, thumb, title, performer, listing, StepFailed(message)) == [];
    assert [] + rest == rest;
  }

  /**
   * Tagging is best effort: a tagging exception only leaves out the tag write that follows
   * the fetch request (made when the audio file exists), and changes nothing else, neither
   * what is sent nor what is removed.
   */
  lemma TaggingIsBestEffort(videoId: string, quality: string, listing: seq<string>,
                            info: MediaInfo, send: StepOutcome, message: string)
    requires info.title.Some?
    ensures var title := info.title.value;
            var audio := AudioName(title, listing);
            var write := WriteTags(audio, title, Performer(info), ThumbnailName(title, listing));
            var tagged := Pipeline(videoId, quality, listing, Fetched(info), Succeeded, send);
            var untagged := Pipeline(videoId, quality, listing, Fetched(info), StepFailed(message), send);
            && |untagged.trace| >= 2
            && untagged.listing == tagged.listing
            && tagged.trace ==
                 if audio in listing then untagged.trace[..2] + [write] + untagged.trace[2..] else untagged.trace
  {
    var title := info.title.value;
    var start := [EditText(DownloadingText), Fetch(WatchUrl(videoId), Bitrate(quality))];
    var d1 := Delivery(videoId, quality, title, Performer(info), listing, Succeeded, send);
    var d0 := Delivery(videoId, quality, title, Performer(info), listing, StepFailed(message), send);
    DeliveryTagging(videoId, quality, title, Performer(info), listing, send, message);
    assert Pipeline(videoId, quality, listing, Fetched(info), Succeeded, send) == Run(start + d1.trace, d1.listing);
    assert Pipeline(videoId, quality, listing, Fetched(info), StepFailed(message), send) == Run(start + d0.trace, d0.listing);
    var untagged := start + d0.trace;
    assert untagged[..2] == start && untagged[2..] == d0.trace;
    if AudioName(title, listing) in listing {
      assert start + ([WriteTags(AudioName(title, listing), title, Performer(info), ThumbnailName(title, listing))] + d0.trace)
          == untagged[..2] + [WriteTags(AudioName(title, listing), title, Performer(info), ThumbnailName(title, listing))] + untagged[2..];
    }
  }

  /**
   * A delivery removes the audio file and the thumbnail (if one was found) and no other
   * file, sends the audio and ends by deleting the status message.
   */
  lemma DeliveryRemovesOnlyArtifacts(videoId: string, quality: string, listing: seq<string>,
                                     info: MediaInfo, tag: StepOutcome)
    requires NoDuplicates(listing)
    requires info.title.Some? && AudioName(info.title.value, listing) in listing
    ensures var title := info.title.value;
            var audio := AudioName(title, listing);
            var thumb := ThumbnailName(title, listing);
            var r := Pipeline(videoId, quality, listing, Fetched(info), tag, Succeeded);
            && (forall n :: n in r.listing <==> n in listing && n != audio && thumb != Some(n))
            && |r.listing| == |listing| - (if thumb.Some? then 2 else 1)
            && SendAudio(audio, title, Performer(info), AudioCaption(title, quality, videoId)) in r.trace
            && r.trace[|r.trace| - 1] == DeleteMessage
  {
    var title := info.title.value;
    var audio := AudioName(title, listing);
    var thumb := ThumbnailName(title, listing);
    WithoutKeepsOthers(listing, audio);
    if thumb.Some? {
      Mp3IsNotThumbnail(audio, title);
      assert thumb.value in listing && thumb.value != audio;
      assert thumb.value in Without(listing, audio);
      WithoutKeepsOthers(Without(listing, audio), thumb.value);
    }
  }

  /** When no mp3 is listed, the user is told the file was not found; nothing is sent, tagged or removed. */
  lemma MissingAudioIsReported(videoId: string, quality: string, listing: seq<string>,
                               info: MediaInfo, tag: StepOutcome, send: StepOutcome)
    requires info.title.Some?
    requires forall k :: 0 <= k < |listing| ==> !IsMp3(listing[k])
    ensures var r := Pipeline(videoId, quality, listing, Fetched(info), tag, send);
            && r.listing == listing
            && r.trace[|r.trace| - 1] == EditText(NotFoundText)
            && NothingDelivered(r.trace)
            && forall i :: 0 <= i < |r.trace| ==> !r.trace[i].WriteTags?
  {
    PipelineWithTitle(videoId, quality, listing, info, tag, send);
    AudioNameListed(info.title.value, listing);
    assert ExpectedAudio(info.title.value) !in listing;
  }

  /**
   * A fetch exception, a report without a title or a send exception ends in "Download failed"
   * (or "file not found" when there is nothing to send) and removes nothing.
   */
  lemma FailureKeepsFiles(videoId: string, quality: string, listing: seq<string>,
                          fetch: FetchOutcome, tag: StepOutcome, send: StepOutcome)
    requires fetch.FetchFailed? || fetch.info.title.None? || send.StepFailed?
    ensures var r := Pipeline(videoId, quality, listing, fetch, tag, send);
            && r.listing == listing
            && NothingDelivered(r.trace)
            && r.trace[|r.trace| - 1] ==
                 if fetch.FetchFailed? then EditText(FailedText(fetch.message))
                 else if fetch.info.title.None? then EditText(FailedText(MissingTitleMessage))
                 else if AudioName(fetch.info.title.value, listing) in listing then EditText(FailedText(send.message))
                 else EditText(NotFoundText)
  {
    if fetch.Fetched? && fetch.info.title.Some? {
      var title := fetch.info.title.value;
      var performer := Performer(fetch.info);
      var audio := AudioName(title, listing);
      var thumb := ThumbnailName(title, listing);
      var after := Sending(videoId, quality, title, performer, audio, thumb, listing, send);
      var write := TagWrite(audio, thumb, title, performer, listing, tag);
      PipelineWithTitle(videoId, quality, listing, fetch.info, tag, send);
      SendFailureKeepsFiles(videoId, quality, title, performer, audio, thumb, listing, send);
      NothingDeliveredConcat(write, after.trace);
      NothingDeliveredConcat([EditText(DownloadingText), Fetch(WatchUrl(videoId), Bitrate(quality))], write + after.trace);
    }
  }

  /** A send exception, or a missing audio file, leaves the listing alone and delivers nothing. */
  lemma SendFailureKeepsFiles(videoId: string, quality: string, title: string, performer: string,
                              audio: string, thumb: Option<string>, listing: seq<string>, send: StepOutcome)
    requires send.StepFailed? || audio !in listing
    ensures var r := Sending(videoId, quality, title, performer, audio, thumb, listing, send);
            && r.listing == listing
            && NothingDelivered(r.trace)
            && r.trace[|r.trace| - 1] ==
                 if audio in listing then EditText(FailedText(send.message)) else EditText(NotFoundText)
  {
  }

  /** Nothing is delivered by two traces in a row exactly when nothing is delivered by either. */
  lemma NothingDeliveredConcat(a: seq<Action>, b: seq<Action>)
    ensures NothingDelivered(a + b) <==> NothingDelivered(a) && NothingDelivered(b)
  {
    if NothingDelivered(a) && NothingDelivered(b) {
      forall i | 0 <= i < |a + b|
        ensures !(a + b)[i].SendAudio? && !(a + b)[i].RemoveFile?
      {
        if i >= |a| {
          assert (a + b)[i] == b[i - |a|];
        }
      }
    }
    if NothingDelivered(a + b) {
      forall i | 0 <= i < |a| ensures !a[i].SendAudio? && !a[i].RemoveFile? {
        assert (a + b)[i] == a[i];
      }
      forall i | 0 <= i < |b| ensures !b[i].SendAudio? && !b[i].RemoveFile? {
        assert (a + b)[|a| + i] == b[i];
      }
    }
  }

  /** Every run first turns the status into "Downloading" and asks for the video at the stripped bitrate. */
  lemma RunBeginsWithFetch(videoId: string, quality: string, listing: seq<string>,
                           fetch: FetchOutcome, tag: StepOutcome, send: StepOutcome)
    ensures var r := Pipeline(videoId, quality, listing, fetch, tag, send);
            |r.trace| >= 3 && r.trace[..2] == [EditText(DownloadingText), Fetch(WatchUrl(videoId), Bitrate(quality))]
  {
  }
}
