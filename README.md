# Zero Music Bot: decision logic in Dafny

Zero Music Bot is a Telegram bot. It looks up music on YouTube, offers it at three MP3 bitrates and sends the transcoded file. This project models the decisions the bot's handlers make in `bot.py` and proves properties of them. The handlers are:

- the button-press handler (`button_callback`);
- the `/search` command (`search_music`);
- the plain-text handler for YouTube links (`handle_youtube_link`);
- the download handler (`download_music`).

Everything the bot asks of Telegram, the media resolver (yt-dlp with ffmpeg), the tagger and the network is an abstract `Conversation.Action` that the model emits in order. What those collaborators answer is a parameter:

- a `Lookup` for a resolver query;
- an `HttpResponse` for the thumbnail fetch;
- a `FetchOutcome` for the download;
- a `StepOutcome` for tagging and for sending.

The downloads directory is the imperative part. `Downloads.Directory` is a class whose `files` field is the `os.listdir` listing, in order. Removing a file reassigns the field. The scans for the audio file and the thumbnail are `for … break` loops over that listing. Each imperative method is proved equal to a specification function (`Downloads.Pipeline`, `Delivery`, `Sending`, `TagWrite`, `AudioName`, `ThumbnailName`). The lemmas are stated about those functions.

Modules:

- `Outcomes`: `Option`, and the result shapes of the collaborators.
- `Text`: Python's `startswith`, `endswith`, `in`, `split`, `join` and `replace(c, '')` on strings.
- `Numerals`: `str(int)` and the `:02d` format.
- `Conversation`: buttons, keyboards, actions and the help text.
- `Tokens`: the callback data of buttons and how a press is routed by it.
- `Presentation`: how one search result is shown.
- `Commands`: `/search` and the link handler.
- `Downloads`: the directory, the scans and the download pipeline.
- `Callbacks`: the button-press handler.

## Model

| member | source | states |
|---|---|---|
| Text.ContainsIff | bot.py:158 | `Contains` holds exactly when the substring occurs at some index, as Python's `in` requires |
| Text.Split | bot.py:96 | `split(':')` always yields at least one piece, and no piece holds the separator |
| Text.SplitNoSeparator | bot.py:96 | a separator-free string splits to itself alone |
| Text.SplitAtFirst | bot.py:96 | splitting cuts at the first separator: `(a+':'+b).split(':') == [a] + b.split(':')` when `a` has no `:` |
| Text.SplitSingleIff | bot.py:96 | a string splits into one piece exactly when it contains no separator |
| Text.JoinSplit | bot.py:96 | joining the pieces of a split restores the string |
| Text.SplitJoin | bot.py:96 | splitting a join of separator-free pieces restores the pieces |
| Text.Join | bot.py:112 | `' '.join(args)` begins with the first argument, and a separator follows it when there are two or more; `JoinSplit` and `SplitJoin` make it the inverse of `Split` |
| Text.Strip | bot.py:209 | `replace('k', '')` leaves no `k` and keeps every other character that was there |
| Text.StripConcat | bot.py:209 | removing `k` distributes over concatenation |
| Text.StripAbsent | bot.py:209 | a string without `k` is unchanged |
| Numerals.NatToString | bot.py:130 | `str(n)` is a non-empty digit string |
| Numerals.NatToStringValue | bot.py:130 | `str(n)` reads back as `n`, has no leading zero, and is a single digit below 10 |
| Numerals.IntToString | bot.py:130 | `str(i)` is non-empty; it starts with `-` exactly for negative `i`, and the rest is digits; no digit string has a leading zero, so `0` is the only string starting with `0` |
| Numerals.IntToStringValue | bot.py:130 | `int(str(i)) == i` for every integer, negative ones included |
| Numerals.Pad2 | bot.py:130 | `:02d` of a number below 100 is exactly two digits denoting it |
| Tokens.VideoToken | bot.py:139 | a search button's data is `video:` followed by the id |
| Tokens.DownloadToken | bot.py:173-175 | a quality button's data is `download`, the id and the quality joined by `:` |
| Tokens.RouteOf | bot.py:80-98 | the press shows help exactly for `help` and does nothing more exactly when the data neither is `help` nor starts with `download:`; it raises IndexError exactly when nothing after `download:` holds a `:`; otherwise the `:`-free id and quality it takes spell a quality token at the head of the data, followed by the end or by `:` |
| Tokens.DownloadDataPieces | bot.py:94-98 | data starting `download:` has fewer than three pieces exactly when its remainder has no `:`, and otherwise starts with the token of its second and third pieces |
| Tokens.DownloadPieces | bot.py:96-98 | a string that splits into at least two pieces starts with the first two joined by `:`, followed by the end or by `:` |
| Tokens.DownloadTokenRoundTrip | bot.py:96-98 | for a `:`-free id and quality, the data of the quality button routes back to exactly that id and quality |
| Tokens.DownloadTokenInjective | bot.py:173-175 | two quality buttons with `:`-free ids and qualities carry the same data only when both agree |
| Tokens.VideoTokenNoAction | bot.py:139 | the `video:<id>` data of every search button leads to nothing beyond the acknowledgement |
| Tokens.Bitrate | bot.py:209 | the bitrate handed to the transcoder holds no `k` |
| Tokens.BitrateOfSuffixed | bot.py:209 | digits followed by `k` reach the transcoder as the digits |
| Tokens.OfferedBitrates | bot.py:209 | `128k`, `256k` and `320k` become `128`, `256` and `320` |
| Tokens.BitrateVerbatim | bot.py:209 | any other quality without `k` is passed on verbatim, with no check against the offered three |
| Presentation.TruncateTitle | bot.py:133-134 | a title longer than 35 characters becomes its first 32 plus `...`, exactly 35 long; a shorter title is unchanged |
| Presentation.TruncateTitleIdempotent | bot.py:133-134 | shortening a shortened title changes nothing |
| Presentation.DurationLabel | bot.py:129-130 | "Unknown" exactly for a missing or zero duration; otherwise `str(d // 60)`, `:` and two digits whose seconds are below 60 and that read back as the duration |
| Presentation.ResultButton | bot.py:136-141 | a result button's caption is the shortened title followed by the duration label in parentheses; it carries `video:` plus the id, which routes to no action |
| Commands.SearchMusic | bot.py:106-151 | no arguments: the usage reply only; otherwise the joined query is echoed and searched, then a failure is reported or the empty result says "No results found" without keyboard, or one row per result is offered in result order |
| Commands.ResultKeyboard | bot.py:125-141 | the loop builds one single-button row per result, in order |
| Commands.ResultButtonsDistinct | bot.py:136-141 | results with different ids get buttons with different data |
| Commands.IsYouTubeLink | bot.py:158 | a text is accepted exactly when `youtube.com` or `youtu.be` occurs in it at some position |
| Commands.QualityKeyboard | bot.py:172-176 | three single-button rows carrying the quality tokens for 128k, 256k and 320k, in that order |
| Commands.QualityButtonsRoundTrip | bot.py:172-176 | for a `:`-free id each quality button routes back to that id and its quality, and the three qualities become bitrates 128, 256 and 320 |
| Commands.HandleYouTubeLink | bot.py:153-202 | a text without a YouTube host gets the guidance reply and nothing else; otherwise a progress reply and a resolver query for the text; a resolver error is reported; exactly when the report has a thumbnail a GET of that URL comes third, and nothing else happens before the final reply; the qualities are offered unless the thumbnail fetch raised, which is reported like a resolver error; a 200 thumbnail makes the offer a photo, and no thumbnail or any other status the text offer |
| Downloads.WithoutKeepsOthers | bot.py:289-292 | removing a name removes it and keeps every other name; on a duplicate-free listing exactly one entry goes when the name was listed |
| Downloads.Directory.Remove | bot.py:289-292 | `os.remove` takes out that one name and leaves the rest of the listing, in order, duplicate-free |
| Downloads.Mp3IsNotThumbnail | bot.py:236-243 | no name both ends in `.mp3` and is a thumbnail, so the audio file and the thumbnail are never the same file |
| Downloads.ExpectedAudio | bot.py:231 | the name the output template gives the audio ends in `.mp3` |
| Downloads.FirstIndex | bot.py:235-238 | the index a `for … break` scan stops at: the first match, with no match before it, or none when nothing matches |
| Downloads.AudioName | bot.py:231-238 | the audio file always ends in `.mp3` |
| Downloads.AudioNameIsFirstMp3 | bot.py:231-238 | `<title>.mp3` if listed; else the first listed `.mp3`; else `<title>.mp3` unchanged |
| Downloads.AudioNameListed | bot.py:231-238 | the audio file exists exactly when `<title>.mp3` is listed or some mp3 is |
| Downloads.ThumbnailName | bot.py:241-245 | a thumbnail found is listed, ends in `.jpg`, `.png` or `.webp` and contains the title |
| Downloads.ThumbnailNameIsFirstImage | bot.py:241-245 | the thumbnail is the first listed image containing the title, and none exactly when there is none |
| Downloads.LocateAudio | bot.py:231-238 | the scan over the listing yields `AudioName` |
| Downloads.FindThumbnail | bot.py:241-245 | the scan over the listing yields `ThumbnailName` |
| Downloads.RemoveArtifacts | bot.py:288-292 | the listing after the clean-up holds exactly the names it held before, minus the audio file and the thumbnail |
| Downloads.TagWrite | bot.py:248-268 | a tagging exception writes nothing; a missing audio file writes nothing; otherwise the tags are written into the audio with the thumbnail as cover |
| Downloads.Sending | bot.py:271-296 | after the fetch, at least two actions follow, and the first is the "Download complete" edit |
| Downloads.Delivery | bot.py:230-296 | after the fetch reported a title, no file is ever added, and the listing changes only when the send succeeded and an audio file was found |
| Downloads.Pipeline | bot.py:204-300 | after the fetch, the run adds no file to the listing the fetch left, and changes the listing only when the fetch reported a title and the send succeeded |
| Downloads.DownloadMusic | bot.py:204-300 | the handler's actions and the directory it leaves are those of `Pipeline` on the listing the fetch left, and the listing stays duplicate-free |
| Downloads.Deliver | bot.py:230-296 | locating, tagging, sending and cleaning up behave as `Delivery` describes |
| Downloads.TagStep | bot.py:248-268 | the tags, with the thumbnail as cover, are written exactly when the audio file exists and tagging did not raise |
| Downloads.SendStep | bot.py:271-296 | completion is reported, then the send and clean-up behave as `Sending` describes |
| Downloads.RemoveBoth | bot.py:288-292 | the audio file and, if found, the thumbnail are removed, in that order, and nothing else |
| Downloads.PipelineWithTitle | bot.py:224-296 | a run whose report has a title is the fetch request, the tag step, then `Sending` |
| Downloads.DeliveryTagging | bot.py:248-268 | after the fetch, a tagging exception leaves out only the leading tag write and changes neither the rest of the trace nor the listing |
| Downloads.TaggingIsBestEffort | bot.py:248-268 | a tagging exception only leaves out the tag write; what is sent, edited and removed is the same |
| Downloads.DeliveryRemovesOnlyArtifacts | bot.py:274-294 | a successful delivery sends the audio, removes exactly the audio file and the thumbnail (one or two names fewer) and no other file, and ends by deleting the status message |
| Downloads.MissingAudioIsReported | bot.py:295-296 | with no mp3 listed the run ends in "Downloaded file not found", and nothing is tagged, sent or removed |
| Downloads.FailureKeepsFiles | bot.py:298-300 | a fetch exception, a report without a title or a send exception removes nothing and sends nothing; the run ends in "Download failed" with the exception's text, or "not found" when there was nothing to send |
| Downloads.SendFailureKeepsFiles | bot.py:271-300 | a send exception or a missing audio file leaves the listing alone, delivers nothing, and ends in "Download failed" or "not found" |
| Downloads.RunBeginsWithFetch | bot.py:209-229 | every run starts with the "Downloading" edit and the fetch request at the `k`-stripped bitrate |
| Callbacks.ButtonCallback | bot.py:75-104 | the acknowledgement comes first; `help` leads only to the help-caption edit; `download:` data leads to the progress edit and then the download run; malformed download data raises IndexError; any other data, search buttons included, does nothing more and leaves the directory as it was |

## Left out

- `start` (bot.py:29-57) is not modelled. It greets the user with a photo fetched over HTTP that carries a contact link and the Help button, or, when the image cannot be fetched, with a plain text greeting without buttons. The Help button's `help` data is modelled in the press handler.
- `help_command` (bot.py:59-73) is not modelled. It sends the same text as the Help button, whose edit is modelled; the text is `Conversation.HelpText`.
- `main` and handler registration (bot.py:302-318) are not modelled: which update reaches which handler is Telegram's dispatch.
- The resolver queries, the download and the thumbnail GET may fail (`Lookup.LookupFailed`, `FetchOutcome.FetchFailed`, `HttpResponse.HttpFailed`). Of the calls after the download, only tagging and `send_audio` may raise. Failures of the Telegram calls are not modelled (answering, replying, editing, deleting).
- Failures of `os.listdir` and `os.remove` (bot.py:235, 242, 290, 292) are not modelled: listing and removing always succeed.
- The resolver and ffmpeg are inputs, not models. The search result, the link report and the download outcome are parameters. The directory the download leaves behind is the listing the handler starts from.
- A search result missing `id` or `title` would raise inside the loop. The model's `Candidate` always has both. A link report missing them counts as a resolver failure, as the source's `except` reports it.
- Durations are whole seconds. yt-dlp may report a float, and float formatting is not modelled.
- A report whose `uploader` key is present with the value None is not modelled: `MediaInfo.uploader` distinguishes only absent from present.
- Titles containing `/` are not modelled. Such a title makes `downloads/<title>.mp3` point into a subdirectory; the model names files relative to the downloads directory.
- Commands.HandleYouTubeLink: the photo is identified by the thumbnail URL, not by the bytes read from the response.
- Markdown rendering of captions is not modelled, nor Telegram's rejection of malformed Markdown. Texts are emitted verbatim.
- Logging, the bot token from the environment, and `os.makedirs` (bot.py:12-23) are left out: they make no decision.
- `healthcheck.py` is not part of this model. It is an HTTP liveness endpoint with no bot logic.
- Concurrency between handlers is left out: the handlers share no state except the downloads directory, and each run is modelled on its own.
