/**
 * The callback data carried by inline buttons, and how a button press is routed by it.
 * Search results carry `video:<id>`, quality buttons `download:<id>:<quality>`, the welcome
 * message's Help button `help`.
 */
module Tokens {
  import opened Text

  const Separator := ':'
  const HelpData := "help"
  const VideoPrefix := "video:"
  const DownloadTag := "download"
  const DownloadPrefix := "download:"

  /** The quality suffixes the quality keyboard offers. */
  const Qualities: seq<string> := ["128k", "256k", "320k"]

  /** The callback data of a search-result button. */
  function VideoToken(id: string): (t: string)
    ensures StartsWith(t, VideoPrefix) && t[|VideoPrefix|..] == id
  {
    VideoPrefix + id
  }

  /** The callback data of a quality button. */
  function DownloadToken(id: string, quality: string): (t: string)
    ensures t == Join([DownloadTag, id, quality], Separator)
  {
    var parts := [DownloadTag, id, quality];
    assert parts[1..] == [id, quality] && parts[1..][1..] == [quality];
    assert Join([id, quality], Separator) == id + [Separator] + quality;
    assert Join(parts, Separator) == DownloadTag + [Separator] + (id + [Separator] + quality);
    DownloadPrefix + id + [Separator] + quality
  }

  /** What a button press leads to. */
  datatype Route =
    | ShowHelp                                        // the help caption edit
    | StartDownload(videoId: string, quality: string) // the progress edit, then the download
    | MalformedDownload                               // `parts[2]` raises IndexError
    | NoAction                                        // nothing beyond the acknowledgement

  /**
   * The branch taken on the callback data: `"help"`, then data beginning with
   * `"download:"`, split on `:` with the second and third pieces taken as id and quality.
   */
  function RouteOf(data: string): (r: Route)
    ensures r == ShowHelp <==> data == HelpData
    ensures r == NoAction <==> data != HelpData && !StartsWith(data, DownloadPrefix)
    ensures r == MalformedDownload <==>
              StartsWith(data, DownloadPrefix) && Separator !in data[|DownloadPrefix|..]
    ensures r.StartDownload? ==>
              && Separator !in r.videoId && Separator !in r.quality
              && var t := DownloadToken(r.videoId, r.quality);
                 StartsWith(data, t) && (|data| == |t| || data[|t|] == Separator)
  {
    if data == HelpData then ShowHelp
    else if StartsWith(data, DownloadPrefix) then
      var parts := Split(data, Separator);
      DownloadDataPieces(data);
      if |parts| < 3 then MalformedDownload else StartDownload(parts[1], parts[2])
    else NoAction
  }

  /** How data beginning with `download:` splits. */
  lemma DownloadDataPieces(data: string)
    requires StartsWith(data, DownloadPrefix)
    ensures var parts := Split(data, Separator);
            && (|parts| < 3 <==> Separator !in data[|DownloadPrefix|..])
            && (|parts| >= 3 ==>
                  var t := DownloadToken(parts[1], parts[2]);
                  StartsWith(data, t) && (|data| == |t| || data[|t|] == Separator))
  {
    var rest := data[|DownloadPrefix|..];
    assert data == DownloadPrefix + rest;
    assert DownloadPrefix == DownloadTag + [Separator];
    assert data == DownloadTag + [Separator] + rest;
    SplitAtFirst(DownloadTag, Separator, rest);
    var p := Split(rest, Separator);
    assert Split(data, Separator) == [DownloadTag] + p;
    SplitSingleIff(rest, Separator);
    if |p| >= 2 {
      DownloadPieces(rest);
      var u := p[0] + [Separator] + p[1];
      assert DownloadToken(p[0], p[1]) == DownloadPrefix + u;
      assert data[..|DownloadPrefix| + |u|] == DownloadPrefix + rest[..|u|];
    }
  }

  /** The first two pieces of a string with a separator, and where they sit in it. */
  lemma DownloadPieces(rest: string)
    requires |Split(rest, Separator)| >= 2
    ensures var p := Split(rest, Separator);
            var u := p[0] + [Separator] + p[1];
            StartsWith(rest, u) && (|rest| == |u| || rest[|u|] == Separator)
  {
    var p := Split(rest, Separator);
    JoinSplit(rest, Separator);
    assert rest == p[0] + [Separator] + Join(p[1..], Separator);
    if |p| == 2 {
      assert Join(p[1..], Separator) == p[1];
    } else {
      assert Join(p[1..], Separator) == p[1] + [Separator] + Join(p[2..], Separator);
    }
  }

  /** A quality button for an id and quality without `:` is routed back to exactly that id and quality. */
  lemma {:induction false} DownloadTokenRoundTrip(id: string, quality: string)
    requires Separator !in id && Separator !in quality
    ensures RouteOf(DownloadToken(id, quality)) == StartDownload(id, quality)
  {
    var parts := [DownloadTag, id, quality];
    SplitJoin(parts, Separator);
    assert Split(DownloadToken(id, quality), Separator) == parts;
  }

  /** Quality buttons for `:`-free ids and qualities are never confused with each other. */
  lemma DownloadTokenInjective(id1: string, q1: string, id2: string, q2: string)
    requires Separator !in id1 && Separator !in q1 && Separator !in id2 && Separator !in q2
    requires DownloadToken(id1, q1) == DownloadToken(id2, q2)
    ensures id1 == id2 && q1 == q2
  {
    DownloadTokenRoundTrip(id1, q1);
    DownloadTokenRoundTrip(id2, q2);
  }

  /** A search-result button leads to nothing beyond the acknowledgement, whatever its id. */
  lemma VideoTokenNoAction(id: string)
    ensures RouteOf(VideoToken(id)) == NoAction
  {
    assert VideoToken(id)[0] == 'v';
  }

  /** `quality.replace('k', '')`: the bitrate handed to the transcoder. */
  function Bitrate(quality: string): (b: string)
    ensures 'k' !in b
  {
    Strip(quality, 'k')
  }

  /** A quality written as digits followed by `k` reaches the transcoder as the digits. */
  lemma BitrateOfSuffixed(digits: string)
    requires 'k' !in digits
    ensures Bitrate(digits + "k") == digits
  {
    StripConcat(digits, "k", 'k');
    StripAbsent(digits, 'k');
    assert Strip("k", 'k') == Strip("", 'k');
  }

  /** The three offered qualities give the bitrates 128, 256 and 320. */
  lemma OfferedBitrates()
    ensures Bitrate(Qualities[0]) == "128"
    ensures Bitrate(Qualities[1]) == "256"
    ensures Bitrate(Qualities[2]) == "320"
  {
    assert Qualities[0] == "128" + "k" && Qualities[1] == "256" + "k" && Qualities[2] == "320" + "k";
    BitrateOfSuffixed("128");
    BitrateOfSuffixed("256");
    BitrateOfSuffixed("320");
  }

  /** Any other quality reaches the transcoder with its `k`s removed and nothing else checked. */
  lemma BitrateVerbatim(quality: string)
    requires 'k' !in quality
    ensures Bitrate(quality) == quality
  {
    StripAbsent(quality, 'k');
  }
}
