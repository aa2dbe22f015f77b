/** The option dictionaries that `get_video_info` and `download_media` hand
    to the yt-dlp extraction library. The library calls themselves
    (`extract_info`, `prepare_filename`) are not part of this model: the
    model stops at the options value passed to `YoutubeDL(...)`. */
module YtUtils {
  import opened Wrappers

  /** One entry of the `postprocessors` list. */
  datatype PostProcessor = PostProcessor(key: string, preferredCodec: string, preferredQuality: string)

  /** The options dictionary `download_media` builds; an absent
      `merge_output_format` key is `None`, an absent `postprocessors` key
      the empty list. */
  datatype DownloadOptions = DownloadOptions(
    format: string,
    outtmpl: string,
    quiet: bool,
    noWarnings: bool,
    postprocessors: seq<PostProcessor>,
    mergeOutputFormat: Option<string>)

  /** The options dictionary `get_video_info` builds. */
  datatype InfoOptions = InfoOptions(quiet: bool, skipDownload: bool)

  /** What a format selector asks the library for. */
  datatype Stream = AudioOnly | BestVideo | CappedVideo(maxHeight: string)

  // Default arguments of download_media.
  const DefaultMode := "video"
  const DefaultQuality := "best"
  const DefaultOutputDir := "downloads"

  /** The one mode value that selects the audio branch. */
  const AudioMode := "audio"
  /** The one quality value that leaves the video height uncapped. */
  const BestQuality := "best"

  const AudioSelector := "bestaudio/best"
  const BestVideoSelector := "bestvideo+bestaudio/best"
  const CapPrefix := "bestvideo[height<="
  const CapSuffix := "]+bestaudio/best"

  /** What follows the output directory in the output template. */
  const TemplateTail := "/%(title)s.%(ext)s"

  /** The audio branch's post-processor: extract the audio track as MP3 at 192 kbit/s. */
  const ExtractMp3 := PostProcessor("FFmpegExtractAudio", "mp3", "192")
  /** The container the video branch merges into. */
  const MergeFormat := "mp4"

  /** The options of `get_video_info`: quiet, and metadata only. */
  function VideoInfoOptions(): (o: InfoOptions)
    ensures o.quiet && o.skipDownload
  {
    InfoOptions(true, true)
  }

  /** Reads a format selector back into the request it encodes; None for
      a selector `download_media` never builds. */
  function ParseSelector(f: string): (r: Option<Stream>)
    ensures r == Some(AudioOnly) <==> f == AudioSelector
    ensures r == Some(BestVideo) <==> f == BestVideoSelector
  {
    if f == AudioSelector then Some(AudioOnly)
    else if f == BestVideoSelector then Some(BestVideo)
    else if |CapPrefix| + |CapSuffix| <= |f| && f[..|CapPrefix|] == CapPrefix
         && f[|f| - |CapSuffix|..] == CapSuffix
    then Some(CappedVideo(f[|CapPrefix|..|f| - |CapSuffix|]))
    else None
  }

  /** The selector of the video branch: uncapped for "best", otherwise the
      quality inserted verbatim as a maximum height. Reading it back gives
      the requested stream, and it is never the audio selector. */
  function VideoSelector(quality: string): (f: string)
    ensures ParseSelector(f) == Some(if quality == BestQuality then BestVideo else CappedVideo(quality))
    ensures f != AudioSelector
  {
    if quality == BestQuality then BestVideoSelector
    else
      var f := CapPrefix + quality + CapSuffix;
      assert f[..|CapPrefix|] == CapPrefix;
      assert f[5] == CapPrefix[5] != AudioSelector[5];
      assert f[9] == CapPrefix[9] != BestVideoSelector[9];
      assert f[|f| - |CapSuffix|..] == CapSuffix;
      assert f[|CapPrefix|..|f| - |CapSuffix|] == quality;
      f
  }

  /** The output template: the output directory followed by `/%(title)s.%(ext)s`. */
  function OutputTemplate(outputDir: string): (t: string)
    ensures |t| == |outputDir| + |TemplateTail|
    ensures t[..|outputDir|] == outputDir && t[|outputDir|..] == TemplateTail
  {
    outputDir + TemplateTail
  }

  /** The output directory an output template is rooted in. */
  function TemplateDir(t: string): (r: Option<string>)
    ensures r.Some? ==> OutputTemplate(r.value) == t
  {
    if |TemplateTail| <= |t| && t[|t| - |TemplateTail|..] == TemplateTail
    then Some(t[..|t| - |TemplateTail|])
    else None
  }

  /** The options the two branches of `download_media` promise: quiet, no
      warnings, a known selector, and either the MP3 transcoding step
      (audio) or the MP4 merge (video), never both. */
  predicate WellFormed(o: DownloadOptions) {
    o.quiet && o.noWarnings && TemplateDir(o.outtmpl).Some?
    && match ParseSelector(o.format)
       case None => false
       case Some(AudioOnly) => o.postprocessors == [ExtractMp3] && o.mergeOutputFormat == None
       case Some(_) => o.postprocessors == [] && o.mergeOutputFormat == Some(MergeFormat)
  }

  /** The options `download_media(url, mode, quality, output_dir)` passes to
      the library. Total: every mode, quality and directory yields options.
      Exactly the mode "audio" selects the audio branch; every other mode,
      "video" or not, selects the video branch. */
  function BuildOptions(mode: string, quality: string, outputDir: string): (o: DownloadOptions)
    ensures WellFormed(o)
    ensures TemplateDir(o.outtmpl) == Some(outputDir)
    ensures ParseSelector(o.format) == Some(AudioOnly) <==> mode == AudioMode
    ensures mode == AudioMode ==> o.format == AudioSelector
    ensures mode != AudioMode && quality == BestQuality ==> ParseSelector(o.format) == Some(BestVideo)
    ensures mode != AudioMode && quality != BestQuality ==> ParseSelector(o.format) == Some(CappedVideo(quality))
    ensures o.postprocessors == (if mode == AudioMode then [ExtractMp3] else [])
    ensures o.mergeOutputFormat == (if mode == AudioMode then None else Some(MergeFormat))
  {
    var template := OutputTemplate(outputDir);
    assert TemplateDir(template) == Some(outputDir);
    if mode == AudioMode then
      DownloadOptions(AudioSelector, template, true, true, [ExtractMp3], None)
    else
      DownloadOptions(VideoSelector(quality), template, true, true, [], Some(MergeFormat))
  }

  /** Round trip of the output template: the directory is recovered unchanged. */
  lemma TemplateRoundTrip(outputDir: string)
    ensures TemplateDir(OutputTemplate(outputDir)) == Some(outputDir)
  {
  }

  /** Two video requests share a selector only when they ask for the same
      quality: the quality reaches the library unchanged. */
  lemma VideoSelectorInjective(q1: string, q2: string)
    requires VideoSelector(q1) == VideoSelector(q2)
    ensures q1 == q2
  {
  }

  /** Audio options ignore the quality argument altogether. */
  lemma AudioIgnoresQuality(q1: string, q2: string, outputDir: string)
    ensures BuildOptions(AudioMode, q1, outputDir) == BuildOptions(AudioMode, q2, outputDir)
  {
  }

  /** A call of `download_media` with every default argument downloads the
      uncapped best video merged into MP4 under "downloads". */
  lemma DefaultCall()
    ensures var o := BuildOptions(DefaultMode, DefaultQuality, DefaultOutputDir);
      o.format == BestVideoSelector && TemplateDir(o.outtmpl) == Some("downloads")
      && o.mergeOutputFormat == Some(MergeFormat) && o.postprocessors == []
  {
  }
}
