/** The pure expressions of the Streamlit page `app.py`: how the preview
    shows a duration, how the chosen radio label becomes the mode argument
    of `download_media`, the quality default, and how the downloaded file is
    offered back (its MIME type and file name). The widgets, the timing and
    the file reading around them are not modelled. */
module AppUi {
  import opened Wrappers
  import PyText
  import YtUtils

  /** The two labels of the format radio, in display order. */
  const VideoLabel := "Vid\U{E9}o (MP4)"
  const AudioLabel := "Audio (MP3)"
  const ModeLabels := [VideoLabel, AudioLabel]

  /** The options of the quality select box, in display order. */
  const QualityChoices := ["best", "720", "1080"]

  const VideoMime := "video/mp4"
  const AudioMime := "audio/mpeg"

  /** The mode key the video label produces: accented, so not "video". */
  const VideoKey := "vid\U{E9}o"

  // ---------------------------------------------------------------------
  // Duration shown in the preview
  // ---------------------------------------------------------------------

  /** Minutes and seconds of `info.get('duration', 0)`, computed with
      Python's `//` and `%` by 60 (a missing duration counts as 0). For a
      positive divisor Dafny's `/` and `%` are Python's floor division and
      modulo, for negative durations too. */
  function DurationParts(duration: Option<int>): (parts: (int, int))
    ensures 0 <= parts.1 < 60
    ensures parts.0 * 60 + parts.1 == duration.GetOr(0)
    ensures duration.GetOr(0) >= 0 ==> parts.0 >= 0
  {
    var d := duration.GetOr(0);
    (d / 60, d % 60)
  }

  /** The split is the only one with seconds in 0..59: the display is
      determined by the duration. */
  lemma DurationPartsUnique(d: int, minutes: int, seconds: int)
    requires 0 <= seconds < 60 && minutes * 60 + seconds == d
    ensures DurationParts(Some(d)) == (minutes, seconds)
  {
  }

  /** A missing duration shows as 0 min 0 s. */
  lemma MissingDuration()
    ensures DurationParts(None) == (0, 0)
  {
  }

  // ---------------------------------------------------------------------
  // Mode key and quality passed to download_media
  // ---------------------------------------------------------------------

  /** `mode.lower().split()[0]`; None where Python raises IndexError (a
      label with no word). The key is the first word of the label, lowered. */
  function ModeKey(modeLabel: string): (key: Option<string>)
    ensures key.None? <==> PyText.AllSpace(modeLabel)
    ensures key.Some? ==> PyText.IsFirstWord(PyText.Lower(modeLabel), key.value)
  {
    PyText.FirstWord(PyText.Lower(modeLabel))
  }

  /** The video label's key is "vidéo". */
  lemma VideoLabelKey()
    ensures ModeKey(VideoLabel) == Some(VideoKey)
  {
    var v := PyText.Lower(VideoLabel);
    assert v[0] as int == 'V' as int + 32;
    assert v[..5] == VideoKey;
    assert v[5] == ' ';
    assert PyText.IsWordAt(v, 0, VideoKey);
    PyText.FirstWordUnique(v, ModeKey(VideoLabel).value, VideoKey);
  }

  /** The audio label's key is "audio", the mode the audio branch tests for. */
  lemma AudioLabelKey()
    ensures ModeKey(AudioLabel) == Some(YtUtils.AudioMode)
  {
    var a := PyText.Lower(AudioLabel);
    assert a[0] as int == 'A' as int + 32;
    assert a[..5] == YtUtils.AudioMode;
    assert a[5] == ' ';
    assert PyText.IsWordAt(a, 0, YtUtils.AudioMode);
    PyText.FirstWordUnique(a, ModeKey(AudioLabel).value, YtUtils.AudioMode);
  }

  /** The quality argument: "best" unless the video label is chosen, in which
      case it is the select box's choice (given by its index). */
  function QualityFor(modeLabel: string, choice: nat): (quality: string)
    requires choice < |QualityChoices|
    ensures quality in QualityChoices
    ensures modeLabel != VideoLabel ==> quality == YtUtils.BestQuality
    ensures modeLabel == VideoLabel ==> quality == QualityChoices[choice]
  {
    if modeLabel == VideoLabel then QualityChoices[choice] else "best"
  }

  /** The options a click on the download button makes `download_media`
      build for the chosen label, quality index and output directory; None
      where computing the mode key raises. */
  function RequestOptions(modeLabel: string, choice: nat, outputDir: string): (o: Option<YtUtils.DownloadOptions>)
    requires choice < |QualityChoices|
    ensures o.None? <==> PyText.AllSpace(modeLabel)
    ensures o.Some? ==> YtUtils.WellFormed(o.value)
    ensures o.Some? ==> YtUtils.TemplateDir(o.value.outtmpl) == Some(outputDir)
    ensures o.Some? ==> (o.value.format == YtUtils.AudioSelector <==> ModeKey(modeLabel) == Some(YtUtils.AudioMode))
  {
    match ModeKey(modeLabel)
    case None => None
    case Some(key) => Some(YtUtils.BuildOptions(key, QualityFor(modeLabel, choice), outputDir))
  }

  // ---------------------------------------------------------------------
  // Offering the downloaded file
  // ---------------------------------------------------------------------

  /** The MIME type offered with the file: "video/mp4" exactly for the video
      label, "audio/mpeg" for every other label. */
  function MimeFor(modeLabel: string): (mime: string)
    ensures mime == VideoMime <==> modeLabel == VideoLabel
    ensures mime == AudioMime <==> modeLabel != VideoLabel
  {
    if modeLabel == VideoLabel then VideoMime else AudioMime
  }

  /** The file name offered with the file: `os.path.basename` of the path
      `download_media` returns. */
  function OfferedFileName(path: string): (name: string)
    ensures PyText.SlashFreeSuffix(path, name)
    ensures PyText.AfterSlash(path, |name|)
  {
    PyText.Basename(path)
  }

  /** A file the library writes as `<outputDir>/<name>` is offered as `name`. */
  lemma OfferedNameOfDownload(outputDir: string, name: string)
    requires '/' !in name
    ensures OfferedFileName(outputDir + "/" + name) == name
  {
    PyText.BasenameOfJoin(outputDir, name);
  }

  // ---------------------------------------------------------------------
  // The page as a whole
  // ---------------------------------------------------------------------

  /** The video label requests the MP4 merge and no transcoding, with the
      chosen quality: uncapped for "best", else capped at the chosen height.
      Its key "vidéo" is not "video", yet reaches the video branch because
      `download_media` only tests for "audio". */
  lemma VideoLabelRequest(choice: nat, outputDir: string)
    requires choice < |QualityChoices|
    ensures RequestOptions(VideoLabel, choice, outputDir).Some?
    ensures var o := RequestOptions(VideoLabel, choice, outputDir).value;
      o.mergeOutputFormat == Some(YtUtils.MergeFormat) && o.postprocessors == []
      && YtUtils.ParseSelector(o.format)
         == Some(if choice == 0 then YtUtils.BestVideo else YtUtils.CappedVideo(QualityChoices[choice]))
  {
    VideoLabelKey();
    assert VideoKey != YtUtils.AudioMode by { assert VideoKey[0] != YtUtils.AudioMode[0]; }
    assert RequestOptions(VideoLabel, choice, outputDir)
      == Some(YtUtils.BuildOptions(VideoKey, QualityChoices[choice], outputDir));
  }

  /** The audio label requests the best audio, transcoded to MP3, whatever
      quality index the page holds. */
  lemma AudioLabelRequest(choice: nat, outputDir: string)
    requires choice < |QualityChoices|
    ensures RequestOptions(AudioLabel, choice, outputDir).Some?
    ensures var o := RequestOptions(AudioLabel, choice, outputDir).value;
      o.format == YtUtils.AudioSelector && o.postprocessors == [YtUtils.ExtractMp3]
      && o.mergeOutputFormat == None
  {
    AudioLabelKey();
    assert RequestOptions(AudioLabel, choice, outputDir)
      == Some(YtUtils.BuildOptions(YtUtils.AudioMode, YtUtils.BestQuality, outputDir));
  }

  /** For either radio label the request takes the audio branch exactly when
      the file is offered as "audio/mpeg", and merges into MP4 exactly when
      it is offered as "video/mp4". */
  lemma LabelsReachMatchingBranch(modeLabel: string, choice: nat, outputDir: string)
    requires modeLabel in ModeLabels && choice < |QualityChoices|
    ensures RequestOptions(modeLabel, choice, outputDir).Some?
    ensures var o := RequestOptions(modeLabel, choice, outputDir).value;
      (o.format == YtUtils.AudioSelector <==> MimeFor(modeLabel) == AudioMime)
      && (o.mergeOutputFormat == Some(YtUtils.MergeFormat) <==> MimeFor(modeLabel) == VideoMime)
  {
    if modeLabel == VideoLabel {
      VideoLabelRequest(choice, outputDir);
    } else {
      AudioLabelRequest(choice, outputDir);
    }
  }
}
