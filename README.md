# Social Media Downloader — the rule tables, modelled in Dafny

The downloader is a Streamlit page (with a FastAPI endpoint beside it) that
hands a URL to the yt-dlp extraction library. Nearly everything it does is
delegated to that library or to the UI framework. The logic it owns consists
of a few small pure rule tables, and this project models and proves them:

- **Option building** (`app/downloader/yt_utils.py`): `download_media` maps
  `(mode, quality, output_dir)` to the options dictionary given to
  `YoutubeDL`. The audio branch asks for the best audio and adds an
  `FFmpegExtractAudio` post-processor (MP3, 192). The video branch asks for
  the best video plus the best audio, capped at `height<=quality` unless the
  quality is `best`, and merges into MP4. `get_video_info` uses the constant
  metadata-only options. Module `YtUtils`.
- **Page fragments** (`app.py`): the duration split into minutes and
  seconds, the mode key `mode.lower().split()[0]`, the quality default, the
  MIME type and the offered file name. These are inline expressions in the
  source and are lifted into functions here. Module `AppUi`. It rests on
  module `PyText`, which models Python's `str.lower`, `str.split()` (its
  first item) and POSIX `os.path.basename`.
- **Log colouring** (`app/downloader/logger.py`): a level picks an ANSI
  colour, blue for any unknown level, and the line is colour + message +
  reset. Module `Logger`.

The functions are total except `AppUi.QualityFor` and `AppUi.RequestOptions`.
These two model the quality select box by the index of its choice, and
they require that index to be one of the three choices. Where Python raises
(`split()[0]` on a blank label), the model returns `None` instead. Several
functions are paired with an inverse or a uniqueness lemma:

- `YtUtils.VideoSelector` with `YtUtils.ParseSelector`: a format selector
  parses back to the stream it requests;
- `YtUtils.OutputTemplate` with `YtUtils.TemplateDir`: an output template
  gives back its directory;
- `Logger.Render` with `Logger.ParseLine`, and `Logger.ColorFor` with
  `Logger.LevelOf`: a log line splits back into its colour and its message,
  and a colour gives back its level;
- `AppUi.DurationParts`, `PyText.FirstWord` and `PyText.Basename`: each is
  the only value that meets its contract.

The mode key of the video label is `"vidéo"`, not `"video"`. The request
still reaches the video branch, because `download_media` only tests
`mode == "audio"`. `AppUi.VideoLabelRequest` proves this.

## Model

| member | source | states |
|---|---|---|
| `YtUtils.VideoInfoOptions` | app/downloader/yt_utils.py:6 | The metadata options are quiet and skip the download. |
| `YtUtils.ParseSelector` | app/downloader/yt_utils.py:19-35 | The only selector read as "audio only" is `bestaudio/best`. The only selector read as "uncapped video" is `bestvideo+bestaudio/best`. |
| `YtUtils.VideoSelector` | app/downloader/yt_utils.py:32-36 | The video selector parses back to the uncapped stream for `best` and otherwise to a height cap equal to the quality, inserted verbatim. It is never the audio selector. |
| `YtUtils.OutputTemplate` | app/downloader/yt_utils.py:20 | The template is the output directory followed by `/%(title)s.%(ext)s`. |
| `YtUtils.TemplateDir` | app/downloader/yt_utils.py:39 | A directory recovered from a template rebuilds that template. |
| `YtUtils.TemplateRoundTrip` | app/downloader/yt_utils.py:20 | The output directory is recovered unchanged from the template. |
| `YtUtils.BuildOptions` | app/downloader/yt_utils.py:11-43 | Defined for every input. The audio branch is taken exactly when the mode is `"audio"`, and its format is `bestaudio/best` whatever the quality. Any other mode gets the video selector of the quality. Audio gets exactly one MP3/192 `FFmpegExtractAudio` post-processor and no merge format. Video gets no post-processor and merges into `mp4`. Both branches are quiet, have no warnings, and put their template in the output directory. |
| `YtUtils.VideoSelectorInjective` | app/downloader/yt_utils.py:32-35 | Different qualities give different video selectors. |
| `YtUtils.AudioIgnoresQuality` | app/downloader/yt_utils.py:17-30 | Audio options do not depend on the quality argument. |
| `YtUtils.DefaultCall` | app/downloader/yt_utils.py:11 | With all defaults (`video`, `best`, `downloads`), the result is the uncapped best video, merged into MP4, under `downloads`. |
| `AppUi.DurationParts` | app.py:27 | Seconds lie in 0..59 and minutes·60 + seconds equals the duration, with a missing duration counting as 0. Minutes are non-negative for a non-negative duration. These are Python's floor `//` and `%`. |
| `AppUi.DurationPartsUnique` | app.py:27 | Any split with seconds in 0..59 that adds up to the duration is the displayed one. |
| `AppUi.MissingDuration` | app.py:27 | A missing duration shows 0 min 0 s. |
| `AppUi.ModeKey` | app.py:48 | The key is absent exactly for a blank label, where Python raises IndexError. Otherwise it is the first word of the lowered label. |
| `AppUi.VideoLabelKey` | app.py:36-48 | "Vidéo (MP4)" yields the key `vidéo`. |
| `AppUi.AudioLabelKey` | app.py:36-48 | "Audio (MP3)" yields the key `audio`. |
| `AppUi.QualityFor` | app.py:37-39 | The quality is `best` unless the video label is chosen. With the video label it is the select box's choice. It is always one of `best`, `720`, `1080`. |
| `AppUi.RequestOptions` | app.py:36-49 | A click builds well-formed download options for every label that holds a word. A blank label yields none. The options write into the output directory the page passes. They take the audio branch exactly when the label's key is `audio`. |
| `AppUi.MimeFor` | app.py:58-62 | The MIME type is `video/mp4` exactly for the video label and `audio/mpeg` for every other label. |
| `AppUi.OfferedFileName` | app.py:57 | The offered name is the `/`-free suffix of the path that begins at its start or right after a `/`. |
| `AppUi.OfferedNameOfDownload` | app.py:57 | A file written as `<dir>/<name>` is offered as `name`. |
| `AppUi.VideoLabelRequest` | app.py:36-49 | The video label reaches the video branch even though its key is `vidéo`. The request merges into MP4 with no post-processor, uncapped for `best` and capped at 720 or 1080 otherwise. |
| `AppUi.AudioLabelRequest` | app.py:36-49 | The audio label reaches the audio branch: format `bestaudio/best`, the MP3 post-processor and no merge. |
| `AppUi.LabelsReachMatchingBranch` | app.py:36-62 | For both radio labels, the request takes the audio branch exactly when the file is offered as `audio/mpeg`. It merges into MP4 exactly when the file is offered as `video/mp4`. |
| `PyText.Lower` | app.py:48 | Lower-casing keeps the length and lowers each character. |
| `PyText.LeadingSpaces` | app.py:48 | This counts the whitespace before the first non-space character. |
| `PyText.FirstWord` | app.py:48 | The result is absent exactly for all-whitespace strings. Otherwise it is the maximal non-space run after the leading whitespace. |
| `PyText.FirstWordUnique` | app.py:48 | A string has at most one first word. |
| `PyText.FirstWordOfLower` | app.py:48 | Taking the first word commutes with lower-casing. |
| `PyText.Basename` | app.py:57 | The basename is a `/`-free suffix of the path that follows a `/` or starts the path. |
| `PyText.BasenameUnique` | app.py:57 | Those two properties determine the basename. |
| `PyText.BasenameOfJoin` | app.py:57 | The basename of `dir + "/" + name` is `name` when `name` has no `/`. |
| `Logger.ColorFor` | app/downloader/logger.py:9-16 | The colour is always a bright ANSI foreground escape. It is blue exactly for `info` and for every unknown level. |
| `Logger.LevelOf` | app/downloader/logger.py:10-15 | Every colour maps back to a level of the table. |
| `Logger.Render` | app/downloader/logger.py:16 | The line is the level's colour, then the message unchanged, then `ESC[0m`. |
| `Logger.ParseLine` | app/downloader/logger.py:16 | A line that parses is the rendering of its message at the level of its colour. |
| `Logger.RenderRoundTrip` | app/downloader/logger.py:2-16 | Every printed line parses back to its level's colour and its message. |
| `Logger.ColorIdentifiesLevel` | app/downloader/logger.py:2-15 | The colour gives back each known level, and `info` for any unknown level. So the four colours are pairwise distinct. |
| `Logger.DistinctLevelsDistinctLines` | app/downloader/logger.py:2-15 | Different known levels give different line prefixes. |
| `Logger.DefaultLevelIsBlue` | app/downloader/logger.py:9-16 | A line logged without a level is blue. |

## Left out

- The yt-dlp calls (`extract_info`, `prepare_filename`) and the `YoutubeDL` context. These are a foreign library doing network and transcoding work, so the model stops at the options value.
- All Streamlit rendering and widget state (`st.*`). The radio and the select box are modelled only through the label string and the index of the chosen quality.
- The text of the duration line (the decimal rendering of minutes and seconds), because it is UI formatting.
- `AppUi.DurationParts` takes an integer or a missing duration. A float duration, and a `duration` key present with value `None` (Python raises TypeError), are not modelled.
- `PyText.Lower` lowers ASCII and Latin-1 capitals only. Python's full Unicode case mapping is not modelled. Both radio labels are within this range.
- The elapsed-time measurement, the file open and read for serving, and `ensure_dir`. These are clock and filesystem I/O. `downloader/file_utils.py` is not part of this model.
- `print` in `log`. Only the printed line is modelled.
- `app/app.py` (temporary directories, cookie files, base64 download link) and `api/download_api.py` (an HTTP wrapper around `download_media`). These are I/O and HTTP plumbing.
- Error classification by message text, empty-artifact checks and temporary-directory cleanup: none of the modelled files contains them.
