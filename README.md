# SummarizeItForMe, modelled in Dafny

SummarizeItForMe is a small Flask application. For a video URL it downloads
the audio track, transcribes it with a speech-to-text service, counts the
transcription's tokens and, within a budget of 7000 tokens, asks a chat
model for a summary. This project models the application's own logic in
`app.py`:

- the title sanitiser of `download_video`, and the scratch paths built from
  its result (module `Titles`, `titles.dfy`);
- the pipeline of one POST request through `index`, with the fallbacks of
  `transcribe_audio`, `summarize_transcription` and `delete_file` (module
  `App`, `app.dfy`);
- the properties of that pipeline (module `Properties`, `properties.dfy`).

The downloader, the speech-to-text service, the tokenizer, the chat
service and `os.remove` are oracles: deterministic function-valued fields
of the datatype `App.Services`. A failure of a collaborator is a `None` (or
`LookupFailed`, or `false` for the download and the removal). The scratch directory is a set
of paths. Each call into a collaborator is appended to a trace of `Call`
values, so the model can state the order of the steps and which steps are
skipped.

Each effectful function of the source is a method of the class
`App.Server`. Its fields are `files`, the scratch directory, and the ghost
field `calls`, the trace. Each method is proved against a pure function of the old state:
`DownloadOutcome`, `TranscribeOutcome`, `RemoveOutcome` (the scratch
directory after `delete_file`), `SummarizeOutcome` and `IndexOutcome`. `RemoveOutcome` gives the new scratch directory; the others
return the result, the calls made and the new scratch directory. The lemmas in `Properties` are about these functions.

Notes on the source:

- A lookup that finds no title (`None` at app.py:49) makes the
  comprehension at app.py:52 raise. That exception escapes `index` and
  becomes a server error. So "Could not fetch the video title." is reported
  only for an empty-string title whose download succeeded. In that case the
  downloader has already written a file from the template
  `downloaded_videos/.%(ext)s`. Nothing transcribes or deletes it, so it
  stays in the scratch directory (`Properties.CouldNotFetchOnlyForEmptyTitle`;
  the model names that file by the mp3 path, see "## Left out").
- `encoding.encode` (app.py:124) raises on text that contains a special-token
  string, and `index` does not catch it (app.py:145). The request then ends
  in a server error, after the audio file was already deleted
  (`Properties.ServerErrorExactlyOnUncaughtFailure`).
- The docstring at app.py:39 says the audio is extracted as WAV. The code
  asks for mp3 (app.py:59) and transcribes the `.mp3` path (app.py:138).
  The model follows the code.
- Two different titles can sanitise to the same name and so share a scratch
  path (`Titles.DistinctTitlesCollide`, and in general
  `Titles.SharedScratchPath`). Under concurrent requests the two downloads
  would collide.

## Model

| member | source | states |
|---|---|---|
| `Titles.SafeTitle` | app.py:52 | the safe title has exactly the length of the title |
| `Titles.SafeTitleAt` | app.py:52 | position i of the safe title is the image of position i of the title (the comprehension works character by character) |
| `Titles.KeptInPlace` | app.py:52 | an alphanumeric or whitespace character is copied unchanged at its position; any other character becomes `_` |
| `Titles.OnlySafeChars` | app.py:52 | every character of the safe title is alphanumeric, whitespace or `_` |
| `Titles.FixedPoints` | app.py:52 | the sanitiser leaves a title unchanged if and only if the title consists only of kept characters and `_` |
| `Titles.Idempotent` | app.py:52 | sanitising twice gives the same result as sanitising once |
| `Titles.DistinctTitlesCollide` | app.py:52 | two different titles ("a/b", "a?b") give the same safe title, so they share a scratch path |
| `Titles.SharedScratchPath` | app.py:52 | two titles give the same scratch path if and only if they have the same length and sanitise to the same character at every position |
| `Titles.OutputTemplate` | app.py:62 | the download template is the audio path with the extension `mp3` replaced by the downloader's `%(ext)s` field |
| `Titles.AudioPathInjective` | app.py:138 | the audio path `downloaded_videos/<safe>.mp3` determines the safe title it was built from |
| `Titles.AudioPathStaysInScratchDir` | app.py:138 | the audio path of any title is `downloaded_videos/`, then the safe title of that title, then `.mp3`; its only `/` is the directory separator and its only `.` starts the extension |
| `App.Server.DeleteFile` | app.py:26-36 | records the removal; the path leaves the scratch directory when `os.remove` succeeds, and a failure is swallowed, leaving the directory as it was |
| `App.Server.DownloadVideo` | app.py:38-70 | looks up the title; a failed lookup, a missing title or a failed download fails the call; otherwise the mp3 of the safe title is added to the scratch directory and the safe title is returned |
| `App.Server.TranscribeAudio` | app.py:72-88 | returns the service's text for the file, or None when the file is missing or the service fails; the scratch directory is unchanged |
| `App.Server.SummarizeTranscription` | app.py:90-113 | a falsy input gives the "no transcription" text without a chat call; otherwise exactly one chat call, whose content is returned, or the error text when it fails |
| `App.Server.Index` | app.py:133-158 | the response, the new scratch directory and the calls made are those of `IndexOutcome` |
| `Properties.ServerErrorExactlyOnUncaughtFailure` | app.py:133-145 | the request ends in a server error exactly when the lookup fails, the title is missing, the download fails, or the encoder raises on a non-empty transcription; after a failed fetch the scratch directory is unchanged and nothing is transcribed; after an encoder failure the file was already deleted |
| `Properties.MissingTitleRaises` | app.py:49-52 | a missing title raises before any download: server error, only the lookup is made |
| `Properties.CouldNotFetchOnlyForEmptyTitle` | app.py:154-156 | "Could not fetch the video title." for both fields if and only if the title is empty and the download succeeded; only the lookup and download are made, and the downloaded `downloaded_videos/.mp3` remains |
| `Properties.TranscribedThenDeletedOnce` | app.py:137-142 | for a non-empty safe title the calls begin with lookup, download, transcription of `downloaded_videos/<safe>.mp3` and its deletion; no later call transcribes or deletes; the file is gone afterwards unless its removal failed; a page is rendered unless the encoder raises |
| `Properties.NoTranscriptionPlaceholders` | app.py:151-153 | a None or empty transcription gives "No transcription available to check tokens." and "No transcription available to summarize."; neither the tokenizer nor the chat is called |
| `Properties.WithinBudgetSummarises` | app.py:144-148 | with a non-empty transcription of at most 7000 tokens, the page reports the count and the summariser's result; the calls after the deletion are the token count and one chat call |
| `Properties.OverBudgetTooLong` | app.py:147-150 | with more than 7000 tokens, the page reports the count and "The transcription is too long to be summarized."; the chat is not called |
| `Properties.EveryTranscriptionIsCleanedUp` | app.py:139-142 | for every request, each transcription call is followed immediately by the deletion of the same path, and that path is absent afterwards exactly when the removal succeeded |
| `Properties.DeletionFailureIsSwallowed` | app.py:32-36 | whether `os.remove` succeeds changes neither the response of the request nor the calls it makes |
| `Properties.ReportedCountIsEncodingLength` | app.py:115-124 | for every request, a count shown on the page is the length of the encoding of the text counted right after the deletion, and an encoder failure on any counted text ends the request in a server error |
| `Properties.ChatOnlyWithinBudget` | app.py:144-148 | for every request, a chat call comes right after a token count of at most 7000, and it summarises that counted text |
| `Properties.SummarizeFallbacks` | app.py:99-113 | a falsy input gives the fixed text and no call; otherwise one call with the configured model, the system message and a user message of the prompt followed by the transcription verbatim; the result is the content, or the error text on failure |

## Left out

- Titles.IsAlnum: Python's `str.isalnum` is Unicode-aware; the model keeps only ASCII letters and digits. So a non-ASCII letter or digit becomes `_` in the model and is kept by the source. `IsSpace` is Python's exact `str.isspace` set.
- The Flask route, the GET branch, the `request.form` lookup and `render_template` (app.py:126-134, 158-159): the model returns the page's fields as a `Response` value.
- yt_dlp's metadata lookup and download (app.py:47-49, 55-68): oracles. yt_dlp's own file-name handling and any partial file left by a failed download are not modelled. The download is modelled as writing exactly the `.mp3` of the safe title.
- The Whisper and chat-completion services (app.py:82-85, 101-108): oracles that may fail. Failures of any kind are one `None`.
- The tokenizer (app.py:24, 124): an oracle giving a sequence of token ids, or failing when the encoder raises.
- Environment and configuration loading (app.py:13-21): the model name and system message are an arbitrary `Config` parameter, so the defaults and any values from the environment are covered alike. Reading the environment is not modelled.
- Logging (app.py:34, 36, 87, 110): no behaviour to verify.
- `os.remove` (app.py:33): an oracle saying whether the removal succeeded; why it fails (a missing file, permissions, a directory at the path) is not modelled.
- Concurrency between requests: the model handles one request at a time.
