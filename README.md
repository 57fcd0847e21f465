# Capture-to-notes editor: a Dafny model

This project models the sequential core of a small learning tool. The user
uploads an audio, video or text file. A back end turns it into a transcript
and stores a spaced-repetition review note. In the editor, the user builds a
note text by quoting parts of the transcript and inserting screenshot labels.

- `editor.dfy` (module `Editor`) models the editor state of `frontend.jsx`
  as the class `Session`. Its fields are `mode`, `file`, `isProcessing`,
  `transcript` and `notes`. Its methods are the upload handler (split at its
  `await` into `BeginUpload` and `CompleteUpload`), the quote handler, the
  screenshot handler, the close button and typing in the note area. The pure
  rules behind them are functions: the MIME-type classifier, the
  reply-to-transcript mapping, and the quote and screenshot appends. Lemmas
  prove that any series of annotations only appends to the notes.
- `review_store.dfy` (module `ReviewStore`) models `backend_new_logic.py`.
  The in-memory `db` is the class `Database`, which holds a `seq` of notes.
  `ProcessFile` appends exactly one note per processed file. `UserStats`
  counts the due notes. `SummarizeNotes` does not call the GPT service when
  the notes are only whitespace.
- `model_select.dfy` (module `ModelSelect`) models
  `AIService.process_multimodal_file` of `backend_llm_modelselect.py`: the
  extension rule, the three-way branch, the result shape and the error prefix.
- `text.dfy` (module `Text`) holds Python's `strip()` and `isspace()`,
  ASCII lower-casing and a suffix test. `wrappers.dfy` holds `Option`,
  `Result` and `Outcome`.

Inputs that the source gets from the outside world are parameters here:
- the back end's reply to the editor (`Editor.Reply`);
- the selected text and the `toLocaleTimeString()` text;
- whether the video element is mounted (`videoRef.current`);
- the `uuid4` text and the two `datetime.now()` readings of `process_file`;
- the outcomes of the temporary-file write, Whisper and the read-back;
- the GPT summarizer, as a function.

Instants are integers counting microseconds, the resolution of Python's
`datetime`.

The code lacks some behaviour a reader might expect; the model follows the code:
- The upload handler has no stale-reply guard and no generation counter.
  `Editor.LateReplyWins` shows that a late reply for an earlier file
  overwrites the transcript.
- The quote handler rejects only the empty selection. A whitespace-only
  selection is quoted.
- There is no `Status` enumeration. There are only `isProcessing` and
  `transcript`, and a failure is shown as transcript text.
- Clearing the file only sets `file` to null. It keeps `mode` and
  `transcript` and revokes no object URL.
- A screenshot adds only a text label to `notes`. The image element it
  builds is never appended anywhere: `editorRef` is attached to no element,
  so `editorRef.current` stays null.
- `handleScreenshot` is defined, but no element of the rendered editor calls it.

## Model

| member | source | states |
|---|---|---|
| Editor.ModeOf | frontend.jsx:71-73 | the mode is Video exactly for a `video/` prefix, Audio exactly for an `audio/` prefix, and Doc for anything else; the mapping is total |
| Editor.DetailText | frontend.jsx:81 | an absent or empty detail becomes "未知错误"; a non-empty detail is kept; the result is never empty |
| Editor.TranscriptOf | frontend.jsx:80-83 | success shows the text; a failure body shows "解析失败：" followed by its detail text; a transport error shows the fixed cannot-connect text; a non-success transcript is never empty, and it starts with the failure prefix exactly when the reply was a failure body |
| Editor.QuoteAppend | frontend.jsx:88-89 | old notes stay a prefix; the notes change exactly when the selection is non-empty; the new notes end with "> " + selection, with a blank line before it only when the old notes were non-empty |
| Editor.ScreenshotLabel | frontend.jsx:100 | the label is the fixed head, the time text and the fixed tail, and the time text can be read back at a fixed offset |
| Editor.ScreenshotAppend | frontend.jsx:93-100 | without the guard the notes are unchanged; with it, exactly the label is appended after the old notes |
| Editor.AnnotationsKeepNotes | frontend.jsx:87-106 | after any series of quotes and screenshots, the earlier notes are still a prefix: nothing is lost |
| Editor.LaterAnnotationsKeepEarlier | frontend.jsx:87-106 | the notes after a first series of annotations stay a prefix of the notes after that series followed by any further annotations |
| Editor.ReplyOf | frontend.jsx:79-81 | a back-end success body becomes `Success(text)`; an `HTTPException` becomes a failure carrying its detail |
| Editor.FailedProcessingTranscript | frontend.jsx:81 | a failed file processing on the back end shows "解析失败：" + "AI 服务端处理失败: " + the error text in the transcript |
| Editor.Session.constructor | frontend.jsx:29-33 | the session starts with no mode, no file, not processing, an empty transcript and empty notes |
| Editor.Session.BeginUpload | frontend.jsx:64-73 | an empty file list changes nothing; otherwise `file` is the first file, `isProcessing` is true, `transcript` is "" and `mode` is ModeOf of its type; `notes` is untouched |
| Editor.Session.CompleteUpload | frontend.jsx:77-84 | the transcript becomes TranscriptOf(reply) and `isProcessing` is false after every outcome; nothing else changes |
| Editor.Session.HandleFileUpload | frontend.jsx:64-85 | the whole handler with no event in between: no file means no change; otherwise file, mode and transcript follow the reply, processing ends, and notes are kept |
| Editor.Session.HandleTextCopy | frontend.jsx:87-90 | the notes become QuoteAppend of the old notes and the selection; only `notes` may change |
| Editor.Session.HandleScreenshot | frontend.jsx:92-106 | the notes become ScreenshotAppend, guarded by video mode and a mounted video; only `notes` may change |
| Editor.Session.ClearFile | frontend.jsx:242 | `file` becomes none and nothing else (notes included) may change |
| Editor.Session.EditNotes | frontend.jsx:245 | typing replaces the notes with the text area's value |
| Editor.VideoUploadScenario | frontend.jsx:64-85 | a `video/mp4` upload answered with success "hi" ends in video mode, transcript "hi", not processing |
| Editor.QuotesSurviveClear | frontend.jsx:87-90 | two quotes and then closing the file leave both quotes in order, separated by a blank line |
| Editor.LateReplyWins | frontend.jsx:64-85 | with the file closed and B picked while A is pending, and A answering last, the session shows B with A's transcript (no stale-reply guard) |
| ModelSelect.AfterLastDot | backend_llm_modelselect.py:22 | the result is a suffix of the name with no '.', preceded by a '.' unless it is the whole name |
| ModelSelect.Extension | backend_llm_modelselect.py:22 | the extension is the lower-cased text after the last '.', contains no '.', and is no longer than the name |
| ModelSelect.AfterLastDotOfDotted | backend_llm_modelselect.py:22 | the text after the last '.' of `stem.e` is `e` when `e` has no '.' |
| ModelSelect.ExtensionAfterLastDot | backend_llm_modelselect.py:22 | the extension of `stem.e` is `e` lower-cased, whatever the stem holds |
| ModelSelect.ExtensionWithoutDot | backend_llm_modelselect.py:22 | a name with no '.' yields the whole name lower-cased |
| ModelSelect.SelectBranch | backend_llm_modelselect.py:33-45 | transcription exactly for mp3/mp4/wav/m4a, plain text exactly for txt, fallback exactly for all else; the three are exclusive and exhaustive |
| ModelSelect.MediaExtensionInAnyCase | backend_llm_modelselect.py:22-33 | a media extension in any mix of cases selects transcription |
| ModelSelect.UnsupportedMessage | backend_llm_modelselect.py:45 | the fallback message holds the file name between its fixed head and tail |
| ModelSelect.ProcessMultimodalFile | backend_llm_modelselect.py:16-53 | on success the title is the file name and the text comes from the selected branch; every failure (write, Whisper, read-back) is re-raised with "AI 服务端处理失败: " |
| ModelSelect.TextFileReturnsContent | backend_llm_modelselect.py:40-42 | a `.txt` file in any case returns its read-back content as the text |
| ModelSelect.UnsupportedIgnoresServices | backend_llm_modelselect.py:44-45 | for any other extension the result does not depend on Whisper or the read-back and is the fallback message |
| ReviewStore.IntervalsIncreasing | backend_new_logic.py:35 | the review intervals are positive and strictly increasing |
| ReviewStore.DueNotes | backend_new_logic.py:41 | the filter keeps exactly the due notes and is no longer than the list |
| ReviewStore.DueNotesAppend | backend_new_logic.py:41 | filtering a list grown by one note is the old filter plus that note if it is due |
| ReviewStore.DueIndicesAppend | backend_new_logic.py:41 | the due positions of a list grown by one note are the old ones plus the new position if that note is due |
| ReviewStore.DueNotesCount | backend_new_logic.py:41-45 | the filter's length is the number of due positions |
| ReviewStore.NewNote | backend_new_logic.py:57-64 | the record has stage 0, the AI title and text and the fresh id; `created_at` is the first clock reading and `next_review_date` the second reading plus `REVIEW_INTERVALS[0]` (one) days; so it is due one day after creation when both readings agree, and never within its first day when the clock does not go back |
| ReviewStore.Database.constructor | backend_new_logic.py:26-32 | the database starts with the fixed user and no notes |
| ReviewStore.Database.UserStats | backend_new_logic.py:37-47 | `reviewCount` is the number of notes with `next_review_date <= today`, at most the number of notes; the name and avatar are the user's and the status is "success" |
| ReviewStore.Database.ProcessFile | backend_new_logic.py:49-73 | on success exactly one new record is appended with earlier ones unchanged, and the reply echoes its content and id with status "success"; on failure nothing is appended and a 500 carries the error text |
| ReviewStore.StoringOneNote | backend_new_logic.py:57-65 | storing one note raises the due count by one exactly when the note is due, and keeps every earlier note in place |
| ReviewStore.SummarizeNotes | backend_new_logic.py:75-84 | whitespace-only notes give "笔记内容为空"; other notes give the service's summary, or a 500 with its error text |
| ReviewStore.BlankNotesSkipService | backend_new_logic.py:78-79 | for whitespace-only notes the answer is the fixed summary, whatever the service would answer |
| ReviewStore.NonBlankNotesUseService | backend_new_logic.py:80-84 | notes with any non-whitespace character get the service's answer |
| Text.IsSpace | backend_new_logic.py:78 | the characters Python's `isspace()` accepts: the ASCII and Unicode blanks listed in its table; letters, digits and '.' are never whitespace, and space, tab, line feed, carriage return and the ideographic space always are |
| Text.Strip | backend_new_logic.py:78 | `strip()`: the result is no longer than the input, is empty exactly when every character is whitespace, and otherwise neither starts nor ends with whitespace |
| Text.LStrip | backend_new_logic.py:78 | drops exactly the leading whitespace: the result is a suffix, everything dropped is whitespace, and the result does not start with whitespace |
| Text.RStrip | backend_new_logic.py:78 | drops exactly the trailing whitespace, in the same sense |
| Text.StripEmptyIffAllSpace | backend_new_logic.py:78 | `strip()` gives "" exactly when every character is whitespace |
| Text.LowerChar | backend_llm_modelselect.py:22 | each ASCII capital becomes the matching lower-case letter ('A' to 'a', ..., 'Z' to 'z'), and every other character, '.' included, is kept |
| Text.Lower | backend_llm_modelselect.py:22 | every character of the string is lower-cased in place and the length is kept |

## Left out

- Rendering is not modelled: the dashboard, heatmaps and their `Math.random` data, the calendar, navigation, and the mocked `setTimeout` load of user stats (frontend.jsx:11-15, 41-62, 113-205). They are display-only or non-deterministic.
- `fetch`, `FormData` and `response.json()` are not modelled. Their outcome is the `Reply` input. A `detail` that is not a string (a list from a request-validation error, say) is not modelled.
- FastAPI routing, CORS, request validation and uvicorn are not modelled (backend_new_logic.py:11-19, 86-88).
- Canvas frame capture, `toDataURL`, the DOM `img` append and `URL.createObjectURL` are browser side effects and are not modelled. `toLocaleTimeString` is a parameter.
- The Whisper and ChatCompletion calls and `summarize_with_gpt` are foreign calls. Their outcomes are parameters. The "GPT 总结失败: " prefix that `summarize_with_gpt` adds belongs to the service, so its text is part of the service's error.
- The temporary file's name, write, read and removal are file I/O. Only their outcomes are modelled. An error raised by `os.remove` in the `finally` block is not modelled.
- A missing `file.filename` is not modelled (line 22 of backend_llm_modelselect.py runs outside the `try`). File names are strings here.
- `uuid.uuid4` and `datetime.now` are parameters.
- Interleaving of overlapping uploads is modelled only by calling `BeginUpload` and `CompleteUpload` separately, as `LateReplyWins` does. React's batching of state updates is not modelled, because each handler's updates are applied together.
- Text.Lower: lower-cases ASCII letters only, while Python's `lower()` covers all of Unicode. No non-ASCII character lower-cases to a letter of "mp3", "mp4", "wav", "m4a" or "txt", so the branch chosen is the same, but the extension text can differ for non-ASCII names.
