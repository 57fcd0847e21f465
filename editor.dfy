/** The note editor of the front end: one session holding the uploaded file,
    its display mode, whether processing is under way, the transcript and the
    note text (the state at frontend.jsx:29-33). The back end's reply, the
    selected text, the time string and whether the video element is mounted
    are inputs to the handlers. */
module Editor {
  import opened Wrappers
  import opened Text
  import ReviewStore
  import ModelSelect

  /** The display mode; the session starts with none (`null`). */
  datatype Mode = Video | Audio | Doc

  /** A picked file: its name and its declared MIME type. */
  datatype UploadedFile = UploadedFile(name: string, mimeType: string)

  /** How the request to the processing endpoint ended: a body whose status
      is "success", any other body (with its `detail`, if any), or an
      exception from `fetch` or `response.json()`. */
  datatype Reply = Success(text: string) | Failure(detail: Option<string>) | TransportError

  const FAILURE_PREFIX: string := "解析失败："
  const UNKNOWN_ERROR: string := "未知错误"
  const UNREACHABLE: string := "无法连接到后端服务器，请检查 Python 后端是否运行。"

  const QUOTE_MARK: string := "> "
  const BLOCK_SEPARATOR: string := "\n\n"
  const SCREENSHOT_HEAD: string := "\n\n[视频截图 - "
  const SCREENSHOT_TAIL: string := "]\n"

  /** The mode for a MIME type, tested on its prefix. */
  function ModeOf(mimeType: string): (m: Mode)
    ensures m == Video <==> "video/" <= mimeType
    ensures m == Audio <==> "audio/" <= mimeType
    ensures m == Doc <==> !("video/" <= mimeType) && !("audio/" <= mimeType)
  {
    if "video/" <= mimeType then
      assert mimeType[0] != "audio/"[0];
      Video
    else if "audio/" <= mimeType then Audio
    else Doc
  }

  /** `data.detail || "未知错误"`: an absent or empty detail becomes the
      unknown-error text. */
  function DetailText(detail: Option<string>): (d: string)
    ensures d != ""
    ensures detail.Some? && detail.value != "" ==> d == detail.value
    ensures detail.None? || detail.value == "" ==> d == UNKNOWN_ERROR
  {
    match detail
    case Some(s) => if s != "" then s else UNKNOWN_ERROR
    case None => UNKNOWN_ERROR
  }

  /** The transcript the upload handler sets once the reply is in. */
  function TranscriptOf(reply: Reply): (t: string)
    ensures reply.Success? ==> t == reply.text
    ensures reply.Failure? ==> FAILURE_PREFIX <= t && t[|FAILURE_PREFIX|..] == DetailText(reply.detail)
    ensures reply.TransportError? ==> t == UNREACHABLE
    ensures !reply.Success? ==> t != "" && (FAILURE_PREFIX <= t <==> reply.Failure?)
  {
    match reply
    case Success(text) => text
    case Failure(detail) => FAILURE_PREFIX + DetailText(detail)
    case TransportError =>
      assert UNREACHABLE[0] != FAILURE_PREFIX[0];
      UNREACHABLE
  }

  /** The note text after quoting `selection`: an empty selection is
      dropped; otherwise the quote is appended after a blank line, or alone
      when the notes are empty. Any other selection, whitespace included,
      is quoted. */
  function QuoteAppend(notes: string, selection: string): (r: string)
    ensures notes <= r
    ensures selection == "" <==> r == notes
    ensures selection != "" ==> EndsWith(r, QUOTE_MARK + selection)
    ensures selection != "" && notes == "" ==> r == QUOTE_MARK + selection
    ensures selection != "" ==> |r| == |notes| + (if notes == "" then 0 else |BLOCK_SEPARATOR|) + |QUOTE_MARK| + |selection|
    ensures selection != "" && notes != "" ==> r[|notes|..|notes| + |BLOCK_SEPARATOR|] == BLOCK_SEPARATOR
  {
    if selection == "" then notes
    else notes + (if notes != "" then BLOCK_SEPARATOR else "") + QUOTE_MARK + selection
  }

  /** The label appended for a screenshot taken at `time`. */
  function ScreenshotLabel(time: string): (s: string)
    ensures |s| == |SCREENSHOT_HEAD| + |time| + |SCREENSHOT_TAIL|
    ensures SCREENSHOT_HEAD <= s && EndsWith(s, SCREENSHOT_TAIL)
    ensures s[|SCREENSHOT_HEAD|..|SCREENSHOT_HEAD| + |time|] == time
  {
    SCREENSHOT_HEAD + time + SCREENSHOT_TAIL
  }

  /** The note text after a screenshot request; `enabled` is the handler's
      guard (video mode and a mounted video element). */
  function ScreenshotAppend(notes: string, enabled: bool, time: string): (r: string)
    ensures notes <= r
    ensures !enabled <==> r == notes
    ensures enabled ==> r[|notes|..] == ScreenshotLabel(time)
  {
    if enabled then notes + ScreenshotLabel(time) else notes
  }

  /** One annotation request on the notes. */
  datatype Annotation = Quote(selection: string) | Screenshot(enabled: bool, time: string)

  function Annotate(notes: string, a: Annotation): string {
    match a
    case Quote(selection) => QuoteAppend(notes, selection)
    case Screenshot(enabled, time) => ScreenshotAppend(notes, enabled, time)
  }

  /** The notes after a series of annotation requests, in order. */
  function AnnotateAll(notes: string, annotations: seq<Annotation>): string
    decreases |annotations|
  {
    if annotations == [] then notes
    else AnnotateAll(Annotate(notes, annotations[0]), annotations[1..])
  }

  /** Annotations only append: whatever was written before any number of
      quotes and screenshots is still the start of the notes. */
  lemma {:induction false} AnnotationsKeepNotes(notes: string, annotations: seq<Annotation>)
    ensures notes <= AnnotateAll(notes, annotations)
    decreases |annotations|
  {
    if annotations != [] {
      var next := Annotate(notes, annotations[0]);
      AnnotationsKeepNotes(next, annotations[1..]);
      var r := AnnotateAll(next, annotations[1..]);
      assert notes == next[..|notes|] == r[..|notes|];
    }
  }

  /** Later annotations never undo earlier ones: the notes after a first
      series stay the start of the notes after that series and any more. */
  lemma {:induction false} LaterAnnotationsKeepEarlier(notes: string, first: seq<Annotation>, second: seq<Annotation>)
    ensures AnnotateAll(notes, first) <= AnnotateAll(notes, first + second)
    decreases |first|
  {
    if first == [] {
      assert first + second == second;
      AnnotationsKeepNotes(notes, second);
    } else {
      assert (first + second)[0] == first[0];
      assert (first + second)[1..] == first[1..] + second;
      LaterAnnotationsKeepEarlier(Annotate(notes, first[0]), first[1..], second);
    }
  }

  /** How the back end's answer reaches the editor: the success body becomes
      `Success(text)`, and an `HTTPException` a body holding only `detail`. */
  function ReplyOf(response: ReviewStore.Response<ReviewStore.ProcessBody>): (reply: Reply)
    ensures response.Reply? && response.body.status == ReviewStore.SUCCESS ==> reply == Success(response.body.text)
    ensures response.HttpException? ==> reply == Failure(Some(response.detail))
  {
    match response
    case Reply(body) => if body.status == ReviewStore.SUCCESS then Success(body.text) else Failure(None)
    case HttpException(_, detail) => Failure(Some(detail))
  }

  /** The editor session. */
  class Session {
    var mode: Option<Mode>
    var file: Option<UploadedFile>
    var isProcessing: bool
    var transcript: string
    var notes: string

    constructor ()
      ensures mode == None && file == None && !isProcessing && transcript == "" && notes == ""
    {
      mode, file, isProcessing, transcript, notes := None, None, false, "", "";
    }

    /** The part of `handleFileUpload` before the request is awaited.
        `files` is the picker's file list. */
    method BeginUpload(files: seq<UploadedFile>) returns (accepted: bool)
      modifies this
      ensures accepted <==> files != []
      ensures !accepted ==> unchanged(this)
      ensures accepted ==> file == Some(files[0]) && isProcessing && transcript == ""
      ensures accepted ==> mode == Some(ModeOf(files[0].mimeType))
      ensures notes == old(notes)
    {
      if files == [] {
        return false;
      }
      var uploadedFile := files[0];
      file := Some(uploadedFile);
      isProcessing := true;
      transcript := "";
      mode := Some(ModeOf(uploadedFile.mimeType));
      accepted := true;
    }

    /** The part of `handleFileUpload` after the request: the reply is shown
        and processing ends, whichever way it went. */
    method CompleteUpload(reply: Reply)
      modifies this`transcript, this`isProcessing
      ensures transcript == TranscriptOf(reply) && !isProcessing
    {
      transcript := TranscriptOf(reply);
      isProcessing := false;
    }

    /** `handleFileUpload` when no other event runs while the request is
        awaited. */
    method HandleFileUpload(files: seq<UploadedFile>, reply: Reply)
      modifies this
      ensures files == [] ==> unchanged(this)
      ensures files != [] ==> file == Some(files[0]) && mode == Some(ModeOf(files[0].mimeType))
      ensures files != [] ==> transcript == TranscriptOf(reply) && !isProcessing
      ensures notes == old(notes)
    {
      var accepted := BeginUpload(files);
      if accepted {
        CompleteUpload(reply);
      }
    }

    /** `handleTextCopy` with the current selection. */
    method HandleTextCopy(selection: string)
      modifies this`notes
      ensures notes == QuoteAppend(old(notes), selection)
    {
      notes := QuoteAppend(notes, selection);
    }

    /** `handleScreenshot` at `time`; `videoMounted` says whether the video
        element is present. */
    method HandleScreenshot(videoMounted: bool, time: string)
      modifies this`notes
      ensures notes == ScreenshotAppend(old(notes), mode == Some(Video) && videoMounted, time)
    {
      if mode == Some(Video) && videoMounted {
        notes := notes + ScreenshotLabel(time);
      }
    }

    /** The close button: only the file is dropped. */
    method ClearFile()
      modifies this`file
      ensures file == None
    {
      file := None;
    }

    /** Typing in the note area replaces the notes with its text. */
    method EditNotes(text: string)
      modifies this`notes
      ensures notes == text
    {
      notes := text;
    }
  }

  /** A session that picks a `video/mp4` file and gets `{status: "success",
      text: "hi"}` shows that transcript in video mode. */
  method VideoUploadScenario(name: string) returns (m: Option<Mode>, t: string, busy: bool)
    ensures m == Some(Video) && t == "hi" && !busy
  {
    var s := new Session();
    s.HandleFileUpload([UploadedFile(name, "video/mp4")], Success("hi"));
    m, t, busy := s.mode, s.transcript, s.isProcessing;
  }

  /** Two quotes followed by closing the file: both quotes stay, in order. */
  method QuotesSurviveClear(a: string, b: string) returns (notes: string)
    requires a != "" && b != ""
    ensures notes == QUOTE_MARK + a + BLOCK_SEPARATOR + QUOTE_MARK + b
  {
    var s := new Session();
    s.HandleTextCopy(a);
    s.HandleTextCopy(b);
    s.ClearFile();
    notes := s.notes;
  }

  /** The handler has no guard against a stale reply: when the file is
      closed and file B picked while A's request is pending and A's reply arrives last, the transcript
      is A's although the session shows B. */
  method LateReplyWins(a: UploadedFile, b: UploadedFile, replyA: Reply, replyB: Reply)
    returns (shown: Option<UploadedFile>, t: string)
    ensures shown == Some(b) && t == TranscriptOf(replyA)
  {
    var s := new Session();
    var _ := s.BeginUpload([a]);
    s.ClearFile();
    var _ := s.BeginUpload([b]);
    s.CompleteUpload(replyB);
    s.CompleteUpload(replyA);
    shown, t := s.file, s.transcript;
  }

  /** A file whose processing fails on the back end shows, in the
      transcript, the editor's failure prefix, then the service's prefix,
      then the error text. */
  lemma FailedProcessingTranscript(filename: string, upload: Outcome,
                                   transcription: Result<string>, readBack: Result<string>)
    requires ModelSelect.ProcessMultimodalFile(filename, upload, transcription, readBack).Err?
    ensures
      var ai := ModelSelect.ProcessMultimodalFile(filename, upload, transcription, readBack);
      var t := TranscriptOf(ReplyOf(ReviewStore.HttpException(500, ai.message)));
      FAILURE_PREFIX + ModelSelect.FAILURE_PREFIX <= t &&
      t == FAILURE_PREFIX + ai.message
  {
    var ai := ModelSelect.ProcessMultimodalFile(filename, upload, transcription, readBack);
    assert ai.message != "";
  }
}
