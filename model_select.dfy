/** The file-processing service of the back end (`AIService.process_multimodal_file`):
    it takes the uploaded file's extension, picks one of three branches and
    returns the file name as the title with the branch's text. The temporary
    file, Whisper and the text read are I/O; their outcomes are parameters. */
module ModelSelect {
  import opened Wrappers
  import opened Text

  /** The extensions sent to speech-to-text transcription. */
  const MEDIA_EXTENSIONS: seq<string> := ["mp3", "mp4", "wav", "m4a"]

  /** The extension read as plain text. */
  const TEXT_EXTENSION: string := "txt"

  /** Prefix of every error the service re-raises. */
  const FAILURE_PREFIX: string := "AI 服务端处理失败: "

  /** The two fixed parts of the message for an unsupported file. */
  const UNSUPPORTED_HEAD: string := "已识别文件 "
  const UNSUPPORTED_TAIL: string := "，但目前仅支持音视频转写和 TXT 读取。"

  /** What the service returns: `{"title": ..., "text": ...}`. */
  datatype AiResult = AiResult(title: string, text: string)

  /** The three ways of obtaining the text of a file. */
  datatype Branch = Transcribe | ReadText | Unsupported

  /** `name.split(".")[-1]`: the text after the last '.', or all of `name`
      when it has no '.'. */
  function AfterLastDot(name: string): (r: string)
    ensures |r| <= |name| && r == name[|name| - |r|..]
    ensures '.' !in r
    ensures |r| < |name| ==> name[|name| - |r| - 1] == '.'
  {
    if name == "" || name[|name| - 1] == '.' then ""
    else
      var init := name[..|name| - 1];
      assert name == init + [name[|name| - 1]];
      AfterLastDot(init) + [name[|name| - 1]]
  }

  /** `file.filename.split(".")[-1].lower()`. */
  function Extension(filename: string): (ext: string)
    ensures |ext| <= |filename|
    ensures '.' !in ext
    ensures ext == Lower(AfterLastDot(filename))
  {
    var e := AfterLastDot(filename);
    assert forall i :: 0 <= i < |e| ==> Lower(e)[i] != '.' by {
      forall i | 0 <= i < |e| ensures Lower(e)[i] != '.' { assert e[i] != '.'; }
    }
    Lower(e)
  }

  /** The branch chosen for an extension, tested in the source's order. */
  function SelectBranch(ext: string): (b: Branch)
    ensures b == Transcribe <==> ext in MEDIA_EXTENSIONS
    ensures b == ReadText <==> ext == TEXT_EXTENSION
    ensures b == Unsupported <==> ext !in MEDIA_EXTENSIONS && ext != TEXT_EXTENSION
  {
    if ext in MEDIA_EXTENSIONS then Transcribe
    else if ext == TEXT_EXTENSION then ReadText
    else Unsupported
  }

  /** The text returned for a file whose extension is not handled. */
  function UnsupportedMessage(filename: string): (msg: string)
    ensures |msg| == |UNSUPPORTED_HEAD| + |filename| + |UNSUPPORTED_TAIL|
    ensures UNSUPPORTED_HEAD <= msg
    ensures msg[|UNSUPPORTED_HEAD|..|UNSUPPORTED_HEAD| + |filename|] == filename
    ensures EndsWith(msg, UNSUPPORTED_TAIL)
  {
    UNSUPPORTED_HEAD + filename + UNSUPPORTED_TAIL
  }

  /** `process_multimodal_file`. `upload` is the outcome of writing the
      uploaded bytes to the temporary file; `transcription` the outcome of the
      Whisper call on it; `readBack` the outcome of reading it back as UTF-8
      text. Any of these failing is re-raised with FAILURE_PREFIX. */
  function ProcessMultimodalFile(filename: string, upload: Outcome,
                                 transcription: Result<string>,
                                 readBack: Result<string>): (r: Result<AiResult>)
    ensures r.Ok? ==> r.value.title == filename
    ensures r.Err? ==> FAILURE_PREFIX <= r.message
    ensures upload.Raised? ==> r == Err(FAILURE_PREFIX + upload.message)
    ensures upload.Done? ==>
      match SelectBranch(Extension(filename))
      case Transcribe =>
        (transcription.Ok? ==> r == Ok(AiResult(filename, transcription.value))) &&
        (transcription.Err? ==> r == Err(FAILURE_PREFIX + transcription.message))
      case ReadText =>
        (readBack.Ok? ==> r == Ok(AiResult(filename, readBack.value))) &&
        (readBack.Err? ==> r == Err(FAILURE_PREFIX + readBack.message))
      case Unsupported =>
        r == Ok(AiResult(filename, UnsupportedMessage(filename)))
  {
    if upload.Raised? then Err(FAILURE_PREFIX + upload.message)
    else
      var resultText :=
        match SelectBranch(Extension(filename))
        case Transcribe => transcription
        case ReadText => readBack
        case Unsupported => Ok(UnsupportedMessage(filename));
      match resultText
      case Ok(text) => Ok(AiResult(filename, text))
      case Err(e) => Err(FAILURE_PREFIX + e)
  }

  /** The extension of `stem.e`, where `e` has no '.', is `e` lower-cased,
      whatever `stem` holds (dots included). */
  lemma {:induction false} ExtensionAfterLastDot(stem: string, e: string)
    requires '.' !in e
    ensures Extension(stem + "." + e) == Lower(e)
  {
    AfterLastDotOfDotted(stem, e);
  }

  lemma {:induction false} AfterLastDotOfDotted(stem: string, e: string)
    requires '.' !in e
    ensures AfterLastDot(stem + "." + e) == e
    decreases |e|
  {
    var name := stem + "." + e;
    if e != "" {
      var init := e[..|e| - 1];
      assert name[..|name| - 1] == stem + "." + init;
      assert name[|name| - 1] == e[|e| - 1];
      AfterLastDotOfDotted(stem, init);
      assert init + [e[|e| - 1]] == e;
    }
  }

  /** A name without any '.' is its own extension, lower-cased. */
  lemma {:induction false} ExtensionWithoutDot(filename: string)
    requires '.' !in filename
    ensures Extension(filename) == Lower(filename)
  {
    var r := AfterLastDot(filename);
    if |r| < |filename| {
      assert false;
    }
  }

  /** The branch tests are made on the lower-cased extension, so a media
      extension in any mix of cases is transcribed. */
  lemma MediaExtensionInAnyCase(stem: string, e: string)
    requires '.' !in e
    requires Lower(e) in MEDIA_EXTENSIONS
    ensures SelectBranch(Extension(stem + "." + e)) == Transcribe
  {
    ExtensionAfterLastDot(stem, e);
  }

  /** A `.txt` file in any case is read back, and its content is the text. */
  lemma TextFileReturnsContent(stem: string, e: string, content: string, transcription: Result<string>)
    requires '.' !in e && Lower(e) == TEXT_EXTENSION
    ensures ProcessMultimodalFile(stem + "." + e, Done, transcription, Ok(content))
            == Ok(AiResult(stem + "." + e, content))
  {
    ExtensionAfterLastDot(stem, e);
  }

  /** For a file of any other extension the I/O outcomes of the Whisper call
      and the read-back do not matter, and the text names the file. */
  lemma UnsupportedIgnoresServices(filename: string, t1: Result<string>, t2: Result<string>,
                                   b1: Result<string>, b2: Result<string>)
    requires SelectBranch(Extension(filename)) == Unsupported
    ensures ProcessMultimodalFile(filename, Done, t1, b1) == ProcessMultimodalFile(filename, Done, t2, b2)
    ensures ProcessMultimodalFile(filename, Done, t1, b1).Ok?
    ensures ProcessMultimodalFile(filename, Done, t1, b1).value.text == UnsupportedMessage(filename)
  {
  }
}
