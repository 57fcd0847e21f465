/** The back end's in-memory database and its three endpoints: the user
    statistics (how many notes are due for review), file processing (which
    stores one review note per processed file) and note summarizing.
    Instants are integers counting microseconds, the resolution of Python's
    `datetime`; the clock, the id generator and the AI services are inputs. */
module ReviewStore {
  import opened Wrappers
  import opened Text
  import ModelSelect

  /** The spaced-repetition intervals, in days. */
  const REVIEW_INTERVALS: seq<int> := [1, 2, 4, 7, 15, 30]

  const MICROS_PER_DAY: int := 86_400_000_000

  /** The summary returned for notes holding only whitespace. */
  const EMPTY_NOTES_SUMMARY: string := "笔记内容为空"

  const SUCCESS: string := "success"

  datatype User = User(name: string, avatar: string)

  const DEFAULT_USER: User := User(
    "Kristina",
    "https://tse2.mm.bing.net/th/id/OIP.CfglGno9D-h16Lxp0Es47gHaHa?rs=1&pid=ImgDetMain&o=7&rm=3")

  /** One stored review note. */
  datatype Note = Note(id: string, title: string, content: string,
                       createdAt: int, nextReviewDate: int, reviewStage: nat)

  /** What an endpoint answers: a JSON body, or an `HTTPException`. */
  datatype Response<+T> = Reply(body: T) | HttpException(statusCode: int, detail: string)

  datatype StatsBody = StatsBody(name: string, avatar: string, reviewCount: nat, status: string)

  datatype ProcessBody = ProcessBody(text: string, status: string, noteId: string)

  datatype SummaryBody = SummaryBody(summary: string)

  lemma IntervalsIncreasing()
    ensures REVIEW_INTERVALS[0] > 0
    ensures forall i, j :: 0 <= i < j < |REVIEW_INTERVALS| ==> REVIEW_INTERVALS[i] < REVIEW_INTERVALS[j]
  {
  }

  predicate IsDue(n: Note, today: int) {
    n.nextReviewDate <= today
  }

  /** `[n for n in notes if n["next_review_date"] <= today]`. */
  function DueNotes(notes: seq<Note>, today: int): (r: seq<Note>)
    ensures |r| <= |notes|
    ensures forall n :: n in r <==> n in notes && IsDue(n, today)
  {
    if notes == [] then []
    else (if IsDue(notes[0], today) then [notes[0]] else []) + DueNotes(notes[1..], today)
  }

  /** The positions of the due notes. */
  ghost function DueIndices(notes: seq<Note>, today: int): set<int> {
    set i | 0 <= i < |notes| && IsDue(notes[i], today)
  }

  /** Filtering a list that grew by one note at the end. */
  lemma {:induction false} DueNotesAppend(notes: seq<Note>, n: Note, today: int)
    ensures DueNotes(notes + [n], today) == DueNotes(notes, today) + (if IsDue(n, today) then [n] else [])
  {
    if notes != [] {
      assert (notes + [n])[1..] == notes[1..] + [n];
      DueNotesAppend(notes[1..], n, today);
    }
  }

  /** The due positions of a list that grew by one note at the end. */
  lemma DueIndicesAppend(notes: seq<Note>, n: Note, today: int)
    ensures DueIndices(notes + [n], today) == DueIndices(notes, today) + (if IsDue(n, today) then {|notes|} else {})
  {
    var s := notes + [n];
    forall i | 0 <= i < |notes| ensures s[i] == notes[i] { }
    assert s[|notes|] == n;
  }

  /** The filter keeps one entry per due position, so its length is the
      number of due notes (duplicates counted). */
  lemma {:induction false} DueNotesCount(notes: seq<Note>, today: int)
    ensures |DueNotes(notes, today)| == |DueIndices(notes, today)|
    decreases |notes|
  {
    if notes == [] {
      assert DueIndices(notes, today) == {};
    } else {
      var init, last := notes[..|notes| - 1], notes[|notes| - 1];
      assert notes == init + [last];
      DueNotesAppend(init, last, today);
      DueIndicesAppend(init, last, today);
      DueNotesCount(init, today);
      assert |init| !in DueIndices(init, today);
    }
  }

  /** The review note built for a processed file. `createdAt` and `reviewBase`
      are the two `datetime.now()` readings the source makes. */
  function NewNote(id: string, ai: ModelSelect.AiResult, createdAt: int, reviewBase: int): (n: Note)
    ensures n.reviewStage == 0
    ensures n.title == ai.title && n.content == ai.text && n.id == id
    ensures n.createdAt == createdAt
    ensures n.nextReviewDate == reviewBase + REVIEW_INTERVALS[0] * MICROS_PER_DAY
    ensures createdAt == reviewBase ==> n.nextReviewDate == createdAt + MICROS_PER_DAY
    ensures createdAt <= reviewBase ==> !IsDue(n, createdAt + MICROS_PER_DAY - 1)
  {
    Note(id, ai.title, ai.text, createdAt, reviewBase + REVIEW_INTERVALS[0] * MICROS_PER_DAY, 0)
  }

  /** The `db` dictionary: the fixed user and the growing list of notes. */
  class Database {
    const user: User
    var notes: seq<Note>

    constructor ()
      ensures user == DEFAULT_USER && notes == []
    {
      user := DEFAULT_USER;
      notes := [];
    }

    /** `GET /user/stats` at instant `today`. */
    function UserStats(today: int): (s: StatsBody)
      reads this
      ensures s.reviewCount == |DueIndices(notes, today)|
      ensures s.reviewCount <= |notes|
      ensures s.name == user.name && s.avatar == user.avatar && s.status == SUCCESS
    {
      DueNotesCount(notes, today);
      StatsBody(user.name, user.avatar, |DueNotes(notes, today)|, SUCCESS)
    }

    /** `POST /process-file`. `ai` is the outcome of the file-processing
        service, `newId` the fresh `uuid4` text, `createdAt` and `reviewBase`
        the two clock readings. */
    method ProcessFile(ai: Result<ModelSelect.AiResult>, newId: string, createdAt: int, reviewBase: int)
      returns (response: Response<ProcessBody>)
      modifies this`notes
      ensures ai.Err? ==> notes == old(notes) && response == HttpException(500, ai.message)
      ensures ai.Ok? ==> notes == old(notes) + [NewNote(newId, ai.value, createdAt, reviewBase)]
      ensures ai.Ok? ==> response == Reply(ProcessBody(ai.value.text, SUCCESS, newId))
    {
      match ai
      case Err(e) =>
        response := HttpException(500, e);
      case Ok(aiResult) =>
        var newNote := NewNote(newId, aiResult, createdAt, reviewBase);
        notes := notes + [newNote];
        response := Reply(ProcessBody(newNote.content, SUCCESS, newNote.id));
    }
  }

  /** Storing one note raises the due count at `today` by one exactly when
      the new note is due then; every earlier note keeps its place. */
  lemma StoringOneNote(notes: seq<Note>, n: Note, today: int)
    ensures |DueIndices(notes + [n], today)| == |DueIndices(notes, today)| + (if IsDue(n, today) then 1 else 0)
    ensures (notes + [n])[..|notes|] == notes
  {
    DueNotesAppend(notes, n, today);
    DueNotesCount(notes, today);
    DueNotesCount(notes + [n], today);
  }

  /** `POST /summarize`. `summarizeWithGpt` is the GPT service; its `Err` is
      the text of the exception it raises. */
  function SummarizeNotes(notes: string, summarizeWithGpt: string -> Result<string>): (r: Response<SummaryBody>)
    ensures Strip(notes) == "" ==> r == Reply(SummaryBody(EMPTY_NOTES_SUMMARY))
    ensures Strip(notes) != "" && summarizeWithGpt(notes).Ok? ==> r == Reply(SummaryBody(summarizeWithGpt(notes).value))
    ensures Strip(notes) != "" && summarizeWithGpt(notes).Err? ==> r == HttpException(500, summarizeWithGpt(notes).message)
  {
    if Strip(notes) == "" then Reply(SummaryBody(EMPTY_NOTES_SUMMARY))
    else
      match summarizeWithGpt(notes)
      case Ok(summary) => Reply(SummaryBody(summary))
      case Err(e) => HttpException(500, e)
  }

  /** Notes made only of whitespace get the fixed summary, whatever the GPT
      service would answer: the service is not consulted. */
  lemma BlankNotesSkipService(notes: string, gpt1: string -> Result<string>, gpt2: string -> Result<string>)
    requires forall i :: 0 <= i < |notes| ==> IsSpace(notes[i])
    ensures SummarizeNotes(notes, gpt1) == SummarizeNotes(notes, gpt2) == Reply(SummaryBody(EMPTY_NOTES_SUMMARY))
  {
    StripEmptyIffAllSpace(notes);
  }

  /** Notes with a non-whitespace character go to the service. */
  lemma NonBlankNotesUseService(notes: string, gpt: string -> Result<string>, i: nat)
    requires i < |notes| && !IsSpace(notes[i])
    ensures gpt(notes).Ok? ==> SummarizeNotes(notes, gpt) == Reply(SummaryBody(gpt(notes).value))
    ensures gpt(notes).Err? ==> SummarizeNotes(notes, gpt) == HttpException(500, gpt(notes).message)
  {
    StripEmptyIffAllSpace(notes);
  }
}
