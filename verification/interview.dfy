/** The mock-interview recording screen (app/interview.tsx): a session over a fixed
    list of questions that records one spoken answer at a time, advances through
    the questions, and at the end validates the recorded files and builds the
    multipart upload. Microphone, audio mode, text-to-speech, the file system and
    the network are not modelled; what they return is passed in as plain values. */
module Interview {
  import opened Nullable

  /** An on-device file locator, as returned by the recorder. */
  type Uri = string

  /** The recorder object that a successful start creates; only its identity matters. */
  datatype Recorder = Recorder(id: nat)

  /** How the device calls inside a start end. */
  datatype StartOutcome =
    | PermissionDenied             // the permission status is not 'granted'
    | StartFailed                  // one of the awaited device calls threw
    | Started(recorder: Recorder)  // the recorder is capturing

  /** How the device calls inside a stop end. */
  datatype StopOutcome =
    | StopFailed                   // one of the awaited device calls threw
    | Stopped(uri: Option<Uri>)    // the recorder's URI, possibly null

  /** What the file-system lookup of one URI comes to: the file exists with a
      size in bytes (a size the file system leaves out reads as 0), or the
      lookup itself throws. */
  datatype FileStat = Present(size: nat) | LookupThrows

  /** What the file system reports per URI; a URI not in the map does not exist. */
  type FileTable = map<Uri, FileStat>

  /** One part of the multipart upload. */
  datatype FormPart =
    | TextPart(field: string, questions: seq<string>)
    | FilePart(field: string, uri: Uri, fileName: string, mimeType: string)

  /** What a submission attempt comes to before the network is reached. */
  datatype Submission =
    | Aborted(position: nat, size: nat)  // "Recording #position is empty (size bytes)"
    | LookupFailed(index: nat)            // the lookup of recording `index` threw: no alert, no upload
    | Upload(form: seq<FormPart>)         // the payload that is posted

  // ---------------------------------------------------------------------------
  // File checks

  /** The lookup of `uri` throws. */
  predicate LookupThrowsFor(files: FileTable, uri: Uri)
  {
    uri in files && files[uri].LookupThrows?
  }

  /** The file at `uri` exists (`info.exists`). */
  predicate Exists(files: FileTable, uri: Uri)
  {
    uri in files && files[uri].Present?
  }

  /** The size reported for `uri` (`info.size ?? 0`). */
  function SizeOf(files: FileTable, uri: Uri): nat
  {
    if Exists(files, uri) then files[uri].size else 0
  }

  /** A recording passes the check when its lookup returns, the file exists
      and it is not empty: exactly when neither the lookup throws nor the
      abort test `!info.exists || (info.size ?? 0) === 0` holds. */
  predicate Usable(files: FileTable, uri: Uri): (b: bool)
    ensures b <==> !LookupThrowsFor(files, uri) && !(!Exists(files, uri) || SizeOf(files, uri) == 0)
    ensures b ==> SizeOf(files, uri) > 0
  {
    uri in files && files[uri].Present? && files[uri].size > 0
  }

  /** The index of the first recording that may not be uploaded, if any. */
  function FirstUnusable(recordings: seq<Uri>, files: FileTable): (r: Option<nat>)
    ensures r.None? <==> forall j :: 0 <= j < |recordings| ==> Usable(files, recordings[j])
    ensures r.Some? ==>
      && r.value < |recordings|
      && !Usable(files, recordings[r.value])
      && forall j :: 0 <= j < r.value ==> Usable(files, recordings[j])
  {
    if recordings == [] then None
    else if !Usable(files, recordings[0]) then Some(0)
    else match FirstUnusable(recordings[1..], files)
      case None => None
      case Some(k) => Some(k + 1)
  }

  // ---------------------------------------------------------------------------
  // The multipart payload

  function DigitChar(d: nat): char
    requires d < 10
  {
    (48 + d) as char
  }

  /** The decimal numeral of `n`, as a JavaScript template literal prints it. */
  function Decimal(n: nat): (s: string)
    ensures |s| >= 1
    ensures forall c :: c in s ==> '0' <= c <= '9'
  {
    if n < 10 then [DigitChar(n)] else Decimal(n / 10) + [DigitChar(n % 10)]
  }

  /** Distinct numbers have distinct numerals. */
  lemma {:induction false} DecimalInjective(a: nat, b: nat)
    requires Decimal(a) == Decimal(b)
    ensures a == b
  {
    if a < 10 && b < 10 {
      assert DigitChar(a) == Decimal(a)[0] == Decimal(b)[0] == DigitChar(b);
      assert DigitChar(a) as int == 48 + a;
    } else if a >= 10 && b >= 10 {
      var sa, sb := Decimal(a / 10), Decimal(b / 10);
      assert sa + [DigitChar(a % 10)] == sb + [DigitChar(b % 10)];
      assert |sa| == |sb|;
      assert sa == Decimal(a)[..|sa|] == Decimal(b)[..|sb|] == sb;
      DecimalInjective(a / 10, b / 10);
      assert DigitChar(a % 10) == Decimal(a)[|sa|] == Decimal(b)[|sb|] == DigitChar(b % 10);
      assert DigitChar(a % 10) as int == 48 + a % 10;
    }
  }

  /** The file name of the `i`-th answer: `answer_<i>.m4a`. */
  function AnswerName(i: nat): string
  {
    "answer_" + Decimal(i) + ".m4a"
  }

  lemma AnswerNameInjective(i: nat, j: nat)
    requires AnswerName(i) == AnswerName(j)
    ensures i == j
  {
    var n := AnswerName(i);
    assert Decimal(i) == n[7..|n| - 4];
    assert Decimal(j) == n[7..|n| - 4];
    DecimalInjective(i, j);
  }

  /** The `questions` field of the payload. */
  function QuestionsPart(questions: seq<string>): FormPart
  {
    TextPart("questions", questions)
  }

  /** The `answers` part for the recording at `uri`, the `i`-th in the list. */
  function AnswerPart(uri: Uri, i: nat): FormPart
  {
    FilePart("answers", uri, AnswerName(i), "audio/m4a")
  }

  /** The answer parts for `recordings`, numbered from `from`. */
  function AnswerParts(recordings: seq<Uri>, from: nat): seq<FormPart>
  {
    if recordings == [] then []
    else [AnswerPart(recordings[0], from)] + AnswerParts(recordings[1..], from + 1)
  }

  /** The whole payload: the question list, then one part per recording. A
      receiver reading it back finds the question list exactly once and
      exactly the recordings, in order. */
  function FormOf(questions: seq<string>, recordings: seq<Uri>): (form: seq<FormPart>)
    ensures |form| == |recordings| + 1 && form[0] == QuestionsPart(questions)
    ensures UploadedUris(form) == recordings
    ensures QuestionFields(form) == [questions]
  {
    var form := [QuestionsPart(questions)] + AnswerParts(recordings, 0);
    assert form[1..] == AnswerParts(recordings, 0);
    AnswerPartsLayout(recordings, 0);
    AnswerPartsReadBack(recordings, 0);
    form
  }

  /** The `answers` files a receiver finds in a payload, in order. */
  function UploadedUris(form: seq<FormPart>): seq<Uri>
  {
    if form == [] then []
    else (if form[0].FilePart? && form[0].field == "answers" then [form[0].uri] else [])
         + UploadedUris(form[1..])
  }

  /** The `questions` fields a receiver finds in a payload, in order. */
  function QuestionFields(form: seq<FormPart>): seq<seq<string>>
  {
    if form == [] then []
    else (if form[0].TextPart? && form[0].field == "questions" then [form[0].questions] else [])
         + QuestionFields(form[1..])
  }

  lemma {:induction false} AnswerPartsLayout(recordings: seq<Uri>, from: nat)
    ensures |AnswerParts(recordings, from)| == |recordings|
    ensures forall j :: 0 <= j < |recordings| ==>
      AnswerParts(recordings, from)[j] == AnswerPart(recordings[j], from + j)
  {
    if recordings != [] {
      AnswerPartsLayout(recordings[1..], from + 1);
    }
  }

  lemma {:induction false} AnswerPartsReadBack(recordings: seq<Uri>, from: nat)
    ensures UploadedUris(AnswerParts(recordings, from)) == recordings
    ensures QuestionFields(AnswerParts(recordings, from)) == []
  {
    if recordings != [] {
      var parts := AnswerParts(recordings, from);
      assert parts[1..] == AnswerParts(recordings[1..], from + 1);
      AnswerPartsReadBack(recordings[1..], from + 1);
      assert recordings == [recordings[0]] + recordings[1..];
    }
  }

  /** No two answers of a list share a file name. */
  lemma AnswerNamesDistinct(n: nat)
    ensures forall i, j :: 0 <= i < j < n ==> AnswerName(i) != AnswerName(j)
  {
    forall i, j | 0 <= i < j < n
      ensures AnswerName(i) != AnswerName(j)
    {
      if AnswerName(i) == AnswerName(j) {
        AnswerNameInjective(i, j);
      }
    }
  }

  /** The payload holds exactly one `questions` field, first, followed by one
      `answers` part per recording in list order, each named `answer_<i>.m4a`
      with type `audio/m4a`; no two parts share a file name. */
  lemma PayloadLayout(questions: seq<string>, recordings: seq<Uri>)
    ensures var form := FormOf(questions, recordings);
      && |form| == |recordings| + 1
      && form[0] == TextPart("questions", questions)
      && (forall j :: 0 <= j < |recordings| ==>
            form[j + 1] == FilePart("answers", recordings[j], AnswerName(j), "audio/m4a"))
      && (forall a, b :: 1 <= a < b < |form| ==>
            form[a].FilePart? && form[b].FilePart? && form[a].fileName != form[b].fileName)
  {
    var form := FormOf(questions, recordings);
    AnswerPartsLayout(recordings, 0);
    assert forall j :: 0 <= j < |recordings| ==> form[j + 1] == AnswerParts(recordings, 0)[j];
    AnswerNamesDistinct(|recordings|);
    forall a, b | 1 <= a < b < |form|
      ensures form[a].FilePart? && form[b].FilePart? && form[a].fileName != form[b].fileName
    {
      assert form[a] == AnswerPart(recordings[a - 1], a - 1);
      assert form[b] == AnswerPart(recordings[b - 1], b - 1);
    }
  }

  // ---------------------------------------------------------------------------
  // Submission

  /** What `submitAll` does with a given list: at the first recording that
      does not pass the check, end without uploading, either silently when its
      lookup threw or with the alert naming its 1-based position and size;
      otherwise produce the upload payload. */
  function SubmissionOf(questions: seq<string>, recordings: seq<Uri>, files: FileTable): (r: Submission)
    ensures r.Upload? <==> forall j :: 0 <= j < |recordings| ==> Usable(files, recordings[j])
    ensures r.Aborted? ==>
      && 1 <= r.position <= |recordings|
      && !Usable(files, recordings[r.position - 1])
      && !LookupThrowsFor(files, recordings[r.position - 1])
      && r.size == SizeOf(files, recordings[r.position - 1])
      && forall j :: 0 <= j < r.position - 1 ==> Usable(files, recordings[j])
    ensures r.LookupFailed? ==>
      && r.index < |recordings|
      && LookupThrowsFor(files, recordings[r.index])
      && forall j :: 0 <= j < r.index ==> Usable(files, recordings[j])
    ensures r.Upload? ==>
      && UploadedUris(r.form) == recordings
      && QuestionFields(r.form) == [questions]
  {
    match FirstUnusable(recordings, files)
    case Some(k) =>
      if LookupThrowsFor(files, recordings[k]) then LookupFailed(k)
      else Aborted(k + 1, SizeOf(files, recordings[k]))
    case None => Upload(FormOf(questions, recordings))
  }

  /** `submitAll`, up to the network call: the check loop with its early
      return, then the payload built part by part. */
  method SubmitAll(questions: seq<string>, recordings: seq<Uri>, files: FileTable) returns (r: Submission)
    ensures r == SubmissionOf(questions, recordings, files)
  {
    for i := 0 to |recordings|
      invariant forall j :: 0 <= j < i ==> Usable(files, recordings[j])
    {
      var uri := recordings[i];
      if LookupThrowsFor(files, uri) {
        return LookupFailed(i);
      }
      if !Exists(files, uri) || SizeOf(files, uri) == 0 {
        return Aborted(i + 1, SizeOf(files, uri));
      }
    }
    var form := [QuestionsPart(questions)];
    for i := 0 to |recordings|
      invariant |form| == i + 1 && form[0] == QuestionsPart(questions)
      invariant forall j :: 0 <= j < i ==> form[j + 1] == AnswerPart(recordings[j], j)
    {
      form := form + [AnswerPart(recordings[i], i)];
    }
    AnswerPartsLayout(recordings, 0);
    assert form == FormOf(questions, recordings);
    r := Upload(form);
  }

  // ---------------------------------------------------------------------------
  // The session

  class InterviewSession {
    /** The parsed question list of the route. */
    const questions: seq<string>
    var currentIndex: int
    /** The URIs of the recordings made so far, in the order they were made. */
    var recordings: seq<Uri>
    var isRecording: bool
    var recordingInstance: Option<Recorder>
    var showQuestions: bool
    var subtitlesVisible: bool

    /** The index stays on a question (or at 0 when there are none), and the
        recording flag agrees with the presence of a recorder. */
    ghost predicate Valid()
      reads this
    {
      && 0 <= currentIndex
      && (currentIndex < |questions| || currentIndex == 0)
      && (isRecording <==> recordingInstance.Some?)
    }

    constructor (questions: seq<string>)
      ensures Valid()
      ensures this.questions == questions
      ensures currentIndex == 0 && recordings == []
      ensures !isRecording && recordingInstance == None
      ensures !showQuestions && subtitlesVisible
    {
      this.questions := questions;
      currentIndex := 0;
      recordings := [];
      isRecording := false;
      recordingInstance := None;
      showQuestions := false;
      subtitlesVisible := true;
    }

    /** `startRecording`: a denied permission or a failing device call changes
        nothing; a started recorder becomes the instance and the flag is set.
        An existing instance is overwritten: there is no guard against a
        second start. */
    method StartRecording(outcome: StartOutcome)
      requires Valid()
      modifies this
      ensures Valid()
      ensures outcome.Started? ==>
        && recordingInstance == Some(outcome.recorder) && isRecording
        && currentIndex == old(currentIndex) && recordings == old(recordings)
        && showQuestions == old(showQuestions) && subtitlesVisible == old(subtitlesVisible)
      ensures !outcome.Started? ==> unchanged(this)
    {
      match outcome
      case PermissionDenied =>
      case StartFailed =>
      case Started(rec) =>
        recordingInstance := Some(rec);
        isRecording := true;
    }

    /** `stopRecording`. Without a recorder, or when a device call throws,
        nothing changes. Otherwise a truthy URI is appended to the recordings,
        the recorder is released, and the session either moves to the next
        question or, on the last one, runs `submitAll` over the recordings
        list this handler captured, which does not hold the URI just added. */
    method StopRecording(outcome: StopOutcome, files: FileTable) returns (submitted: Option<Submission>)
      requires Valid()
      modifies this
      ensures Valid()
      ensures old(recordingInstance).None? || outcome.StopFailed? ==> unchanged(this) && submitted == None
      ensures old(recordingInstance).Some? && outcome.Stopped? ==>
        && recordings == old(recordings) + (if Truthy(outcome.uri) then [outcome.uri.value] else [])
        && recordingInstance == None && !isRecording
        && showQuestions == old(showQuestions) && subtitlesVisible == old(subtitlesVisible)
        && if old(currentIndex) < |questions| - 1
           then currentIndex == old(currentIndex) + 1 && submitted == None
           else currentIndex == old(currentIndex)
                && submitted == Some(SubmissionOf(questions, old(recordings), files))
    {
      submitted := None;
      if recordingInstance.None? {
        return;
      }
      match outcome
      case StopFailed =>
      case Stopped(uri) =>
        var captured := recordings;
        if Truthy(uri) {
          recordings := recordings + [uri.value];
        }
        recordingInstance := None;
        isRecording := false;
        if currentIndex < |questions| - 1 {
          currentIndex := currentIndex + 1;
        } else {
          var s := SubmitAll(questions, captured, files);
          submitted := Some(s);
        }
    }

    /** The stop the handler evidently intends: identical to `StopRecording`
        except that the submission sees the list with the URI just added. */
    method StopRecordingLatest(outcome: StopOutcome, files: FileTable) returns (submitted: Option<Submission>)
      requires Valid()
      modifies this
      ensures Valid()
      ensures old(recordingInstance).None? || outcome.StopFailed? ==> unchanged(this) && submitted == None
      ensures old(recordingInstance).Some? && outcome.Stopped? ==>
        && recordings == old(recordings) + (if Truthy(outcome.uri) then [outcome.uri.value] else [])
        && recordingInstance == None && !isRecording
        && showQuestions == old(showQuestions) && subtitlesVisible == old(subtitlesVisible)
        && if old(currentIndex) < |questions| - 1
           then currentIndex == old(currentIndex) + 1 && submitted == None
           else currentIndex == old(currentIndex)
                && submitted == Some(SubmissionOf(questions, recordings, files))
    {
      submitted := None;
      if recordingInstance.None? {
        return;
      }
      match outcome
      case StopFailed =>
      case Stopped(uri) =>
        if Truthy(uri) {
          recordings := recordings + [uri.value];
        }
        recordingInstance := None;
        isRecording := false;
        if currentIndex < |questions| - 1 {
          currentIndex := currentIndex + 1;
        } else {
          var s := SubmitAll(questions, recordings, files);
          submitted := Some(s);
        }
    }

    /** `goToQuestion`: a tap on another question of the list makes it current
        and hides the list; a tap on the current one does nothing. Recordings
        are untouched, so a later recording is still appended at the end. */
    method GoToQuestion(index: int)
      requires Valid()
      requires 0 <= index < |questions|
      modifies this
      ensures Valid()
      ensures index != old(currentIndex) ==>
        && currentIndex == index && !showQuestions
        && recordings == old(recordings) && isRecording == old(isRecording)
        && recordingInstance == old(recordingInstance) && subtitlesVisible == old(subtitlesVisible)
      ensures index == old(currentIndex) ==> unchanged(this)
    {
      if index != currentIndex {
        currentIndex := index;
        showQuestions := false;
      }
    }

    /** `toggleQuestions`: flips the question list panel and nothing else. */
    method ToggleQuestions()
      requires Valid()
      modifies this`showQuestions
      ensures Valid()
      ensures showQuestions == !old(showQuestions)
    {
      showQuestions := !showQuestions;
    }

    /** `toggleSubtitles`: flips the subtitle display and nothing else. */
    method ToggleSubtitles()
      requires Valid()
      modifies this`subtitlesVisible
      ensures Valid()
      ensures subtitlesVisible == !old(subtitlesVisible)
    {
      subtitlesVisible := !subtitlesVisible;
    }
  }

  // ---------------------------------------------------------------------------
  // Three questions answered in order

  /** Three questions, each answered with a non-empty file: the upload that the
      final stop triggers carries only the first two answers. */
  method StaleRecordingsScenario() returns (submitted: Option<Submission>)
    ensures submitted == Some(Upload(FormOf(["Q1", "Q2", "Q3"], ["file:///a0.m4a", "file:///a1.m4a"])))
  {
    var files: FileTable := map["file:///a0.m4a" := Present(4096), "file:///a1.m4a" := Present(4096), "file:///a2.m4a" := Present(4096)];
    var session := new InterviewSession(["Q1", "Q2", "Q3"]);
    session.StartRecording(Started(Recorder(0)));
    submitted := session.StopRecording(Stopped(Some("file:///a0.m4a")), files);
    session.StartRecording(Started(Recorder(1)));
    submitted := session.StopRecording(Stopped(Some("file:///a1.m4a")), files);
    session.StartRecording(Started(Recorder(2)));
    submitted := session.StopRecording(Stopped(Some("file:///a2.m4a")), files);
    assert session.recordings == ["file:///a0.m4a", "file:///a1.m4a", "file:///a2.m4a"];
  }

  /** The same three answers through the corrected stop: all three are uploaded. */
  method LatestRecordingsScenario() returns (submitted: Option<Submission>)
    ensures submitted == Some(Upload(FormOf(["Q1", "Q2", "Q3"], ["file:///a0.m4a", "file:///a1.m4a", "file:///a2.m4a"])))
  {
    var files: FileTable := map["file:///a0.m4a" := Present(4096), "file:///a1.m4a" := Present(4096), "file:///a2.m4a" := Present(4096)];
    var session := new InterviewSession(["Q1", "Q2", "Q3"]);
    session.StartRecording(Started(Recorder(0)));
    submitted := session.StopRecordingLatest(Stopped(Some("file:///a0.m4a")), files);
    session.StartRecording(Started(Recorder(1)));
    submitted := session.StopRecordingLatest(Stopped(Some("file:///a1.m4a")), files);
    session.StartRecording(Started(Recorder(2)));
    submitted := session.StopRecordingLatest(Stopped(Some("file:///a2.m4a")), files);
    assert session.recordings == ["file:///a0.m4a", "file:///a1.m4a", "file:///a2.m4a"];
  }
}
