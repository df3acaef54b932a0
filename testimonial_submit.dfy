/** The public recording wizard of `src/pages/TestimonialSubmit/TestimonialSubmit.jsx`.
    A customer gives a name, then records one video per question: a
    countdown, a recording, a preview, and accept or retake. Accepting the
    last answer completes the wizard and submits every recording in one
    multipart payload. The camera, the media recorder and the timers are
    events delivered to the page. */
module TestimonialSubmit {
  import opened Js
  import opened HtmlForms

  const BlackColor := "#000000"
  const NameRequiredMessage := "Please enter your name before proceeding"
  const NothingToSubmitMessage := "No recordings to submit."
  const SubmitFailedMessage := "Failed to submit testimonial videos. Please try again."
  /** The countdown shown before each recording starts. */
  const CountdownStart := 3

  /** A piece of recorded media the recorder hands out; only its size
      matters to the page. */
  datatype Fragment = Fragment(tag: nat, size: nat)

  /** A video assembled from the recorded fragments. */
  datatype Blob = Blob(parts: seq<Fragment>)

  /** A question of the testimonial request. */
  datatype Question = Question(id: string, text: string)

  /** An accepted answer. The blob is optional because the submission skips
      entries without one. */
  datatype Recording = Recording(questionId: string, blob: Option<Blob>, bgColor: string)

  datatype Step = InfoStep | RecordingStep | CompleteStep

  // ---------------------------------------------------------------------
  // The countdown
  // ---------------------------------------------------------------------

  /** The value one firing of the countdown interval leaves: 1 goes to
      nothing (and starts the recording), any other truthy number goes down by
      one, nothing (or 0) stays nothing. */
  function CountdownNext(prev: Option<int>): (next: Option<int>)
    ensures prev == Some(1) ==> next == None
    ensures prev.Some? && prev.value != 0 && prev.value != 1 ==> next == Some(prev.value - 1)
    ensures prev.None? || prev == Some(0) ==> next == None
  {
    match prev
    case None => None
    case Some(v) => if v == 1 then None else if v != 0 then Some(v - 1) else None
  }

  /** The countdown after `k` firings. */
  function CountdownAfter(c: Option<int>, k: nat): (r: Option<int>)
    ensures c.None? ==> r.None?
    ensures r.Some? ==> c.Some? && r.value == c.value - k
    decreases k
  {
    if k == 0 then c else CountdownAfter(CountdownNext(c), k - 1)
  }

  /** From `n >= 1`, the countdown shows `n, n-1, …, 1`: the firing that
      starts the recording is the `n`-th, and no earlier one sees 1. */
  lemma {:induction false} CountdownShowsEveryNumber(n: int, k: nat)
    requires 1 <= n && k < n
    ensures CountdownAfter(Some(n), k) == Some(n - k)
    decreases k
  {
    if k > 0 {
      assert CountdownNext(Some(n)) == Some(n - 1);
      CountdownShowsEveryNumber(n - 1, k - 1);
    }
  }

  /** A countdown from `n >= 1` is over after exactly `n` firings. */
  lemma CountdownEnds(n: int)
    requires 1 <= n
    ensures CountdownAfter(Some(n), (n - 1) as nat) == Some(1)
    ensures CountdownAfter(Some(n), n as nat) == None
  {
    CountdownShowsEveryNumber(n, (n - 1) as nat);
    CountdownAfterSplit(Some(n), (n - 1) as nat);
  }

  /** One more firing after `k`. */
  lemma {:induction false} CountdownAfterSplit(c: Option<int>, k: nat)
    ensures CountdownAfter(c, k + 1) == CountdownNext(CountdownAfter(c, k))
    decreases k
  {
    if k > 0 {
      CountdownAfterSplit(CountdownNext(c), k - 1);
    }
  }

  // ---------------------------------------------------------------------
  // The submission payload
  // ---------------------------------------------------------------------

  /** One `FormData` entry: a file with its file name, or a text value. */
  datatype FormEntry =
    | FileField(name: string, blob: Blob, filename: string)
    | TextField(name: string, value: string)

  function VideoFileName(i: nat): string {
    "video" + NatToDecimal(i) + ".webm"
  }

  function QuestionIdField(i: nat): string {
    "questionIds[" + NatToDecimal(i) + "]"
  }

  function BgColorField(i: nat): string {
    "bgColors[" + NatToDecimal(i) + "]"
  }

  /** The entries one recording contributes at position `i`: none without a
      blob, otherwise its file, its question id and its colour (black when the
      colour is empty). */
  function EntriesFor(rec: Recording, i: nat): (r: seq<FormEntry>)
    ensures r == [] <==> rec.blob.None?
    ensures rec.blob.Some? ==> |r| == 3 && r[0].FileField? && r[1].TextField? && r[2].TextField?
    ensures rec.blob.Some? ==> r[0].blob == rec.blob.value && r[1].value == rec.questionId
  {
    if rec.blob.None? then []
    else [FileField("videos", rec.blob.value, VideoFileName(i)),
          TextField(QuestionIdField(i), rec.questionId),
          TextField(BgColorField(i), OrDefault(Some(rec.bgColor), BlackColor))]
  }

  /** The entries of the first `n` recordings, in order. */
  function VideoEntries(videos: seq<Recording>, n: nat): (r: seq<FormEntry>)
    requires n <= |videos|
    ensures |r| % 3 == 0 && |r| <= 3 * n
    decreases n
  {
    if n == 0 then []
    else
      var prefix := VideoEntries(videos, n - 1);
      var last := EntriesFor(videos[n - 1], n - 1);
      WholeGroups(|prefix|, |last|);
      prefix + last
  }

  /** Appending an empty or a three-entry group keeps whole groups of three. */
  lemma WholeGroups(a: nat, b: nat)
    requires a % 3 == 0 && (b == 0 || b == 3)
    ensures (a + b) % 3 == 0
  {
  }

  /** The four single values that close the payload. */
  function CustomerFields(name: string, title: string, testimonialId: string, token: string): (r: seq<FormEntry>)
    ensures |r| == 4 && forall i :: 0 <= i < 4 ==> r[i].TextField?
    ensures r[0].value == name && r[1].value == title && r[2].value == testimonialId && r[3].value == token
  {
    [TextField("name", name), TextField("title", title),
     TextField("testimonialId", testimonialId), TextField("token", token)]
  }

  /** The number of recordings that carry a blob. */
  function BlobCount(videos: seq<Recording>): nat {
    if videos == [] then 0 else BlobCount(videos[..|videos| - 1]) + (if videos[|videos| - 1].blob.Some? then 1 else 0)
  }

  /** Every recording carries a blob. */
  predicate AllHaveBlobs(videos: seq<Recording>) {
    forall i :: 0 <= i < |videos| ==> videos[i].blob.Some?
  }

  /** The `forEach` over the recordings followed by the single values. */
  method BuildFormData(videos: seq<Recording>, name: string, title: string, testimonialId: string, token: string)
    returns (form: seq<FormEntry>)
    ensures form == VideoEntries(videos, |videos|) + CustomerFields(name, title, testimonialId, token)
  {
    form := [];
    var index := 0;
    while index < |videos|
      invariant index <= |videos|
      invariant form == VideoEntries(videos, index)
    {
      var recording := videos[index];
      if recording.blob.Some? {
        form := form + [FileField("videos", recording.blob.value, VideoFileName(index))];
        form := form + [TextField(QuestionIdField(index), recording.questionId)];
        form := form + [TextField(BgColorField(index), OrDefault(Some(recording.bgColor), BlackColor))];
      }
      index := index + 1;
    }
    form := form + [TextField("name", name), TextField("title", title)];
    form := form + [TextField("testimonialId", testimonialId), TextField("token", token)];
  }

  /** Each recording with a blob contributes three entries and every other
      recording none. */
  lemma {:induction false} VideoEntriesLength(videos: seq<Recording>, n: nat)
    requires n <= |videos|
    ensures |VideoEntries(videos, n)| == 3 * BlobCount(videos[..n])
    decreases n
  {
    if n > 0 {
      VideoEntriesLength(videos, n - 1);
      assert videos[..n][..n - 1] == videos[..n - 1];
    }
  }

  /** When every recording carries a blob the payload is index-aligned:
      entries `3i`, `3i+1` and `3i+2` are the file `video{i}.webm`, the field
      `questionIds[i]` and the field `bgColors[i]` of recording `i`. */
  lemma {:induction false} AlignedVideoEntries(videos: seq<Recording>, n: nat)
    requires n <= |videos| && AllHaveBlobs(videos)
    ensures |VideoEntries(videos, n)| == 3 * n
    ensures forall i :: 0 <= i < n ==>
      VideoEntries(videos, n)[3 * i] == FileField("videos", videos[i].blob.value, VideoFileName(i)) &&
      VideoEntries(videos, n)[3 * i + 1] == TextField(QuestionIdField(i), videos[i].questionId) &&
      VideoEntries(videos, n)[3 * i + 2] == TextField(BgColorField(i), OrDefault(Some(videos[i].bgColor), BlackColor))
    decreases n
  {
    if n > 0 {
      AlignedVideoEntries(videos, n - 1);
      var prefix := VideoEntries(videos, n - 1);
      var all := VideoEntries(videos, n);
      assert all == prefix + EntriesFor(videos[n - 1], n - 1);
      forall i | 0 <= i < n
        ensures all[3 * i] == FileField("videos", videos[i].blob.value, VideoFileName(i))
        ensures all[3 * i + 1] == TextField(QuestionIdField(i), videos[i].questionId)
        ensures all[3 * i + 2] == TextField(BgColorField(i), OrDefault(Some(videos[i].bgColor), BlackColor))
      {
        if i < n - 1 {
          assert all[3 * i] == prefix[3 * i];
          assert all[3 * i + 1] == prefix[3 * i + 1];
          assert all[3 * i + 2] == prefix[3 * i + 2];
        }
      }
    }
  }

  /** The submitted payload ends with the name, the title, the testimonial id
      and the link token, after the video entries. */
  lemma PayloadEndsWithCustomerFields(videos: seq<Recording>, form: seq<FormEntry>, name: string, title: string, testimonialId: string, token: string)
    requires form == VideoEntries(videos, |videos|) + CustomerFields(name, title, testimonialId, token)
    ensures |form| == 3 * BlobCount(videos) + 4
    ensures form[|form| - 4] == TextField("name", name) && form[|form| - 3] == TextField("title", title)
    ensures form[|form| - 2] == TextField("testimonialId", testimonialId) && form[|form| - 1] == TextField("token", token)
  {
    VideoEntriesLength(videos, |videos|);
    assert videos[..|videos|] == videos;
  }

  // ---------------------------------------------------------------------
  // The wizard
  // ---------------------------------------------------------------------

  /** The answer to `POST api/public/testimonial/save`. */
  datatype SaveOutcome = Saved(videoUrls: seq<string>) | SaveFailed(message: Option<string>)

  /** Where the customer is in the wizard: the step, the question, the
      accepted recordings, and the list the zero-delay timeout will submit. */
  datatype Progress = Progress(
    step: Step,
    currentQuestionIndex: nat,
    recordings: seq<Recording>,
    pendingSubmission: Option<seq<Recording>>)

  /** The submission's flags and the URLs the backend returned. */
  datatype Submission = Submission(isProcessing: bool, finalVideos: seq<string>, success: bool)

  /** The recording states of the current question. */
  datatype Capture = Capture(
    isRecording: bool,
    countdown: Option<int>,
    recordedChunks: seq<Fragment>,
    showPreview: bool,
    videoURL: string)

  /** The current media recorder and the fragments its handlers collect:
      `live` is its state `recording`, `stopPending` says that it was stopped
      and its `onstop` has not run yet, `ceilingArmed` that its five-minute
      timeout has not fired yet. */
  datatype Recorder = Recorder(live: bool, stopPending: bool, ceilingArmed: bool, chunks: seq<Fragment>)

  /** The accepted recordings answer the first questions, in order, each with
      a blob and the page's colour. */
  predicate AnswersInOrder(recordings: seq<Recording>, questions: seq<Question>, color: string) {
    |recordings| <= |questions| &&
    forall i :: 0 <= i < |recordings| ==>
      recordings[i].questionId == questions[i].id && recordings[i].blob.Some? && recordings[i].bgColor == color
  }

  /** The wizard answers one question per accepted recording: on the
      recording step the index counts the accepted answers, and the complete
      step is reached with every question answered. */
  predicate ProgressValid(p: Progress, questions: seq<Question>, color: string) {
    (p.step == InfoStep ==> p.currentQuestionIndex == 0 && p.recordings == []) &&
    (p.step == RecordingStep ==>
      |p.recordings| == p.currentQuestionIndex && (|questions| > 0 ==> p.currentQuestionIndex < |questions|)) &&
    (p.step == CompleteStep ==>
      |questions| > 0 && |p.recordings| == |questions| && p.currentQuestionIndex == |questions| - 1) &&
    AnswersInOrder(p.recordings, questions, color) &&
    (p.pendingSubmission.Some? ==> p.step == CompleteStep && p.pendingSubmission.value == p.recordings)
  }

  /** A live recorder is shown as recording; a running countdown has neither
      a recording nor a preview nor a stop in flight. */
  predicate CaptureAgrees(c: Capture, r: Recorder) {
    (r.live ==> c.isRecording && !r.stopPending) &&
    (c.countdown.Some? ==> !c.isRecording && !c.showPreview && !r.stopPending)
  }

  class RecordingSession {
    /** The questions and the testimonial id loaded for the link token. */
    const questions: seq<Question>
    const testimonialId: string
    const token: string
    /** The colour control is commented out, so the colour never changes. */
    const bgColor: string

    var progress: Progress
    var submission: Submission
    var customerName: string
    var customerTitle: string
    var error: Option<string>
    var capture: Capture
    var recorder: Recorder
    /** The countdown intervals still running. */
    var intervals: nat

    predicate Valid()
      reads this
    {
      ProgressValid(progress, questions, bgColor) && CaptureAgrees(capture, recorder) &&
      (submission.isProcessing ==> progress.step == CompleteStep)
    }

    /** The page once the testimonial and its questions are loaded: the
        information step, the first question, no recordings, black. */
    constructor (questions: seq<Question>, testimonialId: string, token: string)
      ensures this.questions == questions && this.testimonialId == testimonialId && this.token == token
      ensures bgColor == BlackColor
      ensures progress == Progress(InfoStep, 0, [], None)
      ensures submission == Submission(false, [], false)
      ensures customerName == "" && customerTitle == "" && error == None
      ensures capture == Capture(false, None, [], false, "")
      ensures recorder == Recorder(false, false, false, []) && intervals == 0
      ensures Valid()
    {
      this.questions := questions;
      this.testimonialId := testimonialId;
      this.token := token;
      bgColor := BlackColor;
      progress := Progress(InfoStep, 0, [], None);
      submission := Submission(false, [], false);
      customerName := "";
      customerTitle := "";
      error := None;
      capture := Capture(false, None, [], false, "");
      recorder := Recorder(false, false, false, []);
      intervals := 0;
    }

    /** Typing into the name field. */
    method SetCustomerName(name: string)
      requires Valid()
      modifies this
      ensures Valid()
      ensures customerName == name
      ensures progress == old(progress) && submission == old(submission) && customerTitle == old(customerTitle)
      ensures error == old(error) && capture == old(capture) && recorder == old(recorder) && intervals == old(intervals)
    {
      customerName := name;
    }

    /** Typing into the title field. */
    method SetCustomerTitle(title: string)
      requires Valid()
      modifies this
      ensures Valid()
      ensures customerTitle == title
      ensures progress == old(progress) && submission == old(submission) && customerName == old(customerName)
      ensures error == old(error) && capture == old(capture) && recorder == old(recorder) && intervals == old(intervals)
    {
      customerTitle := title;
    }

    /** The information form's `submit` event, from its button or from Enter.
        The name input is `required`, so an empty name is stopped by the
        browser and changes nothing; any other name reaches
        `startRecordingProcess`, whose own check then catches a name of white
        space only. */
    method SubmitInfoForm()
      requires Valid() && progress.step == InfoStep
      modifies this
      ensures Valid()
      ensures ValueMissing(old(customerName)) ==> unchanged(this)
      ensures !ValueMissing(old(customerName)) && Trim(old(customerName)) == "" ==>
        progress == old(progress) && error == Some(NameRequiredMessage)
      ensures Trim(old(customerName)) != "" ==> progress == old(progress).(step := RecordingStep) && error == None
      ensures submission == old(submission) && customerName == old(customerName) && customerTitle == old(customerTitle)
      ensures capture == old(capture) && recorder == old(recorder) && intervals == old(intervals)
    {
      if ValueMissing(customerName) {
        return;
      }
      StartRecordingProcess();
    }

    /** `startRecordingProcess`, the submit of the information form: a blank
        name keeps the wizard on the information step with an error; any other
        name moves it to the recording step and clears the error. */
    method StartRecordingProcess()
      requires Valid() && progress.step == InfoStep
      modifies this
      ensures Valid()
      ensures Trim(old(customerName)) == "" ==> progress == old(progress) && error == Some(NameRequiredMessage)
      ensures Trim(old(customerName)) != "" ==> progress == old(progress).(step := RecordingStep) && error == None
      ensures submission == old(submission) && customerName == old(customerName) && customerTitle == old(customerTitle)
      ensures capture == old(capture) && recorder == old(recorder) && intervals == old(intervals)
    {
      if Trim(customerName) == "" {
        error := Some(NameRequiredMessage);
      } else {
        progress := progress.(step := RecordingStep);
        error := None;
      }
    }

    /** `startCountdown`, the `Start Recording` button, shown on the recording
        step while nothing is recorded or previewed. The countdown shows 3 and
        one more interval starts. */
    method StartCountdown()
      requires Valid() && progress.step == RecordingStep && |questions| > 0
      requires !capture.isRecording && !capture.showPreview && !recorder.stopPending
      modifies this
      ensures Valid()
      ensures capture == old(capture).(countdown := Some(CountdownStart)) && intervals == old(intervals) + 1
      ensures progress == old(progress) && submission == old(submission) && recorder == old(recorder)
      ensures customerName == old(customerName) && customerTitle == old(customerTitle) && error == old(error)
    {
      capture := capture.(countdown := Some(CountdownStart));
      intervals := intervals + 1;
    }

    /** One firing of a running countdown interval. The firing that sees 1
        clears its interval and starts recording (`handleStartRecording`):
        the previous chunks are dropped and `isRecording` is set; without a
        camera stream nothing else happens, with one a new recorder starts
        with no fragments and its five-minute ceiling armed. */
    method Tick(streamAvailable: bool)
      requires Valid() && intervals > 0
      modifies this
      ensures Valid()
      ensures old(capture.countdown) != Some(1) ==>
        capture == old(capture).(countdown := CountdownNext(old(capture.countdown))) &&
        recorder == old(recorder) && intervals == old(intervals)
      ensures old(capture.countdown) == Some(1) ==>
        capture == old(capture).(countdown := None, recordedChunks := [], isRecording := true) &&
        intervals == old(intervals) - 1
      ensures old(capture.countdown) == Some(1) && !streamAvailable ==> recorder == old(recorder)
      ensures old(capture.countdown) == Some(1) && streamAvailable ==> recorder == Recorder(true, false, true, [])
      ensures progress == old(progress) && submission == old(submission)
      ensures customerName == old(customerName) && customerTitle == old(customerTitle) && error == old(error)
    {
      if capture.countdown == Some(1) {
        intervals := intervals - 1;
        capture := capture.(countdown := None, recordedChunks := [], isRecording := true);
        if streamAvailable {
          recorder := Recorder(true, false, true, []);
        }
      } else {
        capture := capture.(countdown := CountdownNext(capture.countdown));
      }
    }

    /** `ondataavailable` of the current recorder, while it records or just
        before its `onstop`: only a fragment of positive size is kept. */
    method OnData(fragment: Fragment)
      requires Valid() && (recorder.live || recorder.stopPending)
      modifies this
      ensures Valid()
      ensures fragment.size > 0 ==> recorder == old(recorder).(chunks := old(recorder.chunks) + [fragment])
      ensures fragment.size == 0 ==> recorder == old(recorder)
      ensures progress == old(progress) && submission == old(submission) && capture == old(capture)
      ensures customerName == old(customerName) && customerTitle == old(customerTitle) && error == old(error)
      ensures intervals == old(intervals)
    {
      if fragment.size > 0 {
        recorder := recorder.(chunks := recorder.chunks + [fragment]);
      }
    }

    /** `onstop` of the current recorder: the collected fragments become the
        recorded chunks and the preview of `url` is shown. */
    method OnStop(url: string)
      requires Valid() && recorder.stopPending
      modifies this
      ensures Valid()
      ensures recorder == old(recorder).(stopPending := false)
      ensures capture == old(capture).(recordedChunks := old(recorder.chunks), videoURL := url, showPreview := true)
      ensures progress == old(progress) && submission == old(submission)
      ensures customerName == old(customerName) && customerTitle == old(customerTitle) && error == old(error)
      ensures intervals == old(intervals)
    {
      recorder := recorder.(stopPending := false);
      capture := capture.(recordedChunks := recorder.chunks, videoURL := url, showPreview := true);
    }

    /** `handleStopRecording`, the `Stop Recording` button shown while
        `isRecording`: it acts only when the recorder is recording. */
    method HandleStopRecording()
      requires Valid() && progress.step == RecordingStep && |questions| > 0 && capture.isRecording
      modifies this
      ensures Valid()
      ensures old(recorder.live) ==>
        recorder == old(recorder).(live := false, stopPending := true) &&
        capture == old(capture).(isRecording := false)
      ensures !old(recorder.live) ==> recorder == old(recorder) && capture == old(capture)
      ensures progress == old(progress) && submission == old(submission)
      ensures customerName == old(customerName) && customerTitle == old(customerTitle) && error == old(error)
      ensures intervals == old(intervals)
    {
      if recorder.live {
        recorder := recorder.(live := false, stopPending := true);
        capture := capture.(isRecording := false);
      }
    }

    /** The five-minute timeout of the current recorder: the same stop, again
        only when the recorder is still recording. */
    method CeilingTimeout()
      requires Valid() && recorder.ceilingArmed
      modifies this
      ensures Valid()
      ensures old(recorder.live) ==>
        recorder == old(recorder).(ceilingArmed := false, live := false, stopPending := true) &&
        capture == old(capture).(isRecording := false)
      ensures !old(recorder.live) ==> recorder == old(recorder).(ceilingArmed := false) && capture == old(capture)
      ensures progress == old(progress) && submission == old(submission)
      ensures customerName == old(customerName) && customerTitle == old(customerTitle) && error == old(error)
      ensures intervals == old(intervals)
    {
      if recorder.live {
        recorder := recorder.(ceilingArmed := false, live := false, stopPending := true);
        capture := capture.(isRecording := false);
      } else {
        recorder := recorder.(ceilingArmed := false);
      }
    }

    /** `handleAccept`, shown with the preview. Without chunks nothing
        changes. Otherwise exactly one recording for the current question is
        appended, the preview is cleared, and the wizard moves to the next
        question or, after the last one, completes and schedules the
        submission of the new list. */
    method HandleAccept()
      requires Valid() && progress.step == RecordingStep && |questions| > 0 && capture.showPreview
      modifies this
      ensures Valid()
      ensures old(capture.recordedChunks) == [] ==> progress == old(progress) && capture == old(capture)
      ensures old(capture.recordedChunks) != [] ==>
        progress.recordings == old(progress.recordings) +
          [Recording(questions[old(progress.currentQuestionIndex)].id, Some(Blob(old(capture.recordedChunks))), bgColor)] &&
        capture == old(capture).(showPreview := false, videoURL := "", recordedChunks := [])
      ensures old(capture.recordedChunks) != [] && old(progress.currentQuestionIndex) < |questions| - 1 ==>
        progress == old(progress).(recordings := progress.recordings,
                                   currentQuestionIndex := old(progress.currentQuestionIndex) + 1)
      ensures old(capture.recordedChunks) != [] && old(progress.currentQuestionIndex) == |questions| - 1 ==>
        progress == old(progress).(recordings := progress.recordings, step := CompleteStep,
                                   pendingSubmission := Some(progress.recordings))
      ensures submission == old(submission) && recorder == old(recorder) && intervals == old(intervals)
      ensures customerName == old(customerName) && customerTitle == old(customerTitle) && error == old(error)
    {
      if |capture.recordedChunks| > 0 {
        var index := progress.currentQuestionIndex;
        var newRecordings := progress.recordings + [Recording(questions[index].id, Some(Blob(capture.recordedChunks)), bgColor)];
        capture := capture.(showPreview := false, videoURL := "", recordedChunks := []);
        if index < |questions| - 1 {
          progress := progress.(recordings := newRecordings, currentQuestionIndex := index + 1);
        } else {
          progress := progress.(recordings := newRecordings, step := CompleteStep, pendingSubmission := Some(newRecordings));
        }
      }
    }

    /** `handleRetake`, shown with the preview: the preview, its URL and the
        chunks are dropped; the recordings and the question stay. */
    method HandleRetake()
      requires Valid() && progress.step == RecordingStep && |questions| > 0 && capture.showPreview
      modifies this
      ensures Valid()
      ensures capture == old(capture).(showPreview := false, videoURL := "", recordedChunks := [])
      ensures progress == old(progress) && submission == old(submission) && recorder == old(recorder)
      ensures customerName == old(customerName) && customerTitle == old(customerTitle) && error == old(error)
      ensures intervals == old(intervals)
    {
      capture := capture.(showPreview := false, videoURL := "", recordedChunks := []);
    }

    /** `handleSubmitAllVideos` up to the request: an empty list only records
        an error and sends nothing; any other list sets `isProcessing` and
        sends its payload. */
    method HandleSubmitAllVideos(videos: seq<Recording>) returns (sent: Option<seq<FormEntry>>)
      requires Valid() && progress.step == CompleteStep
      modifies this
      ensures Valid()
      ensures videos == [] ==> sent == None && error == Some(NothingToSubmitMessage) && submission == old(submission)
      ensures videos != [] ==>
        sent == Some(VideoEntries(videos, |videos|) + CustomerFields(customerName, customerTitle, testimonialId, token)) &&
        submission == old(submission).(isProcessing := true) && error == old(error)
      ensures progress == old(progress) && capture == old(capture) && recorder == old(recorder)
      ensures customerName == old(customerName) && customerTitle == old(customerTitle) && intervals == old(intervals)
    {
      if |videos| == 0 {
        error := Some(NothingToSubmitMessage);
        sent := None;
        return;
      }
      submission := submission.(isProcessing := true);
      var form := BuildFormData(videos, customerName, customerTitle, testimonialId, token);
      sent := Some(form);
    }

    /** The zero-delay timeout scheduled by the last accept: it submits the
        list that accept built. */
    method SubmitTimerFires() returns (sent: Option<seq<FormEntry>>)
      requires Valid() && progress.pendingSubmission.Some?
      modifies this
      ensures Valid()
      ensures submission.isProcessing && sent.Some?
      ensures sent.value == VideoEntries(old(progress.recordings), |old(progress.recordings)|) +
                            CustomerFields(customerName, customerTitle, testimonialId, token)
      ensures progress == old(progress).(pendingSubmission := None)
      ensures submission == old(submission).(isProcessing := true)
      ensures capture == old(capture) && recorder == old(recorder) && intervals == old(intervals)
      ensures customerName == old(customerName) && customerTitle == old(customerTitle) && error == old(error)
    {
      var videos := progress.pendingSubmission.value;
      progress := progress.(pendingSubmission := None);
      sent := HandleSubmitAllVideos(videos);
    }

    /** The save request's answer: the returned URLs and the success flag, or
        the backend's message (or the generic one); processing ends either way. */
    method SubmissionResponse(outcome: SaveOutcome)
      requires Valid() && submission.isProcessing
      modifies this
      ensures Valid()
      ensures !submission.isProcessing
      ensures outcome.Saved? ==> submission == Submission(false, outcome.videoUrls, true) && error == old(error)
      ensures outcome.SaveFailed? ==>
        submission == old(submission).(isProcessing := false) &&
        error == Some(OrDefault(outcome.message, SubmitFailedMessage))
      ensures progress == old(progress) && capture == old(capture) && recorder == old(recorder)
      ensures customerName == old(customerName) && customerTitle == old(customerTitle) && intervals == old(intervals)
    {
      match outcome {
        case Saved(urls) =>
          submission := submission.(finalVideos := urls, success := true);
        case SaveFailed(message) =>
          error := Some(OrDefault(message, SubmitFailedMessage));
      }
      submission := submission.(isProcessing := false);
    }
  }

  /** On the complete step the submitted payload answers every question in
      order: entry `3i+1` is `questionIds[i]` with the id of question `i`. */
  lemma CompletePayloadCoversQuestions(p: Progress, questions: seq<Question>, color: string, form: seq<FormEntry>,
                                       name: string, title: string, testimonialId: string, token: string)
    requires ProgressValid(p, questions, color) && p.step == CompleteStep
    requires form == VideoEntries(p.recordings, |p.recordings|) + CustomerFields(name, title, testimonialId, token)
    ensures |form| == 3 * |questions| + 4
    ensures forall i :: 0 <= i < |questions| ==>
      form[3 * i] == FileField("videos", p.recordings[i].blob.value, VideoFileName(i)) &&
      form[3 * i + 1] == TextField(QuestionIdField(i), questions[i].id) &&
      form[3 * i + 2] == TextField(BgColorField(i), OrDefault(Some(color), BlackColor))
  {
    AlignedVideoEntries(p.recordings, |p.recordings|);
    var videoPart := VideoEntries(p.recordings, |p.recordings|);
    forall i | 0 <= i < |questions|
      ensures form[3 * i] == videoPart[3 * i] && form[3 * i + 1] == videoPart[3 * i + 1] && form[3 * i + 2] == videoPart[3 * i + 2]
    {
    }
  }
}
