/** The coach's service layer (services/geminiCoachService.ts). The remote file
    store and the model are not modelled: `uploadVideoFile` receives the reply
    of the upload call and the replies of the successive status queries, and
    `analyzeFightVideo` receives the model's reply. */
module CoachService {
  import opened Types
  import opened Text

  // ---------------------------------------------------------------------------
  // Messages
  // ---------------------------------------------------------------------------

  // The longer messages are written as concatenations of short literals, and
  // each has its own lemma saying it lacks the marker's first letter 'x': the
  // verifier checks a short literal for a character far more cheaply than a
  // long one.

  const InvalidUploadMessage: string :=
    "File upload failed: " + "The API did not return " + "a valid file object."
  const ProcessingFailedMessage: string := "Video processing failed " + "after upload."
  const MissingDataMessage: string := MissingDataSummary + MissingDataDetail
  const MissingDataSummary: string := "Video processing " + "succeeded, but necessary "
  const MissingDataDetail: string := "file data (URI or MIME " + "type) was not returned."
  const UploadUrlMessage: string := UploadUrlFailure + UploadUrlHint
  const UploadUrlFailure: string := "Failed to get upload URL. " + "Server did not return " + "the required headers. "
  const UploadUrlHint: string := "This might be a temporary " + "network or API issue."
  const UploadRetryMessage: string := "Failed to upload video. " + "Please try again."
  const AnalysisFailedMessage: string :=
    "Failed to get analysis from AI. The model may have been unable to process the video."

  /** The marker of a failed resumable-upload handshake. */
  const UploadUrlHeader: string := "x-google-upload-url"

  /** The state names the status query reports. */
  const Processing: string := "PROCESSING"
  const Failed: string := "FAILED"

  // ---------------------------------------------------------------------------
  // Error rewriting
  // ---------------------------------------------------------------------------

  /** The `catch` of `uploadVideoFile`: a failed handshake gets a fixed
      explanation, an empty message a generic one, any other message is kept. */
  function RewriteUploadError(message: string): (r: string)
    ensures Contains(message, UploadUrlHeader) ==> r == UploadUrlMessage
    ensures !Contains(message, UploadUrlHeader) && message == "" ==> r == UploadRetryMessage
    ensures !Contains(message, UploadUrlHeader) && message != "" ==> r == message
  {
    if Contains(message, UploadUrlHeader) then UploadUrlMessage
    else MessageOr(message, UploadRetryMessage)
  }

  /** The messages thrown inside the upload do not mention the handshake
      marker, so the `catch` passes them on unchanged. */
  lemma ThrownMessagesKept()
    ensures RewriteUploadError(InvalidUploadMessage) == InvalidUploadMessage
    ensures RewriteUploadError(ProcessingFailedMessage) == ProcessingFailedMessage
    ensures RewriteUploadError(MissingDataMessage) == MissingDataMessage
  {
    InvalidUploadKept();
    ProcessingFailedKept();
    MissingDataKept();
  }

  /** The two replacement messages are left alone by a second rewrite. */
  lemma ReplacementsKept()
    ensures RewriteUploadError(UploadUrlMessage) == UploadUrlMessage
    ensures RewriteUploadError(UploadRetryMessage) == UploadRetryMessage
  {
    UploadUrlKept();
    UploadRetryKept();
  }

  // One message at a time: each keeps the character-by-character search small.

  lemma InvalidUploadKept()
    ensures RewriteUploadError(InvalidUploadMessage) == InvalidUploadMessage
  {
    UnmarkedKept(InvalidUploadMessage);
  }

  lemma ProcessingFailedKept()
    ensures RewriteUploadError(ProcessingFailedMessage) == ProcessingFailedMessage
  {
    UnmarkedKept(ProcessingFailedMessage);
  }

  lemma MissingDataKept()
    ensures RewriteUploadError(MissingDataMessage) == MissingDataMessage
  {
    MissingDataUnmarked();
    UnmarkedKept(MissingDataMessage);
  }

  lemma MissingDataUnmarked()
    ensures 'x' !in MissingDataMessage
  {
    MissingDataSummaryUnmarked();
    MissingDataDetailUnmarked();
  }

  lemma MissingDataSummaryUnmarked()
    ensures 'x' !in MissingDataSummary
  {
  }

  lemma MissingDataDetailUnmarked()
    ensures 'x' !in MissingDataDetail
  {
  }

  lemma UploadUrlUnmarked()
    ensures 'x' !in UploadUrlMessage
  {
    UploadUrlFailureUnmarked();
    UploadUrlHintUnmarked();
  }

  lemma UploadUrlFailureUnmarked()
    ensures 'x' !in UploadUrlFailure
  {
  }

  lemma UploadUrlHintUnmarked()
    ensures 'x' !in UploadUrlHint
  {
  }

  lemma UploadUrlKept()
    ensures RewriteUploadError(UploadUrlMessage) == UploadUrlMessage
  {
    UploadUrlUnmarked();
    UnmarkedKept(UploadUrlMessage);
  }

  lemma UploadRetryKept()
    ensures RewriteUploadError(UploadRetryMessage) == UploadRetryMessage
  {
    UnmarkedKept(UploadRetryMessage);
  }

  /** The marker is found wherever it sits in the message, as `includes` does. */
  lemma MarkedMessageReplaced(before: string, after: string)
    ensures RewriteUploadError(before + UploadUrlHeader + after) == UploadUrlMessage
  {
    var message := before + UploadUrlHeader + after;
    assert message[|before|..|before| + |UploadUrlHeader|] == UploadUrlHeader;
    ContainsAt(message, UploadUrlHeader, |before|);
  }

  /** A non-empty message without an 'x' cannot mention the marker. */
  lemma UnmarkedKept(message: string)
    requires message != "" && 'x' !in message
    ensures RewriteUploadError(message) == message
  {
    assert UploadUrlHeader[0] == 'x';
    MissingFirstCharNotContained(message, UploadUrlHeader);
  }

  /** Every message leaving the upload is non-empty, and rewriting it again
      changes nothing. */
  lemma RewriteUploadErrorSettles(message: string)
    ensures RewriteUploadError(message) != ""
    ensures RewriteUploadError(RewriteUploadError(message)) == RewriteUploadError(message)
  {
    ReplacementsKept();
  }

  // ---------------------------------------------------------------------------
  // The gateway
  // ---------------------------------------------------------------------------

  /** What the upload call gave back: it threw, or it returned a file whose
      `name` is "" when absent. */
  datatype UploadReply = UploadThrew(message: string) | UploadReturned(name: string)

  /** One answer of the status query: the file's state, uri and MIME type ("" when
      absent), or the error it threw. */
  datatype StatusReply = Status(state: string, uri: string, mimeType: string) | StatusThrew(message: string)

  /** How the upload ended. `StillPolling`: every status observed so far reads
      PROCESSING, so the source would keep waiting. */
  datatype UploadOutcome = Uploaded(uri: string, mimeType: string) | UploadFailed(message: string) | StillPolling

  predicate StillProcessing(s: StatusReply) {
    s.Status? && s.state == Processing
  }

  /** The position of the first status that ends the polling. */
  function FirstSettled(replies: seq<StatusReply>): (r: Option<nat>)
    ensures r.None? <==> forall j :: 0 <= j < |replies| ==> StillProcessing(replies[j])
    ensures r.Some? ==> r.value < |replies| && !StillProcessing(replies[r.value])
    ensures r.Some? ==> forall j :: 0 <= j < r.value ==> StillProcessing(replies[j])
  {
    if replies == [] then None
    else if !StillProcessing(replies[0]) then Some(0)
    else match FirstSettled(replies[1..])
      case None => None
      case Some(k) => Some(k + 1)
  }

  /** The verdict on the status that ended the polling. */
  function Settle(s: StatusReply): (r: UploadOutcome)
    ensures r != StillPolling
    ensures r.Uploaded? <==> s.Status? && s.state != Failed && s.uri != "" && s.mimeType != ""
    ensures r.Uploaded? ==> r.uri == s.uri && r.mimeType == s.mimeType
    ensures s.StatusThrew? ==> r == UploadFailed(RewriteUploadError(s.message))
    ensures s.Status? && s.state == Failed ==> r == UploadFailed(ProcessingFailedMessage)
  {
    match s
      case StatusThrew(m) => UploadFailed(RewriteUploadError(m))
      case Status(state, uri, mimeType) =>
        if state == Failed then UploadFailed(ProcessingFailedMessage)
        else if uri == "" || mimeType == "" then UploadFailed(MissingDataMessage)
        else Uploaded(uri, mimeType)
  }

  /** What `uploadVideoFile` reports and how it ends, stated on the whole
      observation at once. */
  datatype UploadRun = UploadRun(progress: seq<int>, outcome: UploadOutcome)

  function UploadSpec(reply: UploadReply, replies: seq<StatusReply>): (r: UploadRun)
    ensures r.outcome.StillPolling? <==>
      reply.UploadReturned? && reply.name != "" && FirstSettled(replies).None?
    ensures reply.UploadReturned? && reply.name != "" && FirstSettled(replies).Some? ==>
      r.outcome == Settle(replies[FirstSettled(replies).value])
  {
    match reply
      case UploadThrew(m) => UploadRun([], UploadFailed(RewriteUploadError(m)))
      case UploadReturned(name) =>
        if name == "" then UploadRun([], UploadFailed(InvalidUploadMessage))
        else match FirstSettled(replies)
          case None => UploadRun([50], StillPolling)
          case Some(k) =>
            var outcome := Settle(replies[k]);
            UploadRun(if outcome.Uploaded? then [50, 100] else [50], outcome)
  }

  /** One observable step of the upload: a progress report, or the status
      query answered by `replies[index]`. */
  datatype UploadEvent = Progress(percent: int) | Query(index: nat)

  /** The first `n` status queries, in order. */
  function Queries(n: nat): (r: seq<UploadEvent>)
    ensures |r| == n
    ensures forall i :: 0 <= i < n ==> r[i] == Query(i)
  {
    if n == 0 then [] else Queries(n - 1) + [Query(n - 1)]
  }

  /** The `while` loop of `uploadVideoFile`: query the status until it no
      longer reads PROCESSING. `index` is the position of the status that ended
      the polling, if any, and `queries` the queries made, in order. */
  method PollStatus(replies: seq<StatusReply>) returns (index: Option<nat>, queries: seq<UploadEvent>)
    ensures index == FirstSettled(replies)
    ensures queries == Queries(if index.Some? then index.value + 1 else |replies|)
  {
    if |replies| == 0 {
      return None, [];
    }
    var current := replies[0];
    var n := 1;
    queries := [Query(0)];
    while StillProcessing(current)
      invariant 1 <= n <= |replies|
      invariant current == replies[n - 1]
      invariant forall j :: 0 <= j < n - 1 ==> StillProcessing(replies[j])
      invariant queries == Queries(n)
      decreases |replies| - n
    {
      if n == |replies| {
        return None, queries;
      }
      current := replies[n];
      queries := queries + [Query(n)];
      n := n + 1;
    }
    index := Some(n - 1);
  }

  /** `uploadVideoFile`. `replies[i]` answers the (i+1)-th status query;
      `progress` lists the values passed to `onProgress`, `queries` counts
      the status queries made, and `trace` interleaves the two in the order
      they happen. */
  method UploadVideoFile(reply: UploadReply, replies: seq<StatusReply>)
    returns (progress: seq<int>, outcome: UploadOutcome, queries: nat, trace: seq<UploadEvent>)
    ensures UploadRun(progress, outcome) == UploadSpec(reply, replies)
    // 50 is reported before the first status query and 100 after the last
    ensures trace == (if progress == [] then [] else [Progress(50)]) + Queries(queries) +
      (if outcome.Uploaded? then [Progress(100)] else [])
    ensures queries <= |replies|
    ensures outcome.StillPolling? ==> queries == |replies|
    ensures reply.UploadReturned? && reply.name != "" && outcome != StillPolling ==>
      FirstSettled(replies) == Some(queries - 1)
    // a thrown or unnamed upload fails before the first status query
    ensures !(reply.UploadReturned? && reply.name != "") ==> queries == 0
  {
    progress, queries, trace := [], 0, [];
    if reply.UploadThrew? {
      outcome := UploadFailed(RewriteUploadError(reply.message));
      return;
    }
    if reply.name == "" {
      ThrownMessagesKept();
      outcome := UploadFailed(RewriteUploadError(InvalidUploadMessage));
      return;
    }
    progress := progress + [50];
    var settled, polled := PollStatus(replies);
    queries := |polled|;
    trace := [Progress(50)] + polled;
    if settled.None? {
      outcome := StillPolling;
      return;
    }
    outcome := CheckSettled(replies[settled.value]);
    if outcome.Uploaded? {
      progress := progress + [100];
      trace := trace + [Progress(100)];
    }
  }

  /** The checks after the loop: a thrown query or a FAILED state fails, a
      state without uri or MIME type fails, anything else is the uploaded file.
      Each failure is thrown inside the `try` and passes through its `catch`. */
  method CheckSettled(status: StatusReply) returns (outcome: UploadOutcome)
    ensures outcome == Settle(status)
  {
    match status {
      case StatusThrew(m) =>
        outcome := UploadFailed(RewriteUploadError(m));
      case Status(state, uri, mimeType) =>
        ThrownMessagesKept();
        if state == Failed {
          outcome := UploadFailed(RewriteUploadError(ProcessingFailedMessage));
        } else if uri == "" || mimeType == "" {
          outcome := UploadFailed(RewriteUploadError(MissingDataMessage));
        } else {
          outcome := Uploaded(uri, mimeType);
        }
    }
  }

  // ---------------------------------------------------------------------------
  // What the upload promises
  // ---------------------------------------------------------------------------

  /** Progress is reported as 50 and then possibly 100, nothing else; 50 is
      reported exactly when the upload returned a named file, and 100 exactly
      when the upload succeeds. */
  lemma UploadProgressShape(reply: UploadReply, replies: seq<StatusReply>)
    ensures var run := UploadSpec(reply, replies);
      run.progress == [] || run.progress == [50] || run.progress == [50, 100]
    ensures var run := UploadSpec(reply, replies);
      (run.progress != [] <==> reply.UploadReturned? && reply.name != "") &&
      (run.progress == [50, 100] <==> run.outcome.Uploaded?)
  {
  }

  /** A reply without a file name fails with the invalid-object message; the
      method makes no status query on this path. */
  lemma UnnamedUploadFails(name: string, replies: seq<StatusReply>)
    requires name == ""
    ensures UploadSpec(UploadReturned(name), replies) == UploadRun([], UploadFailed(InvalidUploadMessage))
  {
  }

  /** A FAILED status ends the upload with the processing message and 100 is
      never reported. */
  lemma FailedStateFails(name: string, replies: seq<StatusReply>, k: nat)
    requires name != "" && k < |replies|
    requires forall j :: 0 <= j < k ==> StillProcessing(replies[j])
    requires replies[k].Status? && replies[k].state == Failed
    ensures UploadSpec(UploadReturned(name), replies) == UploadRun([50], UploadFailed(ProcessingFailedMessage))
  {
    FirstSettledAt(replies, k);
  }

  /** Any state that is neither PROCESSING nor FAILED, not only READY, succeeds
      when the uri and MIME type are both present, with exactly those values. */
  lemma SettledWithDataSucceeds(name: string, replies: seq<StatusReply>, k: nat)
    requires name != "" && k < |replies|
    requires forall j :: 0 <= j < k ==> StillProcessing(replies[j])
    requires replies[k].Status? && replies[k].state != Processing && replies[k].state != Failed
    requires replies[k].uri != "" && replies[k].mimeType != ""
    ensures UploadSpec(UploadReturned(name), replies) ==
      UploadRun([50, 100], Uploaded(replies[k].uri, replies[k].mimeType))
  {
    FirstSettledAt(replies, k);
  }

  /** A settled state other than FAILED without a uri or a MIME type fails with
      the missing-data message, and 100 is never reported. */
  lemma SettledWithoutDataFails(name: string, replies: seq<StatusReply>, k: nat)
    requires name != "" && k < |replies|
    requires forall j :: 0 <= j < k ==> StillProcessing(replies[j])
    requires replies[k].Status? && replies[k].state != Processing && replies[k].state != Failed
    requires replies[k].uri == "" || replies[k].mimeType == ""
    ensures UploadSpec(UploadReturned(name), replies) == UploadRun([50], UploadFailed(MissingDataMessage))
  {
    FirstSettledAt(replies, k);
  }

  /** The upload succeeds only with a named file and a settled status that is
      not FAILED and carries both values. */
  lemma UploadedOnlyWithData(reply: UploadReply, replies: seq<StatusReply>)
    requires UploadSpec(reply, replies).outcome.Uploaded?
    ensures reply.UploadReturned? && reply.name != "" && FirstSettled(replies).Some?
    ensures var s := replies[FirstSettled(replies).value];
      s.Status? && s.state != Failed && s.uri != "" && s.mimeType != "" &&
      UploadSpec(reply, replies).outcome == Uploaded(s.uri, s.mimeType)
  {
  }

  /** Polling stops at the first status that is not PROCESSING. */
  lemma {:induction false} FirstSettledAt(replies: seq<StatusReply>, k: nat)
    requires k < |replies| && !StillProcessing(replies[k])
    requires forall j :: 0 <= j < k ==> StillProcessing(replies[j])
    ensures FirstSettled(replies) == Some(k)
    decreases k
  {
    if k > 0 {
      FirstSettledAt(replies[1..], k - 1);
    }
  }

  /** More PROCESSING answers before the settling one change nothing but the
      wait: the outcome depends only on the first settled status. */
  lemma {:induction false} PollingOutcomeIgnoresWaits(name: string, waits: seq<StatusReply>, rest: seq<StatusReply>)
    requires name != ""
    requires forall j :: 0 <= j < |waits| ==> StillProcessing(waits[j])
    ensures UploadSpec(UploadReturned(name), waits + rest) == UploadSpec(UploadReturned(name), rest)
    decreases |waits|
  {
    if waits == [] {
      assert waits + rest == rest;
    } else {
      assert (waits + rest)[1..] == waits[1..] + rest;
      PollingOutcomeIgnoresWaits(name, waits[1..], rest);
      SkipProcessing(name, waits + rest);
    }
  }

  /** One PROCESSING answer is only a wait. */
  lemma SkipProcessing(name: string, replies: seq<StatusReply>)
    requires name != "" && |replies| > 0 && StillProcessing(replies[0])
    ensures UploadSpec(UploadReturned(name), replies) == UploadSpec(UploadReturned(name), replies[1..])
  {
    match FirstSettled(replies[1..]) {
      case None =>
      case Some(k) => assert replies[k + 1] == replies[1..][k];
    }
  }

  // ---------------------------------------------------------------------------
  // Analysis
  // ---------------------------------------------------------------------------

  /** The arguments `analyzeFightVideo` is called with. */
  datatype AnalysisRequest = AnalysisRequest(
    videoUri: string, mimeType: string, fighterName: string, opponentName: string, weightClass: string)

  /** What the model call gave back: it threw, its text did not parse as JSON,
      or it parsed to a report. */
  datatype AnalysisReply = InferenceThrew(message: string) | Unparseable(text: string) | Parsed(report: AnalysisResult)

  /** `analyzeFightVideo`: the parsed report, or one fixed message whatever
      went wrong. */
  function AnalyzeFightVideo(reply: AnalysisReply): (r: Result<AnalysisResult>)
    ensures r.Ok? <==> reply.Parsed?
    ensures r.Ok? ==> r.value == reply.report
    ensures r.Err? ==> r.message == AnalysisFailedMessage
  {
    match reply
      case Parsed(report) => Ok(report)
      case _ => Err(AnalysisFailedMessage)
  }

  /** The caller cannot tell a service failure from a parse failure. */
  lemma AnalysisFailuresIndistinguishable(message: string, text: string)
    ensures AnalyzeFightVideo(InferenceThrew(message)) == AnalyzeFightVideo(Unparseable(text))
    ensures AnalyzeFightVideo(InferenceThrew(message)).message != ""
  {
  }
}
