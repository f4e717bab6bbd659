/** The coach page (pages/HomePage.tsx): the fight details, the selected video
    and the phase of the upload-then-analyse run. `handleAnalyze` awaits twice,
    so it is modelled as three steps: `Analyze` runs up to the first await,
    `OnUploadDone` resumes when the upload settles and `OnAnalysisDone` when the
    analysis does. Nothing in the source cancels a run, so each step applies
    whatever the page did in between. */
module HomePage {
  import opened Types
  import opened Text
  import opened CoachService
  import opened UploadSection

  const UploadingStatus: string := "Uploading video..."
  const AnalyzingStatus: string := "AI is analyzing the fight..."
  const UnknownErrorMessage: string := "An unknown error occurred."
  const CancelLabel: string := "Cancel"
  const StartOverLabel: string := "Start Over"
  const ProcessingLabel: string := "Processing..."
  const AnalyzeFightLabel: string := "Analyze Fight"

  /** What a run captured when it started: the file and the fight details of
      the render whose button was pressed. */
  datatype Run = Run(file: LocalFile, fighterName: string, opponentName: string, weightClass: string)

  /** The page's state slots. `fighterName` is the application's slot, which
      the page reads and writes through its props. */
  class CoachWorkflow {
    var selectedFile: Option<LocalFile>
    var phase: Phase
    var progress: int
    var statusText: string
    var error: Option<string>
    var results: Option<AnalysisResult>
    var fighterName: string
    var opponentName: string
    var weightClass: string

    /** Progress is a percentage, a success has results and an error has a
        message to show. */
    ghost predicate Valid()
      reads this
    {
      0 <= progress <= 100 &&
      (phase == Success ==> results.Some?) &&
      (phase == Error ==> error.Some? && error.value != "")
    }

    /** The state the page starts in and `resetState` returns to. */
    predicate IsInitial()
      reads this
    {
      selectedFile == None && phase == Idle && progress == 0 && statusText == "" &&
      error == None && results == None &&
      fighterName == DefaultFighterName && opponentName == "" && weightClass == DefaultWeightClass
    }

    constructor ()
      ensures IsInitial() && Valid()
    {
      selectedFile := None;
      phase := Idle;
      progress := 0;
      statusText := "";
      error := None;
      results := None;
      fighterName := DefaultFighterName;
      opponentName := "";
      weightClass := DefaultWeightClass;
    }

    // -------------------------------------------------------------------------
    // What the page shows
    // -------------------------------------------------------------------------

    /** `isProcessing`; it also disables the three inputs and the upload area. */
    predicate IsProcessing()
      reads this
    {
      phase == Uploading || phase == Analyzing
    }

    /** The "Analyze Fight" button is enabled. */
    predicate CanAnalyze()
      reads this
      ensures CanAnalyze() ==> selectedFile.Some? && fighterName != "" && opponentName != ""
      ensures IsProcessing() ==> !CanAnalyze()
      ensures CanAnalyze() ==> AnalyzeLabel() == AnalyzeFightLabel
    {
      selectedFile.Some? && fighterName != "" && opponentName != "" && !IsProcessing()
    }

    /** The reset button is shown. */
    predicate ResetShown()
      reads this
      // a run in progress always shows the reset button, labelled Cancel
      ensures IsProcessing() ==> ResetShown() && ResetLabel() == CancelLabel
      ensures !ResetShown() ==> !IsProcessing()
    {
      phase != Idle
    }

    /** The reset button's label. */
    function ResetLabel(): string
      reads this
    {
      if IsProcessing() then CancelLabel else StartOverLabel
    }

    /** The analyse button's label. */
    function AnalyzeLabel(): string
      reads this
    {
      if IsProcessing() then ProcessingLabel else AnalyzeFightLabel
    }

    // -------------------------------------------------------------------------
    // Inputs
    // -------------------------------------------------------------------------

    method SetFighterName(name: string)
      modifies this
      requires Valid()
      ensures Valid()
      ensures fighterName == name
      ensures selectedFile == old(selectedFile) && phase == old(phase) && progress == old(progress)
      ensures statusText == old(statusText) && error == old(error) && results == old(results)
      ensures opponentName == old(opponentName) && weightClass == old(weightClass)
    {
      fighterName := name;
    }

    method SetOpponentName(name: string)
      modifies this
      requires Valid()
      ensures Valid()
      ensures opponentName == name
      ensures selectedFile == old(selectedFile) && phase == old(phase) && progress == old(progress)
      ensures statusText == old(statusText) && error == old(error) && results == old(results)
      ensures fighterName == old(fighterName) && weightClass == old(weightClass)
    {
      opponentName := name;
    }

    method SetWeightClass(wc: string)
      modifies this
      requires Valid()
      ensures Valid()
      ensures weightClass == wc
      ensures selectedFile == old(selectedFile) && phase == old(phase) && progress == old(progress)
      ensures statusText == old(statusText) && error == old(error) && results == old(results)
      ensures fighterName == old(fighterName) && opponentName == old(opponentName)
    {
      weightClass := wc;
    }

    /** `handleFileSelect`: keep the file, drop the previous outcome and go
        back to idle. Progress, status and the fight details stay. */
    method SelectFile(file: LocalFile)
      modifies this
      requires Valid()
      ensures Valid()
      ensures selectedFile == Some(file) && error == None && results == None && phase == Idle
      ensures progress == old(progress) && statusText == old(statusText)
      ensures fighterName == old(fighterName) && opponentName == old(opponentName)
      ensures weightClass == old(weightClass)
    {
      selectedFile := Some(file);
      error := None;
      results := None;
      phase := Idle;
    }

    /** `resetState`, behind both "Cancel" and "Start Over": every slot back to
        its initial value. */
    method Reset()
      modifies this
      ensures IsInitial() && Valid()
      ensures !ResetShown() && !CanAnalyze()
    {
      selectedFile := None;
      phase := Idle;
      progress := 0;
      statusText := "";
      error := None;
      results := None;
      fighterName := DefaultFighterName;
      opponentName := "";
      weightClass := DefaultWeightClass;
    }

    // -------------------------------------------------------------------------
    // The run
    // -------------------------------------------------------------------------

    /** `handleAnalyze` up to the upload: without a file or either name nothing
        happens; otherwise the previous outcome is cleared and the upload
        starts at 0%. The handler does not test `isProcessing` itself; only the
        disabled button keeps a second run from starting. */
    method Analyze() returns (run: Option<Run>)
      modifies this
      requires Valid()
      ensures Valid()
      ensures run.Some? <==> old(selectedFile).Some? && old(fighterName) != "" && old(opponentName) != ""
      ensures run.None? ==>
        phase == old(phase) && progress == old(progress) && statusText == old(statusText) &&
        error == old(error) && results == old(results)
      ensures run.Some? ==>
        run.value == Run(old(selectedFile).value, old(fighterName), old(opponentName), old(weightClass)) &&
        phase == Uploading && statusText == UploadingStatus && progress == 0 &&
        error == None && results == None
      ensures selectedFile == old(selectedFile) && fighterName == old(fighterName)
      ensures opponentName == old(opponentName) && weightClass == old(weightClass)
      // an enabled button starts a run, after which the button is disabled
      ensures old(CanAnalyze()) ==> run.Some? && IsProcessing() && !CanAnalyze()
    {
      if selectedFile.None? || fighterName == "" || opponentName == "" {
        return None;
      }
      run := Some(Run(selectedFile.value, fighterName, opponentName, weightClass));
      error := None;
      results := None;
      phase := Uploading;
      statusText := UploadingStatus;
      progress := 0;
    }

    /** The progress callback handed to the upload. */
    method OnUploadProgress(p: int)
      modifies this
      requires Valid() && 0 <= p <= 100
      ensures Valid()
      ensures progress == p
      ensures selectedFile == old(selectedFile) && phase == old(phase) && statusText == old(statusText)
      ensures error == old(error) && results == old(results)
      ensures fighterName == old(fighterName) && opponentName == old(opponentName)
      ensures weightClass == old(weightClass)
    {
      progress := p;
    }

    /** `handleAnalyze` after the upload settles: on success the analysis
        starts at 0% with exactly the uri and MIME type returned and the details
        captured by `run`; on failure the page shows the error. */
    method OnUploadDone(run: Run, outcome: UploadOutcome) returns (request: Option<AnalysisRequest>)
      modifies this
      requires Valid() && !outcome.StillPolling?
      ensures Valid()
      ensures request.Some? <==> outcome.Uploaded?
      ensures outcome.Uploaded? ==>
        request.value == AnalysisRequest(outcome.uri, outcome.mimeType, run.fighterName, run.opponentName, run.weightClass) &&
        phase == Analyzing && statusText == AnalyzingStatus && progress == 0 &&
        error == old(error) && results == old(results)
      ensures outcome.UploadFailed? ==>
        phase == Error && error == Some(MessageOr(outcome.message, UnknownErrorMessage)) &&
        progress == old(progress) && statusText == old(statusText) && results == old(results)
      ensures selectedFile == old(selectedFile) && fighterName == old(fighterName)
      ensures opponentName == old(opponentName) && weightClass == old(weightClass)
    {
      if outcome.Uploaded? {
        phase := Analyzing;
        statusText := AnalyzingStatus;
        progress := 0;
        request := Some(AnalysisRequest(outcome.uri, outcome.mimeType, run.fighterName, run.opponentName, run.weightClass));
      } else {
        error := Some(MessageOr(outcome.message, UnknownErrorMessage));
        phase := Error;
        request := None;
      }
    }

    /** `handleAnalyze` after the analysis settles: the report and success, or
        the error. */
    method OnAnalysisDone(reply: AnalysisReply)
      modifies this
      requires Valid()
      ensures Valid()
      ensures AnalyzeFightVideo(reply).Ok? ==>
        phase == Success && results == Some(AnalyzeFightVideo(reply).value) && error == old(error)
      ensures AnalyzeFightVideo(reply).Err? ==>
        phase == Error && error == Some(AnalysisFailedMessage) && results == old(results)
      ensures progress == old(progress) && statusText == old(statusText) && selectedFile == old(selectedFile)
      ensures fighterName == old(fighterName) && opponentName == old(opponentName)
      ensures weightClass == old(weightClass)
    {
      var outcome := AnalyzeFightVideo(reply);
      if outcome.Ok? {
        results := Some(outcome.value);
        phase := Success;
      } else {
        error := Some(MessageOr(outcome.message, UnknownErrorMessage));
        phase := Error;
      }
    }
  }

  // ---------------------------------------------------------------------------
  // Runs end to end
  // ---------------------------------------------------------------------------

  /** A run with an accepted upload and a parsed report: the page ends in
      success with that report, and the analysis was asked about exactly the
      uploaded file and the details entered. */
  method SuccessfulRun(file: LocalFile, fighter: string, opponent: string, uri: string, mimeType: string, report: AnalysisResult)
    returns (phase: Phase, results: Option<AnalysisResult>, request: Option<AnalysisRequest>)
    requires fighter != "" && opponent != ""
    ensures phase == Success && results == Some(report)
    ensures request == Some(AnalysisRequest(uri, mimeType, fighter, opponent, DefaultWeightClass))
  {
    var page := new CoachWorkflow();
    page.SelectFile(file);
    page.SetFighterName(fighter);
    page.SetOpponentName(opponent);
    var run := page.Analyze();
    page.OnUploadProgress(50);
    page.OnUploadProgress(100);
    request := page.OnUploadDone(run.value, Uploaded(uri, mimeType));
    page.OnAnalysisDone(Parsed(report));
    phase, results := page.phase, page.results;
  }

  /** "Cancel" does not stop a run: after a reset mid-upload, the upload's
      completion still moves the page to analysing, and the analysis still
      asks about the details captured before the reset, which the page no
      longer shows. */
  method CancelDoesNotStopRun(file: LocalFile, fighter: string, opponent: string, uri: string, mimeType: string)
    returns (phase: Phase, shownFighter: string, request: Option<AnalysisRequest>)
    requires fighter != "" && opponent != ""
    ensures phase == Analyzing
    ensures shownFighter == DefaultFighterName
    ensures request == Some(AnalysisRequest(uri, mimeType, fighter, opponent, DefaultWeightClass))
  {
    var page := new CoachWorkflow();
    page.SelectFile(file);
    page.SetFighterName(fighter);
    page.SetOpponentName(opponent);
    var run := page.Analyze();
    page.Reset();
    request := page.OnUploadDone(run.value, Uploaded(uri, mimeType));
    phase, shownFighter := page.phase, page.fighterName;
  }

  /** A failed upload leaves the page in the error phase with the upload's
      message and without results. */
  method FailedUploadRun(file: LocalFile, fighter: string, opponent: string, message: string)
    returns (phase: Phase, error: Option<string>, results: Option<AnalysisResult>)
    requires fighter != "" && opponent != ""
    ensures phase == Error && results == None
    ensures error == Some(MessageOr(message, UnknownErrorMessage))
  {
    var page := new CoachWorkflow();
    page.SelectFile(file);
    page.SetFighterName(fighter);
    page.SetOpponentName(opponent);
    var run := page.Analyze();
    var request := page.OnUploadDone(run.value, UploadFailed(message));
    phase, error, results := page.phase, page.error, page.results;
  }

  /** The drop area is disabled while a run is in progress: a video dropped
      mid-upload is not handed to the page, which stays on its run and file,
      and a click on the area does not open the file picker. */
  method DropWhileProcessingIgnored(file: LocalFile, fighter: string, opponent: string, dropped: LocalFile)
    returns (phase: Phase, selected: Option<LocalFile>, forwarded: Option<LocalFile>, picker: bool)
    requires fighter != "" && opponent != "" && CheckVideo(file).Accepted?
    ensures phase == Uploading && selected == Some(file) && forwarded == None && !picker
  {
    var page := new CoachWorkflow();
    var area := new DropArea();
    var alert, chosen := area.Drop(page.IsProcessing(), [file]);
    page.SelectFile(chosen.value);
    page.SetFighterName(fighter);
    page.SetOpponentName(opponent);
    var run := page.Analyze();
    alert, forwarded := area.Drop(page.IsProcessing(), [dropped]);
    picker := OpensPicker(page.IsProcessing());
    phase, selected := page.phase, page.selectedFile;
  }
}
