/**
 * The upload endpoint `POST`: authentication, user lookup, file presence and
 * type, transcription, the blank-transcript guard, extraction, title and
 * persistence, in that order, each able to end the request early; one outer
 * `catch` turns anything thrown into a 500 reply.
 *
 * Every collaborator the endpoint awaits is an input (`Collaborators`), and
 * the reply comes with the log of the collaborators actually invoked.
 */
module Pipeline {
  import opened Outcomes
  import opened Json
  import opened Validation
  import opened Transcription
  import opened Extraction
  import opened Title

  datatype UploadedFile = UploadedFile(name: string, mimeType: string)

  datatype User = User(id: string)

  /** The row handed to the store; `id` and the timestamps are the store's. */
  datatype MeetingData = MeetingData(
    title: string,
    originalFileName: string,
    transcript: string,
    summaryJson: Json,
    userId: string)

  /** An invocation of a collaborator, in the order the endpoint makes them. */
  datatype Effect =
    | GetSession
    | FindUser(email: string)
    | ReadForm
    | Transcribe(file: UploadedFile)
    | RequestCompletion(transcript: string)
    | CreateMeeting(data: MeetingData)

  datatype Body = Failure(error: string) | Success(meetingId: string, message: string)

  datatype Reply = Reply(status: int, body: Body)

  datatype Handled = Handled(reply: Reply, effects: seq<Effect>)

  /**
   * What each collaborator yields for this request: the session's email
   * (`None` when there is no session, user or email), the user row, the
   * `file` form field, the speech-to-text result, the completion's content,
   * `JSON.parse`, today's date and the id of the created row.
   */
  datatype Collaborators = Collaborators(
    sessionEmail: Call<Option<string>>,
    userLookup: Call<Option<User>>,
    formFile: Call<Option<UploadedFile>>,
    transcription: Call<string>,
    completion: Call<Option<string>>,
    parse: string -> Call<Json>,
    today: CalendarDate,
    creation: Call<string>)

  const UnauthorizedMessage := "Unauthorized"
  const UserNotFoundMessage := "User not found"
  const NoFileMessage := "No file provided"
  const InvalidTypeMessage := "Invalid file type. Please upload an audio file."
  const EmptyTranscriptMessage := "Transcription resulted in empty text"
  const SuccessMessage := "Meeting processed successfully"
  const FallbackMessage := "Failed to process meeting"

  /** `session?.user?.email` is truthy: present and not the empty string. */
  predicate HasEmail(email: Option<string>) {
    email.Some? && email.value != ""
  }

  /** The message the outer `catch` reports: the error's own, or a fixed fallback for a non-`Error` value. */
  function CaughtMessage(fault: Fault): string {
    match fault
    case ErrorValue(message) => message
    case OtherValue => FallbackMessage
  }

  // ---------------------------------------------------------------------------
  // The gates, stated directly on the collaborators' outcomes.

  predicate Authenticated(env: Collaborators) {
    env.sessionEmail.Returned? && HasEmail(env.sessionEmail.value)
  }

  predicate UserFound(env: Collaborators) {
    Authenticated(env) && env.userLookup.Returned? && env.userLookup.value.Some?
  }

  predicate FileAccepted(env: Collaborators) {
    && UserFound(env) && env.formFile.Returned? && env.formFile.value.Some?
    && IsValidAudio(env.formFile.value.value.mimeType, env.formFile.value.value.name)
  }

  predicate TranscriptUsable(env: Collaborators) {
    FileAccepted(env) && env.transcription.Returned? && !IsBlank(env.transcription.value)
  }

  predicate SummaryExtracted(env: Collaborators) {
    TranscriptUsable(env) && ExtractActionItems(env.completion, env.parse).Returned?
  }

  /** The row a request that passed every gate hands to the store. */
  function RowFor(env: Collaborators): MeetingData
    requires SummaryExtracted(env)
  {
    MeetingData(
      MeetingTitle(env.today),
      env.formFile.value.value.name,
      env.transcription.value,
      ExtractActionItems(env.completion, env.parse).value,
      env.userLookup.value.value.id)
  }

  /** The position of each collaborator in the pipeline. */
  function StageOf(e: Effect): nat {
    match e
    case GetSession => 0
    case FindUser(_) => 1
    case ReadForm => 2
    case Transcribe(_) => 3
    case RequestCompletion(_) => 4
    case CreateMeeting(_) => 5
  }

  /** The effects are the pipeline's stages from the `first`-th on, consecutively. */
  predicate StagesFrom(effects: seq<Effect>, first: nat) {
    forall i :: 0 <= i < |effects| ==> StageOf(effects[i]) == first + i
  }

  /** The collaborators invoked form an initial segment of the pipeline: in order, none skipped, none twice. */
  predicate InPipelineOrder(effects: seq<Effect>) {
    1 <= |effects| <= 6 && StagesFrom(effects, 0)
  }

  // ---------------------------------------------------------------------------
  // The body of the `try`, stage by stage, each early return ending the request.

  /** How the body of the `try` ends: a reply, or a throw for the outer `catch`. */
  datatype Attempt = Attempt(outcome: Call<Reply>, effects: seq<Effect>)

  function Reject(status: int, message: string): Call<Reply> {
    Returned(Reply(status, Failure(message)))
  }

  function After(e: Effect, rest: Attempt): Attempt {
    Attempt(rest.outcome, [e] + rest.effects)
  }

  /** Extraction, title and persistence, once the transcript has passed the blank guard. */
  function Persist(env: Collaborators): (a: Attempt)
    requires TranscriptUsable(env)
    ensures |a.effects| == (if SummaryExtracted(env) then 2 else 1)
    ensures a.effects[0] == RequestCompletion(env.transcription.value)
    ensures SummaryExtracted(env) ==> a.effects[1] == CreateMeeting(RowFor(env))
    ensures !SummaryExtracted(env) ==> a.outcome == Threw(ErrorValue(ExtractionFailedMessage))
    ensures SummaryExtracted(env) && env.creation.Threw? ==> a.outcome == Threw(env.creation.fault)
    ensures SummaryExtracted(env) && env.creation.Returned? ==>
      a.outcome == Returned(Reply(200, Success(env.creation.value, SuccessMessage)))
    ensures StagesFrom(a.effects, 4)
  {
    var transcript := env.transcription.value;
    match ExtractActionItems(env.completion, env.parse)
    case Threw(fault) => Attempt(Threw(fault), [RequestCompletion(transcript)])
    case Returned(summary) =>
      var effects := [RequestCompletion(transcript), CreateMeeting(RowFor(env))];
      match env.creation
      case Threw(fault) => Attempt(Threw(fault), effects)
      case Returned(id) => Attempt(Returned(Reply(200, Success(id, SuccessMessage))), effects)
  }

  /** Transcription and the blank-transcript guard, once the file has been accepted. */
  function ProcessFile(env: Collaborators): (a: Attempt)
    requires FileAccepted(env)
    ensures |a.effects| >= 1 && a.effects[0] == Transcribe(env.formFile.value.value)
    ensures |a.effects| >= 2 <==> TranscriptUsable(env)
    ensures TranscriptUsable(env) ==> a == After(Transcribe(env.formFile.value.value), Persist(env))
    ensures !TranscriptUsable(env) ==> |a.effects| == 1
    ensures env.transcription.Threw? ==> a.outcome == Threw(ErrorValue(TranscriptionFailedMessage))
    ensures env.transcription.Returned? && IsBlank(env.transcription.value) ==>
      a.outcome == Reject(400, EmptyTranscriptMessage)
    ensures StagesFrom(a.effects, 3)
  {
    var file := env.formFile.value.value;
    match TranscribeAudio(env.transcription)
    case Threw(fault) => Attempt(Threw(fault), [Transcribe(file)])
    case Returned(transcript) =>
      if IsBlank(transcript) then Attempt(Reject(400, EmptyTranscriptMessage), [Transcribe(file)])
      else After(Transcribe(file), Persist(env))
  }

  /** Reading the `file` field and checking its type, once the user is known. */
  function ReadUpload(env: Collaborators): (a: Attempt)
    requires UserFound(env)
    ensures |a.effects| >= 1 && a.effects[0] == ReadForm
    ensures |a.effects| >= 2 <==> FileAccepted(env)
    ensures FileAccepted(env) ==> a == After(ReadForm, ProcessFile(env))
    ensures !FileAccepted(env) ==> |a.effects| == 1
    ensures env.formFile.Threw? ==> a.outcome == Threw(env.formFile.fault)
    ensures env.formFile == Returned(None) ==> a.outcome == Reject(400, NoFileMessage)
    ensures env.formFile.Returned? && env.formFile.value.Some? && !FileAccepted(env) ==>
      a.outcome == Reject(400, InvalidTypeMessage)
    ensures StagesFrom(a.effects, 2)
  {
    match env.formFile
    case Threw(fault) => Attempt(Threw(fault), [ReadForm])
    case Returned(None) => Attempt(Reject(400, NoFileMessage), [ReadForm])
    case Returned(Some(file)) =>
      if !IsValidAudio(file.mimeType, file.name) then Attempt(Reject(400, InvalidTypeMessage), [ReadForm])
      else After(ReadForm, ProcessFile(env))
  }

  /** The user lookup by the session's email. */
  function LookUpUser(env: Collaborators): (a: Attempt)
    requires Authenticated(env)
    ensures |a.effects| >= 1 && a.effects[0] == FindUser(env.sessionEmail.value.value)
    ensures |a.effects| >= 2 <==> UserFound(env)
    ensures UserFound(env) ==> a == After(FindUser(env.sessionEmail.value.value), ReadUpload(env))
    ensures !UserFound(env) ==> |a.effects| == 1
    ensures env.userLookup.Threw? ==> a.outcome == Threw(env.userLookup.fault)
    ensures env.userLookup == Returned(None) ==> a.outcome == Reject(404, UserNotFoundMessage)
    ensures StagesFrom(a.effects, 1)
  {
    var email := env.sessionEmail.value.value;
    match env.userLookup
    case Threw(fault) => Attempt(Threw(fault), [FindUser(email)])
    case Returned(None) => Attempt(Reject(404, UserNotFoundMessage), [FindUser(email)])
    case Returned(Some(user)) => After(FindUser(email), ReadUpload(env))
  }

  /** The session check. */
  function Authenticate(env: Collaborators): (a: Attempt)
    ensures |a.effects| >= 1 && a.effects[0] == GetSession
    ensures |a.effects| >= 2 <==> Authenticated(env)
    ensures Authenticated(env) ==> a == After(GetSession, LookUpUser(env))
    ensures !Authenticated(env) ==> |a.effects| == 1
    ensures env.sessionEmail.Threw? ==> a.outcome == Threw(env.sessionEmail.fault)
    ensures env.sessionEmail.Returned? && !HasEmail(env.sessionEmail.value) ==>
      a.outcome == Reject(401, UnauthorizedMessage)
    ensures StagesFrom(a.effects, 0)
  {
    match env.sessionEmail
    case Threw(fault) => Attempt(Threw(fault), [GetSession])
    case Returned(email) =>
      if !HasEmail(email) then Attempt(Reject(401, UnauthorizedMessage), [GetSession])
      else After(GetSession, LookUpUser(env))
  }

  /**
   * `POST`. The collaborators it reaches, the row it creates only when every
   * gate was passed, and the success reply. The reply of each early exit is
   * stated by `EarlyExits` and `LateFailures`.
   */
  function Post(env: Collaborators): (r: Handled)
    // Collaborators are invoked in pipeline order and stop at the first exit.
    ensures InPipelineOrder(r.effects)
    // Transcription is invoked exactly on accepted files, with that file.
    ensures |r.effects| >= 4 <==> FileAccepted(env)
    ensures FileAccepted(env) ==> r.effects[3] == Transcribe(env.formFile.value.value)
    // Extraction is requested exactly on usable transcripts, with the transcript as returned.
    ensures |r.effects| >= 5 <==> TranscriptUsable(env)
    ensures TranscriptUsable(env) ==> r.effects[4] == RequestCompletion(env.transcription.value)
    // At most one row is created, only after every gate, and it is the row those outcomes determine.
    ensures |r.effects| == 6 <==> SummaryExtracted(env)
    ensures SummaryExtracted(env) ==> r.effects[5] == CreateMeeting(RowFor(env))
    // Success: 200 exactly when the row was created, carrying its id; every other reply is an error.
    ensures r.reply.status == 200 <==> SummaryExtracted(env) && env.creation.Returned?
    ensures r.reply.status == 200 ==> r.reply.body == Success(env.creation.value, SuccessMessage)
    ensures r.reply.status != 200 ==> r.reply.body.Failure?
  {
    var attempt := Authenticate(env);
    match attempt.outcome
    case Returned(reply) => Handled(reply, attempt.effects)
    case Threw(fault) => Handled(Reply(500, Failure(CaughtMessage(fault))), attempt.effects)
  }

  /** The exits before transcription: each one's reply, and how few collaborators were consulted. */
  lemma EarlyExits(env: Collaborators)
    ensures env.sessionEmail.Threw? ==>
      Post(env) == Handled(Reply(500, Failure(CaughtMessage(env.sessionEmail.fault))), [GetSession])
    ensures env.sessionEmail.Returned? && !HasEmail(env.sessionEmail.value) ==>
      Post(env) == Handled(Reply(401, Failure(UnauthorizedMessage)), [GetSession])
    ensures Authenticated(env) && env.userLookup == Returned(None) ==>
      Post(env) == Handled(Reply(404, Failure(UserNotFoundMessage)), [GetSession, FindUser(env.sessionEmail.value.value)])
    ensures Authenticated(env) && env.userLookup.Threw? ==>
      Post(env).reply == Reply(500, Failure(CaughtMessage(env.userLookup.fault))) && |Post(env).effects| == 2
    ensures UserFound(env) && env.formFile == Returned(None) ==>
      Post(env).reply == Reply(400, Failure(NoFileMessage)) && |Post(env).effects| == 3
    ensures UserFound(env) && env.formFile.Threw? ==>
      Post(env).reply == Reply(500, Failure(CaughtMessage(env.formFile.fault))) && |Post(env).effects| == 3
    ensures UserFound(env) && env.formFile.Returned? && env.formFile.value.Some? && !FileAccepted(env) ==>
      Post(env).reply == Reply(400, Failure(InvalidTypeMessage)) && |Post(env).effects| == 3
  {
  }

  /** The exits from transcription on: the fixed adapter errors, the blank guard and a failed insert. */
  lemma LateFailures(env: Collaborators)
    ensures FileAccepted(env) && env.transcription.Threw? ==>
      Post(env).reply == Reply(500, Failure(TranscriptionFailedMessage)) && |Post(env).effects| == 4
    ensures FileAccepted(env) && env.transcription.Returned? && IsBlank(env.transcription.value) ==>
      Post(env).reply == Reply(400, Failure(EmptyTranscriptMessage)) && |Post(env).effects| == 4
    ensures TranscriptUsable(env) && !SummaryExtracted(env) ==>
      Post(env).reply == Reply(500, Failure(ExtractionFailedMessage)) && |Post(env).effects| == 5
    ensures SummaryExtracted(env) && env.creation.Threw? ==>
      Post(env).reply == Reply(500, Failure(CaughtMessage(env.creation.fault)))
  {
  }

  /** The collaborators' outcomes agree on every stage up to the `n`-th. */
  ghost predicate AgreeUpTo(env: Collaborators, env': Collaborators, n: nat) {
    && (n >= 1 ==> env.sessionEmail == env'.sessionEmail)
    && (n >= 2 ==> env.userLookup == env'.userLookup)
    && (n >= 3 ==> env.formFile == env'.formFile)
    && (n >= 4 ==> env.transcription == env'.transcription)
    && (n >= 5 ==> env.completion == env'.completion && forall s :: env.parse(s) == env'.parse(s))
    && (n >= 6 ==> env.today == env'.today && env.creation == env'.creation)
  }

  /**
   * Collaborators after the exit point are never consulted: whatever they
   * would have done, the reply and the log are the same.
   */
  lemma UnreachedStagesIrrelevant(env: Collaborators, env': Collaborators)
    requires AgreeUpTo(env, env', |Post(env).effects|)
    ensures Post(env') == Post(env)
  {
  }
}
