/** CreateService: the asynchronous variant. It validates with its own copy of the guards,
    then submits a creation job and returns the new folder's id at once. */
module CreateService {
  import opened Results
  import opened Api
  import opened Errors
  import opened Names
  import opened FolderDb
  import opened FolderRules
  import opened Flight
  import FolderService

  /** The same guards as FolderService's, in the same order. */
  function ValidateRequest(dao: FolderDao, request: CreateFolderBody): (r: Outcome<FolderError>)
    reads dao
    requires dao.Valid()
    ensures r.Pass? <==> Admissible(dao.folders, dao.objects, request)
    ensures r.Fail? && r.error.InvalidName? <==> !IsValidName(request.name)
    ensures r.Fail? && r.error.NameConflict? <==>
      IsValidName(request.name)
      && (SiblingFolderNamed(dao.folders, request.parentFolderId, request.name)
          || SiblingObjectNamed(dao.objects, request.parentFolderId, request.name))
    ensures r.Fail? && r.error.FolderNotFound? <==>
      IsValidName(request.name)
      && !SiblingFolderNamed(dao.folders, request.parentFolderId, request.name)
      && !SiblingObjectNamed(dao.objects, request.parentFolderId, request.name)
      && ParentMissing(dao.folders, request)
    ensures !OnlyNameChars(request.name) ==> r == Fail(InvalidName(InvalidCharsMessage(request.name)))
  {
    NamePatternMeaning(request.name);
    if !MatchesNamePattern(request.name) then
      Fail(InvalidName(InvalidCharsMessage(request.name)))
    else if |request.name| > MaxNameLength then
      Fail(InvalidName(TooLongMessage))
    else if dao.ContainedFolderNameExists(request.parentFolderId, request.name) then
      Fail(NameConflict(FolderConflictMessage(request.name, request.parentFolderId)))
    else if dao.ContainedObjectNameExists(request.parentFolderId, request.name) then
      Fail(NameConflict(ObjectConflictMessage(request.name, request.parentFolderId)))
    else
      ValidateSpendProfile(dao, request)
  }

  /** With a parent named, its row must exist and its spend profile must not be overridden. */
  function ValidateSpendProfile(dao: FolderDao, request: CreateFolderBody): (r: Outcome<FolderError>)
    reads dao
    requires dao.Valid()
    ensures r.Pass? <==> !ParentMissing(dao.folders, request) && !ConflictingOverride(dao.folders, request)
    ensures r.Fail? && r.error.FolderNotFound? <==> ParentMissing(dao.folders, request)
    ensures r.Fail? && r.error.InvalidSpendProfile? <==>
      !ParentMissing(dao.folders, request) && ConflictingOverride(dao.folders, request)
    ensures r.Fail? && r.error.InvalidSpendProfile? ==>
      OverrideMessage(dao.folders, request, r.error.message) && Mentions(r.error.message, "spend profile")
  {
    if request.parentFolderId.None? then Pass
    else
      match dao.GetSpendProfileFromFolder(request.parentFolderId.value)
      case Err(e) => Fail(e)
      case Ok(fromParent) =>
        // validateSpendProfile compares the two Strings with `!=`; see FolderRules.Overrides.
        if Overrides(fromParent, request.spendProfile) then
          SpendProfileMessageMentionsSpendProfile(request.spendProfile.value, fromParent.value);
          Fail(InvalidSpendProfile(SpendProfileMessage(request.spendProfile.value, fromParent.value)))
        else
          Pass
  }

  /** A submitted job and the id returned to the caller. */
  datatype Submission = Submission(job: JobRequest, returnedId: Id)

  /** createFolder: validate, then submit a job carrying the body and the new folder id as
      FOLDER_ID, and return that id. The id (a random UUID) is a parameter; the job id is the
      one in the body's job control. */
  function CreateFolder(dao: FolderDao, folderBody: CreateFolderBody, folderId: Id): (r: Result<Submission, FolderError>)
    reads dao
    requires dao.Valid()
    ensures r.Ok? <==> Admissible(dao.folders, dao.objects, folderBody)
    ensures r.Err? ==> ValidateRequest(dao, folderBody) == Fail(r.error)
    ensures r.Ok? ==>
      && r.value.returnedId == folderId
      && r.value.job.folderIdParameter == r.value.returnedId
      && r.value.job.jobId == folderBody.jobId
      && r.value.job.request == folderBody
  {
    match ValidateRequest(dao, folderBody)
    case Fail(e) => Err(e)
    case Pass =>
      Ok(Submission(JobRequest("Create folder " + folderId, folderBody.jobId, folderBody, folderId), folderId))
  }

  /** A request this service accepted passes the step's own override check and parent
      lookup, as long as the tables are unchanged when the job runs. */
  lemma AcceptedRequestPassesStepCheck(dao: FolderDao, request: CreateFolderBody)
    requires dao.Valid()
    requires ValidateRequest(dao, request) == Pass
    ensures !ParentMissing(dao.folders, request) && !ConflictingOverride(dao.folders, request)
  {
  }

  /** The two copies of the validation accept and reject the same requests with the same
      errors. */
  lemma ValidatorsAgree(dao: FolderDao, request: CreateFolderBody)
    requires dao.Valid()
    ensures ValidateRequest(dao, request) == FolderService.ValidateRequest(dao, request)
  {
  }
}
