/** FolderService: validates a folder request against the tables, then creates the folder
    synchronously with a one-step flight. */
module FolderService {
  import opened Results
  import opened Api
  import opened Errors
  import opened Names
  import opened FolderDb
  import opened FolderRules
  import opened Flight
  import FolderFlight

  /** The guards run in order: name characters, name length, a sibling folder with the name,
      a contained object with the name, then the spend profile. */
  function ValidateRequest(dao: FolderDao, request: CreateFolderBody): (r: Outcome<FolderError>)
    reads dao
    requires dao.Valid()
    ensures r.Pass? <==> Admissible(dao.folders, dao.objects, request)
    ensures r.Fail? && r.error.InvalidName? <==> !IsValidName(request.name)
    ensures !OnlyNameChars(request.name) ==> r == Fail(InvalidName(InvalidCharsMessage(request.name)))
    ensures OnlyNameChars(request.name) && |request.name| > MaxNameLength ==> r == Fail(InvalidName(TooLongMessage))
    ensures IsValidName(request.name) && SiblingFolderNamed(dao.folders, request.parentFolderId, request.name)
      ==> r == Fail(NameConflict(FolderConflictMessage(request.name, request.parentFolderId)))
    ensures IsValidName(request.name) && !SiblingFolderNamed(dao.folders, request.parentFolderId, request.name)
      && SiblingObjectNamed(dao.objects, request.parentFolderId, request.name)
      ==> r == Fail(NameConflict(ObjectConflictMessage(request.name, request.parentFolderId)))
    ensures IsValidName(request.name) && !SiblingFolderNamed(dao.folders, request.parentFolderId, request.name)
      && !SiblingObjectNamed(dao.objects, request.parentFolderId, request.name)
      ==> r == ValidateSpendProfile(dao, request)
  {
    NamePatternMeaning(request.name);
    if !MatchesNamePattern(request.name) then
      Fail(InvalidName(InvalidCharsMessage(request.name)))
    else if |request.name| > MaxNameLength then
      Fail(InvalidName(TooLongMessage))
    else if dao.ContainedFolderNameExists(request.parentFolderId, request.name) then
      Fail(NameConflict(FolderConflictMessage(request.name, request.parentFolderId)))
    else if dao.ContainedObjectNameExists(request.parentFolderId, request.name) then
      Fail(NameConflict(ObjectConflictMessage(request.name, request.parentFolderId)))
    else
      ValidateSpendProfile(dao, request)
  }

  /** With a parent named, its row must exist (else FolderNotFound) and the request must not
      override its spend profile (else InvalidSpendProfile). Without a parent it passes. */
  function ValidateSpendProfile(dao: FolderDao, request: CreateFolderBody): (r: Outcome<FolderError>)
    reads dao
    requires dao.Valid()
    ensures r.Pass? <==> !ParentMissing(dao.folders, request) && !ConflictingOverride(dao.folders, request)
    ensures ParentMissing(dao.folders, request) ==> r == Fail(FolderNotFound(NotFoundMessage(request.parentFolderId.value)))
    ensures r.Fail? && !ParentMissing(dao.folders, request) ==> r.error.InvalidSpendProfile?
    ensures r.Fail? && r.error.InvalidSpendProfile? ==>
      OverrideMessage(dao.folders, request, r.error.message) && Mentions(r.error.message, "spend profile")
  {
    if request.parentFolderId.None? then Pass
    else
      match dao.GetSpendProfileFromFolder(request.parentFolderId.value)
      case Err(e) => Fail(e)
      case Ok(fromParent) =>
        // validateSpendProfile compares the two Strings with `!=`; see FolderRules.Overrides.
        if Overrides(fromParent, request.spendProfile) then
          SpendProfileMessageMentionsSpendProfile(request.spendProfile.value, fromParent.value);
          Fail(InvalidSpendProfile(SpendProfileMessage(request.spendProfile.value, fromParent.value)))
        else
          Pass
  }

  /** A request that names its parent's own spend profile is not an override: it passes the
      spend-profile check, as the comments beside the comparison intend. */
  lemma RepeatingParentProfileAccepted(dao: FolderDao, request: CreateFolderBody, k: nat)
    requires dao.Valid()
    requires request.parentFolderId.Some?
    requires k < |dao.folders| && dao.folders[k].id == request.parentFolderId.value
    requires dao.folders[k].spendProfileId == request.spendProfile
    ensures ValidateSpendProfile(dao, request) == Pass
  {
    forall i | 0 <= i < |dao.folders| && dao.folders[i].id == request.parentFolderId.value
      ensures !Overrides(dao.folders[i].spendProfileId, request.spendProfile)
    {
      assert i == k;
    }
  }

  /** validateSpendProfile exactly as the Java code writes it, with the reference comparison:
      any request that names a profile under a parent that has one is rejected. It rejects
      everything the value comparison rejects, with the same error. */
  function ValidateSpendProfileAsWritten(dao: FolderDao, request: CreateFolderBody): (r: Outcome<FolderError>)
    reads dao
    requires dao.Valid()
    ensures r.Pass? <==> !ParentMissing(dao.folders, request) && !ConflictingOverrideAsWritten(dao.folders, request)
    ensures ValidateSpendProfile(dao, request).Fail? ==> r == ValidateSpendProfile(dao, request)
  {
    if request.parentFolderId.None? then Pass
    else
      match dao.GetSpendProfileFromFolder(request.parentFolderId.value)
      case Err(e) => Fail(e)
      case Ok(fromParent) =>
        if OverridesAsWritten(fromParent, request.spendProfile) then
          Fail(InvalidSpendProfile(SpendProfileMessage(request.spendProfile.value, fromParent.value)))
        else
          Pass
  }

  /** The discrepancy on a concrete table: under a parent whose profile is "P1", a request for
      "P1" is rejected as written and accepted by the value comparison. */
  lemma AsWrittenRejectsRepeatedProfile(dao: FolderDao)
    requires dao.folders == [FolderRow("parent", "Parent", None, Some("P1"), false)]
    ensures dao.Valid()
    ensures ValidateSpendProfileAsWritten(dao, CreateFolderBody("child", Some("parent"), Some("P1"), "job"))
      == Fail(InvalidSpendProfile(SpendProfileMessage("P1", "P1")))
    ensures ValidateSpendProfile(dao, CreateFolderBody("child", Some("parent"), Some("P1"), "job")) == Pass
  {
    assert dao.folders[0].id == "parent";
    RepeatingParentProfileAccepted(dao, CreateFolderBody("child", Some("parent"), Some("P1"), "job"), 0);
  }

  /** createFolder: validate, then run the creation flight and wait for its response. The
      folder id (a random UUID in FolderService.createFolder) is a parameter. A rejected request changes
      nothing; an accepted one always gets its folder, because nothing changes the tables
      between validation and the step. */
  method CreateFolder(dao: FolderDao, folderBody: CreateFolderBody, folderId: Id)
    returns (r: Result<CreatedFolder, FolderError>)
    requires dao.Valid()
    requires !HasId(dao.folders, folderId)
    modifies dao
    ensures dao.Valid()
    ensures dao.objects == old(dao.objects)
    ensures r.Ok? <==> old(Admissible(dao.folders, dao.objects, folderBody))
    ensures r.Err? ==> old(ValidateRequest(dao, folderBody)) == Fail(r.error) && dao.folders == old(dao.folders)
    ensures r.Ok? ==>
      && r.value == CreatedFolder(folderId)
      && |dao.folders| == |old(dao.folders)| + 1
      && dao.folders[..|old(dao.folders)|] == old(dao.folders)
      && NewFolderRow(old(dao.folders), folderId, folderBody, dao.folders[|old(dao.folders)|])
  {
    var checked := ValidateRequest(dao, folderBody);
    if checked.Fail? {
      return Err(checked.error);
    }
    var context := new FlightContext(folderId);
    var step := new FolderFlight.CreateFolderStep(dao, folderBody);
    var stepResult := step.DoStep(context);
    // Validation found the parent row, so the step cannot fail here.
    r := match stepResult
      case StepSuccess => Ok(CreatedFolder(folderId))
      case StepFatal(e) => Err(e);
  }
}
