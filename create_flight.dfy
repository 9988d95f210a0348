/** CreateFolderStep of the asynchronous flight: checks again that the request does not
    override its parent's spend profile, then resolves the profile, inserts the folder row and
    records the response. */
module CreateFlight {
  import opened Results
  import opened Api
  import opened Errors
  import opened FolderDb
  import opened FolderRules
  import opened Flight

  class CreateFolderStep {
    const dao: FolderDao
    const folderBody: CreateFolderBody

    constructor (dao: FolderDao, folderBody: CreateFolderBody)
      ensures this.dao == dao && this.folderBody == folderBody
    {
      this.dao := dao;
      this.folderBody := folderBody;
    }

    method DoStep(context: FlightContext) returns (result: StepResult)
      requires dao.Valid()
      requires !HasId(dao.folders, context.folderId)
      modifies dao, context
      ensures dao.Valid()
      ensures dao.objects == old(dao.objects)
      ensures result.StepSuccess? <==>
        !ParentMissing(old(dao.folders), folderBody) && !ConflictingOverride(old(dao.folders), folderBody)
      ensures ParentMissing(old(dao.folders), folderBody) ==>
        result == StepFatal(FolderNotFound(NotFoundMessage(folderBody.parentFolderId.value)))
      ensures result.StepFatal? && !ParentMissing(old(dao.folders), folderBody) ==>
        result.error.InvalidSpendProfile?
      ensures result.StepFatal? && result.error.InvalidSpendProfile? ==>
        && OverrideMessage(old(dao.folders), folderBody, result.error.message)
        && Mentions(result.error.message, "spend profile")
      ensures result.StepFatal? ==>
        && dao.folders == old(dao.folders)
        && context.response == old(context.response)
        && context.statusCode == old(context.statusCode)
      ensures result.StepSuccess? ==>
        && |dao.folders| == |old(dao.folders)| + 1
        && dao.folders[..|old(dao.folders)|] == old(dao.folders)
        && NewFolderRow(old(dao.folders), context.folderId, folderBody, dao.folders[|old(dao.folders)|])
        && context.response == Some(CreatedFolder(context.folderId))
        && context.statusCode == Some(StatusOk)
      ensures InheritanceConsistent(old(dao.folders)) ==> InheritanceConsistent(dao.folders)
    {
      var folderId := context.folderId;
      var parentFolderId := folderBody.parentFolderId;
      var spendProfile := folderBody.spendProfile;
      var spendProfileInherited := false;
      if parentFolderId.Some? {
        var fromParent := dao.GetSpendProfileFromFolder(parentFolderId.value);
        if fromParent.Err? {
          return StepFatal(fromParent.error);
        }
        // doStep compares the two Strings with `!=`; see FolderRules.Overrides.
        if Overrides(fromParent.value, spendProfile) {
          SpendProfileMessageMentionsSpendProfile(spendProfile.value, fromParent.value.value);
          return StepFatal(InvalidSpendProfile(SpendProfileMessage(spendProfile.value, fromParent.value.value)));
        }
        if fromParent.value.Some? {
          spendProfile := fromParent.value;
          spendProfileInherited := true;
        }
      }
      ghost var before := dao.folders;
      var row := FolderRow(folderId, folderBody.name, parentFolderId, spendProfile, spendProfileInherited);
      assert ProfileResolved(before, folderBody.spendProfile, row);
      if InheritanceConsistent(before) {
        AppendResolvedKeepsConsistent(before, folderBody.spendProfile, row);
      }
      dao.CreateFolder(folderId, folderBody.name, parentFolderId, spendProfile, spendProfileInherited);
      context.SetResponse(CreatedFolder(folderId), StatusOk);
      result := StepSuccess;
    }

    /** Deletes the FOLDER_ID row, whether or not it exists, and succeeds. */
    method UndoStep(context: FlightContext) returns (result: StepResult)
      requires dao.Valid()
      modifies dao
      ensures dao.Valid()
      ensures result == StepSuccess
      ensures dao.folders == Without(old(dao.folders), context.folderId)
      ensures !HasId(dao.folders, context.folderId)
      ensures dao.objects == old(dao.objects)
    {
      var _ := dao.DeleteFolder(context.folderId);
      result := StepSuccess;
    }
  }

  /** A failed step followed by its undo leaves the folder table as it was; a successful step
      followed by its undo does too. */
  method DoThenUndo(step: CreateFolderStep, context: FlightContext)
    requires step.dao.Valid()
    requires !HasId(step.dao.folders, context.folderId)
    modifies step.dao, context
    ensures step.dao.Valid()
    ensures step.dao.folders == old(step.dao.folders)
    ensures step.dao.objects == old(step.dao.objects)
  {
    ghost var before := step.dao.folders;
    var done := step.DoStep(context);
    if done.StepSuccess? {
      InsertThenDeleteRestores(before, step.dao.folders[|before|]);
      assert step.dao.folders == before + [step.dao.folders[|before|]];
    } else {
      WithoutAbsent(before, context.folderId);
    }
    var undone := step.UndoStep(context);
  }

  /** Undoing twice has the effect of undoing once. */
  method UndoTwice(step: CreateFolderStep, context: FlightContext)
    requires step.dao.Valid()
    modifies step.dao
    ensures step.dao.Valid()
    ensures step.dao.folders == Without(old(step.dao.folders), context.folderId)
  {
    ghost var before := step.dao.folders;
    var first := step.UndoStep(context);
    var second := step.UndoStep(context);
    DeleteIdempotent(before, context.folderId);
  }
}
