/** CreateFolderStep of the synchronous flight: resolves the spend profile from the parent,
    inserts the folder row and records the response. It trusts the earlier validation and
    does not check for an override: a different requested profile is replaced by the
    parent's. */
module FolderFlight {
  import opened Results
  import opened Api
  import opened Errors
  import opened FolderDb
  import opened FolderRules
  import opened Flight

  class CreateFolderStep {
    const dao: FolderDao
    const folderBody: CreateFolderBody

    constructor (dao: FolderDao, folderBody: CreateFolderBody)
      ensures this.dao == dao && this.folderBody == folderBody
    {
      this.dao := dao;
      this.folderBody := folderBody;
    }

    method DoStep(context: FlightContext) returns (result: StepResult)
      requires dao.Valid()
      requires !HasId(dao.folders, context.folderId)
      modifies dao, context
      ensures dao.Valid()
      ensures dao.objects == old(dao.objects)
      ensures result.StepSuccess? <==> !ParentMissing(old(dao.folders), folderBody)
      ensures result.StepFatal? ==>
        && result.error == FolderNotFound(NotFoundMessage(folderBody.parentFolderId.value))
        && dao.folders == old(dao.folders)
        && context.response == old(context.response)
        && context.statusCode == old(context.statusCode)
      ensures result.StepSuccess? ==>
        && |dao.folders| == |old(dao.folders)| + 1
        && dao.folders[..|old(dao.folders)|] == old(dao.folders)
        && NewFolderRow(old(dao.folders), context.folderId, folderBody, dao.folders[|old(dao.folders)|])
        && context.response == Some(CreatedFolder(context.folderId))
        && context.statusCode == Some(StatusOk)
      ensures InheritanceConsistent(old(dao.folders)) ==> InheritanceConsistent(dao.folders)
    {
      var folderId := context.folderId;
      var parentFolderId := folderBody.parentFolderId;
      var spendProfile := folderBody.spendProfile;
      var spendProfileInherited := false;
      if parentFolderId.Some? {
        var fromParent := dao.GetSpendProfileFromFolder(parentFolderId.value);
        if fromParent.Err? {
          return StepFatal(fromParent.error);
        }
        if fromParent.value.Some? {
          spendProfile := fromParent.value;
          spendProfileInherited := true;
        }
      }
      ghost var before := dao.folders;
      var row := FolderRow(folderId, folderBody.name, parentFolderId, spendProfile, spendProfileInherited);
      assert ProfileResolved(before, folderBody.spendProfile, row);
      if InheritanceConsistent(before) {
        AppendResolvedKeepsConsistent(before, folderBody.spendProfile, row);
      }
      dao.CreateFolder(folderId, folderBody.name, parentFolderId, spendProfile, spendProfileInherited);
      context.SetResponse(CreatedFolder(folderId), StatusOk);
      result := StepSuccess;
    }

    /** Deletes the FOLDER_ID row, whether or not it exists, and succeeds. */
    method UndoStep(context: FlightContext) returns (result: StepResult)
      requires dao.Valid()
      modifies dao
      ensures dao.Valid()
      ensures result == StepSuccess
      ensures dao.folders == Without(old(dao.folders), context.folderId)
      ensures !HasId(dao.folders, context.folderId)
      ensures dao.objects == old(dao.objects)
    {
      var _ := dao.DeleteFolder(context.folderId);
      result := StepSuccess;
    }
  }

  /** Running the step and then its undo leaves the folder table as it was. */
  method DoThenUndo(step: CreateFolderStep, context: FlightContext)
    requires step.dao.Valid()
    requires !HasId(step.dao.folders, context.folderId)
    modifies step.dao, context
    ensures step.dao.Valid()
    ensures step.dao.folders == old(step.dao.folders)
    ensures step.dao.objects == old(step.dao.objects)
  {
    ghost var before := step.dao.folders;
    var done := step.DoStep(context);
    if done.StepSuccess? {
      InsertThenDeleteRestores(before, step.dao.folders[|before|]);
      assert step.dao.folders == before + [step.dao.folders[|before|]];
    } else {
      WithoutAbsent(before, context.folderId);
    }
    var undone := step.UndoStep(context);
  }
}
