/** The request and response bodies of the folder API, as the generated model classes hold them. */
module Api {
  import opened Results

  /** Folder ids, spend-profile ids and job ids are strings (random UUIDs in the service). */
  type Id = string

  /** CreateFolderBody. `parentFolderId` and `spendProfile` are optional; `jobId` is the
      job-control id the asynchronous endpoint carries. The name is never null here: a null
      name is refused by request-body validation before any of this code runs. */
  datatype CreateFolderBody = CreateFolderBody(
    name: string,
    parentFolderId: Option<Id>,
    spendProfile: Option<Id>,
    jobId: Id)

  /** CreatedFolder, the response of a successful creation. */
  datatype CreatedFolder = CreatedFolder(id: Id)
}
