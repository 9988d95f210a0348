/** What a folder-creation step sees of its flight: the FOLDER_ID input parameter and the
    response entries of the working map. The job engine that runs flights is not modelled. */
module Flight {
  import opened Results
  import opened Api
  import opened Errors

  /** HttpStatus.OK, the status the step records with its response. */
  const StatusOk: int := 200

  /** A step's result. A thrown exception ends the step as a fatal failure carrying it. */
  datatype StepResult = StepSuccess | StepFatal(error: FolderError)

  class FlightContext {
    /** The input parameter FOLDER_ID. */
    const folderId: Id
    /** The response and status code the step stores in the working map. */
    var response: Option<CreatedFolder>
    var statusCode: Option<int>

    constructor (folderId: Id)
      ensures this.folderId == folderId && response == None && statusCode == None
    {
      this.folderId := folderId;
      response := None;
      statusCode := None;
    }

    method SetResponse(value: CreatedFolder, status: int)
      modifies this
      ensures response == Some(value) && statusCode == Some(status)
    {
      response := Some(value);
      statusCode := Some(status);
    }
  }

  /** What `newJob` plus `addParameter(FOLDER_ID, ...)` hands to the job service. */
  datatype JobRequest = JobRequest(
    description: string,
    jobId: Id,
    request: CreateFolderBody,
    folderIdParameter: Id)
}
