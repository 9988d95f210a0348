# Folder creation in the Terra folder manager, modelled in Dafny

The folder manager stores a hierarchy of folders. Each folder has a name that is unique among
its parent's sub-folders and contained objects, an optional parent, and an optional spend
profile that a child inherits from its parent. This project models the folder-creation path
that sits on top of the job engine:

- the request validation, in its two copies (`FolderService`, synchronous; `CreateService`,
  asynchronous). Each copy checks the name characters, then the name length, then a sibling
  folder with the same name, then a contained object with the same name, then the spend profile;
- `FolderDao`, as a class holding the `folder` and `contained_object` tables as sequences of
  rows. Inserts and deletes update the tables in place; the lookups are functions over them;
- the two `CreateFolderStep` classes, whose `DoStep` resolves the spend profile and inserts
  the row and whose `UndoStep` deletes it;
- the exceptions, as one error datatype whose variants carry their messages.

Files: `results.dfy` (Option, Result, Outcome), `api.dfy` (request and response bodies),
`errors.dfy` (the exceptions), `names.dfy` (the name rule), `folder_dao.dfy` (the tables),
`folder_rules.dfy` (the creation rules stated over the tables, which the validators and steps
are proved against), `flight.dfy` (what a step sees of its flight), `folder_service.dfy`,
`create_service.dfy`, `folder_flight.dfy`, `create_flight.dfy`.

Modelling choices:

- A Java `null` is `None`; a thrown exception is an `Err`/`Fail`/`StepFatal` value.
- Folder ids are random UUIDs in the service. Here they are parameters, with the precondition
  that no row already has the id.
- `folder_id` is taken to be the key of `folder`: `FolderDao.Valid()` says the ids are distinct.
- `parent_folder_id = :id` and `folder_id = :id` never hold in SQL when `:id` is NULL. So both
  name-exists queries answer false for a top-level request, and two top-level folders may share
  a name (`TopLevelNamesNeverConflict`).
- `\w` and `\s` are Java's ASCII classes. Every accepted character is ASCII, so the UTF-16
  length Java compares with 10485760 equals the length of the Dafny string.
- The spend-profile comparison `spendProfileFromParent != spendProfile` compares Java String
  references. The comments beside it ask for a comparison of values, and the model compares
  values (`FolderRules.Overrides`); see Findings.
- Stairway writes the step's response into the flight's working map. Here that is the
  `response` and `statusCode` fields of `FlightContext`.
- `FolderService.createFolder` waits for a flight whose one step is the `folder`-package
  `CreateFolderStep`. The model runs that step directly after validation.

## Model

| member | source | states |
|---|---|---|
| Errors.ClassOf | src/main/java/bio/terra/folder/db/exception/FolderNotFoundException.java:5 | FolderNotFound is the only not-found error; InvalidName, NameConflict and InvalidSpendProfile are bad-request errors |
| Errors.InvalidNameMessagesMentionName | src/main/java/bio/terra/folder/service/folder/FolderService.java:53-64 | both invalid-name messages (bad characters, too long) contain "name" |
| Errors.ConflictMessagesMentionAlreadyExists | src/main/java/bio/terra/folder/service/folder/FolderService.java:66-80 | the sibling-folder and contained-object conflict messages contain "already exists", for any name and parent |
| Errors.SpendProfileMessageMentionsSpendProfile | src/main/java/bio/terra/folder/service/folder/FolderService.java:96-100 | the override message contains "spend profile" |
| Names.ClassStarMeaning | src/main/java/bio/terra/folder/service/create/CreateService.java:48-54 | `[\w\-\s_]*` matches a string iff every character is an ASCII letter or digit, `_`, `-` or a `\s` character |
| Names.NamePatternMeaning | src/main/java/bio/terra/folder/service/folder/FolderService.java:23 | `^[\w\-\s_]+$` fully matches a name iff it is non-empty and drawn from that class |
| Names.NamePatternAcceptsExample | src/main/java/bio/terra/folder/service/folder/FolderService.java:23 | "Project A-1" (capital, space, hyphen, digit) is accepted |
| Names.NamePatternRejectsExamples | src/test/java/bio/terra/folder/service/folder/FolderServiceTest.java:155-170 | "", "bad!name" and "!!!bad name!!!" are rejected |
| FolderDb.Lookup | src/main/java/bio/terra/folder/db/FolderDao.java:50-59 | the lookup by id finds a row with that id exactly when one exists |
| FolderDb.Without | src/main/java/bio/terra/folder/db/FolderDao.java:42-44 | after DELETE by id, a row remains iff it was there and has another id |
| FolderDb.AnyChildNamed | src/main/java/bio/terra/folder/db/FolderDao.java:85-94 | the scan is true iff some folder row has that parent and that name |
| FolderDb.AnyObjectNamed | src/main/java/bio/terra/folder/db/FolderDao.java:73-82 | the scan is true iff some contained object lies in that folder and has that name |
| FolderDb.WithoutShrinks | src/main/java/bio/terra/folder/db/FolderDao.java:46-47 | a delete affects at least one row iff a row with the id exists |
| FolderDb.WithoutAbsent | src/test/java/bio/terra/folder/db/FolderDaoTest.java:125-128 | deleting an id that no row has leaves the table unchanged |
| FolderDb.InsertThenDeleteRestores | src/test/java/bio/terra/folder/db/FolderDaoTest.java:99-123 | inserting a row with a fresh id and deleting that id gives back the original table |
| FolderDb.DeleteIdempotent | src/main/java/bio/terra/folder/service/create/flight/CreateFolderStep.java:69-74 | deleting an id twice equals deleting it once |
| FolderDb.WithoutKeepsUnique | src/main/java/bio/terra/folder/db/FolderDao.java:42-48 | deleting keeps the folder ids distinct |
| FolderDb.FolderDao.CreateFolder | src/main/java/bio/terra/folder/db/FolderDao.java:22-40 | exactly one row is added, with the given id, name, parent, profile and flag; absent values are stored as NULL; ids stay distinct; contained objects are unchanged |
| FolderDb.FolderDao.DeleteFolder | src/main/java/bio/terra/folder/db/FolderDao.java:42-48 | returns true iff a row with the id existed; afterwards none does; every other row is kept; an absent id leaves the table unchanged |
| FolderDb.FolderDao.GetSpendProfileFromFolder | src/main/java/bio/terra/folder/db/FolderDao.java:50-59 | FolderNotFound iff no row has the id; otherwise the profile (possibly null) of the folder's row |
| FolderDb.FolderDao.GetSpendProfileInheritedFromFolder | src/main/java/bio/terra/folder/db/FolderDao.java:61-70 | FolderNotFound iff no row has the id; otherwise the inherited flag of the folder's row |
| FolderDb.FolderDao.ContainedObjectNameExists | src/main/java/bio/terra/folder/db/FolderDao.java:72-82 | true iff a contained object of the folder has the name; false when no folder is given |
| FolderDb.FolderDao.ContainedFolderNameExists | src/main/java/bio/terra/folder/db/FolderDao.java:84-94 | true iff a folder row has the given parent and the name; false when the parent is absent (SQL `= NULL`) |
| FolderDb.TopLevelNamesNeverConflict | src/main/java/bio/terra/folder/service/folder/FolderService.java:66-80 | for a top-level request neither name-conflict check can fire |
| FolderRules.ReferenceComparisonRejectsSameProfile | src/main/java/bio/terra/folder/service/folder/FolderService.java:85-95 | the reference comparison flags a request repeating its parent's profile; the value comparison does not; every value override is a reference override |
| FolderRules.AppendResolvedKeepsConsistent | src/main/java/bio/terra/folder/service/folder/flight/CreateFolderStep.java:35-48 | inserting a row whose profile was resolved from its parent keeps every inherited row equal to its parent's profile |
| FolderRules.ResolvedRowNeverOverrides | src/main/java/bio/terra/folder/service/folder/flight/CreateFolderStep.java:33-41 | a row resolved this way never carries a profile different from its parent's |
| FolderService.ValidateRequest | src/main/java/bio/terra/folder/service/folder/FolderService.java:49-83 | passes iff the request is admissible (valid name, no sibling folder or object with the name, parent exists, no override); InvalidName iff the name is invalid; the character message wins over the length message; the folder conflict is reported before the object conflict, and both before the spend-profile check |
| FolderService.ValidateSpendProfile | src/main/java/bio/terra/folder/service/folder/FolderService.java:85-103 | passes iff there is no parent, or the parent row exists and the request does not override its profile; FolderNotFound for a missing parent row, InvalidSpendProfile otherwise, whose message quotes the requested profile and the parent row's profile and contains "spend profile" |
| FolderService.ValidateSpendProfileAsWritten | src/main/java/bio/terra/folder/service/folder/FolderService.java:85-103 | validateSpendProfile with the reference comparison: passes iff there is no parent, or the parent row exists and not both it and the request carry a profile; every rejection of the value comparison is the same rejection here |
| FolderService.AsWrittenRejectsRepeatedProfile | src/main/java/bio/terra/folder/service/folder/FolderService.java:92-100 | under a parent row with profile "P1", a "P1" request is rejected with InvalidSpendProfile as written and passes the value comparison |
| FolderService.RepeatingParentProfileAccepted | src/main/java/bio/terra/folder/service/folder/FolderService.java:85-102 | a request naming exactly its parent's profile passes the spend-profile check |
| FolderService.CreateFolder | src/main/java/bio/terra/folder/service/folder/FolderService.java:33-47 | validation runs first; a rejected request returns the validation error and adds no row; an admissible one adds exactly the resolved row and returns a CreatedFolder with the new id |
| CreateService.ValidateRequest | src/main/java/bio/terra/folder/service/create/CreateService.java:44-78 | passes iff the request is admissible; InvalidName iff the name is invalid; NameConflict iff the name is valid and a sibling folder or object has it; FolderNotFound iff those pass and the parent row is missing |
| CreateService.ValidateSpendProfile | src/main/java/bio/terra/folder/service/create/CreateService.java:80-98 | passes iff no parent row is missing and no override; FolderNotFound iff the parent row is missing; InvalidSpendProfile iff the parent exists and its non-null profile differs from a non-null request, with the message quoting both profiles and containing "spend profile" |
| CreateService.CreateFolder | src/main/java/bio/terra/folder/service/create/CreateService.java:27-42 | submits only an admissible request, else returns the validation error; the returned id is the FOLDER_ID given to the job, and the job carries the body and its job id |
| CreateService.AcceptedRequestPassesStepCheck | src/main/java/bio/terra/folder/service/create/flight/CreateFolderStep.java:38-48 | a request the service accepted passes the step's parent lookup and override re-check on the same tables |
| CreateService.ValidatorsAgree | src/main/java/bio/terra/folder/service/create/CreateService.java:44-98 | the two validators give the same outcome and the same error on every request |
| FolderFlight.CreateFolderStep.DoStep | src/main/java/bio/terra/folder/service/folder/flight/CreateFolderStep.java:26-54 | fails with FolderNotFound, changing nothing, iff the parent row is missing; otherwise appends one row with id FOLDER_ID and the body's name and parent, marked inherited iff the parent has a profile, carrying the parent's profile if so and the requested one if not (no override check); records CreatedFolder(FOLDER_ID) with status 200; keeps inherited rows consistent |
| FolderFlight.CreateFolderStep.UndoStep | src/main/java/bio/terra/folder/service/folder/flight/CreateFolderStep.java:56-62 | always succeeds; removes the FOLDER_ID row, if any, and nothing else |
| FolderFlight.DoThenUndo | src/main/java/bio/terra/folder/service/folder/flight/CreateFolderStep.java:26-62 | with a fresh FOLDER_ID, DoStep followed by UndoStep restores the folder table |
| CreateFlight.CreateFolderStep.DoStep | src/main/java/bio/terra/folder/service/create/flight/CreateFolderStep.java:27-66 | FolderNotFound for a missing parent row; InvalidSpendProfile when the parent's profile and the requested one are both present and differ; its message quotes both profiles and contains "spend profile"; both failures change nothing; otherwise inserts the resolved row as in the other variant and records CreatedFolder(FOLDER_ID) with status 200 |
| CreateFlight.CreateFolderStep.UndoStep | src/main/java/bio/terra/folder/service/create/flight/CreateFolderStep.java:69-74 | always succeeds; removes the FOLDER_ID row, if any, and nothing else |
| CreateFlight.DoThenUndo | src/main/java/bio/terra/folder/service/create/flight/FolderCreateFlight.java:24 | with a fresh FOLDER_ID, the flight's one step followed by its undo restores the folder table, whether the step succeeded or failed |
| CreateFlight.UndoTwice | src/main/java/bio/terra/folder/service/create/flight/CreateFolderStep.java:69-74 | two undos leave the same table as one |

## Left out

- The Stairway job engine (JobService, JobBuilder, submit and submitAndWait, retries, checkpoints, the Flight base class) is external and not part of this model. CreateService.CreateFolder returns the job it would submit, and FolderService.CreateFolder runs the one step directly.
- FolderService.CreateFolder: does not model the engine's undo after a failed step, because after validation on unchanged tables the step cannot fail.
- The race between validation and insert under concurrent requests is not modelled: everything here is sequential.
- Random UUIDs for folder ids and job ids are parameters.
- A null name, rejected by the generated request-body validation before this code runs, is not modelled; names are strings.
- A missing job control in a CreateService request (a NullPointerException at getJobControl) is not modelled; the body always carries a job id.
- The HTTP controllers, SamService, the application configuration and startup are not part of this model.
- Exception causes and the Throwable-only constructors are left out; each error keeps its message.
- The schema of the `folder` and `contained_object` tables is not part of this model; `folder_id` is assumed to be the key. The `contained_object` table is never written by this code and only read here.
- service/folder/flight/FolderCreateFlight.java is not part of this model. It is taken to add the `folder`-package CreateFolderStep as its only step, like the `create`-package flight does.
- Both steps signal failure by throwing, and the engine turns an exception into a failed flight. The model returns `StepFatal` with the exception's error instead.
- The `folder` and `create` packages each declare their own InvalidName, NameConflict and InvalidSpendProfile exceptions. The two sets have identical messages and are merged into one datatype.
- FlightUtils.setResponse is not part of this model; it is taken to store the response and status in the working map.

## Findings

| source | as written | input that shows it | evidently intended | confidence | as-written member | corrected member |
|---|---|---|---|---|---|---|
| src/main/java/bio/terra/folder/service/folder/FolderService.java:93-95 (also src/main/java/bio/terra/folder/service/create/CreateService.java:88-90, src/main/java/bio/terra/folder/service/create/flight/CreateFolderStep.java:40-42) | `spendProfileFromParent != spendProfile` compares String references; the parent's profile comes from JDBC and the request's from JSON, so they are never the same object | parent folder with spend profile "P1", child request with spend profile "P1": rejected with InvalidSpendProfile | a request repeating the parent's profile is accepted and the child inherits it (the comments at FolderService.java:86-88) | high; not executed | FolderService.ValidateSpendProfileAsWritten (counterexample: FolderService.AsWrittenRejectsRepeatedProfile) | FolderService.ValidateSpendProfile (FolderService.RepeatingParentProfileAccepted) |
