/** The exceptions the folder-creation path throws, with the messages they carry.
    The `folder` and `create` packages each declare their own InvalidNameException,
    NameConflictException and InvalidSpendProfileException; the pairs carry the same messages
    and the same superclass, so each pair is one constructor here. */
module Errors {
  import opened Results
  import opened Api

  datatype FolderError =
    | InvalidName(message: string)          // InvalidNameException, a BadRequestException
    | NameConflict(message: string)         // NameConflictException, a BadRequestException
    | InvalidSpendProfile(message: string)  // InvalidSpendProfileException, a BadRequestException
    | FolderNotFound(message: string)       // FolderNotFoundException, a NotFoundException

  /** The superclass each exception extends, which decides the HTTP status family. */
  datatype ErrorClass = BadRequest | NotFound

  function ClassOf(e: FolderError): (c: ErrorClass)
    ensures c == NotFound <==> e.FolderNotFound?
    ensures c == BadRequest <==> (e.InvalidName? || e.NameConflict? || e.InvalidSpendProfile?)
  {
    match e
    case FolderNotFound(_) => NotFound
    case _ => BadRequest
  }

  // In the messages below the phrase an API client looks for ("name", "already exists",
  // "spend profile") is written as a literal of its own; the strings are those the Java services build.

  function InvalidCharsMessage(name: string): string {
    "Provided " + "name" + " " + name
      + " contains invalid character(s). Valid names must only include alphanumeric"
      + " characters, spaces, -, and _ characters, and cannot be empty."
  }

  /** Java renders the int 10 * 1024 * 1024 as the decimal "10485760". */
  const TooLongMessage: string := "Provided " + "name" + " exceeds maximum length of 10485760"

  /** Where a conflict was found: the parent id, or "top-level folder" when there is none. */
  function Location(parentFolderId: Option<Id>): string {
    if parentFolderId.Some? then parentFolderId.value else "top-level folder"
  }

  function FolderConflictMessage(name: string, parentFolderId: Option<Id>): string {
    "Folder with name " + name + "" + " " + "already exists" + " inside " + Location(parentFolderId)
  }

  function ObjectConflictMessage(name: string, parentFolderId: Option<Id>): string {
    "Contained object with name " + name + " " + "already exists" + " inside folder "
      + Location(parentFolderId)
  }

  function SpendProfileMessage(requested: Id, fromParent: Id): string {
    "You cannot override a parent folder's " + "spend profile"
      + ". Request provided spend profile: " + requested
      + " but parent folder has spend profile: " + fromParent
  }

  function NotFoundMessage(folderId: Id): string {
    "Folder not found in DB: " + folderId
  }

  ghost predicate OccursAt(s: string, sub: string, k: int) {
    0 <= k && k + |sub| <= |s| && s[k..k + |sub|] == sub
  }

  /** `s` contains `sub` (Java's String.contains, which the tests use on error messages). */
  ghost predicate Mentions(s: string, sub: string) {
    exists k :: OccursAt(s, sub, k)
  }

  lemma OccursWhole(sub: string)
    ensures OccursAt(sub, sub, 0)
  {
    assert sub[0..|sub|] == sub;
  }

  /** An occurrence in `s` is an occurrence in `a + s`, shifted by `|a|`. */
  lemma OccursExtendLeft(a: string, s: string, sub: string, k: int)
    requires OccursAt(s, sub, k)
    ensures OccursAt(a + s, sub, |a| + k)
  {
    assert (a + s)[|a| + k..|a| + k + |sub|] == s[k..k + |sub|];
  }

  /** An occurrence in `s` is an occurrence in `s + t` at the same place. */
  lemma OccursExtendRight(s: string, t: string, sub: string, k: int)
    requires OccursAt(s, sub, k)
    ensures OccursAt(s + t, sub, k)
  {
    assert (s + t)[k..k + |sub|] == s[k..k + |sub|];
  }

  /** Both invalid-name messages mention "name". */
  lemma InvalidNameMessagesMentionName(name: string)
    ensures Mentions(InvalidCharsMessage(name), "name")
    ensures Mentions(TooLongMessage, "name")
  {
    var k := |"Provided "|;
    OccursWhole("name");
    OccursExtendLeft("Provided ", "name", "name", 0);
    var s := "Provided " + "name";
    OccursExtendRight(s, " ", "name", k);
    OccursExtendRight(s + " ", name, "name", k);
    OccursExtendRight(s + " " + name,
      " contains invalid character(s). Valid names must only include alphanumeric", "name", k);
    OccursExtendRight(s + " " + name
      + " contains invalid character(s). Valid names must only include alphanumeric",
      " characters, spaces, -, and _ characters, and cannot be empty.", "name", k);
    OccursExtendRight(s, " exceeds maximum length of 10485760", "name", k);
  }

  /** Both name-conflict messages say "already exists". */
  lemma ConflictMessagesMentionAlreadyExists(name: string, parentFolderId: Option<Id>)
    ensures Mentions(FolderConflictMessage(name, parentFolderId), "already exists")
    ensures Mentions(ObjectConflictMessage(name, parentFolderId), "already exists")
  {
    var loc := Location(parentFolderId);
    OccursWhole("already exists");
    var fh := "Folder with name " + name + "" + " ";
    OccursExtendLeft(fh, "already exists", "already exists", 0);
    OccursExtendRight(fh + "already exists", " inside ", "already exists", |fh|);
    OccursExtendRight(fh + "already exists" + " inside ", loc, "already exists", |fh|);
    var oh := "Contained object with name " + name + " ";
    OccursExtendLeft(oh, "already exists", "already exists", 0);
    OccursExtendRight(oh + "already exists", " inside folder ", "already exists", |oh|);
    OccursExtendRight(oh + "already exists" + " inside folder ", loc, "already exists", |oh|);
  }

  /** The override message says "spend profile". */
  lemma SpendProfileMessageMentionsSpendProfile(requested: Id, fromParent: Id)
    ensures Mentions(SpendProfileMessage(requested, fromParent), "spend profile")
  {
    var h := "You cannot override a parent folder's ";
    var k := |h|;
    OccursWhole("spend profile");
    OccursExtendLeft(h, "spend profile", "spend profile", 0);
    var s := h + "spend profile";
    OccursExtendRight(s, ". Request provided spend profile: ", "spend profile", k);
    s := s + ". Request provided spend profile: ";
    OccursExtendRight(s, requested, "spend profile", k);
    s := s + requested;
    OccursExtendRight(s, " but parent folder has spend profile: ", "spend profile", k);
    s := s + " but parent folder has spend profile: ";
    OccursExtendRight(s, fromParent, "spend profile", k);
  }
}
