/** What a folder request and a folder row must satisfy, stated over the tables directly:
    the reference the validators and the creation steps are proved against. */
module FolderRules {
  import opened Results
  import opened Api
  import opened Names
  import opened Errors
  import opened FolderDb

  /** The request names a spend profile that differs from the parent's. Both must be present;
      the profiles are compared by value, which is what the comments beside the comparison ask
      for. The Java code compares the two String references with `!=` (see
      OverridesAsWritten). */
  predicate Overrides(fromParent: Option<Id>, requested: Option<Id>) {
    fromParent.Some? && requested.Some? && fromParent.value != requested.value
  }

  /** The comparison as the Java code writes it: `spendProfileFromParent != spendProfile` on
      two Strings compares references. The parent's profile is a fresh String read from JDBC
      and the requested one a fresh String built by the JSON decoder, so the two references are
      never the same object and `!=` holds whenever both are non-null. */
  predicate OverridesAsWritten(fromParent: Option<Id>, requested: Option<Id>) {
    fromParent.Some? && requested.Some?
  }

  /** The reference comparison rejects a request that repeats its parent's profile; the value
      comparison accepts it. Every value override is also a reference override. */
  lemma ReferenceComparisonRejectsSameProfile()
    ensures OverridesAsWritten(Some("P1"), Some("P1"))
    ensures !Overrides(Some("P1"), Some("P1"))
    ensures forall p, q :: Overrides(p, q) ==> OverridesAsWritten(p, q)
  {
  }

  /** A parent is named but has no row. */
  ghost predicate ParentMissing(folders: seq<FolderRow>, request: CreateFolderBody) {
    request.parentFolderId.Some? && !HasId(folders, request.parentFolderId.value)
  }

  /** A parent is named, and its row carries a profile the request overrides. */
  ghost predicate ConflictingOverride(folders: seq<FolderRow>, request: CreateFolderBody) {
    request.parentFolderId.Some?
    && exists i :: 0 <= i < |folders| && folders[i].id == request.parentFolderId.value
                   && Overrides(folders[i].spendProfileId, request.spendProfile)
  }

  /** The conflict as the Java code detects it: the parent's row and the request both carry a
      profile, whatever the two are. */
  ghost predicate ConflictingOverrideAsWritten(folders: seq<FolderRow>, request: CreateFolderBody) {
    request.parentFolderId.Some?
    && exists i :: 0 <= i < |folders| && folders[i].id == request.parentFolderId.value
                   && OverridesAsWritten(folders[i].spendProfileId, request.spendProfile)
  }

  /** `message` is the override message for `request`: it quotes the requested profile and the
      profile of the parent's row. */
  ghost predicate OverrideMessage(folders: seq<FolderRow>, request: CreateFolderBody, message: string) {
    request.parentFolderId.Some? && request.spendProfile.Some?
    && exists i :: 0 <= i < |folders| && folders[i].id == request.parentFolderId.value
                   && folders[i].spendProfileId.Some?
                   && message == SpendProfileMessage(request.spendProfile.value, folders[i].spendProfileId.value)
  }

  /** A request that may create a folder: a valid name, unused by the parent's sub-folders and
      contained objects, an existing parent if one is named, and no override of its profile. */
  ghost predicate Admissible(folders: seq<FolderRow>, objects: seq<ObjectRow>, request: CreateFolderBody) {
    && IsValidName(request.name)
    && !SiblingFolderNamed(folders, request.parentFolderId, request.name)
    && !SiblingObjectNamed(objects, request.parentFolderId, request.name)
    && !ParentMissing(folders, request)
    && !ConflictingOverride(folders, request)
  }

  /** The named parent's row carries a spend profile. */
  ghost predicate ParentProfiled(folders: seq<FolderRow>, parent: Option<Id>) {
    parent.Some? && exists i :: 0 <= i < |folders| && folders[i].id == parent.value && folders[i].spendProfileId.Some?
  }

  /** The row's profile is present and is the profile of its parent's row. */
  ghost predicate InheritedFromParent(folders: seq<FolderRow>, row: FolderRow) {
    row.parentFolderId.Some? && row.spendProfileId.Some?
    && exists i :: 0 <= i < |folders| && folders[i].id == row.parentFolderId.value
                   && folders[i].spendProfileId == row.spendProfileId
  }

  /** Inheritance resolution: a folder is marked inherited exactly when its parent has a
      profile, an inherited folder carries its parent's profile, and any other folder keeps
      the requested profile. */
  ghost predicate ProfileResolved(folders: seq<FolderRow>, requested: Option<Id>, row: FolderRow) {
    && (row.spendProfileInherited <==> ParentProfiled(folders, row.parentFolderId))
    && (row.spendProfileInherited ==> InheritedFromParent(folders, row))
    && (!row.spendProfileInherited ==> row.spendProfileId == requested)
  }

  /** The row a creation step inserts for `request` under the id `folderId`. */
  ghost predicate NewFolderRow(folders: seq<FolderRow>, folderId: Id, request: CreateFolderBody, row: FolderRow) {
    && row.id == folderId
    && row.name == request.name
    && row.parentFolderId == request.parentFolderId
    && ProfileResolved(folders, request.spendProfile, row)
  }

  /** Every row marked inherited carries the profile of its parent's row. */
  ghost predicate InheritanceConsistent(folders: seq<FolderRow>) {
    forall k :: 0 <= k < |folders| && folders[k].spendProfileInherited ==> InheritedFromParent(folders, folders[k])
  }

  /** Appending a resolved row keeps every inherited row consistent with its parent. */
  lemma AppendResolvedKeepsConsistent(folders: seq<FolderRow>, requested: Option<Id>, row: FolderRow)
    requires InheritanceConsistent(folders)
    requires ProfileResolved(folders, requested, row)
    ensures InheritanceConsistent(folders + [row])
  {
    var after := folders + [row];
    forall k | 0 <= k < |after| && after[k].spendProfileInherited
      ensures InheritedFromParent(after, after[k])
    {
      var i :| 0 <= i < |folders| && folders[i].id == after[k].parentFolderId.value
               && folders[i].spendProfileId == after[k].spendProfileId;
      assert after[i] == folders[i];
    }
  }

  /** A resolved row never overrides its parent's profile: storing it keeps the rule that a
      folder does not set a profile different from the one it inherits. */
  lemma ResolvedRowNeverOverrides(folders: seq<FolderRow>, requested: Option<Id>, row: FolderRow)
    requires UniqueIds(folders)
    requires ProfileResolved(folders, requested, row)
    ensures !ConflictingOverride(folders, CreateFolderBody(row.name, row.parentFolderId, row.spendProfileId, ""))
  {
    if row.parentFolderId.Some? {
      forall i | 0 <= i < |folders| && folders[i].id == row.parentFolderId.value
        ensures !Overrides(folders[i].spendProfileId, row.spendProfileId)
      {
        if row.spendProfileInherited {
          var j :| 0 <= j < |folders| && folders[j].id == row.parentFolderId.value
                   && folders[j].spendProfileId == row.spendProfileId;
          assert i == j;
        }
      }
    }
  }
}
