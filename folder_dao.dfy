/** FolderDao: the `folder` table and the `contained_object` table, held in memory. The SQL is
    modelled by what it means on the rows. `folder_id` is taken to be the table's key, so the
    rows of `folder` have distinct ids. */
module FolderDb {
  import opened Results
  import opened Api
  import opened Errors

  /** A row of `folder`; an absent parent or spend profile is a NULL column. */
  datatype FolderRow = FolderRow(
    id: Id,
    name: string,
    parentFolderId: Option<Id>,
    spendProfileId: Option<Id>,
    spendProfileInherited: bool)

  /** A row of `contained_object`. */
  datatype ObjectRow = ObjectRow(objectId: Id, folderId: Id, name: string)

  ghost predicate HasId(rows: seq<FolderRow>, id: Id) {
    exists i :: 0 <= i < |rows| && rows[i].id == id
  }

  ghost predicate UniqueIds(rows: seq<FolderRow>) {
    forall i, j :: 0 <= i < j < |rows| ==> rows[i].id != rows[j].id
  }

  /** Some folder row has this parent and this name. `parent_folder_id = NULL` is never true
      in SQL, so no row is a match for an absent parent. */
  ghost predicate SiblingFolderNamed(rows: seq<FolderRow>, parent: Option<Id>, name: string) {
    parent.Some? && exists i :: 0 <= i < |rows| && rows[i].parentFolderId == parent && rows[i].name == name
  }

  /** Some contained object lies in this folder and has this name; never for an absent folder. */
  ghost predicate SiblingObjectNamed(objects: seq<ObjectRow>, folder: Option<Id>, name: string) {
    folder.Some? && exists i :: 0 <= i < |objects| && objects[i].folderId == folder.value && objects[i].name == name
  }

  /** `SELECT ... FROM folder WHERE folder_id = :id`: the first row with the id, if any. */
  function Lookup(rows: seq<FolderRow>, id: Id): (r: Option<FolderRow>)
    ensures r.None? <==> !HasId(rows, id)
    ensures r.Some? ==> r.value in rows && r.value.id == id
  {
    if rows == [] then None
    else if rows[0].id == id then Some(rows[0])
    else
      var r := Lookup(rows[1..], id);
      assert HasId(rows, id) ==> HasId(rows[1..], id) by {
        if HasId(rows, id) {
          var i :| 0 <= i < |rows| && rows[i].id == id;
          assert rows[1..][i - 1].id == id;
        }
      }
      assert r.Some? ==> HasId(rows, id) by {
        if r.Some? {
          var i :| 0 <= i < |rows[1..]| && rows[1..][i] == r.value;
          assert rows[i + 1].id == id;
        }
      }
      r
  }

  /** `DELETE FROM folder WHERE folder_id = :id`: the rows that remain, in order. */
  function Without(rows: seq<FolderRow>, id: Id): (r: seq<FolderRow>)
    ensures forall x :: x in r <==> x in rows && x.id != id
  {
    if rows == [] then []
    else if rows[0].id == id then Without(rows[1..], id)
    else [rows[0]] + Without(rows[1..], id)
  }

  /** The scan of `SELECT folder_id FROM folder WHERE parent_folder_id = :id AND folder_name = :name`. */
  function AnyChildNamed(rows: seq<FolderRow>, parent: Id, name: string): (b: bool)
    ensures b <==> SiblingFolderNamed(rows, Some(parent), name)
  {
    if rows == [] then false
    else if rows[0].parentFolderId == Some(parent) && rows[0].name == name then true
    else
      var b := AnyChildNamed(rows[1..], parent, name);
      assert SiblingFolderNamed(rows, Some(parent), name) ==> b by {
        if SiblingFolderNamed(rows, Some(parent), name) {
          var i :| 0 <= i < |rows| && rows[i].parentFolderId == Some(parent) && rows[i].name == name;
          assert rows[1..][i - 1] == rows[i];
        }
      }
      assert b ==> SiblingFolderNamed(rows, Some(parent), name) by {
        if b {
          var i :| 0 <= i < |rows[1..]| && rows[1..][i].parentFolderId == Some(parent) && rows[1..][i].name == name;
          assert rows[i + 1] == rows[1..][i];
        }
      }
      b
  }

  /** The scan of `SELECT object_id FROM contained_object WHERE folder_id = :id AND object_name = :name`. */
  function AnyObjectNamed(objects: seq<ObjectRow>, folder: Id, name: string): (b: bool)
    ensures b <==> SiblingObjectNamed(objects, Some(folder), name)
  {
    if objects == [] then false
    else if objects[0].folderId == folder && objects[0].name == name then true
    else
      var b := AnyObjectNamed(objects[1..], folder, name);
      assert SiblingObjectNamed(objects, Some(folder), name) ==> b by {
        if SiblingObjectNamed(objects, Some(folder), name) {
          var i :| 0 <= i < |objects| && objects[i].folderId == folder && objects[i].name == name;
          assert objects[1..][i - 1] == objects[i];
        }
      }
      assert b ==> SiblingObjectNamed(objects, Some(folder), name) by {
        if b {
          var i :| 0 <= i < |objects[1..]| && objects[1..][i].folderId == folder && objects[1..][i].name == name;
          assert objects[i + 1] == objects[1..][i];
        }
      }
      b
  }

  /** A delete removes at least one row exactly when a row with the id exists (the
      `rowsAffected > 0` test). */
  lemma {:induction false} WithoutShrinks(rows: seq<FolderRow>, id: Id)
    ensures |Without(rows, id)| <= |rows|
    ensures |Without(rows, id)| < |rows| <==> HasId(rows, id)
  {
    if rows != [] {
      WithoutShrinks(rows[1..], id);
      if HasId(rows[1..], id) {
        var i :| 0 <= i < |rows[1..]| && rows[1..][i].id == id;
        assert rows[i + 1].id == id;
      }
      if HasId(rows, id) && rows[0].id != id {
        var i :| 0 <= i < |rows| && rows[i].id == id;
        assert rows[1..][i - 1].id == id;
      }
    }
  }

  /** Deleting an id no row has leaves the table as it was. */
  lemma {:induction false} WithoutAbsent(rows: seq<FolderRow>, id: Id)
    requires !HasId(rows, id)
    ensures Without(rows, id) == rows
  {
    if rows != [] {
      WithoutAbsent(rows[1..], id);
      assert rows[0].id != id;
      assert rows == [rows[0]] + rows[1..];
    }
  }

  lemma {:induction false} WithoutDistributes(a: seq<FolderRow>, b: seq<FolderRow>, id: Id)
    ensures Without(a + b, id) == Without(a, id) + Without(b, id)
  {
    if a != [] {
      assert (a + b)[1..] == a[1..] + b;
      WithoutDistributes(a[1..], b, id);
    } else {
      assert a + b == b;
    }
  }

  /** Inserting a row with a fresh id and then deleting that id restores the table. */
  lemma InsertThenDeleteRestores(rows: seq<FolderRow>, row: FolderRow)
    requires !HasId(rows, row.id)
    ensures Without(rows + [row], row.id) == rows
  {
    WithoutDistributes(rows, [row], row.id);
    WithoutAbsent(rows, row.id);
  }

  /** Deleting an id twice has the effect of deleting it once. */
  lemma DeleteIdempotent(rows: seq<FolderRow>, id: Id)
    ensures Without(Without(rows, id), id) == Without(rows, id)
  {
    WithoutAbsent(Without(rows, id), id);
  }

  /** Deleting rows keeps the ids distinct. */
  lemma {:induction false} WithoutKeepsUnique(rows: seq<FolderRow>, id: Id)
    requires UniqueIds(rows)
    ensures UniqueIds(Without(rows, id))
  {
    if rows != [] {
      assert UniqueIds(rows[1..]) by {
        forall i, j | 0 <= i < j < |rows[1..]| ensures rows[1..][i].id != rows[1..][j].id {
          assert rows[1..][i] == rows[i + 1] && rows[1..][j] == rows[j + 1];
        }
      }
      WithoutKeepsUnique(rows[1..], id);
      if rows[0].id != id {
        var tail := Without(rows[1..], id);
        forall x | x in tail ensures x.id != rows[0].id {
          var j :| 0 <= j < |rows[1..]| && rows[1..][j] == x;
          assert rows[j + 1] == x;
        }
        var r := [rows[0]] + tail;
        forall i, j | 0 <= i < j < |r| ensures r[i].id != r[j].id {
          if i == 0 {
            assert r[j] == tail[j - 1];
            assert r[j] in tail;
          } else {
            assert r[i] == tail[i - 1] && r[j] == tail[j - 1];
          }
        }
      }
    }
  }

  class FolderDao {
    var folders: seq<FolderRow>
    var objects: seq<ObjectRow>

    ghost predicate Valid()
      reads this
    {
      UniqueIds(folders)
    }

    constructor (folders: seq<FolderRow>, objects: seq<ObjectRow>)
      requires UniqueIds(folders)
      ensures Valid()
      ensures this.folders == folders && this.objects == objects
    {
      this.folders := folders;
      this.objects := objects;
    }

    /** INSERT one folder row. Ids are random UUIDs, so the id is fresh. */
    method CreateFolder(
      folderId: Id,
      folderName: string,
      parentFolderId: Option<Id>,
      spendProfile: Option<Id>,
      spendProfileInherited: bool)
      requires Valid()
      requires !HasId(folders, folderId)
      modifies this
      ensures Valid()
      ensures folders == old(folders) + [FolderRow(folderId, folderName, parentFolderId, spendProfile, spendProfileInherited)]
      ensures HasId(folders, folderId)
      ensures objects == old(objects)
    {
      folders := folders + [FolderRow(folderId, folderName, parentFolderId, spendProfile, spendProfileInherited)];
      assert folders[|folders| - 1].id == folderId;
    }

    /** DELETE the row with the id; reports whether a row was affected. */
    method DeleteFolder(folderId: Id) returns (deleted: bool)
      requires Valid()
      modifies this
      ensures Valid()
      ensures deleted <==> old(HasId(folders, folderId))
      ensures folders == Without(old(folders), folderId)
      ensures !HasId(folders, folderId)
      ensures forall x :: x in old(folders) && x.id != folderId ==> x in folders
      ensures !deleted ==> folders == old(folders)
      ensures objects == old(objects)
    {
      var before := |folders|;
      WithoutShrinks(folders, folderId);
      WithoutKeepsUnique(folders, folderId);
      if !HasId(folders, folderId) {
        WithoutAbsent(folders, folderId);
      }
      folders := Without(folders, folderId);
      deleted := |folders| < before;
    }

    /** The spend profile column of the folder (NULL is `None`), or FolderNotFound. */
    function GetSpendProfileFromFolder(folderId: Id): (r: Result<Option<Id>, FolderError>)
      reads this
      ensures r.Err? <==> !HasId(folders, folderId)
      ensures r.Err? ==> r.error == FolderNotFound(NotFoundMessage(folderId))
      ensures r.Ok? ==> exists i :: 0 <= i < |folders| && folders[i].id == folderId && folders[i].spendProfileId == r.value
      ensures r.Ok? && Valid() ==>
        forall i :: 0 <= i < |folders| && folders[i].id == folderId ==> folders[i].spendProfileId == r.value
    {
      match Lookup(folders, folderId)
      case None => Err(FolderNotFound(NotFoundMessage(folderId)))
      case Some(row) => Ok(row.spendProfileId)
    }

    /** The spend_profile_inherited column of the folder, or FolderNotFound. */
    function GetSpendProfileInheritedFromFolder(folderId: Id): (r: Result<bool, FolderError>)
      reads this
      ensures r.Err? <==> !HasId(folders, folderId)
      ensures r.Err? ==> r.error == FolderNotFound(NotFoundMessage(folderId))
      ensures r.Ok? ==> exists i :: 0 <= i < |folders| && folders[i].id == folderId && folders[i].spendProfileInherited == r.value
      ensures r.Ok? && Valid() ==>
        forall i :: 0 <= i < |folders| && folders[i].id == folderId ==> folders[i].spendProfileInherited == r.value
    {
      match Lookup(folders, folderId)
      case None => Err(FolderNotFound(NotFoundMessage(folderId)))
      case Some(row) => Ok(row.spendProfileInherited)
    }

    /** Whether a contained object of the folder already has the name; false for no folder. */
    function ContainedObjectNameExists(parentFolderId: Option<Id>, name: string): (b: bool)
      reads this
      ensures b <==> SiblingObjectNamed(objects, parentFolderId, name)
      ensures parentFolderId.None? ==> !b
    {
      match parentFolderId
      case None => false
      case Some(p) => AnyObjectNamed(objects, p, name)
    }

    /** Whether a sub-folder of the folder already has the name; false for no folder. */
    function ContainedFolderNameExists(parentFolderId: Option<Id>, name: string): (b: bool)
      reads this
      ensures b <==> SiblingFolderNamed(folders, parentFolderId, name)
      ensures parentFolderId.None? ==> !b
    {
      match parentFolderId
      case None => false
      case Some(p) => AnyChildNamed(folders, p, name)
    }
  }

  /** Two top-level folders may share a name: the sibling query never matches a NULL parent. */
  lemma TopLevelNamesNeverConflict(dao: FolderDao, name: string)
    ensures !dao.ContainedFolderNameExists(None, name)
    ensures !dao.ContainedObjectNameExists(None, name)
  {
  }
}
