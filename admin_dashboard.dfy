/** The admin dashboard: role gating of the user-management controls,
    adding users, versioned content writes with an append-only history, the
    publish toggle, soft deletion of media, uploads and the settings editor.
    Every write is followed in the page by a full reload, so the page's lists
    are views of the store (`MediaList` is the only filtered one). */
module AdminDashboard {
  import opened Values
  import opened Tables
  import opened Store

  // ---------------------------------------------------------------------
  // Role gating

  /** Position in the role hierarchy. */
  function Rank(r: Role): nat
  {
    match r
    case SuperAdmin => 3
    case Admin => 2
    case Editor => 1
  }

  /** `canManageUser`: nobody without an admin row; a super admin manages
      every role; an admin manages only roles ranked strictly below their own. */
  predicate CanManageUser(current: Option<AdminUser>, target: Role)
    ensures CanManageUser(current, target) <==>
      current.Some? && (current.value.role == SuperAdmin || Rank(target) < Rank(current.value.role))
  {
    if current.None? then false
    else if current.value.role == SuperAdmin then true
    else if current.value.role == Admin && target == Editor then true
    else false
  }

  /** Whether a user's row carries the activate/deactivate and delete
      buttons: the caller may manage the row's role and it is not the
      caller's own row. */
  predicate ShowsManageControls(current: Option<AdminUser>, sessionUser: Option<string>, row: AdminUser)
    ensures ShowsManageControls(current, sessionUser, row) ==> sessionUser != Some(row.userId)
    ensures ShowsManageControls(current, sessionUser, row) ==> current.Some? && current.value.role != Editor
    ensures current.Some? && current.value.role == Admin ==>
      (ShowsManageControls(current, sessionUser, row) <==> row.role == Editor && sessionUser != Some(row.userId))
    ensures current.Some? && current.value.role == SuperAdmin ==>
      (ShowsManageControls(current, sessionUser, row) <==> sessionUser != Some(row.userId))
  {
    CanManageUser(current, row.role) && Some(row.userId) != sessionUser
  }

  /** The "Add New User" button is shown to super admins and admins. */
  predicate CanAddUsers(current: Option<AdminUser>)
  {
    current.Some? && (current.value.role == SuperAdmin || current.value.role == Admin)
  }

  /** The roles offered in the add-user dialog. */
  function RoleChoices(current: Option<AdminUser>): (r: seq<Role>)
    ensures Editor in r
    ensures SuperAdmin !in r
    ensures Admin in r <==> current.Some? && current.value.role == SuperAdmin
  {
    if current.Some? && current.value.role == SuperAdmin then [Admin, Editor] else [Editor]
  }

  // ---------------------------------------------------------------------
  // Adding a user

  datatype NewUserCheck = MissingInformation | PasswordTooShort | Accepted

  /** The two guards of `addNewUser`, in their order. */
  function CheckNewUser(email: string, name: string, password: string): (r: NewUserCheck)
    ensures r == Accepted <==> email != "" && name != "" && |password| >= 6
    ensures r == MissingInformation <==> email == "" || name == "" || password == ""
    ensures r == PasswordTooShort ==> 0 < |password| < 6
  {
    if email == "" || name == "" || password == "" then MissingInformation
    else if |password| < 6 then PasswordTooShort
    else Accepted
  }

  /** What the auth admin API returns for `createUser`. */
  datatype AuthCreate = AuthError | AuthCreated(userId: string)

  datatype AddUserOutcome = Rejected(reason: NewUserCheck) | Failed | Added

  // ---------------------------------------------------------------------
  // Content writes

  /** `contentSections.find(s => s.section_key === key)`. */
  function FindSection(sections: seq<Section>, key: string): (r: Option<Section>)
    ensures r.Some? ==> r.value in sections && r.value.key == key
  {
    if sections == [] then None
    else if sections[0].key == key then Some(sections[0])
    else FindSection(sections[1..], key)
  }

  /** `find` comes back empty exactly when no loaded row has the key. */
  lemma {:induction false} FindSectionNone(sections: seq<Section>, key: string)
    ensures FindSection(sections, key).None? <==> forall i :: 0 <= i < |sections| ==> sections[i].key != key
    decreases |sections|
  {
    if sections != [] && sections[0].key != key {
      FindSectionNone(sections[1..], key);
      assert forall i :: 1 <= i < |sections| ==> sections[i] == sections[1..][i - 1];
    }
  }

  /** `FindSection` returns the row at the first index that carries the key. */
  lemma {:induction false} FindFirstAt(sections: seq<Section>, key: string, i: nat)
    requires i < |sections| && sections[i].key == key
    requires forall j :: 0 <= j < i ==> sections[j].key != key
    ensures FindSection(sections, key) == Some(sections[i])
    decreases i
  {
    if i > 0 {
      FindFirstAt(sections[1..], key, i - 1);
    }
  }

  /** The index of the row `FindSection` returns: the first with the key. */
  lemma {:induction false} FindIndex(sections: seq<Section>, key: string) returns (i: nat)
    requires FindSection(sections, key).Some?
    ensures i < |sections| && sections[i] == FindSection(sections, key).value
    ensures forall j :: 0 <= j < i ==> sections[j].key != key
    decreases |sections|
  {
    if sections[0].key == key {
      i := 0;
    } else {
      var k := FindIndex(sections[1..], key);
      i := k + 1;
    }
  }

  /** `find(...)?.version + 1 || 1`: one more than the loaded version of the
      section, or 1 when the key is not loaded (NaN) or the sum is 0. */
  function NextVersion(sections: seq<Section>, key: string): (v: int)
    ensures v != 0
    ensures FindSection(sections, key).None? ==> v == 1
    ensures FindSection(sections, key).Some? && FindSection(sections, key).value.version >= 0 ==>
      v == FindSection(sections, key).value.version + 1
  {
    var found := FindSection(sections, key);
    if found.None? then 1
    else if found.value.version + 1 == 0 then 1
    else found.value.version + 1
  }

  /** `.update({content, updated_by, version}).eq('section_key', key)`: every
      row with the key gets the new content, author and version. */
  function WriteContent(sections: seq<Section>, key: string, content: Content, author: Option<string>, version: int): (r: seq<Section>)
    ensures |r| == |sections|
    ensures forall i :: 0 <= i < |r| ==>
      r[i] == if sections[i].key == key then sections[i].(content := content, version := version, updatedBy := author) else sections[i]
  {
    seq(|sections|, i requires 0 <= i < |sections| =>
      if sections[i].key == key then sections[i].(content := content, version := version, updatedBy := author) else sections[i])
  }

  /** The history row that records a content write. */
  function HistoryEntry(key: string, content: Content, version: int, author: Option<string>): HistoryRow
  {
    HistoryRow(key, content, version, "update", author)
  }

  /** Content sections and history together, the state one content write changes. */
  datatype ContentLog = ContentLog(sections: seq<Section>, history: seq<HistoryRow>)

  /** One fully successful `updateContent`: the write, then the history append. */
  function Save(log: ContentLog, key: string, content: Content, author: Option<string>): ContentLog
  {
    var v := NextVersion(log.sections, key);
    ContentLog(WriteContent(log.sections, key, content, author, v), log.history + [HistoryEntry(key, content, v, author)])
  }

  /** Successive successful saves of one key, in order. */
  function SaveAll(log: ContentLog, key: string, contents: seq<Content>, author: Option<string>): ContentLog
    decreases |contents|
  {
    if contents == [] then log else SaveAll(Save(log, key, contents[0], author), key, contents[1..], author)
  }

  /** A write leaves the first row with the key carrying the new version. */
  lemma WriteContentFirstRow(sections: seq<Section>, key: string, content: Content, author: Option<string>, v: int)
    requires FindSection(sections, key).Some?
    ensures FindSection(WriteContent(sections, key, content, author, v), key)
         == Some(FindSection(sections, key).value.(content := content, version := v, updatedBy := author))
  {
    var w := WriteContent(sections, key, content, author, v);
    var i := FindIndex(sections, key);
    FindFirstAt(w, key, i);
  }

  /** One save: the first row with the key moves to the next version and
      the history grows by exactly the row recording it. */
  lemma SaveStep(log: ContentLog, key: string, content: Content, author: Option<string>)
    requires FindSection(log.sections, key).Some? && FindSection(log.sections, key).value.version >= 0
    ensures var v0 := FindSection(log.sections, key).value.version;
            var next := Save(log, key, content, author);
            && FindSection(next.sections, key).Some?
            && FindSection(next.sections, key).value.version == v0 + 1
            && |next.sections| == |log.sections|
            && next.history == log.history + [HistoryEntry(key, content, v0 + 1, author)]
  {
    var v0 := FindSection(log.sections, key).value.version;
    var v := NextVersion(log.sections, key);
    assert v == v0 + 1;
    var next := Save(log, key, content, author);
    assert next.sections == WriteContent(log.sections, key, content, author, v);
    assert next.history == log.history + [HistoryEntry(key, content, v, author)];
    WriteContentFirstRow(log.sections, key, content, author, v);
  }

  lemma SaveAllCons(log: ContentLog, key: string, contents: seq<Content>, author: Option<string>)
    requires contents != []
    ensures SaveAll(log, key, contents, author) == SaveAll(Save(log, key, contents[0], author), key, contents[1..], author)
  {
  }

  /** The history rows that `n` saves starting from version `v0` append. */
  function Entries(key: string, contents: seq<Content>, v0: int, author: Option<string>): seq<HistoryRow>
    decreases |contents|
  {
    if contents == [] then []
    else [HistoryEntry(key, contents[0], v0 + 1, author)] + Entries(key, contents[1..], v0 + 1, author)
  }

  lemma EntriesCons(key: string, contents: seq<Content>, v0: int, author: Option<string>)
    requires contents != []
    ensures Entries(key, contents, v0, author)
         == [HistoryEntry(key, contents[0], v0 + 1, author)] + Entries(key, contents[1..], v0 + 1, author)
  {
  }

  /** The k-th appended row records the k-th content with version v0 + k + 1. */
  lemma {:induction false} EntriesAt(key: string, contents: seq<Content>, v0: int, author: Option<string>, k: nat)
    requires k < |contents|
    ensures |Entries(key, contents, v0, author)| == |contents|
    ensures Entries(key, contents, v0, author)[k] == HistoryEntry(key, contents[k], v0 + k + 1, author)
    decreases k
  {
    EntriesLength(key, contents, v0, author);
    if k > 0 {
      EntriesAt(key, contents[1..], v0 + 1, author, k - 1);
    }
  }

  lemma {:induction false} EntriesLength(key: string, contents: seq<Content>, v0: int, author: Option<string>)
    ensures |Entries(key, contents, v0, author)| == |contents|
    decreases |contents|
  {
    if contents != [] {
      EntriesLength(key, contents[1..], v0 + 1, author);
    }
  }

  /** N successive saves of a loaded key raise its version by N. */
  lemma {:induction false} SavesBumpVersion(log: ContentLog, key: string, contents: seq<Content>, author: Option<string>)
    requires FindSection(log.sections, key).Some? && FindSection(log.sections, key).value.version >= 0
    ensures FindSection(SaveAll(log, key, contents, author).sections, key).Some?
    ensures FindSection(SaveAll(log, key, contents, author).sections, key).value.version
         == FindSection(log.sections, key).value.version + |contents|
    decreases |contents|
  {
    if contents != [] {
      SaveStep(log, key, contents[0], author);
      SavesBumpVersion(Save(log, key, contents[0], author), key, contents[1..], author);
    }
  }

  /** N successive saves of a loaded key append exactly the N history rows
      that record them, after the earlier history. */
  lemma {:induction false} SavesAppendHistory(log: ContentLog, key: string, contents: seq<Content>, author: Option<string>)
    requires FindSection(log.sections, key).Some? && FindSection(log.sections, key).value.version >= 0
    ensures SaveAll(log, key, contents, author).history
         == log.history + Entries(key, contents, FindSection(log.sections, key).value.version, author)
    decreases |contents|
  {
    if contents != [] {
      var v0 := FindSection(log.sections, key).value.version;
      var h := HistoryEntry(key, contents[0], v0 + 1, author);
      var rest := Entries(key, contents[1..], v0 + 1, author);
      calc {
        SaveAll(log, key, contents, author).history;
      == { SaveAllCons(log, key, contents, author); }
        SaveAll(Save(log, key, contents[0], author), key, contents[1..], author).history;
      == { SaveStep(log, key, contents[0], author);
           SavesAppendHistory(Save(log, key, contents[0], author), key, contents[1..], author); }
        Save(log, key, contents[0], author).history + rest;
      == { SaveStep(log, key, contents[0], author); }
        (log.history + [h]) + rest;
      == { ConcatAssoc(log.history, [h], rest); }
        log.history + ([h] + rest);
      == { EntriesCons(key, contents, v0, author); }
        log.history + Entries(key, contents, v0, author);
      }
    }
  }

  // ---------------------------------------------------------------------
  // Publish toggle, soft deletion, users, settings

  /** `.update({is_published: value}).eq('id', id)`. */
  function SetPublished(sections: seq<Section>, id: string, value: bool): (r: seq<Section>)
    ensures |r| == |sections|
    ensures forall i :: 0 <= i < |r| ==>
      r[i] == if sections[i].id == id then sections[i].(isPublished := value) else sections[i]
  {
    seq(|sections|, i requires 0 <= i < |sections| =>
      if sections[i].id == id then sections[i].(isPublished := value) else sections[i])
  }

  predicate UniqueSectionIds(sections: seq<Section>)
  {
    forall i, j :: 0 <= i < j < |sections| ==> sections[i].id != sections[j].id
  }

  /** With unique ids, publishing toggles are an involution: toggling the
      same card twice restores the table. */
  lemma ToggleTwiceRestores(sections: seq<Section>, i: nat)
    requires i < |sections| && UniqueSectionIds(sections)
    ensures var once := SetPublished(sections, sections[i].id, !sections[i].isPublished);
            SetPublished(once, once[i].id, !once[i].isPublished) == sections
  {
    var once := SetPublished(sections, sections[i].id, !sections[i].isPublished);
    var twice := SetPublished(once, once[i].id, !once[i].isPublished);
    forall k | 0 <= k < |sections| ensures twice[k] == sections[k] {
      if k != i {
        if k < i { assert sections[k].id != sections[i].id; }
        else { assert sections[i].id != sections[k].id; }
      }
    }
  }

  /** `.update({is_active: false}).eq('id', id)` on the media table. */
  function SoftDelete(assets: seq<MediaAsset>, id: string): (r: seq<MediaAsset>)
    ensures |r| == |assets|
    ensures forall i :: 0 <= i < |r| ==>
      r[i] == if assets[i].id == id then assets[i].(isActive := false) else assets[i]
  {
    seq(|assets|, i requires 0 <= i < |assets| =>
      if assets[i].id == id then assets[i].(isActive := false) else assets[i])
  }

  /** After a soft delete, the reloaded media list is the old list without
      the deleted asset: nothing else disappears and nothing reappears. */
  lemma SoftDeleteHidesOnlyThatAsset(assets: seq<MediaAsset>, id: string)
    ensures forall a :: a in ActiveAssets(SoftDelete(assets, id)) <==> a in ActiveAssets(assets) && a.id != id
  {
    var r := SoftDelete(assets, id);
    forall a | a in ActiveAssets(r) ensures a in ActiveAssets(assets) && a.id != id {
      var i :| 0 <= i < |r| && r[i] == a;
    }
    forall a | a in ActiveAssets(assets) && a.id != id ensures a in ActiveAssets(r) {
      var i :| 0 <= i < |assets| && assets[i] == a;
      assert r[i] == a;
    }
  }

  /** `.update({is_active: value}).eq('id', id)` on the admin table. */
  function SetUserActive(admins: seq<AdminUser>, id: string, value: bool): (r: seq<AdminUser>)
    ensures |r| == |admins|
    ensures forall i :: 0 <= i < |r| ==>
      r[i] == if admins[i].id == id then admins[i].(isActive := value) else admins[i]
  {
    seq(|admins|, i requires 0 <= i < |admins| =>
      if admins[i].id == id then admins[i].(isActive := value) else admins[i])
  }

  /** `.delete().eq('id', id)` on the admin table: a hard delete. */
  function RemoveUser(admins: seq<AdminUser>, id: string): (r: seq<AdminUser>)
    ensures forall u :: u in r <==> u in admins && u.id != id
    ensures |r| <= |admins|
  {
    if admins == [] then []
    else (if admins[0].id == id then [] else [admins[0]]) + RemoveUser(admins[1..], id)
  }

  /** `.update({setting_value: value}).eq('setting_key', key)`. */
  function SetSetting(settings: seq<Setting>, key: string, value: Json): (r: seq<Setting>)
    ensures |r| == |settings|
    ensures forall i :: 0 <= i < |r| ==>
      r[i] == if settings[i].key == key then settings[i].(value := value) else settings[i]
  {
    seq(|settings|, i requires 0 <= i < |settings| =>
      if settings[i].key == key then settings[i].(value := value) else settings[i])
  }

  // ---------------------------------------------------------------------
  // Uploads

  /** A file chosen in the browser. */
  datatype FileInfo = FileInfo(name: string, mimeType: string, size: int)

  /** The storage folder: the category, `general` when none is given. */
  function Folder(category: Option<string>): string
  {
    if category.Some? then category.value else "general"
  }

  /** `<category>/<Date.now()>.<ext>`, where the extension is what follows
      the last '.' of the file name (the whole name when it has none). */
  function UploadPath(category: Option<string>, timestamp: nat, fileName: string): string
  {
    Folder(category) + "/" + Decimal(timestamp) + "." + AfterLast(fileName, '.')
  }

  /** An upload path keeps the file's extension. */
  lemma UploadPathExtension(category: Option<string>, timestamp: nat, fileName: string)
    ensures AfterLast(UploadPath(category, timestamp, fileName), '.') == AfterLast(fileName, '.')
  {
    var ext := AfterLast(fileName, '.');
    AfterLastIsSuffix(fileName, '.');
    DecimalHasNoDot(timestamp);
    assert UploadPath(category, timestamp, fileName) == (Folder(category) + "/" + Decimal(timestamp)) + ['.'] + ext;
    AfterLastOfJoin(Folder(category) + "/" + Decimal(timestamp), '.', ext);
  }

  /** An upload path's folder is the category, when the category is one
      path segment. */
  lemma UploadPathFolder(category: Option<string>, timestamp: nat, fileName: string)
    requires '/' !in Folder(category)
    ensures BeforeFirst(UploadPath(category, timestamp, fileName), '/') == Folder(category)
  {
    var rest := Decimal(timestamp) + "." + AfterLast(fileName, '.');
    assert UploadPath(category, timestamp, fileName) == Folder(category) + ['/'] + rest;
    BeforeFirstOfJoin(Folder(category), '/', rest);
  }

  /** Regrouping an upload path around its first '/'. */
  lemma RegroupPath(folder: string, stamp: string, ext: string)
    ensures folder + "/" + stamp + "." + ext == folder + ['/'] + (stamp + "." + ext)
  {
  }

  /** An upload path's last segment is the timestamp and the extension,
      whatever the original name was, when that name is one path segment. */
  lemma UploadPathFileName(category: Option<string>, timestamp: nat, fileName: string)
    requires '/' !in fileName
    ensures AfterLast(UploadPath(category, timestamp, fileName), '/') == Decimal(timestamp) + "." + AfterLast(fileName, '.')
  {
    var ext := AfterLast(fileName, '.');
    var rest := Decimal(timestamp) + "." + ext;
    AfterLastAvoids(fileName, '.', '/');
    DecimalHasNoDot(timestamp);
    assert '/' !in rest;
    RegroupPath(Folder(category), Decimal(timestamp), ext);
    AfterLastOfJoin(Folder(category), '/', rest);
  }

  /** The extension is the whole name exactly when the name has no dot. */
  lemma ExtensionIsWholeName(fileName: string)
    ensures AfterLast(fileName, '.') == fileName <==> '.' !in fileName
  {
    AfterLastIsSuffix(fileName, '.');
    if '.' in fileName {
      assert |AfterLast(fileName, '.')| < |fileName|;
    }
  }

  // ---------------------------------------------------------------------
  // The page

  /** What the page's auth check decides on mount. */
  datatype Gate = ToLogin | AccessDenied | Authorised

  class Dashboard {
    const db: Database
    /** `user?.id`: the session's auth identity. */
    var user: Option<string>
    var currentAdmin: Option<AdminUser>
    var newUserEmail: string
    var newUserPassword: string
    var newUserName: string
    var newUserRole: Role
    var addUserDialogOpen: bool

    constructor (db: Database)
      ensures this.db == db && user.None? && currentAdmin.None?
      ensures newUserEmail == "" && newUserPassword == "" && newUserName == ""
      ensures newUserRole == Editor && !addUserDialogOpen
    {
      this.db := db;
      user, currentAdmin := None, None;
      newUserEmail, newUserPassword, newUserName := "", "", "";
      newUserRole, addUserDialogOpen := Editor, false;
    }

    /** The media tab lists only assets that are still active. */
    function MediaList(): (r: seq<MediaAsset>)
      reads db
      ensures forall a :: a in r <==> a in db.assets && a.isActive
    {
      ActiveAssets(db.assets)
    }

    /** `checkAuth`: no session goes to the login page; a session without
        exactly one active admin row is signed out and denied; otherwise the
        row becomes the permission context. */
    method CheckAuth() returns (gate: Gate)
      modifies this, db
      ensures old(db.session).Some? ==> user == old(db.session)
      ensures old(db.session).None? ==> gate == ToLogin && unchanged(db) && currentAdmin == old(currentAdmin) && user == old(user)
      ensures old(db.session).Some? ==>
        var row := ActiveAdminFor(db.admins, old(db.session).value);
        && (row.None? ==> gate == AccessDenied && db.session.None?)
        && (row.Some? ==> gate == Authorised && currentAdmin == row && db.session == old(db.session))
      ensures db.admins == old(db.admins) && db.sections == old(db.sections) && db.history == old(db.history)
      ensures db.assets == old(db.assets) && db.settings == old(db.settings)
    {
      if db.session.None? {
        return ToLogin;
      }
      user := db.session;
      var row := ActiveAdminFor(db.admins, db.session.value);
      if row.None? {
        db.session := None;
        return AccessDenied;
      }
      currentAdmin := row;
      gate := Authorised;
    }

    /** `addNewUser`: the field and password checks come first and reject
        without any write; then the auth identity is created and the admin
        row inserted; on success the form is reset and the dialog closed. */
    method AddNewUser(auth: AuthCreate, rowId: string, now: int, insertFailed: bool) returns (outcome: AddUserOutcome)
      modifies this, db
      ensures var check := CheckNewUser(old(newUserEmail), old(newUserName), old(newUserPassword));
        && (check != Accepted ==> outcome == Rejected(check))
        && (check == Accepted && (auth.AuthError? || insertFailed) ==> outcome == Failed)
        && (check == Accepted && auth.AuthCreated? && !insertFailed ==> outcome == Added)
      ensures outcome.Added? ==>
        && db.admins == old(db.admins) + [AdminUser(rowId, auth.userId, old(newUserEmail), old(newUserRole),
                                                     old(newUserName), true, None, now)]
        && newUserEmail == "" && newUserPassword == "" && newUserName == ""
        && newUserRole == Editor && !addUserDialogOpen
      ensures !outcome.Added? ==>
        && db.admins == old(db.admins)
        && newUserEmail == old(newUserEmail) && newUserPassword == old(newUserPassword)
        && newUserName == old(newUserName) && newUserRole == old(newUserRole)
        && addUserDialogOpen == old(addUserDialogOpen)
      ensures db.sections == old(db.sections) && db.history == old(db.history)
      ensures db.assets == old(db.assets) && db.settings == old(db.settings) && db.session == old(db.session)
      ensures user == old(user) && currentAdmin == old(currentAdmin)
    {
      var check := CheckNewUser(newUserEmail, newUserName, newUserPassword);
      if check != Accepted {
        return Rejected(check);
      }
      if auth.AuthError? || insertFailed {
        return Failed;
      }
      db.admins := db.admins + [AdminUser(rowId, auth.userId, newUserEmail, newUserRole, newUserName, true, None, now)];
      newUserEmail, newUserPassword, newUserName := "", "", "";
      newUserRole, addUserDialogOpen := Editor, false;
      outcome := Added;
    }

    /** `toggleUserStatus`: sets the row's active flag to the negation of the
        status shown on its card. */
    method ToggleUserStatus(rowId: string, shownActive: bool, failed: bool)
      modifies db
      ensures db.admins == if failed then old(db.admins) else SetUserActive(old(db.admins), rowId, !shownActive)
      ensures db.sections == old(db.sections) && db.history == old(db.history)
      ensures db.assets == old(db.assets) && db.settings == old(db.settings) && db.session == old(db.session)
    {
      if !failed {
        db.admins := SetUserActive(db.admins, rowId, !shownActive);
      }
    }

    /** `deleteUser`: removes the admin row (the auth identity stays). */
    method DeleteUser(rowId: string, failed: bool)
      modifies db
      ensures db.admins == if failed then old(db.admins) else RemoveUser(old(db.admins), rowId)
      ensures db.sections == old(db.sections) && db.history == old(db.history)
      ensures db.assets == old(db.assets) && db.settings == old(db.settings) && db.session == old(db.session)
    {
      if !failed {
        db.admins := RemoveUser(db.admins, rowId);
      }
    }

    /** `updateContent`: writes the content with the next version computed
        from the loaded rows, then appends one history row. A failed write
        throws before the history append; a failed append is not checked. */
    method UpdateContent(key: string, newContent: Content, writeFailed: bool, historyFailed: bool) returns (saved: bool)
      modifies db
      ensures saved == !writeFailed
      ensures var v := NextVersion(old(db.sections), key);
        && db.sections == (if saved then WriteContent(old(db.sections), key, newContent, user, v) else old(db.sections))
        && db.history == old(db.history) + (if saved && !historyFailed then [HistoryEntry(key, newContent, v, user)] else [])
      ensures saved && !historyFailed ==>
        ContentLog(db.sections, db.history) == Save(ContentLog(old(db.sections), old(db.history)), key, newContent, user)
      ensures db.admins == old(db.admins) && db.assets == old(db.assets)
      ensures db.settings == old(db.settings) && db.session == old(db.session)
    {
      var version := NextVersion(db.sections, key);
      if writeFailed {
        return false;
      }
      db.sections := WriteContent(db.sections, key, newContent, user, version);
      if !historyFailed {
        db.history := db.history + [HistoryEntry(key, newContent, version, user)];
      }
      saved := true;
    }

    /** The Publish/Unpublish button of the `i`-th section card: flips the
        flag shown on the card; version and history are untouched. */
    method TogglePublish(i: nat, failed: bool)
      requires i < |db.sections|
      modifies db
      ensures db.sections ==
        if failed then old(db.sections)
        else SetPublished(old(db.sections), old(db.sections[i].id), !old(db.sections[i].isPublished))
      ensures forall k :: 0 <= k < |db.sections| ==>
        db.sections[k].version == old(db.sections[k].version) && db.sections[k].content == old(db.sections[k].content)
      ensures db.history == old(db.history)
      ensures db.admins == old(db.admins) && db.assets == old(db.assets)
      ensures db.settings == old(db.settings) && db.session == old(db.session)
    {
      if !failed {
        db.sections := SetPublished(db.sections, db.sections[i].id, !db.sections[i].isPublished);
      }
    }

    /** The delete button of a media card: a soft delete. */
    method DeleteMedia(assetId: string, failed: bool)
      modifies db
      ensures db.assets == if failed then old(db.assets) else SoftDelete(old(db.assets), assetId)
      ensures |db.assets| == |old(db.assets)|
      ensures !failed ==> forall a :: a in MediaList() <==> a in old(MediaList()) && a.id != assetId
      ensures db.admins == old(db.admins) && db.sections == old(db.sections) && db.history == old(db.history)
      ensures db.settings == old(db.settings) && db.session == old(db.session)
    {
      if !failed {
        SoftDeleteHidesOnlyThatAsset(db.assets, assetId);
        db.assets := SoftDelete(db.assets, assetId);
      }
    }

    /** `updateSiteSettings`: replaces the value of every row with the key. */
    method UpdateSiteSettings(key: string, value: Json, failed: bool)
      modifies db
      ensures db.settings == if failed then old(db.settings) else SetSetting(old(db.settings), key, value)
      ensures db.admins == old(db.admins) && db.sections == old(db.sections) && db.history == old(db.history)
      ensures db.assets == old(db.assets) && db.session == old(db.session)
    {
      if !failed {
        db.settings := SetSetting(db.settings, key, value);
      }
    }

    /** `handleFileUpload`: no file, no action; otherwise the bytes are
        stored under the derived path, and only after that succeeds is the
        registry row inserted with the public URL of that path. */
    method UploadFile(file: Option<FileInfo>, category: Option<string>, now: nat,
                      storageFailed: bool, publicUrl: string -> string, rowId: string, insertFailed: bool)
      returns (asset: Option<MediaAsset>)
      modifies db
      ensures file.None? || storageFailed || insertFailed ==> asset.None? && db.assets == old(db.assets)
      ensures file.Some? && !storageFailed && !insertFailed ==>
        && asset == Some(MediaAsset(rowId, file.value.name, publicUrl(UploadPath(category, now, file.value.name)),
                                    Some(file.value.mimeType), Some(file.value.size), Folder(category),
                                    true, now, user))
        && db.assets == old(db.assets) + [asset.value]
      ensures db.admins == old(db.admins) && db.sections == old(db.sections) && db.history == old(db.history)
      ensures db.settings == old(db.settings) && db.session == old(db.session)
    {
      if file.None? {
        return None;
      }
      var path := UploadPath(category, now, file.value.name);
      if storageFailed || insertFailed {
        return None;
      }
      var row := MediaAsset(rowId, file.value.name, publicUrl(path), Some(file.value.mimeType),
                            Some(file.value.size), Folder(category), true, now, user);
      db.assets := db.assets + [row];
      asset := Some(row);
    }
  }
}
