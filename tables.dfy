/** The rows of the hosted store's five tables (admin users, content
    sections, content history, media assets, site settings) and the filters
    the site's queries apply to them. Timestamps are opaque integers: larger
    means later. */
module Tables {
  import opened Values

  /** The role hierarchy: super_admin > admin > editor. */
  datatype Role = SuperAdmin | Admin | Editor

  datatype AdminUser = AdminUser(
    id: string,
    userId: string,            // the linked auth identity
    email: string,
    role: Role,
    fullName: string,
    isActive: bool,
    lastLogin: Option<int>,
    createdAt: int)

  /** A section's content is a JSON object whose shape depends on its key. */
  type Content = Object

  datatype Section = Section(
    id: string,
    key: string,
    name: string,
    content: Content,
    isPublished: bool,
    version: int,
    updatedAt: int,
    updatedBy: Option<string>)

  datatype HistoryRow = HistoryRow(
    key: string,
    content: Content,
    version: int,
    action: string,
    createdBy: Option<string>)

  datatype MediaAsset = MediaAsset(
    id: string,
    fileName: string,
    filePath: string,
    fileType: Option<string>,
    fileSize: Option<int>,
    category: string,
    isActive: bool,
    createdAt: int,
    uploadedBy: Option<string>)

  datatype Setting = Setting(id: string, key: string, value: Json)

  /** `.eq('is_published', true)`: the published sections, in table order. */
  function Published(rows: seq<Section>): (r: seq<Section>)
    ensures |r| <= |rows|
    ensures forall s :: s in r <==> s in rows && s.isPublished
  {
    if rows == [] then []
    else (if rows[0].isPublished then [rows[0]] else []) + Published(rows[1..])
  }

  /** `.eq('is_active', true)`: the assets that have not been soft-deleted. */
  function ActiveAssets(rows: seq<MediaAsset>): (r: seq<MediaAsset>)
    ensures |r| <= |rows|
    ensures forall a :: a in r <==> a in rows && a.isActive
  {
    if rows == [] then []
    else (if rows[0].isActive then [rows[0]] else []) + ActiveAssets(rows[1..])
  }

  /** The filter keeps table order: filtering two runs of rows one after the
      other gives the two filtered runs in that order. */
  lemma {:induction false} PublishedAppend(a: seq<Section>, b: seq<Section>)
    ensures Published(a + b) == Published(a) + Published(b)
  {
    if a != [] {
      assert (a + b)[1..] == a[1..] + b;
      PublishedAppend(a[1..], b);
      var h := Published([a[0]]);
      assert Published(a + b) == h + Published(a[1..] + b);
      assert Published(a) == h + Published(a[1..]);
      ConcatAssoc(h, Published(a[1..]), Published(b));
    } else {
      assert a + b == b;
    }
  }

  lemma {:induction false} ActiveAssetsAppend(a: seq<MediaAsset>, b: seq<MediaAsset>)
    ensures ActiveAssets(a + b) == ActiveAssets(a) + ActiveAssets(b)
  {
    if a != [] {
      assert (a + b)[1..] == a[1..] + b;
      ActiveAssetsAppend(a[1..], b);
      var h := ActiveAssets([a[0]]);
      assert ActiveAssets(a + b) == h + ActiveAssets(a[1..] + b);
      assert ActiveAssets(a) == h + ActiveAssets(a[1..]);
      ConcatAssoc(h, ActiveAssets(a[1..]), ActiveAssets(b));
    } else {
      assert a + b == b;
    }
  }

  /** The rows of `.eq('user_id', uid).eq('is_active', true)`. */
  function ActiveAdminRows(rows: seq<AdminUser>, uid: string): (r: seq<AdminUser>)
    ensures forall u :: u in r <==> u in rows && u.userId == uid && u.isActive
  {
    if rows == [] then []
    else
      var last := rows[|rows| - 1];
      ActiveAdminRows(rows[..|rows| - 1], uid) + (if last.userId == uid && last.isActive then [last] else [])
  }

  /** `.single()` on that query: the row when there is exactly one; no row
      and several rows are both reported as an error (here `None`). */
  function ActiveAdminFor(rows: seq<AdminUser>, uid: string): (r: Option<AdminUser>)
    ensures r.Some? <==> |ActiveAdminRows(rows, uid)| == 1
    ensures r.Some? ==> r.value in rows && r.value.userId == uid && r.value.isActive
  {
    var matching := ActiveAdminRows(rows, uid);
    if |matching| == 1 then Some(matching[0]) else None
  }

  /** `file_size || 0`. */
  function SizeOrZero(a: MediaAsset): int
  {
    if a.fileSize.Some? then a.fileSize.value else 0
  }

  /** `reduce((sum, a) => sum + (a.file_size || 0), 0)`. */
  function TotalSize(assets: seq<MediaAsset>): int
  {
    if assets == [] then 0 else TotalSize(assets[..|assets| - 1]) + SizeOrZero(assets[|assets| - 1])
  }

  /** Non-negative sizes give a total at least as large as any one of them. */
  lemma {:induction false} TotalSizeBounds(assets: seq<MediaAsset>)
    requires forall k :: 0 <= k < |assets| ==> SizeOrZero(assets[k]) >= 0
    ensures TotalSize(assets) >= 0
    ensures forall k :: 0 <= k < |assets| ==> SizeOrZero(assets[k]) <= TotalSize(assets)
  {
    if assets != [] {
      var init := assets[..|assets| - 1];
      TotalSizeBounds(init);
      assert forall k :: 0 <= k < |init| ==> assets[k] == init[k];
    }
  }
}
