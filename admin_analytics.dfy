/** The analytics handler: content, media and user statistics, the health
    check, JPEG optimisation advice, the content SEO audit, and the action
    routing. Each query result is `None` when the store reported an error;
    the handler then leaves the corresponding defaults in place. */
module AdminAnalytics {
  import opened Values
  import opened Tables
  import SeoPerformance

  // ---------------------------------------------------------------------
  // Newest-first ordering

  /** `xs` is in non-increasing order of `key`. */
  predicate SortedDesc<T>(xs: seq<T>, key: T -> int)
  {
    forall i, j :: 0 <= i < j < |xs| ==> key(xs[i]) >= key(xs[j])
  }

  /** In a newest-first sequence the head is at least as new as the rest. */
  lemma HeadDominates<T>(xs: seq<T>, key: T -> int, y: T)
    requires SortedDesc(xs, key) && xs != [] && y in xs[1..]
    ensures key(xs[0]) >= key(y)
  {
    var j :| 0 <= j < |xs[1..]| && xs[1..][j] == y;
    assert xs[j + 1] == y;
  }

  /** A head at least as new as every element keeps a newest-first tail sorted. */
  lemma ConsSorted<T>(h: T, rest: seq<T>, key: T -> int)
    requires SortedDesc(rest, key)
    requires forall k :: 0 <= k < |rest| ==> key(h) >= key(rest[k])
    ensures SortedDesc([h] + rest, key)
  {
    assert forall k :: 0 <= k < |rest| ==> ([h] + rest)[k + 1] == rest[k];
  }

  /** Places `x` before the first element whose key is not larger, so equal
      keys keep their original order. */
  function InsertDesc<T>(x: T, xs: seq<T>, key: T -> int): (r: seq<T>)
    ensures multiset(r) == multiset(xs) + multiset{x}
    ensures SortedDesc(xs, key) ==> SortedDesc(r, key)
  {
    if xs == [] || key(xs[0]) <= key(x) then
      assert SortedDesc(xs, key) ==> SortedDesc([x] + xs, key) by {
        if SortedDesc(xs, key) {
          forall k | 0 <= k < |xs| ensures key(x) >= key(xs[k]) {
            if k > 0 {
              assert xs[k] in xs[1..] by { assert xs[1..][k - 1] == xs[k]; }
              HeadDominates(xs, key, xs[k]);
            }
          }
          ConsSorted(x, xs, key);
        }
      }
      [x] + xs
    else
      var rest := InsertDesc(x, xs[1..], key);
      assert xs == [xs[0]] + xs[1..];
      assert SortedDesc(xs, key) ==> SortedDesc([xs[0]] + rest, key) by {
        if SortedDesc(xs, key) {
          assert SortedDesc(xs[1..], key);
          forall k | 0 <= k < |rest|
            ensures key(xs[0]) >= key(rest[k])
          {
            assert rest[k] in multiset(rest);
            if rest[k] != x {
              assert rest[k] in multiset(xs[1..]);
              HeadDominates(xs, key, rest[k]);
            }
          }
          ConsSorted(xs[0], rest, key);
        }
      }
      [xs[0]] + rest
  }

  /** `sort((a, b) => key(b) - key(a))`: a stable newest-first sort. */
  function SortDesc<T>(xs: seq<T>, key: T -> int): (r: seq<T>)
    ensures |r| == |xs|
  {
    if xs == [] then [] else
      var r := InsertDesc(xs[0], SortDesc(xs[1..], key), key);
      assert |multiset(r)| == |xs|;
      r
  }

  /** The sort orders its input. */
  lemma {:induction false} SortDescSorted<T>(xs: seq<T>, key: T -> int)
    ensures SortedDesc(SortDesc(xs, key), key)
  {
    if xs != [] {
      var rest := SortDesc(xs[1..], key);
      SortDescSorted(xs[1..], key);
      assert SortDesc(xs, key) == InsertDesc(xs[0], rest, key);
    }
  }

  lemma MultisetCons<T>(xs: seq<T>)
    requires xs != []
    ensures multiset(xs) == multiset(xs[1..]) + multiset{xs[0]}
  {
    assert xs == [xs[0]] + xs[1..];
  }

  /** The sort loses and adds nothing. */
  lemma {:induction false} SortDescPermutes<T>(xs: seq<T>, key: T -> int)
    ensures multiset(SortDesc(xs, key)) == multiset(xs)
  {
    if xs != [] {
      var rest := SortDesc(xs[1..], key);
      SortDescPermutes(xs[1..], key);
      assert SortDesc(xs, key) == InsertDesc(xs[0], rest, key);
      MultisetCons(xs);
    }
  }

  /** The sort orders its input and loses nothing. */
  lemma SortDescCorrect<T>(xs: seq<T>, key: T -> int)
    ensures SortedDesc(SortDesc(xs, key), key)
    ensures multiset(SortDesc(xs, key)) == multiset(xs)
  {
    SortDescSorted(xs, key);
    SortDescPermutes(xs, key);
  }

  /** `sort(...).slice(0, n)`. */
  function Newest<T>(xs: seq<T>, key: T -> int, n: nat): (r: seq<T>)
    ensures |r| == if |xs| < n then |xs| else n
  {
    var sorted := SortDesc(xs, key);
    if |sorted| <= n then sorted else sorted[..n]
  }

  /** In a newest-first sequence, nothing past a prefix is newer than
      anything in it. */
  lemma PrefixDominates<T>(sorted: seq<T>, m: nat, key: T -> int, x: T, y: T)
    requires SortedDesc(sorted, key) && m <= |sorted|
    requires x in sorted && x !in sorted[..m] && y in sorted[..m]
    ensures key(x) <= key(y)
  {
    var p :| 0 <= p < |sorted| && sorted[p] == x;
    var q :| 0 <= q < m && sorted[..m][q] == y;
    assert forall i :: 0 <= i < m ==> sorted[..m][i] == sorted[i];
    assert sorted[q] == y;
  }

  /** The slice holds elements of the input, newest first, and nothing left
      out is newer than anything kept. */
  lemma NewestCorrect<T>(xs: seq<T>, key: T -> int, n: nat)
    ensures SortedDesc(Newest(xs, key, n), key)
    ensures forall y :: y in Newest(xs, key, n) ==> y in xs
    ensures multiset(Newest(xs, key, n)) <= multiset(xs)
    ensures forall x, y :: x in xs && x !in Newest(xs, key, n) && y in Newest(xs, key, n) ==> key(x) <= key(y)
  {
    var sorted := SortDesc(xs, key);
    SortDescCorrect(xs, key);
    var r := Newest(xs, key, n);
    assert r == sorted[..|r|];
    assert forall i :: 0 <= i < |r| ==> r[i] == sorted[i];
    assert sorted == r + sorted[|r|..];
    forall y | y in r
      ensures y in xs
    {
      assert y in multiset(sorted);
    }
    forall x, y | x in xs && x !in r && y in r
      ensures key(x) <= key(y)
    {
      assert x in multiset(sorted);
      PrefixDominates(sorted, |r|, key, x, y);
    }
  }

  // ---------------------------------------------------------------------
  // Content statistics

  /** `.filter(s => !s.is_published)`. */
  function Drafts(rows: seq<Section>): (r: seq<Section>)
    ensures forall s :: s in r <==> s in rows && !s.isPublished
  {
    if rows == [] then []
    else (if rows[0].isPublished then [] else [rows[0]]) + Drafts(rows[1..])
  }

  /** Every section is either published or a draft. */
  lemma {:induction false} PublishedPlusDrafts(rows: seq<Section>)
    ensures |Published(rows)| + |Drafts(rows)| == |rows|
  {
    if rows != [] {
      PublishedPlusDrafts(rows[1..]);
    }
  }

  function UpdatedAt(s: Section): int { s.updatedAt }

  /** `sort(newest updated first)[0]?.updated_at`. */
  function LastUpdated(rows: seq<Section>): Option<int>
  {
    var sorted := SortDesc(rows, UpdatedAt);
    if sorted == [] then None else Some(sorted[0].updatedAt)
  }

  /** The reported time is the latest update of any section. */
  lemma LastUpdatedIsLatest(rows: seq<Section>)
    ensures LastUpdated(rows).Some? <==> rows != []
    ensures LastUpdated(rows).Some? ==>
      (exists s :: s in rows && s.updatedAt == LastUpdated(rows).value) &&
      forall s :: s in rows ==> s.updatedAt <= LastUpdated(rows).value
  {
    SortDescCorrect(rows, UpdatedAt);
    var sorted := SortDesc(rows, UpdatedAt);
    if rows != [] {
      assert sorted[0] in multiset(rows);
      forall s | s in rows
        ensures s.updatedAt <= sorted[0].updatedAt
      {
        assert s in multiset(sorted);
        var p :| 0 <= p < |sorted| && sorted[p] == s;
        if p > 0 {
          assert UpdatedAt(sorted[0]) >= UpdatedAt(sorted[p]);
        }
      }
    }
  }

  datatype ContentStats = ContentStats(totalSections: nat, publishedSections: nat, draftSections: nat, lastUpdated: Option<int>)

  function ContentAnalytics(query: Option<seq<Section>>): (r: ContentStats)
    ensures r.publishedSections + r.draftSections == r.totalSections
    ensures query.Some? ==> r.totalSections == |query.value|
    ensures query.Some? ==> r.publishedSections == |Published(query.value)|
    ensures query.Some? ==> r.lastUpdated == LastUpdated(query.value)
    ensures query.None? ==> r.lastUpdated.None?
    ensures query.None? ==> r.totalSections == 0
  {
    match query
    case None => ContentStats(0, 0, 0, None)
    case Some(rows) =>
      PublishedPlusDrafts(rows);
      ContentStats(|rows|, |Published(rows)|, |Drafts(rows)|, LastUpdated(rows))
  }

  // ---------------------------------------------------------------------
  // Media statistics

  /** `Math.round(x / d)` for a positive `d`: halves round up. */
  function RoundDiv(x: int, d: int): (q: int)
    requires d > 0
    ensures -d <= 2 * x - 2 * d * q < d
  {
    var q := (2 * x + d) / (2 * d);
    assert (2 * d) * q == 2 * (d * q);
    q
  }

  /** The number of assets filed under `category`. */
  function CountIn(assets: seq<MediaAsset>, category: string): nat
  {
    if assets == [] then 0
    else (if assets[0].category == category then 1 else 0) + CountIn(assets[1..], category)
  }

  /** The category histogram after the first assets. */
  function Histogram(assets: seq<MediaAsset>): map<string, nat>
  {
    if assets == [] then map[]
    else
      var h := Histogram(assets[..|assets| - 1]);
      var c := assets[|assets| - 1].category;
      h[c := (if c in h then h[c] else 0) + 1]
  }

  /** `categories[c] = (categories[c] || 0) + 1` for every asset in turn. */
  method CategoryHistogram(assets: seq<MediaAsset>) returns (categories: map<string, nat>)
    ensures categories == Histogram(assets)
  {
    categories := map[];
    var i := 0;
    while i < |assets|
      invariant 0 <= i <= |assets|
      invariant categories == Histogram(assets[..i])
    {
      assert assets[..i + 1][..i] == assets[..i];
      var c := assets[i].category;
      categories := categories[c := (if c in categories then categories[c] else 0) + 1];
      i := i + 1;
    }
    assert assets[..i] == assets;
  }

  lemma CountInSnoc(assets: seq<MediaAsset>, a: MediaAsset, category: string)
    ensures CountIn(assets + [a], category) == CountIn(assets, category) + (if a.category == category then 1 else 0)
    decreases |assets|
  {
    if assets != [] {
      assert (assets + [a])[1..] == assets[1..] + [a];
      CountInSnoc(assets[1..], a, category);
    }
  }

  /** The histogram holds exactly the categories present, each with the
      number of assets filed under it. */
  lemma {:induction false} HistogramCounts(assets: seq<MediaAsset>)
    ensures forall c :: c in Histogram(assets) <==> exists a :: a in assets && a.category == c
    ensures forall c :: c in Histogram(assets) ==> Histogram(assets)[c] == CountIn(assets, c) >= 1
    decreases |assets|
  {
    if assets != [] {
      var init, last := assets[..|assets| - 1], assets[|assets| - 1];
      HistogramCounts(init);
      assert assets == init + [last];
      forall c
        ensures CountIn(assets, c) == CountIn(init, c) + (if last.category == c then 1 else 0)
      {
        CountInSnoc(init, last, c);
      }
      forall c | c !in Histogram(init)
        ensures CountIn(init, c) == 0
      {
        CountInAbsent(init, c);
      }
    }
  }

  lemma {:induction false} CountInAbsent(assets: seq<MediaAsset>, c: string)
    requires forall a :: a in assets ==> a.category != c
    ensures CountIn(assets, c) == 0
  {
    if assets != [] {
      CountInAbsent(assets[1..], c);
    }
  }

  /** A key of a non-empty map, fixed once so that every use agrees. */
  ghost function Pick(m: map<string, nat>): string
    requires m != map[]
  {
    var k :| k in m; k
  }

  /** The sum of a map's values. */
  ghost function MapSum(m: map<string, nat>): nat
    decreases |m|
  {
    if m == map[] then 0
    else
      var k := Pick(m);
      assert m.Keys == (m - {k}).Keys + {k};
      m[k] + MapSum(m - {k})
  }

  lemma DropShrinks(m: map<string, nat>, k: string)
    requires k in m
    ensures |m - {k}| == |m| - 1
  {
    assert m.Keys == (m - {k}).Keys + {k};
  }

  lemma DropCommutes(m: map<string, nat>, j: string, k: string)
    ensures m - {j} - {k} == m - {k} - {j}
  {
  }

  lemma MapSumUnfold(m: map<string, nat>)
    requires m != map[]
    ensures Pick(m) in m && MapSum(m) == m[Pick(m)] + MapSum(m - {Pick(m)})
  {
  }

  /** Removing any key takes its value out of the sum. */
  lemma {:induction false} MapSumRemove(m: map<string, nat>, k: string)
    requires k in m
    ensures MapSum(m) == m[k] + MapSum(m - {k})
    decreases |m|
  {
    MapSumUnfold(m);
    var j := Pick(m);
    if j != k {
      DropShrinks(m, j);
      MapSumRemove(m - {j}, k);
      DropShrinks(m, k);
      MapSumRemove(m - {k}, j);
      DropCommutes(m, j, k);
    }
  }

  /** Counting one more asset raises the sum of the counts by one. */
  lemma MapSumBump(m: map<string, nat>, c: string)
    ensures MapSum(m[c := (if c in m then m[c] else 0) + 1]) == MapSum(m) + 1
  {
    var m' := m[c := (if c in m then m[c] else 0) + 1];
    MapSumRemove(m', c);
    assert m' - {c} == m - {c};
    if c in m {
      MapSumRemove(m, c);
    } else {
      assert m - {c} == m;
    }
  }

  /** The category counts add up to the number of assets. */
  lemma {:induction false} HistogramTotal(assets: seq<MediaAsset>)
    ensures MapSum(Histogram(assets)) == |assets|
  {
    if assets != [] {
      HistogramTotal(assets[..|assets| - 1]);
      MapSumBump(Histogram(assets[..|assets| - 1]), assets[|assets| - 1].category);
    }
  }

  datatype UploadSummary = UploadSummary(fileName: string, category: string, sizeKb: int, createdAt: int)

  function CreatedAt(a: MediaAsset): int { a.createdAt }

  /** `Math.round(file_size / 1024)`, where a missing size divides as 0. */
  function Summary(a: MediaAsset): UploadSummary
  {
    UploadSummary(a.fileName, a.category, RoundDiv(SizeOrZero(a), 1024), a.createdAt)
  }

  /** The ten newest uploads. */
  function RecentUploads(assets: seq<MediaAsset>): (r: seq<UploadSummary>)
    ensures |r| <= 10
  {
    var newest := Newest(assets, CreatedAt, 10);
    seq(|newest|, k requires 0 <= k < |newest| => Summary(newest[k]))
  }

  /** Newest first, and no omitted upload is newer than a listed one. */
  lemma RecentUploadsNewestFirst(assets: seq<MediaAsset>)
    ensures forall i, j :: 0 <= i < j < |RecentUploads(assets)| ==>
      RecentUploads(assets)[i].createdAt >= RecentUploads(assets)[j].createdAt
    ensures forall a, k :: a in assets && 0 <= k < |RecentUploads(assets)| && a !in Newest(assets, CreatedAt, 10) ==>
      a.createdAt <= RecentUploads(assets)[k].createdAt
    ensures |assets| >= 10 ==> |RecentUploads(assets)| == 10
  {
    var newest := Newest(assets, CreatedAt, 10);
    var r := RecentUploads(assets);
    NewestCorrect(assets, CreatedAt, 10);
    assert |r| == |newest|;
    assert forall k :: 0 <= k < |r| ==> r[k].createdAt == CreatedAt(newest[k]);
    forall i, j | 0 <= i < j < |r|
      ensures r[i].createdAt >= r[j].createdAt
    {
      assert CreatedAt(newest[i]) >= CreatedAt(newest[j]);
    }
    forall a, k | a in assets && 0 <= k < |r| && a !in newest
      ensures a.createdAt <= r[k].createdAt
    {
      assert newest[k] in newest;
      assert CreatedAt(a) <= CreatedAt(newest[k]);
    }
  }

  datatype MediaStats = MediaStats(totalAssets: nat, totalSizeMb: int, categories: map<string, nat>, recentUploads: seq<UploadSummary>)

  /** The media block over the rows `.eq('is_active', true)` selects. */
  method MediaAnalytics(query: Option<seq<MediaAsset>>) returns (r: MediaStats)
    ensures query.None? ==> r == MediaStats(0, 0, map[], [])
    ensures query.Some? ==> var assets := ActiveAssets(query.value);
      && r.totalAssets == |assets|
      && r.totalSizeMb == RoundDiv(TotalSize(assets), 1024 * 1024)
      && r.categories == Histogram(assets)
      && r.recentUploads == RecentUploads(assets)
  {
    r := MediaStats(0, 0, map[], []);
    if query.Some? {
      var assets := ActiveAssets(query.value);
      var categories := CategoryHistogram(assets);
      r := MediaStats(|assets|, RoundDiv(TotalSize(assets), 1024 * 1024), categories, RecentUploads(assets));
    }
  }

  // ---------------------------------------------------------------------
  // User statistics

  /** `.filter(u => u.is_active)`. */
  function ActiveAdmins(rows: seq<AdminUser>): (r: seq<AdminUser>)
    ensures |r| <= |rows|
    ensures forall u :: u in r <==> u in rows && u.isActive
  {
    if rows == [] then []
    else (if rows[0].isActive then [rows[0]] else []) + ActiveAdmins(rows[1..])
  }

  /** `.filter(u => u.last_login)`. */
  function LoggedIn(rows: seq<AdminUser>): (r: seq<AdminUser>)
    ensures forall u :: u in r <==> u in rows && u.lastLogin.Some?
  {
    if rows == [] then []
    else (if rows[0].lastLogin.Some? then [rows[0]] else []) + LoggedIn(rows[1..])
  }

  function LoginTime(u: AdminUser): int
  {
    if u.lastLogin.Some? then u.lastLogin.value else 0
  }

  datatype LoginSummary = LoginSummary(email: string, role: Role, lastLogin: int)

  /** The five most recent sign-ins. */
  function RecentLogins(rows: seq<AdminUser>): (r: seq<LoginSummary>)
    ensures |r| <= 5
  {
    var newest := Newest(LoggedIn(rows), LoginTime, 5);
    NewestCorrect(LoggedIn(rows), LoginTime, 5);
    seq(|newest|, k requires 0 <= k < |newest| => LoginSummary(newest[k].email, newest[k].role, newest[k].lastLogin.value))
  }

  /** Only users who have signed in, newest first, and none omitted who
      signed in later than one listed. */
  lemma RecentLoginsNewestFirst(rows: seq<AdminUser>)
    ensures forall k :: 0 <= k < |RecentLogins(rows)| ==>
      exists u :: u in rows && u.lastLogin == Some(RecentLogins(rows)[k].lastLogin) && u.email == RecentLogins(rows)[k].email
    ensures forall i, j :: 0 <= i < j < |RecentLogins(rows)| ==> RecentLogins(rows)[i].lastLogin >= RecentLogins(rows)[j].lastLogin
    ensures forall u, k ::
      (u in rows && u.lastLogin.Some? && u !in Newest(LoggedIn(rows), LoginTime, 5) && 0 <= k < |RecentLogins(rows)|) ==>
      u.lastLogin.value <= RecentLogins(rows)[k].lastLogin
  {
    var newest := Newest(LoggedIn(rows), LoginTime, 5);
    NewestCorrect(LoggedIn(rows), LoginTime, 5);
    var r := RecentLogins(rows);
    forall k | 0 <= k < |r|
      ensures exists u :: u in rows && u.lastLogin == Some(r[k].lastLogin) && u.email == r[k].email
    {
      assert newest[k] in newest;
    }
    forall i, j | 0 <= i < j < |r|
      ensures r[i].lastLogin >= r[j].lastLogin
    {
      assert LoginTime(newest[i]) >= LoginTime(newest[j]);
    }
    forall u, k | u in rows && u.lastLogin.Some? && u !in newest && 0 <= k < |r|
      ensures u.lastLogin.value <= r[k].lastLogin
    {
      assert newest[k] in newest;
      assert LoginTime(u) <= LoginTime(newest[k]);
    }
  }

  datatype UserStats = UserStats(totalAdmins: nat, activeAdmins: nat, recentLogins: seq<LoginSummary>)

  function UserAnalytics(query: Option<seq<AdminUser>>): (r: UserStats)
    ensures r.activeAdmins <= r.totalAdmins
    ensures |r.recentLogins| <= 5
    ensures query.Some? ==> r.totalAdmins == |query.value|
    ensures query.Some? ==> r.activeAdmins == |ActiveAdmins(query.value)|
    ensures query.None? ==> r.totalAdmins == 0 && r.recentLogins == []
  {
    match query
    case None => UserStats(0, 0, [])
    case Some(rows) => UserStats(|rows|, |ActiveAdmins(rows)|, RecentLogins(rows))
  }

  datatype AnalyticsReport = AnalyticsReport(content: ContentStats, media: MediaStats, users: UserStats)

  /** `analytics`: the three blocks from the three queries. */
  method Analytics(sections: Option<seq<Section>>, assets: Option<seq<MediaAsset>>, admins: Option<seq<AdminUser>>)
    returns (report: AnalyticsReport)
    ensures report.content == ContentAnalytics(sections)
    ensures report.content.publishedSections + report.content.draftSections == report.content.totalSections
    ensures assets.Some? ==> report.media.totalAssets == |ActiveAssets(assets.value)|
    ensures assets.Some? ==> MapSum(report.media.categories) == report.media.totalAssets
    ensures assets.Some? ==> forall c :: c in report.media.categories ==> report.media.categories[c] >= 1
    ensures |report.media.recentUploads| <= 10
    ensures report.users == UserAnalytics(admins)
  {
    var media := MediaAnalytics(assets);
    if assets.Some? {
      HistogramTotal(ActiveAssets(assets.value));
      HistogramCounts(ActiveAssets(assets.value));
    }
    report := AnalyticsReport(ContentAnalytics(sections), media, UserAnalytics(admins));
  }

  // ---------------------------------------------------------------------
  // health

  datatype Status = Healthy | Degraded | Unhealthy | Warning

  datatype HealthCheck = HealthCheck(component: string, status: Status)

  datatype HealthReport = HealthReport(database: Status, storage: Status, functions: Status, overall: Status, checks: seq<HealthCheck>)

  /** What listing the storage buckets gave: an exception, or the bucket ids
      (`None` when the call returned no data). */
  datatype BucketProbe = ListThrows | Listed(ids: Option<seq<string>>)

  /** `buckets?.find(b => b.id === 'space-media')`. */
  predicate HasMediaBucket(p: BucketProbe)
  {
    p.Listed? && p.ids.Some? && "space-media" in p.ids.value
  }

  /** `health`: a database probe and a storage probe. */
  method Health(databaseThrows: bool, buckets: BucketProbe) returns (h: HealthReport)
    ensures h.overall == (if databaseThrows || buckets.ListThrows? then Degraded else Healthy)
    ensures h.database == (if databaseThrows then Unhealthy else Healthy)
    ensures h.storage == (if buckets.ListThrows? then Unhealthy else if HasMediaBucket(buckets) then Healthy else Degraded)
    ensures h.functions == Healthy
    ensures |h.checks| == 2 && h.checks[0].component == "Database" && h.checks[1].component == "Storage"
    ensures h.checks[0].status == h.database && h.checks[1].status == (if h.storage == Degraded then Warning else h.storage)
  {
    h := HealthReport(Healthy, Healthy, Healthy, Healthy, []);
    if !databaseThrows {
      h := h.(checks := h.checks + [HealthCheck("Database", Healthy)]);
    } else {
      h := h.(database := Unhealthy, overall := Degraded);
      h := h.(checks := h.checks + [HealthCheck("Database", Unhealthy)]);
    }
    if buckets.ListThrows? {
      h := h.(storage := Unhealthy, overall := Degraded);
      h := h.(checks := h.checks + [HealthCheck("Storage", Unhealthy)]);
    } else if HasMediaBucket(buckets) {
      h := h.(checks := h.checks + [HealthCheck("Storage", Healthy)]);
    } else {
      h := h.(storage := Degraded);
      h := h.(checks := h.checks + [HealthCheck("Storage", Warning)]);
    }
  }

  // ---------------------------------------------------------------------
  // optimize_images

  datatype Priority = High | Medium

  datatype ImageAdvice = ImageAdvice(fileName: string, priority: Priority)

  /** `.eq('is_active', true).eq('file_type', 'image/jpeg')`. */
  function ActiveJpegs(rows: seq<MediaAsset>): (r: seq<MediaAsset>)
    ensures forall a :: a in r <==> a in rows && a.isActive && a.fileType == Some("image/jpeg")
  {
    if rows == [] then []
    else (if rows[0].isActive && rows[0].fileType == Some("image/jpeg") then [rows[0]] else []) + ActiveJpegs(rows[1..])
  }

  /** Over 1 MiB is `high`, over 500 KiB `medium`, anything else no advice;
      a missing size compares as false. */
  function AdviceFor(a: MediaAsset): (r: Option<ImageAdvice>)
    ensures r.Some? <==> a.fileSize.Some? && a.fileSize.value > 500 * 1024
    ensures r.Some? ==> r.value.fileName == a.fileName && (r.value.priority == High <==> a.fileSize.value > 1024 * 1024)
  {
    if a.fileSize.Some? && a.fileSize.value > 1024 * 1024 then Some(ImageAdvice(a.fileName, High))
    else if a.fileSize.Some? && a.fileSize.value > 500 * 1024 then Some(ImageAdvice(a.fileName, Medium))
    else None
  }

  function AllAdvice(assets: seq<MediaAsset>): seq<ImageAdvice>
  {
    if assets == [] then []
    else
      var a := assets[|assets| - 1];
      AllAdvice(assets[..|assets| - 1]) + (if AdviceFor(a).Some? then [AdviceFor(a).value] else [])
  }

  /** Every piece of advice names an asset over 500 KiB, at most one each. */
  lemma {:induction false} AllAdviceSound(assets: seq<MediaAsset>)
    ensures |AllAdvice(assets)| <= |assets|
    ensures forall r :: r in AllAdvice(assets) ==>
      exists a :: a in assets && a.fileName == r.fileName && a.fileSize.Some? && a.fileSize.value > 500 * 1024
  {
    if assets != [] {
      var init := assets[..|assets| - 1];
      AllAdviceSound(init);
      assert forall a :: a in init ==> a in assets;
    }
  }

  /** `optimize_images`: advice over the active JPEGs, and their number. */
  method OptimizeImages(query: Option<seq<MediaAsset>>) returns (advice: seq<ImageAdvice>, totalImages: nat)
    ensures var jpegs := if query.Some? then ActiveJpegs(query.value) else [];
      advice == AllAdvice(jpegs) && totalImages == |jpegs|
    ensures forall r :: r in advice ==>
      (exists a :: query.Some? && a in query.value && a.isActive && a.fileType == Some("image/jpeg") &&
         a.fileName == r.fileName && a.fileSize.Some? && a.fileSize.value > 500 * 1024)
  {
    var jpegs := if query.Some? then ActiveJpegs(query.value) else [];
    advice := [];
    var i := 0;
    while i < |jpegs|
      invariant 0 <= i <= |jpegs|
      invariant advice == AllAdvice(jpegs[..i])
    {
      var a := jpegs[i];
      assert jpegs[..i + 1][..i] == jpegs[..i];
      if a.fileSize.Some? && a.fileSize.value > 1024 * 1024 {
        advice := advice + [ImageAdvice(a.fileName, High)];
      } else if a.fileSize.Some? && a.fileSize.value > 500 * 1024 {
        advice := advice + [ImageAdvice(a.fileName, Medium)];
      }
      i := i + 1;
    }
    assert jpegs[..i] == jpegs;
    totalImages := |jpegs|;
    AllAdviceSound(jpegs);
  }

  // ---------------------------------------------------------------------
  // seo_audit

  datatype Severity = SeverityHigh | SeverityMedium | SeverityLow

  datatype AuditIssue = AuditIssue(section: string, issue: string, severity: Severity)

  /** No meta description, or one shorter than 120. */
  predicate ShortMeta(c: Content)
  {
    var m := Prop(c, "meta_description");
    !Truthy(m) || (Length(m).Some? && Length(m).value < 120)
  }

  /** A hero image without alt text. */
  predicate MissingAlt(c: Content)
  {
    Truthy(Prop(c, "hero_image")) && !Truthy(Prop(c, "hero_image_alt"))
  }

  /** A title longer than 60. */
  predicate LongTitle(c: Content)
  {
    var t := Prop(c, "title");
    Truthy(t) && Length(t).Some? && Length(t).value > 60
  }

  function SectionAudit(s: Section): (r: seq<AuditIssue>)
    ensures |r| <= 3
  {
    var c := s.content;
    (if ShortMeta(c) then [AuditIssue(s.name, "Meta description missing or too short", SeverityMedium)] else []) +
    (if MissingAlt(c) then [AuditIssue(s.name, "Image missing alt text", SeverityHigh)] else []) +
    (if LongTitle(c) then [AuditIssue(s.name, "Title too long for search results", SeverityLow)] else [])
  }

  function AllAudit(rows: seq<Section>): seq<AuditIssue>
  {
    if rows == [] then [] else AllAudit(rows[..|rows| - 1]) + SectionAudit(rows[|rows| - 1])
  }

  /** `seo_audit` over the published sections. */
  method SeoAudit(query: Option<seq<Section>>) returns (issues: seq<AuditIssue>, audited: nat)
    ensures var rows := SeoPerformance.PublishedRows(query);
      issues == AllAudit(rows) && audited == |rows|
  {
    var rows := SeoPerformance.PublishedRows(query);
    issues := [];
    var i := 0;
    while i < |rows|
      invariant 0 <= i <= |rows|
      invariant issues == AllAudit(rows[..i])
    {
      assert rows[..i + 1][..i] == rows[..i];
      issues := issues + SectionAudit(rows[i]);
      i := i + 1;
    }
    assert rows[..i] == rows;
    audited := |rows|;
  }

  /** The audit and the score agree: a section the audit flags for alt text
      or title length fails the matching score check, and the alt check and
      the alt issue are exact opposites. */
  lemma AuditAgreesWithScore(c: Content)
    ensures MissingAlt(c) <==> !SeoPerformance.AltOk(c)
    ensures LongTitle(c) ==> !SeoPerformance.TitleOk(c)
    ensures ShortMeta(c) ==> !SeoPerformance.MetaDescriptionOk(c)
  {
  }

  // ---------------------------------------------------------------------
  // Routing

  datatype Endpoint = Preflight | AnalyticsAction | Backup | HealthAction | OptimizeImagesAction | SeoAuditAction | Invalid

  function Route(httpMethod: string, action: Option<string>): (e: Endpoint)
    ensures e == Invalid <==>
      httpMethod != "OPTIONS" &&
      !(httpMethod == "GET" && action.Some? && action.value in {"analytics", "backup", "health"}) &&
      !(httpMethod == "POST" && action.Some? && action.value in {"optimize_images", "seo_audit"})
    ensures e == Preflight <==> httpMethod == "OPTIONS"
    ensures e == AnalyticsAction <==> httpMethod == "GET" && action == Some("analytics")
    ensures e == Backup <==> httpMethod == "GET" && action == Some("backup")
    ensures e == HealthAction <==> httpMethod == "GET" && action == Some("health")
    ensures e == OptimizeImagesAction <==> httpMethod == "POST" && action == Some("optimize_images")
    ensures e == SeoAuditAction <==> httpMethod == "POST" && action == Some("seo_audit")
  {
    if httpMethod == "OPTIONS" then Preflight
    else if httpMethod == "GET" && action == Some("analytics") then AnalyticsAction
    else if httpMethod == "GET" && action == Some("backup") then Backup
    else if httpMethod == "GET" && action == Some("health") then HealthAction
    else if httpMethod == "POST" && action == Some("optimize_images") then OptimizeImagesAction
    else if httpMethod == "POST" && action == Some("seo_audit") then SeoAuditAction
    else Invalid
  }
}
