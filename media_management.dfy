/** The media management handler: putting a new image URL into one field of
    one section, replacing a media id across every section, the media usage
    index, and the method/action dispatch. The request's `mediaId` and
    `newImageUrl` are JSON values; store errors and clocks are parameters. */
module MediaManagement {
  import opened Values
  import opened Tables
  import opened Store

  /** The content fields that may hold an image reference, in checking order. */
  const ImageFields: seq<string> := ["hero_image", "featured_image", "background_image", "image_url"]

  /** `a === b` where `a` is read from stored content and `b` comes from the
      request: primitives compare by value, while arrays and objects parsed
      from two different documents are never the same object. */
  predicate StrictEquals(a: Option<Json>, b: Json)
  {
    a.Some? &&
    match (a.value, b)
    case (Null, Null) => true
    case (Bool(x), Bool(y)) => x == y
    case (Num(x), Num(y)) => x == y
    case (Str(x), Str(y)) => x == y
    case _ => false
  }

  /** `item.k` on an element of an `items` array: reading a property of
      `null` throws; other primitives and arrays have no such property. */
  function MemberOf(item: Json, k: string): (r: Result<Option<Json>, string>)
    ensures r.Err? <==> item.Null?
    ensures item.Obj? ==> r == Ok(Prop(item.fields, k))
  {
    match item
    case Null => Err("TypeError")
    case Obj(o) => Ok(Prop(o, k))
    case _ => Ok(None)
  }

  // ---------------------------------------------------------------------
  // Section writes

  /** One write the handler sends: new content for every row with the key. */
  datatype Update = Update(key: string, content: Content)

  /** `.update({content, version: version + 1, updated_at: now}).eq('section_key', key)`. */
  function ApplyUpdate(rows: seq<Section>, u: Update, now: int): (r: seq<Section>)
    ensures |r| == |rows|
    ensures forall i :: 0 <= i < |r| ==> r[i].key == rows[i].key && r[i].id == rows[i].id
    ensures forall i :: 0 <= i < |r| && rows[i].key != u.key ==> r[i] == rows[i]
    ensures forall i :: 0 <= i < |r| && rows[i].key == u.key ==>
      r[i] == rows[i].(content := u.content, version := rows[i].version + 1, updatedAt := now)
  {
    seq(|rows|, i requires 0 <= i < |rows| =>
      if rows[i].key == u.key then rows[i].(content := u.content, version := rows[i].version + 1, updatedAt := now)
      else rows[i])
  }

  /** The writes applied one after another. */
  function ApplyAll(rows: seq<Section>, us: seq<Update>, now: int): (r: seq<Section>)
    ensures |r| == |rows|
  {
    if us == [] then rows else ApplyUpdate(ApplyAll(rows, us[..|us| - 1], now), us[|us| - 1], now)
  }

  /** The number of writes addressed to `key`. */
  function WritesTo(us: seq<Update>, key: string): nat
  {
    if us == [] then 0 else WritesTo(us[..|us| - 1], key) + (if us[|us| - 1].key == key then 1 else 0)
  }

  /** Each write raises the version of the rows it addresses by one, so a row
      ends with its old version plus the number of writes to its key. */
  lemma {:induction false} ApplyAllVersions(rows: seq<Section>, us: seq<Update>, now: int)
    ensures forall i :: 0 <= i < |rows| ==>
      ApplyAll(rows, us, now)[i].key == rows[i].key &&
      ApplyAll(rows, us, now)[i].version == rows[i].version + WritesTo(us, rows[i].key)
    ensures forall i :: 0 <= i < |rows| && WritesTo(us, rows[i].key) == 0 ==> ApplyAll(rows, us, now)[i] == rows[i]
  {
    if us != [] {
      ApplyAllVersions(rows, us[..|us| - 1], now);
    }
  }

  // ---------------------------------------------------------------------
  // update_content_image

  /** `{...content, [imageField]: newImageUrl}`. */
  function MergeImage(c: Content, field: string, url: Json): (r: Content)
    ensures r.Keys == c.Keys + {field} && r[field] == url
    ensures forall k :: k in c && k != field ==> r[k] == c[k]
  {
    c[field := url]
  }

  /** The rows `.eq('section_key', key)` selects. */
  function RowsWithKey(rows: seq<Section>, key: string): (r: seq<Section>)
    ensures forall s :: s in r <==> s in rows && s.key == key
  {
    if rows == [] then []
    else (if rows[0].key == key then [rows[0]] else []) + RowsWithKey(rows[1..], key)
  }

  /** `update_content_image`: `.single()` fetch of the section, merge, write. */
  method UpdateContentImage(db: Database, sectionKey: string, imageField: string, newImageUrl: Json,
                            now: int, updateFails: bool) returns (r: Result<Content, string>)
    modifies db
    ensures var found := RowsWithKey(old(db.sections), sectionKey);
      && (r.Ok? <==> |found| == 1 && !updateFails)
      && (r.Ok? ==> r.value == MergeImage(found[0].content, imageField, newImageUrl)
                    && db.sections == ApplyUpdate(old(db.sections), Update(sectionKey, r.value), now))
      && (r.Err? ==> db.sections == old(db.sections))
    ensures db.admins == old(db.admins) && db.history == old(db.history) && db.assets == old(db.assets)
    ensures db.settings == old(db.settings) && db.session == old(db.session)
  {
    var found := RowsWithKey(db.sections, sectionKey);
    if |found| != 1 {
      return Err("fetch error");
    }
    var updated := MergeImage(found[0].content, imageField, newImageUrl);
    if updateFails {
      return Err("update error");
    }
    db.sections := ApplyUpdate(db.sections, Update(sectionKey, updated), now);
    r := Ok(updated);
  }

  // ---------------------------------------------------------------------
  // replace_website_image

  /** The image fields that hold `mediaId`, replaced by `url`. */
  function ReplaceFields(c: Content, fields: seq<string>, mediaId: Json, url: Json): Content
  {
    if fields == [] then c
    else
      var c' := ReplaceFields(c, fields[..|fields| - 1], mediaId, url);
      var f := fields[|fields| - 1];
      if StrictEquals(Prop(c', f), mediaId) then c'[f := url] else c'
  }

  /** Some listed field holds `mediaId`. */
  predicate AnyFieldMatches(c: Content, fields: seq<string>, mediaId: Json)
  {
    exists f :: f in fields && StrictEquals(Prop(c, f), mediaId)
  }

  /** Only the listed fields that hold `mediaId` change, each to `url`. */
  lemma {:induction false} ReplaceFieldsExact(c: Content, fields: seq<string>, mediaId: Json, url: Json)
    ensures ReplaceFields(c, fields, mediaId, url).Keys == c.Keys
    ensures forall k :: k in c ==>
      ReplaceFields(c, fields, mediaId, url)[k] == if k in fields && StrictEquals(Prop(c, k), mediaId) then url else c[k]
  {
    if fields != [] {
      var init := fields[..|fields| - 1];
      ReplaceFieldsExact(c, init, mediaId, url);
      var f := fields[|fields| - 1];
      assert fields == init + [f];
      if f in init {
        var c' := ReplaceFields(c, init, mediaId, url);
        if StrictEquals(Prop(c', f), mediaId) {
          assert f in c;
        }
      }
    }
  }

  /** A field not yet checked still holds its original value. */
  lemma ReplaceFieldsUntouched(c: Content, done: seq<string>, f: string, mediaId: Json, url: Json)
    requires f !in done
    ensures Prop(ReplaceFields(c, done, mediaId, url), f) == Prop(c, f)
  {
    ReplaceFieldsExact(c, done, mediaId, url);
  }

  /** Checking one more field, not checked before, tests its original value. */
  lemma ReplaceFieldsSnoc(c: Content, done: seq<string>, f: string, mediaId: Json, url: Json)
    requires f !in done
    ensures ReplaceFields(c, done + [f], mediaId, url) ==
      (var c' := ReplaceFields(c, done, mediaId, url);
       if StrictEquals(Prop(c, f), mediaId) then c'[f := url] else c')
  {
    assert (done + [f])[..|done|] == done;
    ReplaceFieldsUntouched(c, done, f, mediaId, url);
  }

  lemma AnyFieldMatchesSnoc(c: Content, done: seq<string>, f: string, mediaId: Json)
    ensures AnyFieldMatches(c, done + [f], mediaId) <==>
      AnyFieldMatches(c, done, mediaId) || StrictEquals(Prop(c, f), mediaId)
  {
    assert forall g :: g in done + [f] <==> g in done || g == f;
  }

  /** `items.map(...)`: an item whose `image` or `imageUrl` is `mediaId` gets
      both set to `url`; the map stops at the first `null` item. */
  function ReplaceItems(items: seq<Json>, mediaId: Json, url: Json): (r: Result<seq<Json>, string>)
    ensures r.Err? <==> exists k :: 0 <= k < |items| && items[k].Null?
    ensures r.Ok? ==> |r.value| == |items|
  {
    if items == [] then Ok([])
    else
      var init := ReplaceItems(items[..|items| - 1], mediaId, url);
      var item := items[|items| - 1];
      if init.Err? then init
      else
        match MemberOf(item, "image")
        case Err(e) => Err(e)
        case Ok(_) => Ok(init.value + [ReplaceItem(item, mediaId, url)])
  }

  /** An item referring to `mediaId` by either property. */
  predicate ItemMatches(item: Json, mediaId: Json)
  {
    item.Obj? && (StrictEquals(Prop(item.fields, "image"), mediaId) || StrictEquals(Prop(item.fields, "imageUrl"), mediaId))
  }

  /** `{...item, image: url, imageUrl: url}` for a matching item. */
  function ReplaceItem(item: Json, mediaId: Json, url: Json): (r: Json)
    ensures !ItemMatches(item, mediaId) ==> r == item
    ensures ItemMatches(item, mediaId) ==>
      r.Obj? && r.fields.Keys == item.fields.Keys + {"image", "imageUrl"} &&
      r.fields["image"] == url && r.fields["imageUrl"] == url &&
      forall k :: k in item.fields && k != "image" && k != "imageUrl" ==> r.fields[k] == item.fields[k]
  {
    if ItemMatches(item, mediaId) then Obj(item.fields["image" := url]["imageUrl" := url]) else item
  }

  /** Each item of a successful map is the item itself or its replacement. */
  lemma {:induction false} ReplaceItemsPointwise(items: seq<Json>, mediaId: Json, url: Json)
    requires ReplaceItems(items, mediaId, url).Ok?
    ensures forall k :: 0 <= k < |items| ==> ReplaceItems(items, mediaId, url).value[k] == ReplaceItem(items[k], mediaId, url)
  {
    if items != [] {
      ReplaceItemsPointwise(items[..|items| - 1], mediaId, url);
    }
  }

  /** The write planned for one section, if any: a section is written when a
      field matched or when it has an `items` array at all. */
  function SectionUpdate(s: Section, mediaId: Json, url: Json): Result<Option<Update>, string>
  {
    var c := ReplaceFields(s.content, ImageFields, mediaId, url);
    match Prop(c, "items")
    case Some(Arr(items)) =>
      (match ReplaceItems(items, mediaId, url)
       case Err(e) => Err(e)
       case Ok(items') => Ok(Some(Update(s.key, c["items" := Arr(items')]))))
    case _ =>
      if AnyFieldMatches(s.content, ImageFields, mediaId) then Ok(Some(Update(s.key, c))) else Ok(None)
  }

  /** A section has an `items` array. */
  predicate HasItems(c: Content)
  {
    Prop(c, "items").Some? && Prop(c, "items").value.Arr?
  }

  /** A section is written exactly when it has an `items` array or one of its
      image fields holds `mediaId`, and the write keeps its key. */
  lemma SectionUpdateMarks(s: Section, mediaId: Json, url: Json)
    requires SectionUpdate(s, mediaId, url).Ok?
    ensures SectionUpdate(s, mediaId, url).value.Some? <==>
      HasItems(s.content) || AnyFieldMatches(s.content, ImageFields, mediaId)
    ensures SectionUpdate(s, mediaId, url).value.Some? ==> SectionUpdate(s, mediaId, url).value.value.key == s.key
  {
    ReplaceFieldsExact(s.content, ImageFields, mediaId, url);
    assert "items" !in ImageFields;
  }

  /** The writes planned for the sections, in order, or the first error. */
  function PlannedUpdates(sections: seq<Section>, mediaId: Json, url: Json): Result<seq<Update>, string>
  {
    if sections == [] then Ok([])
    else
      var init := PlannedUpdates(sections[..|sections| - 1], mediaId, url);
      var u := SectionUpdate(sections[|sections| - 1], mediaId, url);
      if init.Err? then init
      else if u.Err? then Err(u.error)
      else Ok(init.value + (if u.value.Some? then [u.value.value] else []))
  }

  /** One more section extends the plan by its own write, if any. */
  lemma PlannedStep(sections: seq<Section>, i: nat, mediaId: Json, url: Json)
    requires i < |sections|
    ensures var init := PlannedUpdates(sections[..i], mediaId, url);
      var u := SectionUpdate(sections[i], mediaId, url);
      PlannedUpdates(sections[..i + 1], mediaId, url) ==
        if init.Err? then init
        else if u.Err? then Err(u.error)
        else Ok(init.value + (if u.value.Some? then [u.value.value] else []))
  {
    assert sections[..i + 1][..i] == sections[..i];
  }

  /** Once a prefix of the sections fails to plan, the whole plan fails
      with the same error. */
  lemma {:induction false} PlannedErrSticks(sections: seq<Section>, n: nat, mediaId: Json, url: Json)
    requires n <= |sections| && PlannedUpdates(sections[..n], mediaId, url).Err?
    ensures PlannedUpdates(sections, mediaId, url) == PlannedUpdates(sections[..n], mediaId, url)
  {
    if n < |sections| {
      var init := sections[..|sections| - 1];
      assert init[..n] == sections[..n];
      PlannedErrSticks(init, n, mediaId, url);
    } else {
      assert sections[..n] == sections;
    }
  }

  /** The number of sections that are written. */
  function MarkedCount(sections: seq<Section>, mediaId: Json): nat
  {
    if sections == [] then 0
    else
      var s := sections[|sections| - 1];
      MarkedCount(sections[..|sections| - 1], mediaId) +
      (if HasItems(s.content) || AnyFieldMatches(s.content, ImageFields, mediaId) then 1 else 0)
  }

  /** `updatedSections` counts the marked sections. */
  lemma {:induction false} PlannedCount(sections: seq<Section>, mediaId: Json, url: Json)
    requires PlannedUpdates(sections, mediaId, url).Ok?
    ensures |PlannedUpdates(sections, mediaId, url).value| == MarkedCount(sections, mediaId)
  {
    if sections != [] {
      PlannedCount(sections[..|sections| - 1], mediaId, url);
      SectionUpdateMarks(sections[|sections| - 1], mediaId, url);
    }
  }

  /** The four image fields are distinct. */
  lemma ImageFieldsDistinct()
    ensures forall a, b :: 0 <= a < b < |ImageFields| ==> ImageFields[a] != ImageFields[b]
  {
  }

  /** The field loop: each of the four fields checked in turn, raising the
      `needsUpdate` flag on a match. */
  method MatchFields(content: Content, mediaId: Json, url: Json) returns (updated: Content, needsUpdate: bool)
    ensures updated == ReplaceFields(content, ImageFields, mediaId, url)
    ensures needsUpdate <==> AnyFieldMatches(content, ImageFields, mediaId)
  {
    ImageFieldsDistinct();
    needsUpdate := false;
    updated := content;
    var j := 0;
    while j < |ImageFields|
      invariant 0 <= j <= |ImageFields|
      invariant updated == ReplaceFields(content, ImageFields[..j], mediaId, url)
      invariant needsUpdate <==> AnyFieldMatches(content, ImageFields[..j], mediaId)
    {
      var field := ImageFields[j];
      ghost var done := ImageFields[..j];
      assert ImageFields[..j + 1] == done + [field];
      assert field !in done;
      ReplaceFieldsUntouched(content, done, field, mediaId, url);
      ReplaceFieldsSnoc(content, done, field, mediaId, url);
      AnyFieldMatchesSnoc(content, done, field, mediaId);
      if StrictEquals(Prop(updated, field), mediaId) {
        updated := updated[field := url];
        needsUpdate := true;
      }
      j := j + 1;
    }
    assert ImageFields[..j] == ImageFields;
  }

  /** One pass of the handler's loop: the field checks, then the `items`
      array; a section with an `items` array is always written. */
  method PlanSection(section: Section, mediaId: Json, url: Json) returns (u: Result<Option<Update>, string>)
    ensures u == SectionUpdate(section, mediaId, url)
  {
    var updatedContent, needsUpdate := MatchFields(section.content, mediaId, url);
    var items := Prop(updatedContent, "items");
    if items.Some? && items.value.Arr? {
      var mapped := ReplaceItems(items.value.items, mediaId, url);
      if mapped.Err? {
        return Err(mapped.error);
      }
      updatedContent := updatedContent["items" := Arr(mapped.value)];
      needsUpdate := true;
    }
    u := Ok(if needsUpdate then Some(Update(section.key, updatedContent)) else None);
  }

  /** The handler's loop over every section, collecting the writes. */
  method PlanReplacement(sections: seq<Section>, mediaId: Json, url: Json) returns (r: Result<seq<Update>, string>)
    ensures r == PlannedUpdates(sections, mediaId, url)
  {
    var updates := [];
    var i := 0;
    while i < |sections|
      invariant 0 <= i <= |sections|
      invariant PlannedUpdates(sections[..i], mediaId, url) == Ok(updates)
    {
      var u := PlanSection(sections[i], mediaId, url);
      PlannedStep(sections, i, mediaId, url);
      if u.Err? {
        PlannedErrSticks(sections, i + 1, mediaId, url);
        return Err(u.error);
      }
      ghost var prev := updates;
      if u.value.Some? {
        updates := updates + [u.value.value];
      }
      assert updates == prev + (if u.value.Some? then [u.value.value] else []);
      i := i + 1;
    }
    assert sections[..i] == sections;
    r := Ok(updates);
  }

  /** Sends the writes in order; a failing write throws, and the writes
      before it stay applied. */
  method ApplyUpdates(db: Database, updates: seq<Update>, now: int, failAt: Option<nat>) returns (r: Result<nat, string>)
    modifies db
    ensures var done := if failAt.Some? && failAt.value < |updates| then failAt.value else |updates|;
      db.sections == ApplyAll(old(db.sections), updates[..done], now)
    ensures r.Ok? <==> !(failAt.Some? && failAt.value < |updates|)
    ensures r.Ok? ==> r.value == |updates|
    ensures db.admins == old(db.admins) && db.history == old(db.history) && db.assets == old(db.assets)
    ensures db.settings == old(db.settings) && db.session == old(db.session)
  {
    var i := 0;
    while i < |updates|
      invariant 0 <= i <= |updates|
      invariant failAt.Some? ==> i <= failAt.value
      invariant db.sections == ApplyAll(old(db.sections), updates[..i], now)
      invariant db.admins == old(db.admins) && db.history == old(db.history) && db.assets == old(db.assets)
      invariant db.settings == old(db.settings) && db.session == old(db.session)
    {
      if failAt == Some(i) {
        return Err("update error");
      }
      assert updates[..i + 1][..i] == updates[..i];
      db.sections := ApplyUpdate(db.sections, updates[i], now);
      i := i + 1;
    }
    assert updates[..i] == updates;
    r := Ok(|updates|);
  }

  /** `replace_website_image`: plan the writes over all sections, then send
      them; the result is the number of sections written. */
  method ReplaceWebsiteImage(db: Database, mediaId: Json, newImageUrl: Json, now: int, fetchFails: bool, failAt: Option<nat>)
    returns (r: Result<nat, string>)
    modifies db
    ensures fetchFails || PlannedUpdates(old(db.sections), mediaId, newImageUrl).Err? ==>
      r.Err? && db.sections == old(db.sections)
    ensures !fetchFails && PlannedUpdates(old(db.sections), mediaId, newImageUrl).Ok? ==>
      var updates := PlannedUpdates(old(db.sections), mediaId, newImageUrl).value;
      var done := if failAt.Some? && failAt.value < |updates| then failAt.value else |updates|;
      && db.sections == ApplyAll(old(db.sections), updates[..done], now)
      && (r.Ok? <==> done == |updates|)
      && (r.Ok? ==> r.value == MarkedCount(old(db.sections), mediaId))
    ensures db.admins == old(db.admins) && db.history == old(db.history) && db.assets == old(db.assets)
    ensures db.settings == old(db.settings) && db.session == old(db.session)
  {
    if fetchFails {
      return Err("fetch error");
    }
    var planned := PlanReplacement(db.sections, mediaId, newImageUrl);
    if planned.Err? {
      return Err(planned.error);
    }
    PlannedCount(db.sections, mediaId, newImageUrl);
    r := ApplyUpdates(db, planned.value, now, failAt);
  }

  // ---------------------------------------------------------------------
  // The media usage index (GET)

  /** `String(v)`, the property name a value becomes when used as a key. */
  function KeyText(j: Json): string
  {
    match j
    case Null => "null"
    case Bool(b) => if b then "true" else "false"
    case Num(n) => Decimal(n)
    case Str(s) => s
    case Obj(_) => "[object Object]"
    case Arr(items) =>
      Join(seq(|items|, k requires 0 <= k < |items| => if items[k].Null? then "" else KeyText(items[k])), ",")
  }

  /** `parts.join(sep)`. */
  function Join(parts: seq<string>, sep: string): string
  {
    if parts == [] then ""
    else if |parts| == 1 then parts[0]
    else Join(parts[..|parts| - 1], sep) + sep + parts[|parts| - 1]
  }

  /** Where an image is used: a section key and the field within it. */
  datatype Usage = Usage(section: string, field: string)

  /** A use of an image, keyed by the image value's property name. */
  datatype Entry = Entry(key: string, use: Usage)

  /** Uses recorded for the truthy image fields of one section. */
  function FieldEntries(s: Section, fields: seq<string>): (r: seq<Entry>)
    ensures forall f :: f in fields && Truthy(Prop(s.content, f)) ==>
      Entry(KeyText(s.content[f]), Usage(s.key, f)) in r
    ensures forall e :: e in r ==>
      (exists f :: f in fields && Truthy(Prop(s.content, f)) && e == Entry(KeyText(s.content[f]), Usage(s.key, f)))
  {
    if fields == [] then []
    else
      var f := fields[|fields| - 1];
      var init := FieldEntries(s, fields[..|fields| - 1]);
      assert forall g :: g in fields ==> g in fields[..|fields| - 1] || g == f;
      init + (if Truthy(Prop(s.content, f)) then [Entry(KeyText(s.content[f]), Usage(s.key, f))] else [])
  }

  /** `items[index].image` as the recorded field name. */
  function ItemField(index: nat): string
  {
    "items[" + Decimal(index) + "].image"
  }

  /** The image an item is listed under: its `image` when truthy, else its
      `imageUrl` when truthy; an item with neither (or no properties) has
      none. */
  function ItemImage(item: Json): (r: Option<Json>)
    ensures r.Some? <==> item.Obj? && (Truthy(Prop(item.fields, "image")) || Truthy(Prop(item.fields, "imageUrl")))
    ensures r.Some? && Truthy(Prop(item.fields, "image")) ==> r.value == item.fields["image"]
    ensures r.Some? && !Truthy(Prop(item.fields, "image")) ==> r.value == item.fields["imageUrl"]
  {
    if item.Obj? && (Truthy(Prop(item.fields, "image")) || Truthy(Prop(item.fields, "imageUrl"))) then
      Some(Or(Prop(item.fields, "image"), if "imageUrl" in item.fields then item.fields["imageUrl"] else Null))
    else None
  }

  /** The use item `k` of section `key` contributes, when it has an image. */
  function ItemEntry(key: string, item: Json, k: nat): Entry
    requires ItemImage(item).Some?
  {
    Entry(KeyText(ItemImage(item).value), Usage(key, ItemField(k)))
  }

  /** Uses recorded for the items: `item.image || item.imageUrl` when
      truthy; reading a property of a `null` item throws. */
  function ItemEntries(key: string, items: seq<Json>): (r: Result<seq<Entry>, string>)
    ensures r.Err? <==> exists k :: 0 <= k < |items| && items[k].Null?
    ensures r.Ok? ==> forall k :: 0 <= k < |items| && ItemImage(items[k]).Some? ==>
      ItemEntry(key, items[k], k) in r.value
    ensures r.Ok? ==> forall e :: e in r.value ==>
      (exists k :: 0 <= k < |items| && ItemImage(items[k]).Some? && e == ItemEntry(key, items[k], k))
  {
    if items == [] then Ok([])
    else
      var n := |items| - 1;
      var init := ItemEntries(key, items[..n]);
      assert forall k :: 0 <= k < n ==> items[..n][k] == items[k];
      var image := MemberOf(items[n], "image");
      if init.Err? then init
      else if image.Err? then Err(image.error)
      else
        var imageUrl := MemberOf(items[n], "imageUrl");
        if Truthy(image.value) || Truthy(imageUrl.value) then
          var url := Or(image.value, if imageUrl.value.Some? then imageUrl.value.value else Null);
          assert Some(url) == ItemImage(items[n]);
          Ok(init.value + [Entry(KeyText(url), Usage(key, ItemField(n)))])
        else init
  }

  /** Every use one section contributes, fields first, then items. */
  function SectionEntries(s: Section): Result<seq<Entry>, string>
  {
    var fields := FieldEntries(s, ImageFields);
    match Prop(s.content, "items")
    case Some(Arr(items)) =>
      (match ItemEntries(s.key, items)
       case Err(e) => Err(e)
       case Ok(es) => Ok(fields + es))
    case _ => Ok(fields)
  }

  /** The uses of all sections in order, or the first error. */
  function AllEntries(sections: seq<Section>): Result<seq<Entry>, string>
  {
    if sections == [] then Ok([])
    else
      var init := AllEntries(sections[..|sections| - 1]);
      var es := SectionEntries(sections[|sections| - 1]);
      if init.Err? then init else if es.Err? then es else Ok(init.value + es.value)
  }

  /** The uses recorded under `key`, in order. */
  function UsesOf(es: seq<Entry>, key: string): seq<Usage>
  {
    if es == [] then []
    else UsesOf(es[..|es| - 1], key) + (if es[|es| - 1].key == key then [es[|es| - 1].use] else [])
  }

  /** `if (!m[k]) m[k] = []; m[k].push(use)`. */
  function Record(m: map<string, seq<Usage>>, e: Entry): map<string, seq<Usage>>
  {
    m[e.key := (if e.key in m then m[e.key] else []) + [e.use]]
  }

  function Index(es: seq<Entry>): map<string, seq<Usage>>
  {
    if es == [] then map[] else Record(Index(es[..|es| - 1]), es[|es| - 1])
  }

  lemma IndexSnoc(es: seq<Entry>, e: Entry)
    ensures Index(es + [e]) == Record(Index(es), e)
  {
    assert (es + [e])[..|es|] == es;
  }

  /** The index holds exactly the keys used, each with all its uses in order. */
  lemma {:induction false} IndexGroups(es: seq<Entry>)
    ensures forall key :: key in Index(es) <==> exists e :: e in es && e.key == key
    ensures forall key :: key in Index(es) ==> Index(es)[key] == UsesOf(es, key) != []
    ensures forall key :: key !in Index(es) ==> UsesOf(es, key) == []
  {
    if es != [] {
      var init := es[..|es| - 1];
      IndexGroups(init);
      assert es == init + [es[|es| - 1]];
    }
  }

  /** The pushes for one section's entries, in order. */
  method RecordEntries(usage: map<string, seq<Usage>>, ghost before: seq<Entry>, es: seq<Entry>)
    returns (m: map<string, seq<Usage>>)
    requires usage == Index(before)
    ensures m == Index(before + es)
  {
    m := usage;
    assert before + es[..0] == before;
    var j := 0;
    while j < |es|
      invariant 0 <= j <= |es|
      invariant m == Index(before + es[..j])
    {
      var e := es[j];
      assert before + es[..j + 1] == (before + es[..j]) + [e];
      IndexSnoc(before + es[..j], e);
      m := m[e.key := (if e.key in m then m[e.key] else []) + [e.use]];
      j := j + 1;
    }
    assert es[..j] == es;
  }

  /** `GET`: the usage index over all sections. */
  method MediaUsage(query: Result<seq<Section>, string>) returns (r: Result<map<string, seq<Usage>>, string>)
    ensures query.Err? ==> r == Err(query.error)
    ensures query.Ok? ==> (r.Err? <==> AllEntries(query.value).Err?)
    ensures query.Ok? && r.Ok? ==> r.value == Index(AllEntries(query.value).value)
  {
    if query.Err? {
      return Err(query.error);
    }
    var sections := query.value;
    var usage := map[];
    ghost var recorded := [];
    var i := 0;
    while i < |sections|
      invariant 0 <= i <= |sections|
      invariant AllEntries(sections[..i]) == Ok(recorded)
      invariant usage == Index(recorded)
    {
      assert sections[..i + 1][..i] == sections[..i];
      var es := SectionEntries(sections[i]);
      if es.Err? {
        AllEntriesErrSticks(sections, i + 1);
        return Err(es.error);
      }
      usage := RecordEntries(usage, recorded, es.value);
      recorded := recorded + es.value;
      i := i + 1;
    }
    assert sections[..i] == sections;
    r := Ok(usage);
  }

  lemma {:induction false} AllEntriesErrSticks(sections: seq<Section>, n: nat)
    requires n <= |sections| && AllEntries(sections[..n]).Err?
    ensures AllEntries(sections).Err?
  {
    if n < |sections| {
      var init := sections[..|sections| - 1];
      assert init[..n] == sections[..n];
      AllEntriesErrSticks(init, n);
    } else {
      assert sections[..n] == sections;
    }
  }

  /** Every truthy image field of every section is listed under its value. */
  lemma UsageCoversFields(sections: seq<Section>, k: nat, f: string)
    requires AllEntries(sections).Ok? && k < |sections| && f in ImageFields && Truthy(Prop(sections[k].content, f))
    ensures var key := KeyText(sections[k].content[f]);
      key in Index(AllEntries(sections).value) &&
      Usage(sections[k].key, f) in Index(AllEntries(sections).value)[key]
  {
    var s := sections[k];
    var e := Entry(KeyText(s.content[f]), Usage(s.key, f));
    AllEntriesContain(sections, k);
    assert e in AllEntries(sections).value;
    IndexGroups(AllEntries(sections).value);
    UsesOfContains(AllEntries(sections).value, e);
  }

  /** Every item with an image, in every section's `items` array, is listed
      under `image || imageUrl` with its `items[i].image` use. */
  lemma UsageCoversItems(sections: seq<Section>, k: nat, items: seq<Json>, i: nat)
    requires AllEntries(sections).Ok? && k < |sections|
    requires Prop(sections[k].content, "items") == Some(Arr(items))
    requires i < |items| && ItemImage(items[i]).Some?
    ensures var key := KeyText(ItemImage(items[i]).value);
      key in Index(AllEntries(sections).value) &&
      Usage(sections[k].key, ItemField(i)) in Index(AllEntries(sections).value)[key]
  {
    var s := sections[k];
    var e := ItemEntry(s.key, items[i], i);
    AllEntriesContain(sections, k);
    var es := ItemEntries(s.key, items);
    assert es.Ok? && SectionEntries(s).value == FieldEntries(s, ImageFields) + es.value;
    assert e in es.value;
    assert e in AllEntries(sections).value;
    IndexGroups(AllEntries(sections).value);
    UsesOfContains(AllEntries(sections).value, e);
  }

  /** A section's own entries appear among all entries. */
  lemma {:induction false} AllEntriesContain(sections: seq<Section>, k: nat)
    requires AllEntries(sections).Ok? && k < |sections|
    ensures SectionEntries(sections[k]).Ok?
    ensures forall e :: e in SectionEntries(sections[k]).value ==> e in AllEntries(sections).value
  {
    var init := sections[..|sections| - 1];
    if k < |init| {
      assert init[k] == sections[k];
      AllEntriesContain(init, k);
    }
  }

  lemma {:induction false} UsesOfContains(es: seq<Entry>, e: Entry)
    requires e in es
    ensures e.use in UsesOf(es, e.key)
  {
    var init := es[..|es| - 1];
    if es[|es| - 1] != e {
      assert e in init by { assert es == init + [es[|es| - 1]]; }
      UsesOfContains(init, e);
    }
  }

  // ---------------------------------------------------------------------
  // Dispatch

  datatype Outcome = PreflightOk | UpdateImage | ReplaceImage | Usages | InvalidAction | NotAllowed

  /** Method first, then the POST body's action. */
  function Dispatch(httpMethod: string, action: Option<string>): (o: Outcome)
    ensures o == InvalidAction <==> httpMethod == "POST" && action != Some("update_content_image") && action != Some("replace_website_image")
    ensures o == NotAllowed <==> httpMethod !in {"OPTIONS", "POST", "GET"}
    ensures o == PreflightOk <==> httpMethod == "OPTIONS"
    ensures o == UpdateImage <==> httpMethod == "POST" && action == Some("update_content_image")
    ensures o == ReplaceImage <==> httpMethod == "POST" && action == Some("replace_website_image")
    ensures o == Usages <==> httpMethod == "GET"
  {
    if httpMethod == "OPTIONS" then PreflightOk
    else if httpMethod == "POST" then
      if action == Some("update_content_image") then UpdateImage
      else if action == Some("replace_website_image") then ReplaceImage
      else InvalidAction
    else if httpMethod == "GET" then Usages
    else NotAllowed
  }

  /** 400 for an unknown action, 405 for another method, 500 when a handler
      throws, else 200. */
  function StatusOf(o: Outcome, threw: bool): (code: int)
    ensures o == InvalidAction ==> code == 400
    ensures o == NotAllowed ==> code == 405
    ensures o in {UpdateImage, ReplaceImage, Usages} ==> (code == 500 <==> threw)
    ensures code == 200 <==> o == PreflightOk || (o in {UpdateImage, ReplaceImage, Usages} && !threw)
  {
    match o
    case InvalidAction => 400
    case NotAllowed => 405
    case PreflightOk => 200
    case _ => if threw then 500 else 200
  }
}
