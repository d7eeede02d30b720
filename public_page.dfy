/** The public landing page: the content and settings maps it loads from the
    store, the defaults it falls back to, the section highlighted while
    scrolling and the mobile menu. The browser's layout (whether an element
    exists, its offset and height) is a parameter. */
module PublicPage {
  import opened Values
  import opened Tables

  // ---------------------------------------------------------------------
  // Key/value maps built with `forEach`

  /** `rows.forEach(r => m[key(r)] = val(r))` on an empty object. */
  function KeyMap<R, V>(rows: seq<R>, key: R -> string, val: R -> V): map<string, V>
  {
    if rows == [] then map[]
    else KeyMap(rows[..|rows| - 1], key, val)[key(rows[|rows| - 1]) := val(rows[|rows| - 1])]
  }

  /** The map has a key exactly for each row's key. */
  lemma {:induction false} KeyMapKeys<R, V>(rows: seq<R>, key: R -> string, val: R -> V)
    ensures forall k :: k in KeyMap(rows, key, val) <==> exists i :: 0 <= i < |rows| && key(rows[i]) == k
  {
    if rows != [] {
      var n := |rows| - 1;
      var init := rows[..n];
      KeyMapKeys(init, key, val);
      assert KeyMap(rows, key, val) == KeyMap(init, key, val)[key(rows[n]) := val(rows[n])];
      forall k
        ensures k in KeyMap(rows, key, val) <==> exists i :: 0 <= i < |rows| && key(rows[i]) == k
      {
        if k == key(rows[n]) {
          assert 0 <= n < |rows| && key(rows[n]) == k;
        } else {
          if k in KeyMap(init, key, val) {
            var i :| 0 <= i < |init| && key(init[i]) == k;
            assert 0 <= i < |rows| && key(rows[i]) == k;
          }
          if exists i :: 0 <= i < |rows| && key(rows[i]) == k {
            var i :| 0 <= i < |rows| && key(rows[i]) == k;
            assert i < n && init[i] == rows[i];
          }
        }
      }
    }
  }

  /** A key holds the value of the last row with that key. */
  lemma {:induction false} KeyMapValues<R, V>(rows: seq<R>, key: R -> string, val: R -> V, i: int)
    requires 0 <= i < |rows|
    requires forall j :: i < j < |rows| ==> key(rows[j]) != key(rows[i])
    ensures key(rows[i]) in KeyMap(rows, key, val)
    ensures KeyMap(rows, key, val)[key(rows[i])] == val(rows[i])
  {
    var n := |rows| - 1;
    var init := rows[..n];
    assert KeyMap(rows, key, val) == KeyMap(init, key, val)[key(rows[n]) := val(rows[n])];
    if i < n {
      assert init[i] == rows[i];
      forall j | i < j < |init| ensures key(init[j]) != key(init[i]) {
        assert init[j] == rows[j];
      }
      KeyMapValues(init, key, val, i);
    }
  }

  /** The map has a key exactly for each row's key, and a key holds the value
      of the last row with that key. */
  lemma KeyMapLastWins<R, V>(rows: seq<R>, key: R -> string, val: R -> V)
    ensures forall k :: k in KeyMap(rows, key, val) <==> exists i :: 0 <= i < |rows| && key(rows[i]) == k
    ensures forall i :: 0 <= i < |rows| && (forall j :: i < j < |rows| ==> key(rows[j]) != key(rows[i])) ==>
      KeyMap(rows, key, val)[key(rows[i])] == val(rows[i])
  {
    KeyMapKeys(rows, key, val);
    forall i | 0 <= i < |rows| && (forall j :: i < j < |rows| ==> key(rows[j]) != key(rows[i]))
      ensures KeyMap(rows, key, val)[key(rows[i])] == val(rows[i])
    {
      KeyMapValues(rows, key, val, i);
    }
  }

  /** The `forEach` loop that fills such a map. */
  method FillMap<R, V>(rows: seq<R>, key: R -> string, val: R -> V) returns (m: map<string, V>)
    ensures m == KeyMap(rows, key, val)
  {
    m := map[];
    var i := 0;
    while i < |rows|
      invariant 0 <= i <= |rows|
      invariant m == KeyMap(rows[..i], key, val)
    {
      assert rows[..i + 1][..i] == rows[..i];
      m := m[key(rows[i]) := val(rows[i])];
      i := i + 1;
    }
    assert rows[..i] == rows;
  }

  function SectionKey(s: Section): string { s.key }
  function SectionContent(s: Section): Content { s.content }
  function SettingKey(s: Setting): string { s.key }
  function SettingValue(s: Setting): Json { s.value }

  // ---------------------------------------------------------------------
  // Defaults

  const DefaultTitle: string := "We Create the Space for Impact"
  /** The render-time default: one more sentence before the fallback's text. */
  const DefaultDescription: string := "Exhibitions built with precision and scale. " + FallbackDescription
  const DefaultCta: string := "Start Your Event"
  const DefaultLogo: string := "./images/space_logo_20260101_120021.png"

  const FallbackDescription: string :=
    "We transform concepts into powerful experiences that drive business results and create lasting connections."

  /** The content shown when loading fails: only a `hero` section. */
  const FallbackHero: Content := map[
    "title" := Str("We Create the Space for Impact"),
    "subtitle" := Str("Exhibitions Built with Precision and Scale"),
    "description" := Str(FallbackDescription),
    "ctaPrimary" := Str("Start Your Event"),
    "ctaSecondary" := Str("View Our Work")]

  const FallbackContent: map<string, Content> := map["hero" := FallbackHero]

  /** `contentData.hero?.<field> || fallback`. */
  function HeroText(contentData: map<string, Content>, field: string, fallback: string): (r: Json)
    ensures "hero" !in contentData ==> r == Str(fallback)
    ensures "hero" in contentData && Truthy(Prop(contentData["hero"], field)) ==> r == contentData["hero"][field]
    ensures "hero" in contentData && !Truthy(Prop(contentData["hero"], field)) ==> r == Str(fallback)
  {
    if "hero" in contentData then Or(Prop(contentData["hero"], field), Str(fallback)) else Str(fallback)
  }

  function HeroTitle(contentData: map<string, Content>): Json
  {
    HeroText(contentData, "title", DefaultTitle)
  }

  function HeroDescription(contentData: map<string, Content>): Json
  {
    HeroText(contentData, "description", DefaultDescription)
  }

  function HeroCta(contentData: map<string, Content>): Json
  {
    HeroText(contentData, "ctaPrimary", DefaultCta)
  }

  /** `siteSettings.general?.logoUrl`, else the bundled logo. */
  function LogoUrl(siteSettings: map<string, Json>): (r: Json)
    ensures Truthy(Member(Prop(siteSettings, "general"), "logoUrl")) ==> Some(r) == Member(Prop(siteSettings, "general"), "logoUrl")
    ensures !Truthy(Member(Prop(siteSettings, "general"), "logoUrl")) ==> r == Str(DefaultLogo)
  {
    Or(Member(Prop(siteSettings, "general"), "logoUrl"), Str(DefaultLogo))
  }

  /** After a failed load the hero shows the fallback's own title, text and
      call to action; the description is the fallback's, which differs from
      the render-time default. */
  lemma FallbackHeroShown()
    ensures HeroTitle(FallbackContent) == Str(DefaultTitle)
    ensures HeroCta(FallbackContent) == Str(DefaultCta)
    ensures HeroDescription(FallbackContent) == Str(FallbackDescription)
    ensures HeroDescription(FallbackContent) != Str(DefaultDescription)
  {
    assert FallbackHero["description"] == Str(FallbackDescription);
    assert |DefaultDescription| > |FallbackDescription|;
  }

  /** A stored hero value that is a non-empty string replaces the default. */
  lemma StoredHeroWins(contentData: map<string, Content>, field: string, fallback: string, text: string)
    requires "hero" in contentData && field in contentData["hero"] && contentData["hero"][field] == Str(text) && text != ""
    ensures HeroText(contentData, field, fallback) == Str(text)
  {
  }

  // ---------------------------------------------------------------------
  // Active section

  /** The section ids the scroll handler checks, in order. */
  const NavSections: seq<string> := ["home", "about", "services", "work", "green-life-expo", "contact"]

  /** An element's `offsetTop` and `offsetHeight`. */
  datatype Box = Box(offsetTop: int, offsetHeight: int)

  /** The element with this id exists and its band holds the position. */
  predicate Hit(layout: string -> Option<Box>, id: string, pos: int)
  {
    layout(id).Some? && layout(id).value.offsetTop <= pos < layout(id).value.offsetTop + layout(id).value.offsetHeight
  }

  /** The first id, in order, whose element holds the position. */
  function FirstHit(ids: seq<string>, layout: string -> Option<Box>, pos: int): (r: Option<string>)
    ensures r.None? <==> forall k :: 0 <= k < |ids| ==> !Hit(layout, ids[k], pos)
    ensures r.Some? ==>
      (exists k :: 0 <= k < |ids| && ids[k] == r.value && Hit(layout, ids[k], pos) &&
        forall j :: 0 <= j < k ==> !Hit(layout, ids[j], pos))
  {
    if ids == [] then None
    else if Hit(layout, ids[0], pos) then Some(ids[0])
    else
      var r := FirstHit(ids[1..], layout, pos);
      assert forall k :: 1 <= k < |ids| ==> ids[k] == ids[1..][k - 1];
      if r.Some? then
        var k :| 0 <= k < |ids[1..]| && ids[1..][k] == r.value && Hit(layout, ids[1..][k], pos) &&
          forall j :: 0 <= j < k ==> !Hit(layout, ids[1..][j], pos);
        assert ids[k + 1] == r.value;
        r
      else r
  }

  // ---------------------------------------------------------------------
  // The page

  class Page {
    var isMenuOpen: bool
    var activeSection: string
    var contentData: map<string, Content>
    var siteSettings: map<string, Json>
    var loading: bool

    constructor ()
      ensures !isMenuOpen && activeSection == "home" && contentData == map[] && siteSettings == map[] && loading
    {
      isMenuOpen := false;
      activeSection := "home";
      contentData := map[];
      siteSettings := map[];
      loading := true;
    }

    /** `loadContent`: the published sections' key→content map and the
        settings' key→value map, each replaced only when its query returned
        rows; when the load throws, only the fallback hero is kept and the
        settings stay as they were. */
    method LoadContent(sectionTable: Option<seq<Section>>, settingTable: Option<seq<Setting>>, throws: bool)
      modifies this
      ensures throws ==> contentData == FallbackContent && siteSettings == old(siteSettings)
      ensures !throws ==> contentData == (if sectionTable.Some? then KeyMap(Published(sectionTable.value), SectionKey, SectionContent) else old(contentData))
      ensures !throws ==> siteSettings == (if settingTable.Some? then KeyMap(settingTable.value, SettingKey, SettingValue) else old(siteSettings))
      ensures !loading && isMenuOpen == old(isMenuOpen) && activeSection == old(activeSection)
    {
      if throws {
        contentData := FallbackContent;
      } else {
        if sectionTable.Some? {
          var contentMap := FillMap(Published(sectionTable.value), SectionKey, SectionContent);
          contentData := contentMap;
        }
        if settingTable.Some? {
          var settingsMap := FillMap(settingTable.value, SettingKey, SettingValue);
          siteSettings := settingsMap;
        }
      }
      loading := false;
    }

    /** `scrollToSection`: only an existing element is scrolled to, which
        also closes the menu. */
    method ScrollToSection(id: string, elementExists: bool)
      modifies this
      ensures elementExists ==> activeSection == id && !isMenuOpen
      ensures !elementExists ==> activeSection == old(activeSection) && isMenuOpen == old(isMenuOpen)
      ensures contentData == old(contentData) && siteSettings == old(siteSettings) && loading == old(loading)
    {
      if elementExists {
        activeSection := id;
        isMenuOpen := false;
      }
    }

    /** `handleScroll`: the first section, in order, whose band holds
        `scrollY + 100` becomes active; with none, nothing changes. */
    method HandleScroll(scrollY: int, layout: string -> Option<Box>)
      modifies this
      ensures var hit := FirstHit(NavSections, layout, scrollY + 100);
        activeSection == if hit.Some? then hit.value else old(activeSection)
      ensures isMenuOpen == old(isMenuOpen) && contentData == old(contentData)
      ensures siteSettings == old(siteSettings) && loading == old(loading)
    {
      var scrollPosition := scrollY + 100;
      var i := 0;
      while i < |NavSections|
        invariant 0 <= i <= |NavSections|
        invariant forall k :: 0 <= k < i ==> !Hit(layout, NavSections[k], scrollPosition)
        invariant activeSection == old(activeSection) && isMenuOpen == old(isMenuOpen)
        invariant contentData == old(contentData) && siteSettings == old(siteSettings) && loading == old(loading)
      {
        var section := NavSections[i];
        var element := layout(section);
        if element.Some? {
          if element.value.offsetTop <= scrollPosition < element.value.offsetTop + element.value.offsetHeight {
            activeSection := section;
            FirstHitIs(NavSections, layout, scrollPosition, i);
            break;
          }
        }
        i := i + 1;
      }
    }

    /** The menu button. */
    method ToggleMenu()
      modifies this
      ensures isMenuOpen == !old(isMenuOpen)
      ensures activeSection == old(activeSection) && contentData == old(contentData)
      ensures siteSettings == old(siteSettings) && loading == old(loading)
    {
      isMenuOpen := !isMenuOpen;
    }
  }

  /** When `ids[i]` is the first hit, `FirstHit` finds exactly it. */
  lemma FirstHitIs(ids: seq<string>, layout: string -> Option<Box>, pos: int, i: nat)
    requires i < |ids| && Hit(layout, ids[i], pos)
    requires forall k :: 0 <= k < i ==> !Hit(layout, ids[k], pos)
    ensures FirstHit(ids, layout, pos) == Some(ids[i])
  {
    var r := FirstHit(ids, layout, pos);
    var k :| 0 <= k < |ids| && ids[k] == r.value && Hit(layout, ids[k], pos) &&
      forall j :: 0 <= j < k ==> !Hit(layout, ids[j], pos);
    assert k == i;
  }
}
