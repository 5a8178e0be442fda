/** The admin's site-settings editor (SiteSettings): a draft copy of the
    site configuration, edited one leaf at a time through a path and handed
    over whole on save. The dotted string paths of the page become a typed
    path over the configuration tree, so that a path always names an
    existing leaf and a value of the wrong shape is refused. */
module SiteSettings {
  import opened Wrappers
  import opened Types
  import Slots

  datatype CompanyField = Address | Phone1 | Phone2 | InstagramUser
  datatype ThemeField = Mode | PrimaryColor | SecondaryColor
  datatype AssetField = LogoUrl | FaviconUrl
  datatype HomeField = HeroTitle | HeroSubtitle | BannerSlides

  /** `companyInfo.*`, `theme.*`, `assets.*` and `content.home.*`. */
  datatype Path =
    | CompanyInfoPath(company: CompanyField)
    | ThemePath(theme: ThemeField)
    | AssetsPath(asset: AssetField)
    | HomePath(home: HomeField)

  /** What a leaf holds: text, the theme mode, or the whole slide list. */
  datatype Value = TextValue(text: string) | ModeValue(mode: ThemeMode) | SlidesValue(slides: seq<BannerSlide>)

  datatype Kind = TextKind | ModeKind | SlidesKind

  function KindOf(v: Value): Kind
  {
    match v
    case TextValue(_) => TextKind
    case ModeValue(_) => ModeKind
    case SlidesValue(_) => SlidesKind
  }

  function PathKind(p: Path): Kind
  {
    match p
    case ThemePath(Mode) => ModeKind
    case HomePath(BannerSlides) => SlidesKind
    case _ => TextKind
  }

  /** The value at a leaf; it always has the leaf's kind. */
  function Get(c: SiteConfig, p: Path): (v: Value)
    ensures KindOf(v) == PathKind(p)
  {
    match p
    case CompanyInfoPath(Address) => TextValue(c.companyInfo.address)
    case CompanyInfoPath(Phone1) => TextValue(c.companyInfo.phone1)
    case CompanyInfoPath(Phone2) => TextValue(c.companyInfo.phone2)
    case CompanyInfoPath(InstagramUser) => TextValue(c.companyInfo.instagramUser)
    case ThemePath(Mode) => ModeValue(c.theme.mode)
    case ThemePath(PrimaryColor) => TextValue(c.theme.primaryColor)
    case ThemePath(SecondaryColor) => TextValue(c.theme.secondaryColor)
    case AssetsPath(LogoUrl) => TextValue(c.assets.logoUrl)
    case AssetsPath(FaviconUrl) => TextValue(c.assets.faviconUrl)
    case HomePath(HeroTitle) => TextValue(c.content.home.heroTitle)
    case HomePath(HeroSubtitle) => TextValue(c.content.home.heroSubtitle)
    case HomePath(BannerSlides) => SlidesValue(c.content.home.bannerSlides)
  }

  /** The slide list at `content.home.bannerSlides`. */
  function Slides(c: SiteConfig): seq<BannerSlide>
  {
    c.content.home.bannerSlides
  }

  /** A configuration is fully determined by the values at its leaves. */
  lemma LeavesDetermineConfig(c: SiteConfig, d: SiteConfig)
    requires forall p :: Get(c, p) == Get(d, p)
    ensures c == d
  {
    assert Get(c, CompanyInfoPath(Address)) == Get(d, CompanyInfoPath(Address));
    assert Get(c, CompanyInfoPath(Phone1)) == Get(d, CompanyInfoPath(Phone1));
    assert Get(c, CompanyInfoPath(Phone2)) == Get(d, CompanyInfoPath(Phone2));
    assert Get(c, CompanyInfoPath(InstagramUser)) == Get(d, CompanyInfoPath(InstagramUser));
    assert Get(c, ThemePath(Mode)) == Get(d, ThemePath(Mode));
    assert Get(c, ThemePath(PrimaryColor)) == Get(d, ThemePath(PrimaryColor));
    assert Get(c, ThemePath(SecondaryColor)) == Get(d, ThemePath(SecondaryColor));
    assert Get(c, AssetsPath(LogoUrl)) == Get(d, AssetsPath(LogoUrl));
    assert Get(c, AssetsPath(FaviconUrl)) == Get(d, AssetsPath(FaviconUrl));
    assert Get(c, HomePath(HeroTitle)) == Get(d, HomePath(HeroTitle));
    assert Get(c, HomePath(HeroSubtitle)) == Get(d, HomePath(HeroSubtitle));
    assert Get(c, HomePath(BannerSlides)) == Get(d, HomePath(BannerSlides));
  }

  function WithCompanyField(ci: CompanyInfo, f: CompanyField, t: string): CompanyInfo
  {
    match f
    case Address => ci.(address := t)
    case Phone1 => ci.(phone1 := t)
    case Phone2 => ci.(phone2 := t)
    case InstagramUser => ci.(instagramUser := t)
  }

  function WithHomeText(h: HomePageContent, f: HomeField, t: string): HomePageContent
  {
    match f
    case HeroTitle => h.(heroTitle := t)
    case HeroSubtitle => h.(heroSubtitle := t)
    case BannerSlides => h
  }

  /** `handleNestedChange(path, value)` on a fresh copy: the addressed leaf
      takes the value and every other leaf keeps its value. A value of the
      wrong kind for the leaf is refused. */
  function Set(c: SiteConfig, p: Path, v: Value): (r: Option<SiteConfig>)
    ensures r.Some? <==> KindOf(v) == PathKind(p)
    ensures r.Some? ==> Get(r.value, p) == v
    ensures r.Some? ==> forall q :: q != p ==> Get(r.value, q) == Get(c, q)
  {
    if KindOf(v) != PathKind(p) then None
    else
      match p
      case CompanyInfoPath(f) => Some(c.(companyInfo := WithCompanyField(c.companyInfo, f, v.text)))
      case ThemePath(Mode) => Some(c.(theme := c.theme.(mode := v.mode)))
      case ThemePath(PrimaryColor) => Some(c.(theme := c.theme.(primaryColor := v.text)))
      case ThemePath(SecondaryColor) => Some(c.(theme := c.theme.(secondaryColor := v.text)))
      case AssetsPath(LogoUrl) => Some(c.(assets := c.assets.(logoUrl := v.text)))
      case AssetsPath(FaviconUrl) => Some(c.(assets := c.assets.(faviconUrl := v.text)))
      case HomePath(BannerSlides) =>
        Some(c.(content := SiteContent(c.content.home.(bannerSlides := v.slides))))
      case HomePath(f) => Some(c.(content := SiteContent(WithHomeText(c.content.home, f, v.text))))
  }

  /** Writing back the value a leaf already holds changes nothing. */
  lemma SetCurrentValueIsIdentity(c: SiteConfig, p: Path)
    ensures Set(c, p, Get(c, p)) == Some(c)
  {
    LeavesDetermineConfig(Set(c, p, Get(c, p)).value, c);
  }

  /** A second write to the same leaf overrides the first. */
  lemma SetTwiceKeepsLast(c: SiteConfig, p: Path, v: Value, w: Value)
    requires KindOf(v) == PathKind(p) && KindOf(w) == PathKind(p)
    ensures Set(Set(c, p, v).value, p, w) == Set(c, p, w)
  {
    LeavesDetermineConfig(Set(Set(c, p, v).value, p, w).value, Set(c, p, w).value);
  }

  /** Writes to two different leaves commute. */
  lemma SetDistinctLeavesCommute(c: SiteConfig, p: Path, v: Value, q: Path, w: Value)
    requires p != q
    requires KindOf(v) == PathKind(p) && KindOf(w) == PathKind(q)
    ensures Set(Set(c, p, v).value, q, w) == Set(Set(c, q, w).value, p, v)
  {
    LeavesDetermineConfig(Set(Set(c, p, v).value, q, w).value, Set(Set(c, q, w).value, p, v).value);
  }

  datatype SlideField = SlideImageUrl | Title | Subtitle | ButtonText | ButtonLink

  function SlideText(s: BannerSlide, f: SlideField): string
  {
    match f
    case SlideImageUrl => s.imageUrl
    case Title => s.title
    case Subtitle => s.subtitle
    case ButtonText => s.buttonText
    case ButtonLink => s.buttonLink
  }

  /** `{ ...slide, [field]: value }`: one field takes the value, the other four keep theirs. */
  function WithSlideText(s: BannerSlide, f: SlideField, t: string): (r: BannerSlide)
    ensures SlideText(r, f) == t
    ensures forall g :: g != f ==> SlideText(r, g) == SlideText(s, g)
  {
    match f
    case SlideImageUrl => s.(imageUrl := t)
    case Title => s.(title := t)
    case Subtitle => s.(subtitle := t)
    case ButtonText => s.(buttonText := t)
    case ButtonLink => s.(buttonLink := t)
  }

  /** The slide `addSlide` appends: all five fields empty. */
  const EmptySlide := BannerSlide("", "", "", "", "")

  /** Appending an empty slide and then removing the last slide, both through
      the slide-list leaf, restores the configuration. */
  lemma AddThenRemoveLastSlide(c: SiteConfig)
    ensures var added := Set(c, HomePath(BannerSlides), SlidesValue(Slides(c) + [EmptySlide])).value;
      Set(added, HomePath(BannerSlides), SlidesValue(Slots.Removed(Slides(added), |Slides(c)|))) == Some(c)
  {
    var added := Set(c, HomePath(BannerSlides), SlidesValue(Slides(c) + [EmptySlide])).value;
    assert Slides(added) == Slides(c) + [EmptySlide];
    Slots.AppendThenRemoveLast(Slides(c), EmptySlide);
    SetTwiceKeepsLast(c, HomePath(BannerSlides), SlidesValue(Slides(c) + [EmptySlide]), SlidesValue(Slides(c)));
    SetCurrentValueIsIdentity(c, HomePath(BannerSlides));
  }

  /** The editor's state: the draft and the transient "saved" flag. */
  class SiteSettingsEditor {
    var config: SiteConfig
    var saved: bool

    constructor (siteConfig: SiteConfig)
      ensures config == siteConfig && !saved
    {
      config := siteConfig;
      saved := false;
    }

    /** The effect that reloads the draft whenever the stored configuration changes. */
    method SyncFromStore(siteConfig: SiteConfig)
      modifies this
      ensures config == siteConfig && saved == old(saved)
    {
      config := siteConfig;
    }

    /** Every call site passes a value of the leaf's kind. */
    method HandleNestedChange(p: Path, v: Value)
      requires KindOf(v) == PathKind(p)
      modifies this
      ensures Some(config) == Set(old(config), p, v)
      ensures Get(config, p) == v
      ensures forall q :: q != p ==> Get(config, q) == Get(old(config), q)
      ensures saved == old(saved)
    {
      config := Set(config, p, v).value;
    }

    /** The theme `<select>`: its text is parsed back to a mode and stored at
      `theme.mode`. The select offers only "dark" and "light"; any other text
      leaves the draft as it is. */
    method HandleThemeSelect(text: string)
      modifies this
      ensures ParseThemeMode(text).Some? ==> Get(config, ThemePath(Mode)) == ModeValue(ParseThemeMode(text).value)
      ensures ParseThemeMode(text).None? ==> config == old(config)
      ensures forall q :: q != ThemePath(Mode) ==> Get(config, q) == Get(old(config), q)
      ensures saved == old(saved)
    {
      var parsed := ParseThemeMode(text);
      if parsed.Some? {
        HandleNestedChange(ThemePath(Mode), ModeValue(parsed.value));
      }
    }

    /** `handleSlideChange`: one field of one slide changes; the other slides,
      the other fields of that slide and every other leaf keep their values. */
    method HandleSlideChange(index: nat, f: SlideField, t: string)
      requires index < |Slides(config)|
      modifies this
      ensures |Slides(config)| == |Slides(old(config))|
      ensures SlideText(Slides(config)[index], f) == t
      ensures forall g :: g != f ==> SlideText(Slides(config)[index], g) == SlideText(Slides(old(config))[index], g)
      ensures forall j :: 0 <= j < |Slides(config)| && j != index ==> Slides(config)[j] == Slides(old(config))[j]
      ensures forall q :: q != HomePath(BannerSlides) ==> Get(config, q) == Get(old(config), q)
      ensures saved == old(saved)
    {
      var slides := Slides(config);
      var newSlides := Slots.Replaced(slides, index, WithSlideText(slides[index], f, t));
      HandleNestedChange(HomePath(BannerSlides), SlidesValue(newSlides));
    }

    method AddSlide()
      modifies this
      ensures Slides(config) == Slides(old(config)) + [EmptySlide]
      ensures forall q :: q != HomePath(BannerSlides) ==> Get(config, q) == Get(old(config), q)
      ensures saved == old(saved)
    {
      HandleNestedChange(HomePath(BannerSlides), SlidesValue(Slides(config) + [EmptySlide]));
    }

    /** Deletes slide `index` and keeps the others in order; an index out of range changes nothing. */
    method RemoveSlide(index: int)
      modifies this
      ensures Slides(config) == Slots.Removed(Slides(old(config)), index)
      ensures forall q :: q != HomePath(BannerSlides) ==> Get(config, q) == Get(old(config), q)
      ensures saved == old(saved)
    {
      HandleNestedChange(HomePath(BannerSlides), SlidesValue(Slots.Removed(Slides(config), index)));
    }

    /** `handleSave`: the draft is handed to the store whole and the "saved"
      acknowledgement is raised; the draft itself is kept. */
    method HandleSave() returns (committed: SiteConfig)
      modifies this
      ensures committed == config && config == old(config)
      ensures saved
    {
      committed := config;
      saved := true;
    }
  }
}
