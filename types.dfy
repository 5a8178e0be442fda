/** The storefront's data model (types.ts): catalog entries and the
    singleton site configuration. Prices are integer cents. */
module Types {
  import opened Wrappers

  /** The shipping label shown on a product card; a closed enumeration. */
  datatype ShippingType = Free | Paid | Negotiate

  /** The label each shipping kind carries in the source enumeration. */
  function ShippingLabel(s: ShippingType): string
  {
    match s
    case Free => "Frete Grátis"
    case Paid => "Frete a Calcular"
    case Negotiate => "A Combinar"
  }

  /** The shipping `<select>` hands back one of the labels as text. */
  function ParseShipping(text: string): (r: Option<ShippingType>)
    ensures r.Some? ==> ShippingLabel(r.value) == text
    ensures r.None? ==> forall s: ShippingType :: ShippingLabel(s) != text
  {
    if text == ShippingLabel(Free) then Some(Free)
    else if text == ShippingLabel(Paid) then Some(Paid)
    else if text == ShippingLabel(Negotiate) then Some(Negotiate)
    else None
  }

  /** Every shipping kind is recovered from its own label. */
  lemma ShippingLabelRoundTrip(s: ShippingType)
    ensures ParseShipping(ShippingLabel(s)) == Some(s)
  {
    match s
    case Free =>
    case Paid =>
      assert |ShippingLabel(Paid)| != |ShippingLabel(Free)|;
    case Negotiate =>
      assert |ShippingLabel(Negotiate)| != |ShippingLabel(Free)|;
      assert |ShippingLabel(Negotiate)| != |ShippingLabel(Paid)|;
  }

  datatype ThemeMode = Dark | Light

  function ThemeModeName(m: ThemeMode): string
  {
    match m
    case Dark => "dark"
    case Light => "light"
  }

  /** The theme `<select>` hands back 'dark' or 'light' as text. */
  function ParseThemeMode(name: string): (r: Option<ThemeMode>)
    ensures r.Some? ==> ThemeModeName(r.value) == name
    ensures r.None? ==> forall m: ThemeMode :: ThemeModeName(m) != name
  {
    if name == "dark" then Some(Dark)
    else if name == "light" then Some(Light)
    else None
  }

  lemma ThemeModeRoundTrip(m: ThemeMode)
    ensures ParseThemeMode(ThemeModeName(m)) == Some(m)
  {
    match m
    case Dark =>
    case Light => assert |ThemeModeName(Light)| != |"dark"|;
  }

  /** A purchasable price tier; `discountPrice` is optional. */
  datatype ProductVariation = ProductVariation(name: string, price: int, discountPrice: Option<int>)

  /** A product as the admin form assembles it, before the store gives it an id. */
  datatype ProductInput = ProductInput(
    name: string,
    code: string,
    description: string,
    details: seq<string>,
    imageUrl: string,
    imageGallery: seq<string>,
    shipping: ShippingType,
    variations: seq<ProductVariation>)

  datatype Product = Product(
    id: string,
    name: string,
    code: string,
    description: string,
    details: seq<string>,
    imageUrl: string,
    imageGallery: seq<string>,
    shipping: ShippingType,
    variations: seq<ProductVariation>)

  datatype CompanyInfo = CompanyInfo(address: string, phone1: string, phone2: string, instagramUser: string)

  datatype ThemeSettings = ThemeSettings(mode: ThemeMode, primaryColor: string, secondaryColor: string)

  datatype SiteAssets = SiteAssets(logoUrl: string, faviconUrl: string)

  datatype BannerSlide = BannerSlide(imageUrl: string, title: string, subtitle: string, buttonText: string, buttonLink: string)

  datatype HomePageContent = HomePageContent(heroTitle: string, heroSubtitle: string, bannerSlides: seq<BannerSlide>)

  /** The `content` record, which holds only the home page. */
  datatype SiteContent = SiteContent(home: HomePageContent)

  datatype SiteConfig = SiteConfig(companyInfo: CompanyInfo, theme: ThemeSettings, assets: SiteAssets, content: SiteContent)
}
