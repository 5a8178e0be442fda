# Storefront admin and catalog logic, modelled in Dafny

This project models the non-visual logic of a small print-shop storefront and its admin panel.
It covers:

- the catalog and site-configuration records (`types.ts`);
- the admin's add-product form: growable slots for image URLs, detail lines and price tiers, and the submit step that filters and validates them into a product;
- the site-settings draft editor: edits one leaf of the configuration at a time, edits banner slides by index, and hands the whole draft over on save;
- the admin profile's password check and its edit mode;
- the banner carousel's slide index and its title split;
- the product page's lookup, its selection state, its detail-line split and its price panel;
- the product card's starting price;
- the WhatsApp link built from the second phone number.

Modelling choices:

- Strings are `seq<char>`.
- Prices are integer cents.
- `parseFloat` is a parameter `parse: string -> Option<int>`, where `None` stands for NaN.
- The configuration is edited through a typed path datatype, not a dotted string. A path therefore always names an existing leaf.
- The three editors and the two stateful pages are classes. Their fields are the components' React state, and each handler is a method.
- The filter, map and find steps are functions. The properties the source promises are proved as lemmas about them.

Modules: `Wrappers` (`Option`, `Result`), `Types`, `Text` (JavaScript `trim`, `split`, `join`), `Slots` (index-based replace/remove, `filter` and `find` as JavaScript does them, including out-of-range indices), `ProductForm`, `SiteSettings`, `Profile`, `BannerCarousel`, `ProductDetail`, `ProductCard`, `WhatsApp`.

Two behaviours of the code are worth stating plainly:

- Submitting a product whose variation slots all get filtered out is accepted with an empty tier list. `handleSubmit` (pages/AdminPage.tsx:122-143) has no check for it (`ProductForm.NoVariationIsAccepted`). A form that passes the browser's `required` checks reaches this case when a named tier's price parses to zero (`ProductForm.ZeroPriceTierIsDropped`).
- The settings editor does no structural validation before save. In the model, the typed path makes a malformed path impossible to write.

## Model

| member | source | states |
|---|---|---|
| Types.ParseShipping | types.ts:2-6 | the shipping select's text maps back to the shipping kind with that label, and to nothing when no kind has that label |
| Types.ShippingLabelRoundTrip | types.ts:2-6 | each of the three shipping kinds is recovered from its own label, so the three labels are distinct |
| Types.ParseThemeMode | types.ts:28 | only 'dark' and 'light' are theme modes; the parsed mode's name is the given text |
| Types.ThemeModeRoundTrip | types.ts:28 | each theme mode is recovered from its name |
| Text.TrimStart | pages/AdminPage.tsx:124 | the result is a suffix of the input, does not start with whitespace, and everything dropped was whitespace |
| Text.TrimEnd | pages/AdminPage.tsx:124 | the result is a prefix of the input, does not end with whitespace, and everything dropped was whitespace |
| Text.Trim | pages/AdminPage.tsx:124 | no contract of its own: `TrimEnd` after `TrimStart`, whose contracts characterise both ends |
| Text.IsBlank | pages/AdminPage.tsx:124 | no contract of its own: `s.trim() === ''`; `BlankIffAllWhitespace` characterises it |
| Text.BlankIffAllWhitespace | pages/AdminPage.tsx:124 | `s.trim() === ''` holds exactly when every character of `s` is JavaScript whitespace |
| Text.Split | components/BannerCarousel.tsx:43 | a split has at least one piece, no piece holds the separator, and the string is a single piece iff it holds no separator |
| Text.JoinSplit | components/BannerCarousel.tsx:49 | joining the pieces of a split with the same separator gives the string back |
| Text.Join | components/BannerCarousel.tsx:49 | no contract of its own: `parts.join(sep)`; `JoinSplit` and `SplitJoin` make it the inverse of `Split` |
| Text.SplitJoin | components/BannerCarousel.tsx:49 | splitting a join of separator-free pieces gives the pieces back |
| Text.SplitAtSeparator | pages/ProductDetailPage.tsx:83-84 | a separator-free prefix followed by the separator becomes the first piece of the split |
| Slots.Replaced | pages/AdminPage.tsx:102-104 | editing slot `i` keeps the length and every other slot; it is `s[i := v]` for an index in range and no change otherwise |
| Slots.Removed | pages/AdminPage.tsx:114 | removing index `i` deletes exactly that entry and keeps the rest in order; an index out of range changes nothing |
| Slots.AppendThenRemoveLast | pages/AdminPage.tsx:105-107 | appending an entry and removing the last index restores the list |
| Slots.Filter | pages/AdminPage.tsx:124 | the result is no longer than the input, holds only entries that pass, and is empty iff no entry passes |
| Slots.FilterSubMultiset | pages/AdminPage.tsx:124 | every survivor of a filter is an entry of the input, occurring no more often than in the input |
| Slots.FilterAppend | pages/AdminPage.tsx:134 | filtering distributes over concatenation, so the survivors keep their relative order |
| Slots.FilterIdempotent | components/FloatingWhatsApp.tsx:8 | filtering twice is filtering once |
| Slots.FilterHead | pages/AdminPage.tsx:132 | the first survivor of a filter is the first entry that passes |
| Slots.FindIndex | pages/ProductDetailPage.tsx:19 | the index found is the first entry satisfying the test; none is found iff no entry satisfies it |
| Slots.Find | pages/ProductDetailPage.tsx:44 | `find` gives the first satisfying entry, or `undefined` iff none satisfies the test |
| ProductForm.WithVariationField | pages/AdminPage.tsx:116-118 | editing one input of a variation slot sets that input to the typed text and keeps the other two |
| ProductForm.ApplyEdit | pages/AdminPage.tsx:98-100 | no contract of its own: `{...prev, [name]: value}` for one scalar field; `AddProductForm.HandleChange` states that only that field changes |
| ProductForm.PriceCents | pages/AdminPage.tsx:137 | no contract of its own: `parseFloat(String(price))`, or 0 when that is NaN or zero; `SingleSlotSurvives` shows an untouched or non-positive price drops the tier |
| ProductForm.DiscountCents | pages/AdminPage.tsx:138 | no contract of its own: an empty or absent discount is no discount; any other text is parsed |
| ProductForm.ToVariation | pages/AdminPage.tsx:135-138 | no contract of its own: the slot's name with its converted price and discount; `SingleSlotSurvives` states when the result survives |
| ProductForm.SurvivingVariations | pages/AdminPage.tsx:135-139 | no contract of its own: map then filter; `SurvivingVariationsAppend` and `SingleSlotSurvives` characterise it slot by slot |
| ProductForm.Submission | pages/AdminPage.tsx:122-143 | rejects iff every URL slot is blank; otherwise gallery = the non-blank URLs in order, main image = gallery[0], details = the non-blank lines in order, tiers = the converted slots that survive, scalar fields from the form |
| ProductForm.SubmittedProductIsClean | pages/AdminPage.tsx:124-139 | a submitted product holds no blank image URL, no blank detail line, and no tier without a name or without a positive price |
| ProductForm.FirstFilledUrlIsMainImage | pages/AdminPage.tsx:124-133 | the main image is the first URL slot that is not blank |
| ProductForm.SurvivingVariationsAppend | pages/AdminPage.tsx:135-139 | tiers are converted and filtered slot by slot, in slot order |
| ProductForm.SingleSlotSurvives | pages/AdminPage.tsx:135-139 | a slot survives iff its name is non-empty and its parsed price is positive; an untouched slot never becomes a zero-price tier |
| ProductForm.FilledAndBlankSlot | pages/AdminPage.tsx:135-139 | "Caixa 100un" at 25.50 beside a blank slot gives exactly one tier, at 2550 cents |
| ProductForm.NoVariationIsAccepted | pages/AdminPage.tsx:130-141 | with a non-blank image and slots none of which survives conversion and filtering, submit succeeds with no tiers |
| ProductForm.ZeroPriceTierIsDropped | pages/AdminPage.tsx:135-141 | a named tier whose price parses to zero is dropped and the product is accepted with no tiers and the URL as main image |
| ProductForm.AddProductForm.constructor | pages/AdminPage.tsx:93-96 | the form starts with one empty slot in each list and shipping "A Combinar" |
| ProductForm.AddProductForm.HandleChange | pages/AdminPage.tsx:98-100 | one scalar field takes the value; the slot lists are untouched |
| ProductForm.AddProductForm.HandleImageUrlChange | pages/AdminPage.tsx:102-104 | only URL slot `index` changes; the other lists are untouched and at least one URL slot remains |
| ProductForm.AddProductForm.AddImageUrl | pages/AdminPage.tsx:105 | exactly one empty URL slot is appended |
| ProductForm.AddProductForm.RemoveImageUrl | pages/AdminPage.tsx:106-108 | deletes slot `index` when more than one slot exists and does nothing otherwise, so at least one URL slot always remains |
| ProductForm.AddProductForm.HandleDetailChange | pages/AdminPage.tsx:110-112 | only detail slot `index` changes |
| ProductForm.AddProductForm.AddDetail | pages/AdminPage.tsx:113 | exactly one empty detail slot is appended |
| ProductForm.AddProductForm.RemoveDetail | pages/AdminPage.tsx:114 | deletes exactly detail slot `index`, keeping the order of the rest |
| ProductForm.AddProductForm.HandleVariationChange | pages/AdminPage.tsx:116-118 | only slot `index` changes, and within it only the named input |
| ProductForm.AddProductForm.AddVariation | pages/AdminPage.tsx:119 | exactly one empty variation slot is appended |
| ProductForm.AddProductForm.RemoveVariation | pages/AdminPage.tsx:120 | deletes exactly variation slot `index`, keeping the order of the rest |
| ProductForm.AddProductForm.HandleSubmit | pages/AdminPage.tsx:122-143 | returns the product handed to the catalog, or the rejection iff every URL slot is blank; the form is not changed |
| SiteSettings.Get | types.ts:30-69 | the value read at a leaf always has the leaf's kind |
| SiteSettings.LeavesDetermineConfig | types.ts:30-69 | two configurations that agree on every leaf are equal |
| SiteSettings.Set | pages/AdminPage.tsx:311-321 | a write is accepted iff the value has the leaf's kind; the addressed leaf then reads back the value and every other leaf keeps its value |
| SiteSettings.SetCurrentValueIsIdentity | pages/AdminPage.tsx:311-321 | writing back a leaf's current value changes nothing |
| SiteSettings.SetTwiceKeepsLast | pages/AdminPage.tsx:311-321 | a second write to a leaf overrides the first |
| SiteSettings.SetDistinctLeavesCommute | pages/AdminPage.tsx:311-321 | writes to two different leaves commute |
| SiteSettings.WithSlideText | pages/AdminPage.tsx:323-327 | one slide field takes the value and the other four keep theirs |
| SiteSettings.AddThenRemoveLastSlide | pages/AdminPage.tsx:329-337 | adding an empty slide and then removing the last one restores the whole configuration |
| SiteSettings.SiteSettingsEditor.constructor | pages/AdminPage.tsx:303-305 | the draft starts as the stored configuration and "saved" is off |
| SiteSettings.SiteSettingsEditor.SyncFromStore | pages/AdminPage.tsx:307-309 | a change in the store replaces the draft |
| SiteSettings.SiteSettingsEditor.HandleNestedChange | pages/AdminPage.tsx:311-321 | the addressed leaf takes the value and every other leaf keeps its value |
| SiteSettings.SiteSettingsEditor.HandleThemeSelect | pages/AdminPage.tsx:396-399 | the select's text is parsed to a theme mode and stored at `theme.mode`, every other leaf is kept; text that is not a mode changes nothing |
| SiteSettings.SiteSettingsEditor.HandleSlideChange | pages/AdminPage.tsx:323-327 | changes only field `f` of slide `index`; other slides, other fields and other leaves are kept |
| SiteSettings.SiteSettingsEditor.AddSlide | pages/AdminPage.tsx:329-332 | appends one all-empty slide and changes no other leaf |
| SiteSettings.SiteSettingsEditor.RemoveSlide | pages/AdminPage.tsx:334-337 | deletes only slide `index`, keeps the order of the rest and changes no other leaf |
| SiteSettings.SiteSettingsEditor.HandleSave | pages/AdminPage.tsx:351-353 | the draft is handed over whole and unchanged, and "saved" is raised |
| Profile.AdminProfile.constructor | pages/AdminPage.tsx:226-230 | the profile starts read-only with the default admin and empty password fields |
| Profile.AdminProfile.StartEditing | pages/AdminPage.tsx:294 | "Editar" enters edit mode and changes nothing else |
| Profile.AdminProfile.HandleChange | pages/AdminPage.tsx:232-234 | the name or e-mail field takes the value |
| Profile.AdminProfile.SetPassword | pages/AdminPage.tsx:277 | the password field takes the typed text |
| Profile.AdminProfile.SetConfirmPassword | pages/AdminPage.tsx:281 | the confirmation field takes the typed text |
| Profile.AdminProfile.HandleSave | pages/AdminPage.tsx:236-247 | a non-empty password that differs from its confirmation sets the error and stays in the current mode; otherwise both password fields are cleared, the error is empty and edit mode is left |
| Profile.AdminProfile.HandleCancel | pages/AdminPage.tsx:249-254 | leaves edit mode and clears both password fields and the error |
| BannerCarousel.Next | components/BannerCarousel.tsx:13-17 | no contract of its own: `goToNext`; `NextIsModular`, `NextPastEndDoesNotWrap` and `FullCycleReturns` state its behaviour |
| BannerCarousel.NextIsModular | components/BannerCarousel.tsx:13-17 | inside the list, `goToNext` gives `(i + 1) % len`: `len-1` wraps to 0, any other index moves to `i+1`, and the result stays in range |
| BannerCarousel.NextPastEndDoesNotWrap | components/BannerCarousel.tsx:14-15 | an index left past the end by a shrunken list is incremented without wrapping |
| BannerCarousel.AdvanceCompose | components/BannerCarousel.tsx:13-17 | `a` steps of `goToNext` followed by `b` steps are `a + b` steps |
| BannerCarousel.AdvanceBeforeLast | components/BannerCarousel.tsx:15 | before the last slide, each step adds one to the index |
| BannerCarousel.FullCycleReturns | components/BannerCarousel.tsx:13-17 | `len` calls of `goToNext` return to the starting slide |
| BannerCarousel.RunStaysInRange | components/BannerCarousel.tsx:11-26 | from an index in range, any mix of `goToNext` and dot clicks on existing slides keeps the index in `[0, len)` |
| BannerCarousel.Heading | components/BannerCarousel.tsx:43 | no contract of its own: `title.split(' ')[0]`; `TitleSplit` states what it holds |
| BannerCarousel.Subheading | components/BannerCarousel.tsx:49 | no contract of its own: `title.split(' ').slice(1).join(' ')`; `TitleSplit` states what it holds |
| BannerCarousel.TitleSplit | components/BannerCarousel.tsx:43-49 | the heading has no space; with a space in the title, heading + " " + subheading is the title; without one, the heading is the title and the subheading is empty |
| BannerCarousel.ViewOf | components/BannerCarousel.tsx:28-49 | an empty list renders nothing; an index in range shows that slide, its split title and the active dot; any other index is a fault |
| BannerCarousel.Carousel.constructor | components/BannerCarousel.tsx:11 | the index starts at 0 |
| BannerCarousel.Carousel.SetSlides | components/BannerCarousel.tsx:6-10 | new slides from the parent do not reset the index |
| BannerCarousel.Carousel.GoToNext | components/BannerCarousel.tsx:13-17 | the index becomes the next one, wrapping after the last slide |
| BannerCarousel.Carousel.GoToSlide | components/BannerCarousel.tsx:24-26 | the index becomes exactly the clicked slide |
| BannerCarousel.Carousel.Render | components/BannerCarousel.tsx:28-71 | nothing is rendered iff the list is empty; a slide is shown iff the index is in range |
| ProductDetail.FindProduct | pages/ProductDetailPage.tsx:19 | the product shown is the first whose id equals the route id; none is found iff no id matches |
| ProductDetail.FindVariation | pages/ProductDetailPage.tsx:44 | choosing a name selects the first tier with that name; an unknown name selects nothing |
| ProductDetail.FirstVariation | pages/ProductDetailPage.tsx:22-27 | no contract of its own: `variations[0]`, `undefined` for an empty list; used by the constructor and `Reload` |
| ProductDetail.DetailLabel | pages/ProductDetailPage.tsx:83 | no contract of its own: `detail.split(':')[0]`; `DetailLineParts` states what it holds |
| ProductDetail.DetailValue | pages/ProductDetailPage.tsx:84 | no contract of its own: `detail.split(':')[1]`; `DetailLineParts` states what it holds |
| ProductDetail.DetailLineParts | pages/ProductDetailPage.tsx:83-84 | the label is the text before the first colon; the value is the text up to the second colon, and anything after that is dropped; without a colon there is no value |
| ProductDetail.PricePanelOf | pages/ProductDetailPage.tsx:97-108 | no price without a selected tier; the discount lines appear iff the discount is present and non-zero; the price shown is the tier's price and the discount shown is the tier's `discountPrice` |
| ProductDetail.ProductDetailPage.constructor | pages/ProductDetailPage.tsx:19-22 | the selection starts at the found product's main image and first tier, or empty when no product matches |
| ProductDetail.ProductDetailPage.Reload | pages/ProductDetailPage.tsx:19-29 | a lookup that finds a different product resets the selection to its main image and first tier; finding the same product again, or nothing, keeps the selection |
| ProductDetail.ProductDetailPage.HandleVariationChange | pages/ProductDetailPage.tsx:42-46 | the selected tier becomes the first tier with the chosen name, or none |
| ProductDetail.ProductDetailPage.SelectImage | pages/ProductDetailPage.tsx:55-61 | clicking gallery entry `k` selects `imageGallery[k]` |
| ProductDetail.ProductDetailPage.Render | pages/ProductDetailPage.tsx:31-40 | the "not found" branch is taken iff no product matches |
| ProductCard.Min | components/ProductCard.tsx:12 | the minimum is at most every price and is one of them |
| ProductCard.StartingPrice | components/ProductCard.tsx:11-13 | 0 with no tiers; otherwise at most every tier's price and equal to some tier's price |
| ProductCard.StartingPriceIgnoresOrder | components/ProductCard.tsx:12 | the starting price depends only on the multiset of prices, not on the order of the tiers |
| WhatsApp.DigitsOnly | components/FloatingWhatsApp.tsx:8 | the result holds only ASCII digits, and it is empty iff the number has no digit |
| WhatsApp.DigitsKeepOrder | components/FloatingWhatsApp.tsx:8 | every digit is kept, in its original order |
| WhatsApp.DigitsOnlyIdempotent | components/FloatingWhatsApp.tsx:8 | stripping an already stripped number changes nothing |
| WhatsApp.WhatsAppLink | components/FloatingWhatsApp.tsx:8-14 | the button is hidden iff the number has no digit; otherwise the link is "https://wa.me/55" followed by exactly the number's digits |

The same digit stripping appears at components/Footer.tsx:20 and pages/HomePage.tsx:46. `WhatsApp.DigitsOnly` stands for those too.

## Left out

- Rendering: JSX, CSS classes, routing and navigation links. This covers the header, the footer, the home, products and contact pages, and the admin tab switching.
- The stores behind `addProduct`, `deleteProduct`, `updateSiteConfig`, `login` and `logout`. App.tsx is not part of this model. The editors return the value they hand to the store.
- Id generation and product deletion. Both live in the store. The "Editar" product button has an empty handler.
- The login page's fixed credential comparison.
- Timers: the carousel's 5-second auto-advance, its cleanup, and the 3-second reset of the "saved" flag. A timer tick is the `GoToNext` event.
- `FileReader`. Converting a chosen file to a data URL is asynchronous browser work. Its result is the text handed to `HandleNestedChange` or `HandleSlideChange`.
- `console.log` in the profile save.
- `parseFloat`, `toFixed` and the decimal-comma formatting of prices. They are JavaScript floating point. Prices are integer cents, and parsing is a parameter.
- HTML constraint validation. The browser does not call `handleSubmit` while a `required` field is empty, any URL slot holds text that is not a URL, or a price breaks `step="0.01"` (pages/AdminPage.tsx:153-208). The model does not gate submission on this: `Submission` and `AddProductForm.HandleSubmit` describe the handler called directly. `ProductForm.FilledAndBlankSlot` and `ProductForm.NoVariationIsAccepted` therefore include inputs the browser would hold back; `ProductForm.ZeroPriceTierIsDropped` gives one it would not.
- `ProductDetail.ProductDetailPage.Reload`: React compares the found product by reference; the model compares it by value. A catalog update that replaces a product with an equal copy resets the selection in the source and keeps it in the model.
- `ProductForm.DiscountCents`: a discount text that does not parse is NaN in the source. The model stores it as an absent discount. Both are falsy, and the product page treats them alike.
- `SiteSettings.SiteSettingsEditor.HandleNestedChange`: the source writes into the current state object in place, through a loop over the dotted keys, and then copies the top level. The model performs only the intended effect, a single-leaf update on a fresh value. Aliasing of the old state is not modelled, and a value of the wrong kind for its leaf is refused rather than stored.
- `SiteSettings.SiteSettingsEditor.HandleSlideChange`: requires an index of an existing slide, which is all the page ever passes. An out-of-range index in the source would write a partial slide.
- `ProductForm.AddProductForm.HandleChange`: the shipping select is taken to deliver a `ShippingType`. Its text is one of the three labels, which `Types.ParseShipping` maps back.
- `BannerCarousel.Carousel.Render`: for an index outside a non-empty list, the source throws while reading `undefined.imageUrl`. The model reports this as a `Fault` view.
