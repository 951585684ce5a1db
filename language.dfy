/** The language context: the Danish and English tables, the lookup `t` that falls back
    to the key, the language restored from local storage, `setLanguage`, the effect that
    writes the choice back, and the `useLanguage` hook. */
module Language {
  import opened Wrappers
  import opened Text

  datatype Lang = Da | En

  /** The code under which a language is stored and indexes the tables. */
  function Code(l: Lang): string {
    match l
    case Da => "da"
    case En => "en"
  }

  /** The language with a given code, if there is one. */
  function ParseLang(s: string): (r: Option<Lang>)
    ensures r.Some? <==> s == "da" || s == "en"
    ensures r.Some? ==> Code(r.value) == s
  {
    if s == "da" then Some(Da) else if s == "en" then Some(En) else None
  }

  /** Every language reads back from its own code. */
  lemma CodeRoundTrip(l: Lang)
    ensures ParseLang(Code(l)) == Some(l)
  {
  }

  // ---------------------------------------------------------------------------
  // The keys

  /** The keys of the tables, grouped by the prefix before their first dot. Both tables
      have exactly these keys, so each table is a total function on them. */
  datatype NavKey = NavHome | NavDesign | NavAbout | NavContact
  datatype HeroKey = HeroTitle | HeroSubtitle | HeroCta
  datatype ProductsKey = ProductsTitle | ProductsTshirt | ProductsHoodie | ProductsMug | ProductsPoster | ProductsPrice | ProductsCustomize
  datatype FeaturesKey = FeaturesTitle | FeaturesQualityTitle | FeaturesQualityDesc | FeaturesShippingTitle | FeaturesShippingDesc | FeaturesDesignTitle | FeaturesDesignDesc | FeaturesSupportTitle | FeaturesSupportDesc
  datatype AboutKey = AboutTitle | AboutMission | AboutMissionText | AboutStory | AboutStoryText | AboutValues | AboutValuesText
  datatype ContactKey = ContactTitle | ContactSubtitle | ContactName | ContactEmail | ContactMessage | ContactSend | ContactSending | ContactSuccess | ContactError
  datatype DesignKey = DesignTitle | DesignUpload | DesignText | DesignColor | DesignPrice | DesignAddToCart | DesignProduct | DesignSize | DesignRemove | DesignTextPlaceholder
  datatype CartKey = CartTitle | CartEmpty | CartSubtotal | CartShipping | CartTotal | CartCheckout | CartContinueShopping | CartRemove
  datatype CheckoutKey = CheckoutTitle | CheckoutContactInfo | CheckoutFirstName | CheckoutLastName | CheckoutPhone | CheckoutShippingAddress | CheckoutAddress | CheckoutCity | CheckoutPostalCode | CheckoutCountry | CheckoutOrderSummary | CheckoutPlaceOrder | CheckoutProcessing | CheckoutSuccess | CheckoutError
  datatype FooterKey = FooterCompany | FooterSupport | FooterLegal | FooterPrivacy | FooterTerms | FooterRights
  datatype SizeKey = SizeSmall | SizeMedium | SizeLarge | SizeXlarge

  datatype Key =
    Nav(nav: NavKey)
    | Hero(hero: HeroKey)
    | Products(products: ProductsKey)
    | Features(features: FeaturesKey)
    | About(about: AboutKey)
    | Contact(contact: ContactKey)
    | Design(design: DesignKey)
    | Cart(cart: CartKey)
    | Checkout(checkout: CheckoutKey)
    | Footer(footer: FooterKey)
    | Size(size: SizeKey)

  /** The key a string names, if it names one. */
  function ParseKey(s: string): Option<Key> {
    match s
    case "nav.home" => Some(Nav(NavHome))
    case "nav.design" => Some(Nav(NavDesign))
    case "nav.about" => Some(Nav(NavAbout))
    case "nav.contact" => Some(Nav(NavContact))
    case "hero.title" => Some(Hero(HeroTitle))
    case "hero.subtitle" => Some(Hero(HeroSubtitle))
    case "hero.cta" => Some(Hero(HeroCta))
    case "products.title" => Some(Products(ProductsTitle))
    case "products.tshirt" => Some(Products(ProductsTshirt))
    case "products.hoodie" => Some(Products(ProductsHoodie))
    case "products.mug" => Some(Products(ProductsMug))
    case "products.poster" => Some(Products(ProductsPoster))
    case "products.price" => Some(Products(ProductsPrice))
    case "products.customize" => Some(Products(ProductsCustomize))
    case "features.title" => Some(Features(FeaturesTitle))
    case "features.quality.title" => Some(Features(FeaturesQualityTitle))
    case "features.quality.desc" => Some(Features(FeaturesQualityDesc))
    case "features.shipping.title" => Some(Features(FeaturesShippingTitle))
    case "features.shipping.desc" => Some(Features(FeaturesShippingDesc))
    case "features.design.title" => Some(Features(FeaturesDesignTitle))
    case "features.design.desc" => Some(Features(FeaturesDesignDesc))
    case "features.support.title" => Some(Features(FeaturesSupportTitle))
    case "features.support.desc" => Some(Features(FeaturesSupportDesc))
    case "about.title" => Some(About(AboutTitle))
    case "about.mission" => Some(About(AboutMission))
    case "about.mission.text" => Some(About(AboutMissionText))
    case "about.story" => Some(About(AboutStory))
    case "about.story.text" => Some(About(AboutStoryText))
    case "about.values" => Some(About(AboutValues))
    case "about.values.text" => Some(About(AboutValuesText))
    case "contact.title" => Some(Contact(ContactTitle))
    case "contact.subtitle" => Some(Contact(ContactSubtitle))
    case "contact.name" => Some(Contact(ContactName))
    case "contact.email" => Some(Contact(ContactEmail))
    case "contact.message" => Some(Contact(ContactMessage))
    case "contact.send" => Some(Contact(ContactSend))
    case "contact.sending" => Some(Contact(ContactSending))
    case "contact.success" => Some(Contact(ContactSuccess))
    case "contact.error" => Some(Contact(ContactError))
    case "design.title" => Some(Design(DesignTitle))
    case "design.upload" => Some(Design(DesignUpload))
    case "design.text" => Some(Design(DesignText))
    case "design.color" => Some(Design(DesignColor))
    case "design.price" => Some(Design(DesignPrice))
    case "design.addToCart" => Some(Design(DesignAddToCart))
    case "design.product" => Some(Design(DesignProduct))
    case "design.size" => Some(Design(DesignSize))
    case "design.remove" => Some(Design(DesignRemove))
    case "design.textPlaceholder" => Some(Design(DesignTextPlaceholder))
    case "cart.title" => Some(Cart(CartTitle))
    case "cart.empty" => Some(Cart(CartEmpty))
    case "cart.subtotal" => Some(Cart(CartSubtotal))
    case "cart.shipping" => Some(Cart(CartShipping))
    case "cart.total" => Some(Cart(CartTotal))
    case "cart.checkout" => Some(Cart(CartCheckout))
    case "cart.continueShopping" => Some(Cart(CartContinueShopping))
    case "cart.remove" => Some(Cart(CartRemove))
    case "checkout.title" => Some(Checkout(CheckoutTitle))
    case "checkout.contactInfo" => Some(Checkout(CheckoutContactInfo))
    case "checkout.firstName" => Some(Checkout(CheckoutFirstName))
    case "checkout.lastName" => Some(Checkout(CheckoutLastName))
    case "checkout.phone" => Some(Checkout(CheckoutPhone))
    case "checkout.shippingAddress" => Some(Checkout(CheckoutShippingAddress))
    case "checkout.address" => Some(Checkout(CheckoutAddress))
    case "checkout.city" => Some(Checkout(CheckoutCity))
    case "checkout.postalCode" => Some(Checkout(CheckoutPostalCode))
    case "checkout.country" => Some(Checkout(CheckoutCountry))
    case "checkout.orderSummary" => Some(Checkout(CheckoutOrderSummary))
    case "checkout.placeOrder" => Some(Checkout(CheckoutPlaceOrder))
    case "checkout.processing" => Some(Checkout(CheckoutProcessing))
    case "checkout.success" => Some(Checkout(CheckoutSuccess))
    case "checkout.error" => Some(Checkout(CheckoutError))
    case "footer.company" => Some(Footer(FooterCompany))
    case "footer.support" => Some(Footer(FooterSupport))
    case "footer.legal" => Some(Footer(FooterLegal))
    case "footer.privacy" => Some(Footer(FooterPrivacy))
    case "footer.terms" => Some(Footer(FooterTerms))
    case "footer.rights" => Some(Footer(FooterRights))
    case "size.small" => Some(Size(SizeSmall))
    case "size.medium" => Some(Size(SizeMedium))
    case "size.large" => Some(Size(SizeLarge))
    case "size.xlarge" => Some(Size(SizeXlarge))
    case _ => None
  }

  // ---------------------------------------------------------------------------
  // The tables

  /** A table entry: every text in the two tables is non-empty. */
  type Translation = s: string | s != "" witness "-"

  /** A text of the tables, checked to be non-empty where it is written. */
  function Entry(text: string): Translation
    requires text != ""
  {
    text
  }

  /** The three longest texts are constants of their own, each checked on its own. */
  const DanishAboutMissionText: Translation := Entry("At levere print-on-demand tjenester af højeste kvalitet med fokus på kreativitet og kundetilfredshed.")
  const DanishAboutStoryText: Translation := Entry("Startet i 2024, er NYHAVN Print vokset til at blive en af de førende print-on-demand tjenester i Danmark.")
  const DanishAboutValuesText: Translation := Entry("Kvalitet, kreativitet og kundetilfredshed er kernen i alt, hvad vi gør.")
  const EnglishAboutMissionText: Translation := Entry("To deliver the highest quality print-on-demand services with a focus on creativity and customer satisfaction.")
  const EnglishAboutStoryText: Translation := Entry("Started in 2024, NYHAVN Print has grown to become one of the leading print-on-demand services in Denmark.")
  const EnglishAboutValuesText: Translation := Entry("Quality, creativity, and customer satisfaction are at the core of everything we do.")

  function DanishNav(k: NavKey): Translation {
    match k
    case NavHome => Entry("Forside")
    case NavDesign => Entry("Design selv")
    case NavAbout => Entry("Om os")
    case NavContact => Entry("Kontakt")
  }

  function DanishHero(k: HeroKey): Translation {
    match k
    case HeroTitle => Entry("Skab Unikke Designs")
    case HeroSubtitle => Entry("Print-on-demand tjeneste med ubegrænsede muligheder")
    case HeroCta => Entry("Kom i gang")
  }

  function DanishProducts(k: ProductsKey): Translation {
    match k
    case ProductsTitle => Entry("Populære Produkter")
    case ProductsTshirt => Entry("T-Shirt")
    case ProductsHoodie => Entry("Hættetrøje")
    case ProductsMug => Entry("Krus")
    case ProductsPoster => Entry("Plakat")
    case ProductsPrice => Entry("Fra")
    case ProductsCustomize => Entry("Tilpas")
  }

  function DanishFeatures(k: FeaturesKey): Translation {
    match k
    case FeaturesTitle => Entry("Hvorfor Vælge Os")
    case FeaturesQualityTitle => Entry("Premium Kvalitet")
    case FeaturesQualityDesc => Entry("Vi bruger kun de bedste materialer")
    case FeaturesShippingTitle => Entry("Hurtig Levering")
    case FeaturesShippingDesc => Entry("Levering på 3-5 hverdage")
    case FeaturesDesignTitle => Entry("Tilpassede Designs")
    case FeaturesDesignDesc => Entry("Upload dit eget design eller vælg fra vores galleri")
    case FeaturesSupportTitle => Entry("Kundeservice")
    case FeaturesSupportDesc => Entry("24/7 support til at hjælpe dig")
  }

  function DanishAbout(k: AboutKey): Translation {
    match k
    case AboutTitle => Entry("Om NYHAVN Print")
    case AboutMission => Entry("Vores Mission")
    case AboutMissionText => DanishAboutMissionText
    case AboutStory => Entry("Vores Historie")
    case AboutStoryText => DanishAboutStoryText
    case AboutValues => Entry("Vores Værdier")
    case AboutValuesText => DanishAboutValuesText
  }

  function DanishContact(k: ContactKey): Translation {
    match k
    case ContactTitle => Entry("Kontakt Os")
    case ContactSubtitle => Entry("Har du spørgsmål? Vi er her for at hjælpe!")
    case ContactName => Entry("Navn")
    case ContactEmail => Entry("Email")
    case ContactMessage => Entry("Besked")
    case ContactSend => Entry("Send Besked")
    case ContactSending => Entry("Sender...")
    case ContactSuccess => Entry("Tak for din besked! Vi vender tilbage hurtigst muligt.")
    case ContactError => Entry("Der opstod en fejl. Prøv venligst igen.")
  }

  function DanishDesign(k: DesignKey): Translation {
    match k
    case DesignTitle => Entry("Design Dit Produkt")
    case DesignUpload => Entry("Upload Dit Design")
    case DesignText => Entry("Tilføj Tekst")
    case DesignColor => Entry("Farve")
    case DesignPrice => Entry("Pris")
    case DesignAddToCart => Entry("Tilføj til Kurv")
    case DesignProduct => Entry("Produkt")
    case DesignSize => Entry("Størrelse")
    case DesignRemove => Entry("Fjern Design")
    case DesignTextPlaceholder => Entry("Din tekst her...")
  }

  function DanishCart(k: CartKey): Translation {
    match k
    case CartTitle => Entry("Din Kurv")
    case CartEmpty => Entry("Din kurv er tom")
    case CartSubtotal => Entry("Subtotal")
    case CartShipping => Entry("Fragt")
    case CartTotal => Entry("Total")
    case CartCheckout => Entry("Gå til Betaling")
    case CartContinueShopping => Entry("Fortsæt med at handle")
    case CartRemove => Entry("Fjern")
  }

  function DanishCheckout(k: CheckoutKey): Translation {
    match k
    case CheckoutTitle => Entry("Checkout")
    case CheckoutContactInfo => Entry("Kontaktinformation")
    case CheckoutFirstName => Entry("Fornavn")
    case CheckoutLastName => Entry("Efternavn")
    case CheckoutPhone => Entry("Telefon")
    case CheckoutShippingAddress => Entry("Leveringsadresse")
    case CheckoutAddress => Entry("Adresse")
    case CheckoutCity => Entry("By")
    case CheckoutPostalCode => Entry("Postnummer")
    case CheckoutCountry => Entry("Land")
    case CheckoutOrderSummary => Entry("Ordre Oversigt")
    case CheckoutPlaceOrder => Entry("Afgiv Ordre")
    case CheckoutProcessing => Entry("Behandler...")
    case CheckoutSuccess => Entry("Tak for din ordre! Vi sender en bekræftelse til din email.")
    case CheckoutError => Entry("Der opstod en fejl. Prøv venligst igen.")
  }

  function DanishFooter(k: FooterKey): Translation {
    match k
    case FooterCompany => Entry("Firma")
    case FooterSupport => Entry("Support")
    case FooterLegal => Entry("Juridisk")
    case FooterPrivacy => Entry("Privatlivspolitik")
    case FooterTerms => Entry("Vilkår & Betingelser")
    case FooterRights => Entry("Alle rettigheder forbeholdes.")
  }

  function DanishSize(k: SizeKey): Translation {
    match k
    case SizeSmall => Entry("Lille")
    case SizeMedium => Entry("Medium")
    case SizeLarge => Entry("Stor")
    case SizeXlarge => Entry("X-Stor")
  }

  /** `translations.da[key]`. */
  function Danish(k: Key): Translation {
    match k
    case Nav(k) => DanishNav(k)
    case Hero(k) => DanishHero(k)
    case Products(k) => DanishProducts(k)
    case Features(k) => DanishFeatures(k)
    case About(k) => DanishAbout(k)
    case Contact(k) => DanishContact(k)
    case Design(k) => DanishDesign(k)
    case Cart(k) => DanishCart(k)
    case Checkout(k) => DanishCheckout(k)
    case Footer(k) => DanishFooter(k)
    case Size(k) => DanishSize(k)
  }

  function EnglishNav(k: NavKey): Translation {
    match k
    case NavHome => Entry("Home")
    case NavDesign => Entry("Design Yourself")
    case NavAbout => Entry("About Us")
    case NavContact => Entry("Contact")
  }

  function EnglishHero(k: HeroKey): Translation {
    match k
    case HeroTitle => Entry("Create Unique Designs")
    case HeroSubtitle => Entry("Print-on-demand service with unlimited possibilities")
    case HeroCta => Entry("Get Started")
  }

  function EnglishProducts(k: ProductsKey): Translation {
    match k
    case ProductsTitle => Entry("Popular Products")
    case ProductsTshirt => Entry("T-Shirt")
    case ProductsHoodie => Entry("Hoodie")
    case ProductsMug => Entry("Mug")
    case ProductsPoster => Entry("Poster")
    case ProductsPrice => Entry("From")
    case ProductsCustomize => Entry("Customize")
  }

  function EnglishFeatures(k: FeaturesKey): Translation {
    match k
    case FeaturesTitle => Entry("Why Choose Us")
    case FeaturesQualityTitle => Entry("Premium Quality")
    case FeaturesQualityDesc => Entry("We only use the best materials")
    case FeaturesShippingTitle => Entry("Fast Delivery")
    case FeaturesShippingDesc => Entry("Delivery in 3-5 business days")
    case FeaturesDesignTitle => Entry("Custom Designs")
    case FeaturesDesignDesc => Entry("Upload your own design or choose from our gallery")
    case FeaturesSupportTitle => Entry("Customer Service")
    case FeaturesSupportDesc => Entry("24/7 support to help you")
  }

  function EnglishAbout(k: AboutKey): Translation {
    match k
    case AboutTitle => Entry("About NYHAVN Print")
    case AboutMission => Entry("Our Mission")
    case AboutMissionText => EnglishAboutMissionText
    case AboutStory => Entry("Our Story")
    case AboutStoryText => EnglishAboutStoryText
    case AboutValues => Entry("Our Values")
    case AboutValuesText => EnglishAboutValuesText
  }

  function EnglishContact(k: ContactKey): Translation {
    match k
    case ContactTitle => Entry("Contact Us")
    case ContactSubtitle => Entry("Have questions? We're here to help!")
    case ContactName => Entry("Name")
    case ContactEmail => Entry("Email")
    case ContactMessage => Entry("Message")
    case ContactSend => Entry("Send Message")
    case ContactSending => Entry("Sending...")
    case ContactSuccess => Entry("Thank you for your message! We'll get back to you as soon as possible.")
    case ContactError => Entry("An error occurred. Please try again.")
  }

  function EnglishDesign(k: DesignKey): Translation {
    match k
    case DesignTitle => Entry("Design Your Product")
    case DesignUpload => Entry("Upload Your Design")
    case DesignText => Entry("Add Text")
    case DesignColor => Entry("Color")
    case DesignPrice => Entry("Price")
    case DesignAddToCart => Entry("Add to Cart")
    case DesignProduct => Entry("Product")
    case DesignSize => Entry("Size")
    case DesignRemove => Entry("Remove Design")
    case DesignTextPlaceholder => Entry("Your text here...")
  }

  function EnglishCart(k: CartKey): Translation {
    match k
    case CartTitle => Entry("Your Cart")
    case CartEmpty => Entry("Your cart is empty")
    case CartSubtotal => Entry("Subtotal")
    case CartShipping => Entry("Shipping")
    case CartTotal => Entry("Total")
    case CartCheckout => Entry("Proceed to Checkout")
    case CartContinueShopping => Entry("Continue Shopping")
    case CartRemove => Entry("Remove")
  }

  function EnglishCheckout(k: CheckoutKey): Translation {
    match k
    case CheckoutTitle => Entry("Checkout")
    case CheckoutContactInfo => Entry("Contact Information")
    case CheckoutFirstName => Entry("First Name")
    case CheckoutLastName => Entry("Last Name")
    case CheckoutPhone => Entry("Phone")
    case CheckoutShippingAddress => Entry("Shipping Address")
    case CheckoutAddress => Entry("Address")
    case CheckoutCity => Entry("City")
    case CheckoutPostalCode => Entry("Postal Code")
    case CheckoutCountry => Entry("Country")
    case CheckoutOrderSummary => Entry("Order Summary")
    case CheckoutPlaceOrder => Entry("Place Order")
    case CheckoutProcessing => Entry("Processing...")
    case CheckoutSuccess => Entry("Thank you for your order! We'll send a confirmation to your email.")
    case CheckoutError => Entry("An error occurred. Please try again.")
  }

  function EnglishFooter(k: FooterKey): Translation {
    match k
    case FooterCompany => Entry("Company")
    case FooterSupport => Entry("Support")
    case FooterLegal => Entry("Legal")
    case FooterPrivacy => Entry("Privacy Policy")
    case FooterTerms => Entry("Terms & Conditions")
    case FooterRights => Entry("All rights reserved.")
  }

  function EnglishSize(k: SizeKey): Translation {
    match k
    case SizeSmall => Entry("Small")
    case SizeMedium => Entry("Medium")
    case SizeLarge => Entry("Large")
    case SizeXlarge => Entry("X-Large")
  }

  /** `translations.en[key]`. */
  function English(k: Key): Translation {
    match k
    case Nav(k) => EnglishNav(k)
    case Hero(k) => EnglishHero(k)
    case Products(k) => EnglishProducts(k)
    case Features(k) => EnglishFeatures(k)
    case About(k) => EnglishAbout(k)
    case Contact(k) => EnglishContact(k)
    case Design(k) => EnglishDesign(k)
    case Cart(k) => EnglishCart(k)
    case Checkout(k) => EnglishCheckout(k)
    case Footer(k) => EnglishFooter(k)
    case Size(k) => EnglishSize(k)
  }
  /** The text of a key in a language. */
  function TextOf(l: Lang, k: Key): Translation {
    match l
    case Da => Danish(k)
    case En => English(k)
  }

  /** `translations[language][key]`; None where the key names no entry. */
  function Table(l: Lang, key: string): (r: Option<Translation>)
    ensures r.Some? <==> ParseKey(key).Some?
    ensures r.Some? ==> r.value == TextOf(l, ParseKey(key).value)
  {
    match ParseKey(key)
    case None => None
    case Some(k) => Some(TextOf(l, k))
  }

  // ---------------------------------------------------------------------------
  // The lookup

  /** `translations[language][key] || key`. No text is empty, so the fallback to the key
      is taken exactly for the keys the tables lack. */
  function T(l: Lang, key: string): (s: string)
    ensures ParseKey(key).Some? ==> s == TextOf(l, ParseKey(key).value)
    ensures ParseKey(key).None? ==> s == key
  {
    OrElse(Table(l, key), key)
  }

  /** The lookup never yields an empty text for a non-empty key. */
  lemma LookupNonEmpty(l: Lang, key: string)
    requires key != ""
    ensures T(l, key) != ""
  {
  }

  /** 'hero.title.line1', used on the home page, is in neither table and comes back
      unchanged. */
  lemma MissingKeyReturned(l: Lang)
    ensures T(l, "hero.title.line1") == "hero.title.line1"
  {
  }

  /** The home link reads "Forside" in Danish and "Home" in English. */
  lemma NavigationLabels()
    ensures T(Da, "nav.home") == "Forside" && T(En, "nav.home") == "Home"
  {
  }

  // ---------------------------------------------------------------------------
  // The initial language, as written

  /** The key under which the choice is kept in local storage. */
  const LanguageKey := "language"

  /** `localStorage.getItem('language')`: null when nothing is stored. */
  function Saved(storage: map<string, string>): (saved: Option<string>)
    ensures saved.Some? <==> LanguageKey in storage
    ensures saved.Some? ==> saved.value == storage[LanguageKey]
  {
    if LanguageKey in storage then Some(storage[LanguageKey]) else None
  }

  /** `(saved as Language) || 'da'`: the cast checks nothing, so any non-empty stored text
      becomes the language. */
  function InitialLanguageAsWritten(saved: Option<string>): (code: string)
    ensures Truthy(saved) ==> code == saved.value
    ensures !Truthy(saved) ==> code == "da"
  {
    OrElse(saved, "da")
  }

  /** A tag for the `TypeError` thrown when a key is read from an undefined table; the
      engine's own message is not modelled. */
  const UndefinedTable := "TypeError"

  /** The members every object inherits from `Object.prototype`. `translations` is an
      object literal, so `translations[code]` for one of these names is that inherited
      value (a function, or `Object.prototype` itself for "__proto__"), not undefined. */
  predicate InheritedName(code: string) {
    code in {"constructor", "__proto__", "__defineGetter__", "__defineSetter__",
             "__lookupGetter__", "__lookupSetter__", "hasOwnProperty", "isPrototypeOf",
             "propertyIsEnumerable", "toString", "toLocaleString", "valueOf"}
  }

  /** `t` over a language held as text. "da" and "en" name the two tables. An inherited
      name gives a value without the key, so `|| key` returns the key. Any other code
      names nothing: `translations[language]` is undefined and reading a key from it
      throws. */
  function TranslateAsWritten(code: string, key: string): (r: Result<string, string>)
    ensures ParseLang(code).Some? ==> r == Success(T(ParseLang(code).value, key))
    ensures InheritedName(code) ==> r == Success(key)
    ensures ParseLang(code).None? && !InheritedName(code) ==> r == Failure(UndefinedTable)
  {
    match ParseLang(code)
    case Some(l) => Success(T(l, key))
    case None => if InheritedName(code) then Success(key) else Failure(UndefinedTable)
  }

  /** Every lookup fails exactly when a non-empty stored value is neither 'da' nor 'en'
      nor a name inherited from `Object.prototype`. */
  lemma AsWrittenLookupFails(saved: Option<string>, key: string)
    ensures TranslateAsWritten(InitialLanguageAsWritten(saved), key).Failure?
            <==> Truthy(saved) && saved.value != "da" && saved.value != "en"
                 && !InheritedName(saved.value)
  {
  }

  /** A stored inherited name does not throw, but leaves every text untranslated: the
      home link shows its key. */
  lemma InheritedSavedLanguageShowsKeys(storage: map<string, string>)
    ensures var code := InitialLanguageAsWritten(Saved(storage[LanguageKey := "constructor"]));
            TranslateAsWritten(code, "nav.home") == Success("nav.home")
  {
  }

  /** A stored "fr" breaks the home link's label. The lookup throws while the page
      renders, so the effect that would store the language never runs and the stored
      "fr" stays: every later load starts from it and fails again. */
  lemma UnknownSavedLanguageBreaksLookup(storage: map<string, string>)
    ensures var stored := storage[LanguageKey := "fr"];
            var code := InitialLanguageAsWritten(Saved(stored));
            && code == "fr"
            && TranslateAsWritten(code, "nav.home").Failure?
  {
  }

  // ---------------------------------------------------------------------------
  // The initial language, corrected

  /** The stored value when it is one of the two codes, otherwise Danish. */
  function InitialLanguage(saved: Option<string>): (l: Lang)
    ensures saved.Some? && ParseLang(saved.value).Some? ==> l == ParseLang(saved.value).value
    ensures saved.None? || ParseLang(saved.value).None? ==> l == Da
  {
    if saved.Some? && ParseLang(saved.value).Some? then ParseLang(saved.value).value else Da
  }

  /** Wherever the code as written picks a language with a table, the correction picks
      the same one. */
  lemma CorrectedAgreesOnValidValues(saved: Option<string>)
    ensures ParseLang(InitialLanguageAsWritten(saved)).Some? ==>
              Code(InitialLanguage(saved)) == InitialLanguageAsWritten(saved)
  {
  }

  /** With the corrected choice, `t` never throws. */
  lemma CorrectedLookupNeverFails(saved: Option<string>, key: string)
    ensures TranslateAsWritten(Code(InitialLanguage(saved)), key) == Success(T(InitialLanguage(saved), key))
  {
    CodeRoundTrip(InitialLanguage(saved));
  }

  /** A stored choice is the language the next page load starts with. */
  lemma ChoiceSurvivesReload(storage: map<string, string>, l: Lang)
    ensures InitialLanguage(Saved(storage[LanguageKey := Code(l)])) == l
  {
    CodeRoundTrip(l);
  }

  // ---------------------------------------------------------------------------
  // The provider and the hook

  /** `LanguageProvider`: the `language` state and the local storage its effect writes. */
  class LanguageProvider {
    var language: Lang
    var storage: map<string, string>

    /** The effect has copied the current language into storage. */
    predicate Valid()
      reads this
    {
      LanguageKey in storage && storage[LanguageKey] == Code(language)
    }

    /** The lazy initial state read from `stored`, then the effect's first run. */
    constructor (stored: map<string, string>)
      ensures language == InitialLanguage(Saved(stored))
      ensures storage == stored[LanguageKey := Code(language)]
      ensures Valid()
    {
      language := InitialLanguage(Saved(stored));
      storage := stored[LanguageKey := Code(InitialLanguage(Saved(stored)))];
    }

    /** `setLanguage(lang)`, followed by the effect that stores it. */
    method SetLanguage(l: Lang)
      requires Valid()
      modifies this
      ensures language == l
      ensures storage == old(storage)[LanguageKey := Code(l)]
      ensures Valid()
      ensures InitialLanguage(Saved(storage)) == l
    {
      language := l;
      storage := storage[LanguageKey := Code(l)];
      ChoiceSurvivesReload(old(storage), l);
    }

    /** The context's `t`. */
    function Translate(key: string): (s: string)
      reads this
      ensures ParseKey(key).Some? ==> s == TextOf(language, ParseKey(key).value)
      ensures ParseKey(key).None? ==> s == key
    {
      T(language, key)
    }
  }

  const OutsideProvider := "useLanguage must be used within a LanguageProvider"

  /** `useLanguage()`: the enclosing provider, or the error it throws without one. */
  function UseLanguage(context: Option<LanguageProvider>): (r: Result<LanguageProvider, string>)
    ensures context.None? ==> r == Failure(OutsideProvider)
    ensures context.Some? ==> r == Success(context.value)
  {
    match context
    case None => Failure(OutsideProvider)
    case Some(p) => Success(p)
  }
}
