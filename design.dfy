/** The design page: product, size and colour choice, a quantity stepper, the price shown,
    the cart line it adds, and the artwork upload that must succeed before a line with a
    design is added. */
module Design {
  import opened Wrappers
  import opened Text
  import opened Shop
  import SubmitOrder
  import UploadArtwork

  // ---------------------------------------------------------------------------
  // Catalogue

  datatype ProductKey = TShirt | Hoodie

  datatype Product = Product(name: string, price: int, image: string)

  /** The key as the page writes it into the cart line's `id`. */
  function KeyName(k: ProductKey): string {
    match k
    case TShirt => "tshirt"
    case Hoodie => "hoodie"
  }

  const TShirtImage := "/ChatGPT Image Oct 1, 2025, 06_51_00 PM.png"
  const HoodieImage := "/ChatGPT Image Oct 1, 2025, 06_57_22 PM.png"

  function ProductOf(k: ProductKey): Product {
    match k
    case TShirt => Product("T-shirt", 299, TShirtImage)
    case Hoodie => Product("Hoodie", 399, HoodieImage)
  }

  const Sizes: seq<string> := ["XS", "S", "M", "L", "XL", "XXL"]

  datatype Color = Color(name: string, danish: string, hex: string)

  const Colors: seq<Color> := [
    Color("white", "Hvid", "#FFFFFF"),
    Color("black", "Sort", "#000000"),
    Color("navy", "Marineblå", "#1F2937"),
    Color("gray", "Grå", "#6B7280"),
    Color("red", "Rød", "#EF4444"),
    Color("blue", "Blå", "#3B82F6")]

  /** `colors.find(c => c.name === name)`: the first entry with that name, if any. */
  function FindColor(colors: seq<Color>, name: string): (r: Option<nat>)
    ensures r.Some? ==> r.value < |colors| && colors[r.value].name == name
    ensures r.Some? ==> forall j :: 0 <= j < r.value ==> colors[j].name != name
    ensures r.None? ==> forall j :: 0 <= j < |colors| ==> colors[j].name != name
  {
    if |colors| == 0 then None
    else if colors[0].name == name then Some(0)
    else
      match FindColor(colors[1..], name)
      case None => None
      case Some(i) => Some(i + 1)
  }

  /** `colors.find(...)?.label || name`: the Danish label of the named colour, or the raw
      name when no colour has it. */
  function ColorLabel(name: string): (shown: string)
    ensures (exists i :: 0 <= i < |Colors| && Colors[i].name == name) ==>
              exists i :: 0 <= i < |Colors| && Colors[i].name == name && shown == Colors[i].danish
    ensures (forall i :: 0 <= i < |Colors| ==> Colors[i].name != name) ==> shown == name
  {
    match FindColor(Colors, name)
    case Some(i) => OrElse(Some(Colors[i].danish), name)
    case None => name
  }

  /** No two colours of the page share a name. */
  predicate DistinctNames(colors: seq<Color>) {
    forall j, k :: 0 <= j < k < |colors| ==> colors[j].name != colors[k].name
  }

  /** Each colour of the page is shown with its own Danish label. */
  lemma ColorLabelOfEntry(i: nat)
    requires i < |Colors|
    ensures ColorLabel(Colors[i].name) == Colors[i].danish
  {
    assert DistinctNames(Colors);
  }

  /** The six colours of the page get their Danish labels. */
  lemma ColorLabels()
    ensures ColorLabel("white") == "Hvid" && ColorLabel("black") == "Sort"
    ensures ColorLabel("navy") == "Marineblå" && ColorLabel("gray") == "Grå"
    ensures ColorLabel("red") == "Rød" && ColorLabel("blue") == "Blå"
  {
    ColorLabelOfEntry(0);
    ColorLabelOfEntry(1);
    ColorLabelOfEntry(2);
    ColorLabelOfEntry(3);
    ColorLabelOfEntry(4);
    ColorLabelOfEntry(5);
  }

  /** A name that is no colour of the page is used as its own label. */
  lemma UnknownColorKeepsName(name: string)
    requires name !in {"white", "black", "navy", "gray", "red", "blue"}
    ensures ColorLabel(name) == name
  {
  }

  // ---------------------------------------------------------------------------
  // Price and cart line

  /** `currentProduct.price * quantity`. */
  function TotalPrice(k: ProductKey, quantity: int): (total: int)
    ensures quantity >= 1 ==> total >= ProductOf(k).price
  {
    ProductOf(k).price * quantity
  }

  /** One more item adds one unit price to the total. */
  lemma TotalPriceStep(k: ProductKey, quantity: int)
    ensures TotalPrice(k, quantity + 1) == TotalPrice(k, quantity) + ProductOf(k).price
  {
  }

  /** What the page chose when "add to cart" was pressed: the values the handler's
      closure sees. */
  datatype Selection = Selection(product: ProductKey, size: string, color: string, quantity: int)

  /** The cart line of `handleAddToCart`. */
  function MakeItem(s: Selection, artwork: Option<string>): (item: CartItem)
    ensures item.id == KeyName(s.product) && item.name == ProductOf(s.product).name
    ensures item.price == ProductOf(s.product).price && item.image == ProductOf(s.product).image
    ensures item.size == s.size && item.quantity == s.quantity && item.artwork == artwork
    ensures item.color == ColorLabel(s.color)
  {
    CartItem(KeyName(s.product), ProductOf(s.product).name, s.size, ColorLabel(s.color),
             s.quantity, ProductOf(s.product).price, ProductOf(s.product).image, artwork)
  }

  /** The line total the order handler stores for a line from this page is the total the
      page showed. */
  lemma OrderLineMatchesShownTotal(s: Selection, artwork: Option<string>, orderId: nat)
    ensures SubmitOrder.ItemRowsOf([MakeItem(s, artwork)], orderId)[0].totalPrice
            == TotalPrice(s.product, s.quantity)
  {
  }

  // ---------------------------------------------------------------------------
  // Storage path

  /** `artwork/${Date.now()}-${random}.${file.name.split('.').pop()}`: unlike the upload
      function there is no "png" default. */
  function StoragePath(fileName: string, timestamp: nat, randomPart: string): (path: string)
    ensures |path| > 8 && path[..8] == "artwork/"
  {
    var ext := AfterLast(fileName, '.');
    var p := "artwork/" + NatToString(timestamp) + "-" + randomPart + "." + ext;
    assert p[..8] == "artwork/";
    p
  }

  /** The path ends with a dot and the text after the file name's last dot. */
  lemma StoragePathExtension(fileName: string, timestamp: nat, randomPart: string)
    ensures var path := StoragePath(fileName, timestamp, randomPart);
            var ext := AfterLast(fileName, '.');
            |path| > |ext| && path[|path| - |ext| - 1..] == "." + ext
  {
    assert StoragePath(fileName, timestamp, randomPart)
        == UploadArtwork.ArtworkPath(timestamp, randomPart, AfterLast(fileName, '.'));
  }

  /** The page and the upload function name a file alike exactly when its name has a
      non-empty last segment; a name ending in '.' gets a path ending in '.' here and in
      ".png" there. */
  lemma ClientAndServerPathsAgree(fileName: string, timestamp: nat, randomPart: string)
    ensures StoragePath(fileName, timestamp, randomPart)
              == UploadArtwork.ArtworkPath(timestamp, randomPart, UploadArtwork.FileExtension(fileName))
            <==> AfterLast(fileName, '.') != ""
  {
    if AfterLast(fileName, '.') == "" {
      TrailingDotPathsDiffer(fileName, timestamp, randomPart);
    }
  }

  lemma TrailingDotPathsDiffer(fileName: string, timestamp: nat, randomPart: string)
    requires AfterLast(fileName, '.') == ""
    ensures StoragePath(fileName, timestamp, randomPart)
              != UploadArtwork.ArtworkPath(timestamp, randomPart, UploadArtwork.FileExtension(fileName))
  {
    var client := StoragePath(fileName, timestamp, randomPart);
    var e := UploadArtwork.FileExtension(fileName);
    var server := UploadArtwork.ArtworkPath(timestamp, randomPart, e);
    assert client[|client| - 1..] == ".";
    UploadArtwork.ArtworkPathLastChar(timestamp, randomPart, e);
    assert server[|server| - 1] != '.';
  }

  // ---------------------------------------------------------------------------
  // The preview's event handlers

  /** The handlers the preview's markup names. */
  datatype Handler = MouseMove | MouseUp | MouseDown | ScaleChange | ResetPosition

  /** The handlers one render reads. The preview container's `onMouseMove`, `onMouseUp`
      and `onMouseLeave` are read always. The artwork's `onMouseDown` and the
      "Nulstil position" button's `onClick` are read when there is a file preview.
      `handleScaleChange` and the other `resetDesignPosition` call are read only inside
      click callbacks, so a render never reads them. */
  function ReadOnRender(hasPreview: bool): (hs: set<Handler>)
    ensures MouseMove in hs && MouseUp in hs
    ensures MouseDown in hs <==> hasPreview
    ensures ResetPosition in hs <==> hasPreview
    ensures ScaleChange !in hs
  {
    {MouseMove, MouseUp} + (if hasPreview then {MouseDown, ResetPosition} else {})
  }

  /** A render completes when every handler it reads is defined in the component;
      reading an undefined name throws a `ReferenceError`. */
  predicate Renders(defined: set<Handler>, hasPreview: bool) {
    ReadOnRender(hasPreview) <= defined
  }

  /** As written, the component defines none of the five handlers. */
  const DefinedAsWritten: set<Handler> := {}

  /** As evidently intended: all five handlers are defined alongside the drag state. */
  const DefinedHandlers: set<Handler> := {MouseMove, MouseUp, MouseDown, ScaleChange, ResetPosition}

  /** As written, no render of the page completes, with or without a file preview. */
  lemma PageNeverRendersAsWritten(hasPreview: bool)
    ensures !Renders(DefinedAsWritten, hasPreview)
  {
    assert MouseMove in ReadOnRender(hasPreview);
  }

  /** With the handlers defined, every render completes, and the page's other operations
      become reachable. */
  lemma PageRendersWithHandlers(hasPreview: bool)
    ensures Renders(DefinedHandlers, hasPreview)
  {
  }

  // ---------------------------------------------------------------------------
  // The page

  /** How `uploadArtworkToStorage` ends once the client exists: a public URL, or a storage
      error or thrown exception, both of which make it return null. */
  datatype StorageOutcome = Stored(publicUrl: string) | StorageError | Threw

  /** The alerts the page can show; it has one. */
  datatype Alert = UploadFailedAlert

  /** The text an alert shows. */
  function Message(a: Alert): string {
    match a
    case UploadFailedAlert => "Der opstod en fejl ved upload af dit design. Prøv igen."
  }

  /** The page state. `added` is what the page has passed to the cart's `addItem`, in
      order; `alerts` the alerts shown, in order; `navigatedHome` whether it went to "/".
      `pending` is the selection captured by a click whose upload is still running. */
  class DesignPage {
    var selectedProduct: ProductKey
    var selectedSize: string
    var selectedColor: string
    var quantity: int
    var uploadedFile: Option<string>
    var isUploading: bool
    var pending: Option<Selection>
    var added: seq<CartItem>
    var alerts: seq<Alert>
    var navigatedHome: bool

    /** The stepper never goes below one, and an upload runs only for a click that is
        waiting for it. */
    predicate Valid()
      reads this
    {
      quantity >= 1 && (isUploading ==> pending.Some?)
    }

    function CurrentSelection(): Selection
      reads this
    {
      Selection(selectedProduct, selectedSize, selectedColor, quantity)
    }

    /** The price shown for the current choice. */
    function ShownPrice(): int
      reads this
    {
      TotalPrice(selectedProduct, quantity)
    }

    constructor ()
      ensures Valid()
      ensures selectedProduct == TShirt && selectedSize == "M" && selectedColor == "white"
      ensures quantity == 1 && uploadedFile.None? && !isUploading && pending.None?
      ensures added == [] && alerts == [] && !navigatedHome
    {
      selectedProduct := TShirt;
      selectedSize := "M";
      selectedColor := "white";
      quantity := 1;
      uploadedFile := None;
      isUploading := false;
      pending := None;
      added := [];
      alerts := [];
      navigatedHome := false;
    }

    method SelectProduct(k: ProductKey)
      requires Valid()
      modifies this
      ensures Valid() && selectedProduct == k
      ensures selectedSize == old(selectedSize) && selectedColor == old(selectedColor) && quantity == old(quantity)
      ensures uploadedFile == old(uploadedFile) && isUploading == old(isUploading) && pending == old(pending)
      ensures added == old(added) && alerts == old(alerts) && navigatedHome == old(navigatedHome)
    {
      selectedProduct := k;
    }

    method SelectSize(size: string)
      requires Valid()
      modifies this
      ensures Valid() && selectedSize == size
      ensures selectedProduct == old(selectedProduct) && selectedColor == old(selectedColor) && quantity == old(quantity)
      ensures uploadedFile == old(uploadedFile) && isUploading == old(isUploading) && pending == old(pending)
      ensures added == old(added) && alerts == old(alerts) && navigatedHome == old(navigatedHome)
    {
      selectedSize := size;
    }

    method SelectColor(name: string)
      requires Valid()
      modifies this
      ensures Valid() && selectedColor == name
      ensures selectedProduct == old(selectedProduct) && selectedSize == old(selectedSize) && quantity == old(quantity)
      ensures uploadedFile == old(uploadedFile) && isUploading == old(isUploading) && pending == old(pending)
      ensures added == old(added) && alerts == old(alerts) && navigatedHome == old(navigatedHome)
    {
      selectedColor := name;
    }

    /** The file input: a chosen file replaces the current one; cancelling keeps it. */
    method ChooseFile(file: Option<string>)
      requires Valid()
      modifies this
      ensures Valid()
      ensures uploadedFile == if file.Some? then file else old(uploadedFile)
      ensures selectedProduct == old(selectedProduct) && selectedSize == old(selectedSize)
      ensures selectedColor == old(selectedColor) && quantity == old(quantity)
      ensures isUploading == old(isUploading) && pending == old(pending)
      ensures added == old(added) && alerts == old(alerts) && navigatedHome == old(navigatedHome)
    {
      if file.Some? {
        uploadedFile := file;
      }
    }

    /** The "+" button. */
    method Increment()
      requires Valid()
      modifies this
      ensures Valid() && quantity == old(quantity) + 1
      ensures ShownPrice() == old(ShownPrice()) + ProductOf(selectedProduct).price
      ensures selectedProduct == old(selectedProduct) && selectedSize == old(selectedSize)
      ensures selectedColor == old(selectedColor) && uploadedFile == old(uploadedFile)
      ensures isUploading == old(isUploading) && pending == old(pending)
      ensures added == old(added) && alerts == old(alerts) && navigatedHome == old(navigatedHome)
    {
      quantity := quantity + 1;
    }

    /** The "-" button: `quantity > 1 && setQuantity(quantity - 1)`. */
    method Decrement()
      requires Valid()
      modifies this
      ensures Valid()
      ensures quantity == if old(quantity) > 1 then old(quantity) - 1 else old(quantity)
      ensures selectedProduct == old(selectedProduct) && selectedSize == old(selectedSize)
      ensures selectedColor == old(selectedColor) && uploadedFile == old(uploadedFile)
      ensures isUploading == old(isUploading) && pending == old(pending)
      ensures added == old(added) && alerts == old(alerts) && navigatedHome == old(navigatedHome)
    {
      if quantity > 1 {
        quantity := quantity - 1;
      }
    }

    /** "Add to cart" (disabled while uploading). Without a file the line is added at
        once, with no artwork, and the page goes home. With a file the upload starts:
        `isUploading` is set and the click's selection is kept for `FinishAddToCart`. */
    method BeginAddToCart()
      requires Valid() && pending.None?
      modifies this
      ensures Valid()
      ensures selectedProduct == old(selectedProduct) && selectedSize == old(selectedSize)
      ensures selectedColor == old(selectedColor) && quantity == old(quantity) && uploadedFile == old(uploadedFile)
      ensures alerts == old(alerts)
      ensures uploadedFile.None? ==>
                added == old(added) + [MakeItem(old(CurrentSelection()), None)] && navigatedHome
                && !isUploading && pending.None?
      ensures uploadedFile.Some? ==>
                added == old(added) && navigatedHome == old(navigatedHome)
                && isUploading && pending == Some(old(CurrentSelection()))
    {
      if uploadedFile.None? {
        added := added + [MakeItem(CurrentSelection(), None)];
        navigatedHome := true;
      } else {
        isUploading := true;
        pending := Some(CurrentSelection());
      }
    }

    /** `uploadArtworkToStorage(uploadedFile)`: without a storage client (the service-role
        client exists only when the URL and the service key are both set) nothing is asked
        of storage and the answer is null; otherwise the file is stored under a fresh path
        and the answer is its public URL, or null when storage fails or throws.
        `isUploading` ends false either way (the `finally`). `path` is the storage path
        asked for, when there was a client to ask. */
    method UploadArtworkToStorage(clientConfigured: bool, timestamp: nat, randomPart: string,
                                  outcome: StorageOutcome)
      returns (path: Option<string>, url: Option<string>)
      requires Valid() && isUploading && uploadedFile.Some?
      modifies this
      ensures Valid() && !isUploading
      ensures path == if clientConfigured then Some(StoragePath(old(uploadedFile).value, timestamp, randomPart)) else None
      ensures url == if clientConfigured && outcome.Stored? then Some(outcome.publicUrl) else None
      ensures selectedProduct == old(selectedProduct) && selectedSize == old(selectedSize)
      ensures selectedColor == old(selectedColor) && quantity == old(quantity) && uploadedFile == old(uploadedFile)
      ensures pending == old(pending) && added == old(added) && alerts == old(alerts)
      ensures navigatedHome == old(navigatedHome)
    {
      path := None;
      url := None;
      if clientConfigured {
        path := Some(StoragePath(uploadedFile.value, timestamp, randomPart));
        if outcome.Stored? {
          url := Some(outcome.publicUrl);
        }
      }
      isUploading := false;
    }

    /** The rest of the click once the upload has answered with `artworkUrl`: a null or
        empty URL means nothing is added and the user is alerted; otherwise the captured
        line is added with the URL as its artwork and the page goes home. */
    method FinishAddToCart(artworkUrl: Option<string>)
      requires Valid() && !isUploading && pending.Some?
      modifies this
      ensures Valid() && !isUploading && pending.None?
      ensures selectedProduct == old(selectedProduct) && selectedSize == old(selectedSize)
      ensures selectedColor == old(selectedColor) && quantity == old(quantity) && uploadedFile == old(uploadedFile)
      ensures Truthy(artworkUrl) ==>
                added == old(added) + [MakeItem(old(pending).value, artworkUrl)]
                && navigatedHome && alerts == old(alerts)
      ensures !Truthy(artworkUrl) ==>
                added == old(added) && navigatedHome == old(navigatedHome)
                && alerts == old(alerts) + [UploadFailedAlert]
    {
      var selection := pending.value;
      pending := None;
      if !Truthy(artworkUrl) {
        alerts := alerts + [UploadFailedAlert];
      } else {
        added := added + [MakeItem(selection, artworkUrl)];
        navigatedHome := true;
      }
    }
  }
}
