# Nyhavn print-on-demand storefront: handlers, checkout, design page and translations

This project models the storefront's server handlers and client logic and proves what they promise.

The three Supabase edge functions:
- `submit-contact-form` validates a contact message and stores it.
- `submit-order` validates an order and writes the `orders` row and its `order_items` rows. It removes the order again when the items cannot be saved, then sends two notification emails.
- `upload-artwork` strips a data-URL prefix, copies the decoded characters into a byte array and stores the file in the `order-artwork` bucket.

The three pieces of client logic:
- The checkout page is a three-step wizard. It computes shipping and totals, builds the order it posts and reacts to the answer.
- The design page handles product, size, colour and quantity, the price it shows, the cart line it adds, and the artwork upload that must succeed first.
- The language context provides the Danish and English tables, the lookup `t` that falls back to the key, the language restored from local storage and `setLanguage`.

Modules, one per file:
- `Wrappers` holds `Option` and `Result`.
- `Text` models the JavaScript string operations the code relies on, stated in ECMAScript's own terms:
  - truthiness and `||`;
  - `trim` with the ECMAScript whitespace set;
  - `toLowerCase` on ASCII, `includes` and `indexOf`;
  - `split(s)[1]` and `split(c).pop()`;
  - decimal printing in template literals.
- `Http` holds requests, responses, CORS headers and the deployment variables.
- `Shop` holds the cart line.
- `ContactForm`, `SubmitOrder`, `UploadArtwork`, `Checkout`, `Design` and `Language` model the six source files.

Pure code is written as functions and lemmas. State that the source updates in place is written as classes with `modifies` clauses:
- the two database tables (`SubmitOrder.OrdersDatabase`);
- the storage bucket (`UploadArtwork.ArtworkBucket`);
- the checkout page (`Checkout.CheckoutPage`);
- the design page (`Design.DesignPage`);
- the language provider (`Language.LanguageProvider`).

The byte-copy loop of the upload handler is a method over an `array`.

Everything the code gets from outside is an input of the model:
- database and storage outcomes;
- `Deno.env` and `import.meta.env`;
- the Resend API's outcome;
- `fetch` answers;
- `atob`, `Date.now()` and `Math.random()`;
- the contents of `localStorage`.

An `async` function that sets a busy flag is split at its `await` into two methods, so the flag can be seen set between them:
- `Checkout.CheckoutPage.Submit` followed by `FinishOrder`;
- `Design.DesignPage.BeginAddToCart`, then `UploadArtworkToStorage`, then `FinishAddToCart`.

## Model

| member | source | states |
|---|---|---|
| ContactForm.Handle | supabase/functions/submit-contact-form/index.ts:16-175 | OPTIONS gives the 200 preflight with no body, any other non-POST gives 405 "Method not allowed"; an unreadable body gives 500 "Internal server error" with the parse error. Missing or empty fields give 400 "All fields are required", checked before the email; an email the pattern rejects gives 400 "Invalid email format"; a missing URL or service key gives 500 "Server configuration error". A row is inserted exactly when every check passes, and then the answer is `Insert`'s; every answer carries the CORS headers and has status 200, 400, 405 or 500 |
| ContactForm.Insert | supabase/functions/submit-contact-form/index.ts:96-155 | the inserted row has the name, subject and message trimmed and the email lower-cased; the stored email still matches the pattern; a failed insert gives 500 with the mapped message and the database message as details; a successful one gives 200 "Message sent successfully" with the first returned id, if any |
| ContactForm.EmailCheckMatchesRegex | supabase/functions/submit-contact-form/index.ts:62-63 | the check the handler runs accepts a string exactly when `/^[^\s@]+@[^\s@]+\.[^\s@]+$/` matches it (both directions) |
| ContactForm.ValidEmailMatches | supabase/functions/submit-contact-form/index.ts:62-63 | an accepted string splits into local part, '@', host, '.', top-level part, each a non-empty run without whitespace or '@' |
| ContactForm.MatchedEmailValid | supabase/functions/submit-contact-form/index.ts:62-63 | every string of that shape is accepted by the check |
| ContactForm.EmailHasNoSpace | supabase/functions/submit-contact-form/index.ts:62-99 | a string the pattern matches holds no whitespace, so `trim` leaves it unchanged |
| ContactForm.StoredEmailMatchesRegex | supabase/functions/submit-contact-form/index.ts:97-99 | the trimmed, lower-cased email of a valid message still matches the pattern |
| ContactForm.WhitespaceOnlyStoredEmpty | supabase/functions/submit-contact-form/index.ts:45-101 | a name, subject or message of whitespace only passes the presence check and is stored as the empty string |
| ContactForm.DbErrorMessage | supabase/functions/submit-contact-form/index.ts:121-128 | code '42P01' gives the missing-table message, else '23505' the duplicate message, else a message containing "permission" the permission message, else "Failed to save message"; each outcome with both directions |
| ContactForm.ValidationIgnoresConfiguration | supabase/functions/submit-contact-form/index.ts:45-90 | a request failing a field check gets the same 400 whatever the environment and the database do |
| SubmitOrder.Precheck | supabase/functions/submit-order/index.ts:305-371 | OPTIONS gives the preflight, non-POST 405; an unreadable body gives 500 "Internal server error" with the parse error; a missing customer block, a missing item list or an empty one gives 400 "Missing required order data"; a missing or empty email, first name, last name, address, city or postal code gives 400 "Missing required customer information"; missing configuration gives 500. The handler goes on exactly when all checks pass |
| SubmitOrder.OrderRowOf | supabase/functions/submit-order/index.ts:381-395 | the name is first + " " + last, the email trimmed and lower-cased, with no whitespace left at either end, the phone null exactly when empty, address, city and postal code trimmed; country, shipping and payment method default to "Danmark", "standard" and "dankort"; the three amounts are copied unchanged; status "pending" |
| SubmitOrder.ItemRowsOf | supabase/functions/submit-order/index.ts:423-433 | one row per item, in order, each with the order's id, the item's fields, total = price × quantity, and artwork null exactly when the item has none |
| SubmitOrder.FormatCurrencyRoundTrip | supabase/functions/submit-order/index.ts:52-54 | a formatted amount ends in " kr" and the text before it reads back as the amount |
| SubmitOrder.FormatCurrencyInjective | supabase/functions/submit-order/index.ts:52-54 | different amounts never format alike |
| SubmitOrder.SendEmailViaResend | supabase/functions/submit-order/index.ts:261-303 | without an API key nothing is sent and the result is `{ success: false, error: "Email service not configured" }`; with one a request is sent and succeeds exactly when Resend delivers; an error is present exactly when success is false |
| SubmitOrder.OrderReference | supabase/functions/submit-order/index.ts:48-50 | the order reference is "NYH" followed by the random part |
| SubmitOrder.OrderSuccess | supabase/functions/submit-order/index.ts:491-507 | status 200 with CORS headers whatever the emails did; the body carries the order reference, the database id and each email's success flag |
| SubmitOrder.OrdersDatabase.InsertOrder | supabase/functions/submit-order/index.ts:400-418 | on failure nothing changes; on success the row is stored under a fresh id that is returned |
| SubmitOrder.OrdersDatabase.InsertItems | supabase/functions/submit-order/index.ts:438-441 | the item rows are appended as a whole batch, or nothing is |
| SubmitOrder.OrdersDatabase.DeleteOrder | supabase/functions/submit-order/index.ts:445 | unless the delete fails, the order is removed and nothing else changes |
| SubmitOrder.SaveOrder | supabase/functions/submit-order/index.ts:399-457 | a failed order insert changes nothing and gives 500 "Failed to save order"; a failed item insert leaves no item rows and, unless the clean-up fails, no order row, and gives 500 "Failed to save order items"; otherwise exactly the order row and its item rows are added; every item row always belongs to a stored order |
| SubmitOrder.SendNotifications | supabase/functions/submit-order/index.ts:463-481 | the customer confirmation is issued first and the business notice second, both exactly when there is an API key; each result is the one `sendEmailViaResend` gives for its outcome |
| SubmitOrder.Serve | supabase/functions/submit-order/index.ts:305-507 | a rejected request touches no table and sends no email; a database failure gives its 500 and sends no email; after both inserts the answer is `OrderSuccess` with the two email results, and the two emails (customer confirmation, then business notice) are sent exactly when there is an API key |
| UploadArtwork.Precheck | supabase/functions/upload-artwork/index.ts:15-58 | OPTIONS gives 200 with the CORS headers, non-POST 405; an unreadable body gives 500 "Internal server error" with the parse error; missing file data or file name gives 400 "Missing file data or file name", checked before the environment; missing configuration gives 500; the handler goes on exactly when all checks pass |
| UploadArtwork.Base64PayloadBetweenMarkers | supabase/functions/upload-artwork/index.ts:63-65 | without "base64," the data is used as is; with it, the payload is the text from just after the first marker up to the next marker or the end, and holds no marker |
| UploadArtwork.FileExtension | supabase/functions/upload-artwork/index.ts:75 | the extension is the text after the last '.', or "png" when that text is empty; it is never empty and holds no '.' |
| UploadArtwork.ExtensionAfterLastDot | supabase/functions/upload-artwork/index.ts:75 | stem + "." + ext gives ext for any non-empty ext without a dot |
| UploadArtwork.ExtensionOfUndottedName | supabase/functions/upload-artwork/index.ts:75 | a name without a dot is its own extension |
| UploadArtwork.ExtensionOfTrailingDot | supabase/functions/upload-artwork/index.ts:75 | a name ending in '.' gets "png" |
| UploadArtwork.ArtworkPath | supabase/functions/upload-artwork/index.ts:76-77 | the path starts with "artwork/" and ends with "." + ext |
| UploadArtwork.ArtworkPathExtension | supabase/functions/upload-artwork/index.ts:75-77 | the stored path's own extension is the extension chosen from the file name |
| UploadArtwork.ArtworkPathLastChar | supabase/functions/upload-artwork/index.ts:76-77 | the path ends with the last character of the extension |
| UploadArtwork.ContentType | supabase/functions/upload-artwork/index.ts:83 | the content type is the given type, or "image/png" when it is missing or empty |
| UploadArtwork.BinaryRoundTrip | supabase/functions/upload-artwork/index.ts:68-72 | for the binary string `atob` yields, reading the stored bytes back as characters gives the string back |
| UploadArtwork.CopyToBytes | supabase/functions/upload-artwork/index.ts:69-72 | the loop fills a fresh array of the string's length whose byte i is the code of character i (its low eight bits) |
| UploadArtwork.ArtworkBucket.Upload | supabase/functions/upload-artwork/index.ts:80-86 | a refused upload changes nothing; an accepted one stores the bytes and content type under the path |
| UploadArtwork.Serve | supabase/functions/upload-artwork/index.ts:15-129 | a rejected request stores nothing; a failing `atob` gives 500 with its message; a storage error gives 500 "Failed to upload file" with its message and stores nothing; otherwise the decoded bytes are stored under the derived path with the derived content type, and the answer is 200 with the public URL and the path |
| Checkout.ShippingCost | src/pages/CheckoutPage.tsx:28 | shipping is 79 exactly for "express" and 39 for every other method |
| Checkout.OrderTotal | src/pages/CheckoutPage.tsx:29 | total − subtotal is the shipping price, one of 39 and 79 |
| Checkout.PayloadOfAcceptedIff | src/pages/CheckoutPage.tsx:56-82 | the order handler accepts a payload exactly when the cart is non-empty and the six required fields are non-empty |
| Checkout.PayloadAcceptedIff | src/pages/CheckoutPage.tsx:56-66 | the handler accepts what the page posts exactly when the cart is non-empty and the six required fields are non-empty once trimmed; phone and country play no part |
| Checkout.CheckoutOrderItems | src/pages/CheckoutPage.tsx:66-81 | the posted order carries the cart lines themselves and the page's subtotal, shipping cost and total; the stored item rows are one per cart line, in order, with its id, name, size, colour, quantity and price, total = price × quantity, and artwork null exactly when the line has none |
| Checkout.CheckoutOrderTotals | src/pages/CheckoutPage.tsx:77-81 | the stored subtotal, shipping cost and total are the page's subtotal, shipping price and their sum |
| Checkout.CheckoutOrderNameAndPhone | src/pages/CheckoutPage.tsx:59-61 | the stored name joins the trimmed first and last names; the phone is stored as null exactly when it trims to nothing, and trimmed otherwise |
| Checkout.CheckoutOrderEmail | src/pages/CheckoutPage.tsx:58 | the stored email is the trimmed, lower-cased email; the server's second trim changes nothing |
| Checkout.CheckoutOrderAddress | src/pages/CheckoutPage.tsx:62-64 | address, city and postal code are stored trimmed once |
| Checkout.CheckoutOrderDefaults | src/pages/CheckoutPage.tsx:65-78 | an emptied country or an empty method name is stored as the server's default |
| Checkout.CheckoutPage.CurrentView | src/pages/CheckoutPage.tsx:117-134 | the empty-cart view shows exactly when the cart is empty and no order is complete, the confirmation exactly when the order is complete, otherwise the wizard at the current step |
| Checkout.CheckoutPage.constructor | src/pages/CheckoutPage.tsx:6-25 | step 1, nothing in flight, empty form with country "Danmark", "dankort" and "standard" |
| Checkout.CheckoutPage.SetCustomer | src/pages/CheckoutPage.tsx:207-284 | the form changes and nothing else |
| Checkout.CheckoutPage.SetShippingMethod | src/pages/CheckoutPage.tsx:308-333 | the shipping method changes and nothing else |
| Checkout.CheckoutPage.SetPaymentMethod | src/pages/CheckoutPage.tsx:367-386 | the payment method changes and nothing else |
| Checkout.CheckoutPage.Submit | src/pages/CheckoutPage.tsx:31-53 | on steps 1 and 2 the step goes up by one with no request; on step 3 without a Supabase URL the configuration error is shown and processing ends; with one the order is posted and the page waits, processing; form and cart unchanged, step within 1..3 |
| Checkout.CheckoutPage.FinishOrder | src/pages/CheckoutPage.tsx:96-114 | an ok answer empties the cart, keeps the returned id or "Unknown" and completes the order; any failure keeps the cart, the step (3) and the incomplete order and shows the answer's error, the thrown message or the generic message; processing ends on every path |
| Checkout.CheckoutPage.Back | src/pages/CheckoutPage.tsx:417-422 | from step 2 or 3, when not processing, the step goes down by one and nothing else changes |
| Design.FindColor | src/pages/DesignPage.tsx:128 | `find` returns the first colour with the name, or none when no colour has it |
| Design.ColorLabel | src/pages/DesignPage.tsx:128 | a known colour shows its Danish label, an unknown name shows itself |
| Design.ColorLabelOfEntry | src/pages/DesignPage.tsx:42-49 | each of the six colours is shown with its own label |
| Design.ColorLabels | src/pages/DesignPage.tsx:42-49 | white, black, navy, gray, red and blue show as Hvid, Sort, Marineblå, Grå, Rød and Blå |
| Design.UnknownColorKeepsName | src/pages/DesignPage.tsx:128 | any other name is its own label |
| Design.TotalPrice | src/pages/DesignPage.tsx:51-57 | for a quantity of at least one the price shown is at least the unit price |
| Design.TotalPriceStep | src/pages/DesignPage.tsx:57 | one more item adds one unit price |
| Design.MakeItem | src/pages/DesignPage.tsx:124-133 | the line has the product key as id, the product's name, price and image, the chosen size and quantity, the colour's label and the given artwork |
| Design.OrderLineMatchesShownTotal | src/pages/DesignPage.tsx:57 | the line total the order handler stores for the added line is the price the page showed |
| Design.StoragePath | src/pages/DesignPage.tsx:81-83 | the path starts with "artwork/" |
| Design.StoragePathExtension | src/pages/DesignPage.tsx:81-83 | the path ends with "." and the text after the file name's last dot |
| Design.ClientAndServerPathsAgree | src/pages/DesignPage.tsx:81-83 | the page and the upload function build the same path exactly when the file name's last segment is non-empty |
| Design.TrailingDotPathsDiffer | src/pages/DesignPage.tsx:81-83 | for a name ending in '.' the page's path ends in '.' and the upload function's does not |
| Design.ReadOnRender | src/pages/DesignPage.tsx:336-411 | a render reads the mouse-move and mouse-up handlers always, the mouse-down handler and the reset button's handler exactly when there is a file preview, and never the scale handler |
| Design.PageNeverRendersAsWritten | src/pages/DesignPage.tsx:336-411 | as written, with none of those handlers defined, no render of the page completes |
| Design.PageRendersWithHandlers | src/pages/DesignPage.tsx:336-411 | corrected: with the five handlers defined, every render completes |
| Design.DesignPage.constructor | src/pages/DesignPage.tsx:24-30 | T-shirt, size M, white, quantity 1, no file, not uploading |
| Design.DesignPage.SelectProduct | src/pages/DesignPage.tsx:169-190 | the product changes and nothing else |
| Design.DesignPage.SelectSize | src/pages/DesignPage.tsx:219 | the size changes and nothing else |
| Design.DesignPage.SelectColor | src/pages/DesignPage.tsx:239 | the colour changes and nothing else |
| Design.DesignPage.ChooseFile | src/pages/DesignPage.tsx:59-62 | a chosen file replaces the current one; cancelling keeps it |
| Design.DesignPage.Increment | src/pages/DesignPage.tsx:293 | the quantity goes up by one and the price shown by one unit price |
| Design.DesignPage.Decrement | src/pages/DesignPage.tsx:285-287 | the quantity goes down by one only when above one, so it stays at least one |
| Design.DesignPage.BeginAddToCart | src/pages/DesignPage.tsx:112-117 | without a file the line is added with no artwork and the page goes home; with one the upload starts, the selection of the click is kept and `isUploading` is set |
| Design.DesignPage.UploadArtworkToStorage | src/pages/DesignPage.tsx:71-110 | without a service-role client no path is asked for and the answer is null; otherwise the file goes under the derived path and the answer is the public URL, or null on a storage error or exception; `isUploading` ends false on every path |
| Design.DesignPage.FinishAddToCart | src/pages/DesignPage.tsx:117-139 | a null or empty URL adds nothing and shows the upload alert; otherwise the kept line is added with the URL as artwork and the page goes home |
| Language.ParseLang | src/context/LanguageContext.tsx:3 | exactly "da" and "en" name a language, and the language named has that code |
| Language.CodeRoundTrip | src/context/LanguageContext.tsx:3 | every language reads back from its code |
| Language.Table | src/context/LanguageContext.tsx:11-180 | a table has an entry exactly for the 82 keys, and each entry is that language's text, never empty |
| Language.T | src/context/LanguageContext.tsx:198-200 | a key of the tables gives the current language's text; any other key comes back unchanged |
| Language.LookupNonEmpty | src/context/LanguageContext.tsx:198-200 | the lookup of a non-empty key is never empty |
| Language.MissingKeyReturned | src/context/LanguageContext.tsx:198-200 | "hero.title.line1" is in neither table and comes back as it is |
| Language.NavigationLabels | src/context/LanguageContext.tsx:13-97 | the home link reads "Forside" in Danish and "Home" in English |
| Language.Saved | src/context/LanguageContext.tsx:186 | `getItem` gives the stored value exactly when one is stored under "language" |
| Language.InitialLanguageAsWritten | src/context/LanguageContext.tsx:185-188 | the initial language is any non-empty stored value, otherwise "da" |
| Language.TranslateAsWritten | src/context/LanguageContext.tsx:199 | `t` works on "da" and "en"; a name inherited from `Object.prototype` ("constructor", "__proto__", "toString", …) gives the key back; any other language value throws |
| Language.AsWrittenLookupFails | src/context/LanguageContext.tsx:185-199 | as written, every lookup throws exactly when a non-empty stored value is neither "da" nor "en" nor an inherited name |
| Language.UnknownSavedLanguageBreaksLookup | src/context/LanguageContext.tsx:185-192 | a stored "fr" becomes the language and breaks the home link's label; since the render throws, the effect never runs and the stored "fr" stays for every later load |
| Language.InheritedSavedLanguageShowsKeys | src/context/LanguageContext.tsx:185-199 | a stored "constructor" does not throw but shows every text as its key |
| Language.InitialLanguage | src/context/LanguageContext.tsx:185-188 | corrected: the stored value when it is "da" or "en", otherwise Danish |
| Language.CorrectedAgreesOnValidValues | src/context/LanguageContext.tsx:185-188 | wherever the code as written picks a language with a table, the correction picks the same one |
| Language.CorrectedLookupNeverFails | src/context/LanguageContext.tsx:198-200 | with the corrected initial language `t` never throws |
| Language.ChoiceSurvivesReload | src/context/LanguageContext.tsx:185-192 | a stored choice is the language the next page load starts with |
| Language.LanguageProvider.constructor | src/context/LanguageContext.tsx:185-192 | the provider starts with the (corrected) stored language and the effect writes it back |
| Language.LanguageProvider.SetLanguage | src/context/LanguageContext.tsx:190-196 | the language becomes l, the effect stores l under "language", and the next load starts with l |
| Language.LanguageProvider.Translate | src/context/LanguageContext.tsx:198-200 | the context's `t` is the lookup in the current language |
| Language.UseLanguage | src/context/LanguageContext.tsx:209-215 | outside a provider the hook throws "useLanguage must be used within a LanguageProvider"; inside, it returns the provider |
| Text.OrElse | supabase/functions/submit-order/index.ts:388-390 | `x \|\| d` is x when x is present and non-empty, otherwise d |
| Text.Trim | supabase/functions/submit-contact-form/index.ts:98-101 | the result has no whitespace at either end and is no longer than the input |
| Text.TrimOfPadded | supabase/functions/submit-contact-form/index.ts:98-101 | trimming whitespace + m + whitespace gives m, for m trimmed |
| Text.TrimNoSpace | supabase/functions/submit-contact-form/index.ts:99 | a string without whitespace is its own trim |
| Text.TrimAllSpace | supabase/functions/submit-contact-form/index.ts:98-101 | a string of whitespace only trims to the empty string |
| Text.TrimIdempotent | src/pages/CheckoutPage.tsx:58-64 | trimming twice is trimming once |
| Text.ToLower | supabase/functions/submit-contact-form/index.ts:99 | the result has the input's length and each character lower-cased |
| Text.ToLowerAppend | supabase/functions/submit-contact-form/index.ts:99 | lower-casing distributes over concatenation |
| Text.TrimToLowerCommute | supabase/functions/submit-order/index.ts:383 | `toLowerCase().trim()` equals `trim().toLowerCase()` |
| Text.IndexOf | supabase/functions/upload-artwork/index.ts:63-64 | the first position where the pattern occurs, or none when it occurs nowhere |
| Text.ContainsIffOccurs | supabase/functions/submit-contact-form/index.ts:126 | `includes` holds exactly when the pattern occurs at some position |
| Text.SecondPiece | supabase/functions/upload-artwork/index.ts:64 | `split(pat)[1]` is no longer than the string |
| Text.SecondPieceBetween | supabase/functions/upload-artwork/index.ts:63-65 | `split(pat)[1]` is the text between the first occurrence and the next one or the end, and holds no occurrence |
| Text.AfterLast | supabase/functions/upload-artwork/index.ts:75 | `split(c).pop()` is a suffix without c, preceded by c unless it is the whole string |
| Text.AfterLastAbsent | supabase/functions/upload-artwork/index.ts:75 | without c the last segment is the whole string |
| Text.AfterLastOf | supabase/functions/upload-artwork/index.ts:75 | p + c + t gives t when t has no c |
| Text.NatToString | supabase/functions/upload-artwork/index.ts:76 | a non-empty run of digits without a leading zero |
| Text.IntToStringRoundTrip | supabase/functions/submit-order/index.ts:52-54 | the decimal text of a whole number reads back as the number |
| Text.IntToStringInjective | supabase/functions/submit-order/index.ts:52-54 | different numbers print differently |

## Left out

- The HTML bodies of the two order emails (`generateCustomerEmailHTML`, `generateBusinessEmailHTML`): they are presentation. The model keeps each email's sender, recipient and subject.
- `atob` (base64 decoding, RFC 4648 section 4) is an input function. Its failure is the message of the exception it throws.
- `Math.random()` and `Date.now()`. The random part of the order reference and of the file names, and the timestamp, are inputs.
- `fetch`, the Supabase client, the Resend API, `Deno.env`, `import.meta.env`, `localStorage`, `FileReader` and `alert`. Their results are inputs, and their effects are fields of the classes.
- The module-level client construction of the design page. Whether the service-role client exists is the input `clientConfigured`.
- `console` logging: it has no effect on the answers.
- The cart store (`CartContext`) is not part of this model. The checkout page reads `items` as a field. `clearCart` empties it. `getTotalPrice()` is the input `subtotal`. The design page records what it passes to `addItem` in `added`.
- The design page's drag and scale behaviour and its file preview. The drag, scale and reset handlers are not defined in the page (see Findings), so there is no behaviour to model. The preview is presentation. The page's operations are modelled as they run once renders complete.
- Browser form validation (`required`, `type="email"`): the page's fields are modelled as the user typed them.
- JSON numbers are whole numbers (`int`). There are no fractional prices and no floating-point rounding in the model.
- `toLowerCase` is modelled on ASCII letters only. Full Unicode case mapping is left out.
- Strings are sequences of characters, not UTF-16 code units. `charCodeAt` is modelled on the character's code, and the byte keeps its low eight bits.
- The test of the email regular expression is decided by `ContactForm.IsValidEmail`. That function is proved equivalent to matching the pattern, read as a language.
- `translations[language][key]` for inherited object properties (a key such as "constructor") is not modelled. Only the 82 own keys of the tables are.
- Language.TranslateAsWritten: for a language value inherited from `Object.prototype`, it returns the key. That is exact for every key that is not a property of the inherited value, which covers all 82 table keys, since they contain a '.'. For a key such as "name" or "call", JavaScript returns that property's value instead, which the model does not represent.
- The two translation tables have the same 82 keys by construction: both are total functions on the `Key` datatype. That is why no lemma states it.
- `LanguageProvider`'s effect runs as part of the constructor and of `SetLanguage`, so the state is never observed between a change and its write-back.
- `LanguageProvider.constructor` uses the corrected initial language (see Findings). The behaviour as written is `InitialLanguageAsWritten` and `TranslateAsWritten`.
- Checkout.BuildOrderPayload: has no `ensures` of its own. The payload's lines and amounts are stated by `CheckoutOrderItems`. What each customer field becomes in the order row is stated by the other `Checkout.CheckoutOrder…` lemmas. Acceptance is stated by `PayloadAcceptedIff`. The customer fields are not stated as payload fields.
- Checkout.CheckoutPage.Submit: returns whether the order is posted rather than the request itself. The posted body is `OrderPayload(subtotal)` of the unchanged form and cart.
- Design.DesignPage.BeginAddToCart: requires no click to be in flight. This stands for the button being disabled while uploading, and the click's continuation running before any other event.
- The clean-up `delete` on `orders` is an input that may fail. Its own result is ignored, as in the handler.
- Request bodies are assumed to have their declared TypeScript types, which nothing checks at run time. An ill-typed body that passes the guards ends in the handler's `catch` and its 500 "Internal server error". In the contact form this happens before any insert, for example for a `name` of 5 at `.trim()`. In `submit-order`, `items: [null]` passes the guard and the order row is inserted. `items.map` then throws, so the `catch` answers with no clean-up `delete` and the `orders` row stays. `SubmitOrder.SaveOrder` and `SubmitOrder.Serve` do not represent that path.

## Findings

| source | as written | input that shows it | evidently intended | confidence | as-written member | corrected member |
|---|---|---|---|---|---|---|
| src/context/LanguageContext.tsx:185-199 | the stored language is cast with `saved as Language` and used unchecked; `t` then reads `translations[language][key]` | `localStorage.language = "fr"`: `translations["fr"]` is undefined, so every `t(key)` throws, and, the render having thrown, nothing replaces the stored "fr", so every later load fails too | only "da" or "en" is adopted; anything else falls back to "da" | not executed | Language.InitialLanguageAsWritten, Language.TranslateAsWritten, Language.AsWrittenLookupFails, Language.UnknownSavedLanguageBreaksLookup | Language.InitialLanguage, Language.CorrectedLookupNeverFails, Language.CorrectedAgreesOnValidValues |
| src/pages/DesignPage.tsx:336-411 | the preview reads `handleMouseMove`, `handleMouseUp`, `handleMouseDown`, `handleScaleChange` and `resetDesignPosition`, none of which the component defines; the drag state at :33-36 is never updated | any render: `onMouseMove={handleMouseMove}` at :338 is evaluated every time and throws a `ReferenceError` | the five handlers defined next to the drag and scale state | not executed | Design.PageNeverRendersAsWritten, Design.ReadOnRender | Design.PageRendersWithHandlers |
