/** The server form actions of app/actions.ts that validate input before
    writing: `createStore`, `addProduct` and `updateProduct`. The signed-in
    user, the owner's store lookup, the number and JSON parsers, the image
    upload and the database writes are inputs; each action returns the
    response it gives and the rows it writes. */
module Actions {
  import opened Common
  import Variants

  /** An uploaded file as `formData.get('image')` sees it. */
  datatype File = File(name: string, size: nat)

  /** Submitted form data: text fields by name, and the optional image. */
  datatype Form = Form(fields: map<string, string>, image: Option<File>)

  /** A JavaScript number produced by `parseFloat`/`parseInt`: `NaN` or a value. */
  datatype Number = NaN | Num(value: real)

  /** What an action returns to the form: `{ error }`, or a redirect. */
  datatype Response = Error(message: string) | Redirect(path: string)

  /** A database error as the client library reports it. */
  datatype DbError = DbError(code: string, message: string)

  /** The storage upload: the public URL of the stored file, or the error message. */
  datatype Upload = Uploaded(publicUrl: string) | UploadFailed(message: string)

  /** The product insert: the new product's id, or the error message. */
  datatype ProductInsert = ProductInserted(id: string) | ProductInsertFailed(message: string)

  /** `formData.get(key)`: the field's text, or null when absent. */
  function Field(form: Form, key: string): (v: Option<string>)
    ensures v.Some? <==> key in form.fields
    ensures v.Some? ==> v.value == form.fields[key]
  {
    if key in form.fields then Some(form.fields[key]) else None
  }

  /** JavaScript truthiness of a `string | null`: present and non-empty. */
  predicate Truthy(v: Option<string>)
  {
    v.Some? && v.value != ""
  }

  /** `parse(formData.get(key) as string)`: an absent field parses the text
      "null", which is not a number. */
  function ParseField(form: Form, key: string, parse: string -> Number): (n: Number)
    ensures key !in form.fields ==> n == NaN
    ensures key in form.fields ==> n == parse(form.fields[key])
  {
    match Field(form, key)
    case None => NaN
    case Some(text) => parse(text)
  }

  /** `formData.get(key) ? parseFloat(formData.get(key)) : null` */
  function OptionalNumber(form: Form, key: string, parseFloat: string -> Number): (n: Option<Number>)
    ensures n.None? <==> key !in form.fields || form.fields[key] == ""
    ensures n.Some? ==> n.value == parseFloat(form.fields[key])
  {
    if Truthy(Field(form, key)) then Some(parseFloat(form.fields[key])) else None
  }

  /** `imageFile && imageFile.size > 0` */
  predicate HasImage(form: Form)
  {
    form.image.Some? && form.image.value.size > 0
  }

  // ---------------------------------------------------------------------------
  // createStore

  /** The row inserted into `stores`. */
  datatype StoreRow = StoreRow(ownerId: string, name: string, slug: string, currency: string)

  datatype CreateStoreResult = CreateStoreResult(response: Response, inserted: Option<StoreRow>)

  const LoginToCreateStore := "You must be logged in to create a store."
  const StoreFieldsRequired := "Store name and subdomain are required."
  const SubdomainTaken := "This subdomain is already taken."
  /** Postgres' unique-violation error code. */
  const UniqueViolation := "23505"

  /** `createStore(formData)`, given the signed-in user's id and the insert's error. */
  function CreateStore(user: Option<string>, form: Form, insertError: Option<DbError>): (r: CreateStoreResult)
    ensures user.None? ==> r == CreateStoreResult(Error(LoginToCreateStore), None)
    ensures user.Some? && !(Truthy(Field(form, "storeName")) && Truthy(Field(form, "subdomain")))
        ==> r == CreateStoreResult(Error(StoreFieldsRequired), None)
    ensures user.Some? && Truthy(Field(form, "storeName")) && Truthy(Field(form, "subdomain")) ==>
        && r.inserted == Some(StoreRow(user.value, form.fields["storeName"], form.fields["subdomain"], "NGN"))
        && r.response == (if insertError.None? then Redirect("/dashboard")
                          else if insertError.value.code == UniqueViolation then Error(SubdomainTaken)
                          else Error(insertError.value.message))
  {
    if user.None? then CreateStoreResult(Error(LoginToCreateStore), None)
    else
      var name := Field(form, "storeName");
      var subdomain := Field(form, "subdomain");
      if !Truthy(name) || !Truthy(subdomain) then CreateStoreResult(Error(StoreFieldsRequired), None)
      else
        var row := StoreRow(user.value, name.value, subdomain.value, "NGN");
        match insertError
        case Some(e) =>
          CreateStoreResult(Error(if e.code == UniqueViolation then SubdomainTaken else e.message), Some(row))
        case None => CreateStoreResult(Redirect("/dashboard"), Some(row))
  }

  /** A store is created, and the owner sent to the dashboard, exactly when
      someone is signed in, both fields are filled and the insert succeeds;
      an insert is attempted exactly when the first two hold. */
  lemma CreateStoreSucceedsIff(user: Option<string>, form: Form, insertError: Option<DbError>)
    ensures var r := CreateStore(user, form, insertError);
      (r.inserted.Some? <==> user.Some? && Truthy(Field(form, "storeName")) && Truthy(Field(form, "subdomain")))
      && (r.response == Redirect("/dashboard") <==> r.inserted.Some? && insertError.None?)
      && (r.response.Redirect? || r.response.Error?)
  {
  }

  // ---------------------------------------------------------------------------
  // addProduct

  /** The row inserted into `products`. */
  datatype ProductRow = ProductRow(
    storeId: string, name: string, description: Option<string>, price: real,
    compareAtPrice: Option<Number>, costPerItem: Option<Number>, inventoryCount: Number,
    category: Option<string>, status: Option<string>, images: Option<seq<string>>)

  /** A row inserted into `product_variants`. */
  datatype VariantRow = VariantRow(productId: string, name: string, price: int, inventoryCount: int, options: map<string, string>)

  datatype AddProductResult = AddProductResult(
    response: Response, uploaded: bool, inserted: Option<ProductRow>, variantRows: seq<VariantRow>)

  const LoginToAddProduct := "You must be logged in to add a product."
  const StoreNotFound := "Store not found."
  const NameRequired := "Product name is required."
  const PriceInvalid := "Price must be a valid positive number."
  const UploadFailedPrefix := "Image upload failed: "

  /** `!name || name.length < 2`: a name passes exactly when it is present
      with at least two characters, so the emptiness test adds nothing. */
  predicate NameMissing(form: Form): (missing: bool)
    ensures !missing <==> "name" in form.fields && |form.fields["name"]| >= 2
  {
    var name := Field(form, "name");
    !Truthy(name) || |name.value| < 2
  }

  /** `isNaN(price) || price < 0`: a price passes exactly when it is a number
      of at least 0. */
  predicate PriceRejected(price: Number): (rejected: bool)
    ensures !rejected <==> price.Num? && price.value >= 0.0
  {
    price.NaN? || price.value < 0.0
  }

  /** Every check before the upload passes: signed in, owning a store, with a
      name of at least two characters and a price that is a number of at least 0. */
  predicate PassesChecks(user: Option<string>, store: Option<string>, form: Form, parseFloat: string -> Number)
  {
    user.Some? && store.Some? && !NameMissing(form) && !PriceRejected(ParseField(form, "price", parseFloat))
  }

  /** The variants posted in the hidden `variants` field: an empty list when
      the field is empty or absent, or when `JSON.parse` throws. */
  function PostedVariants(form: Form, parseVariants: string -> Option<seq<Variants.Variant>>): (vs: seq<Variants.Variant>)
    ensures !Truthy(Field(form, "variants")) ==> vs == []
    ensures Truthy(Field(form, "variants")) && parseVariants(form.fields["variants"]).None? ==> vs == []
    ensures Truthy(Field(form, "variants")) && parseVariants(form.fields["variants"]).Some?
        ==> vs == parseVariants(form.fields["variants"]).value
  {
    var json := Field(form, "variants");
    if Truthy(json) then
      match parseVariants(json.value)
      case Some(vs) => vs
      case None => []
    else []
  }

  /** `variants.map(v => ({ product_id: product.id, ... }))` */
  function VariantRows(productId: string, vs: seq<Variants.Variant>): (rows: seq<VariantRow>)
    ensures |rows| == |vs|
    ensures forall k :: 0 <= k < |vs| ==>
      rows[k] == VariantRow(productId, vs[k].name, vs[k].price, vs[k].stock, vs[k].options)
  {
    if vs == [] then []
    else [VariantRow(productId, vs[0].name, vs[0].price, vs[0].stock, vs[0].options)] + VariantRows(productId, vs[1..])
  }

  /** The product row built from a validated form. */
  function ProductRowFor(storeId: string, form: Form, price: real, parseFloat: string -> Number,
                         parseInt: string -> Number, images: Option<seq<string>>): ProductRow
    requires Field(form, "name").Some?
  {
    ProductRow(storeId, form.fields["name"], Field(form, "description"), price,
               OptionalNumber(form, "compare_at_price", parseFloat), OptionalNumber(form, "cost_per_item", parseFloat),
               ParseField(form, "stock", parseInt), Field(form, "category"), Field(form, "status"), images)
  }

  /** `addProduct(formData)`. `store` is the id of the store the user owns, if
      any; `upload` is consulted only when an image is attached, `insert` only
      once the upload (if any) succeeded. The variant insert's error is an
      input that nothing reads, as in the source, which only logs it. */
  function AddProduct(user: Option<string>, store: Option<string>, form: Form,
                      parseFloat: string -> Number, parseInt: string -> Number,
                      parseVariants: string -> Option<seq<Variants.Variant>>,
                      upload: Upload, insert: ProductInsert, variantInsertError: Option<string>): (r: AddProductResult)
    ensures user.None? ==> r == AddProductResult(Error(LoginToAddProduct), false, None, [])
    ensures user.Some? && store.None? ==> r == AddProductResult(Error(StoreNotFound), false, None, [])
    ensures user.Some? && store.Some? && NameMissing(form) ==> r == AddProductResult(Error(NameRequired), false, None, [])
    ensures user.Some? && store.Some? && !NameMissing(form) && PriceRejected(ParseField(form, "price", parseFloat))
        ==> r == AddProductResult(Error(PriceInvalid), false, None, [])
    ensures PassesChecks(user, store, form, parseFloat) && HasImage(form) && upload.UploadFailed? ==>
        r == AddProductResult(Error(UploadFailedPrefix + upload.message), true, None, [])
    ensures PassesChecks(user, store, form, parseFloat) && (!HasImage(form) || upload.Uploaded?) ==>
        var price := ParseField(form, "price", parseFloat);
        && r.uploaded == HasImage(form)
        && r.inserted == Some(ProductRowFor(store.value, form, price.value, parseFloat, parseInt,
                                            if HasImage(form) then Some([upload.publicUrl]) else None))
        && (insert.ProductInsertFailed? ==> r.response == Error(insert.message) && r.variantRows == [])
        && (insert.ProductInserted? ==>
              r.response == Redirect("/dashboard/products")
              && r.variantRows == VariantRows(insert.id, PostedVariants(form, parseVariants)))
  {
    if user.None? then AddProductResult(Error(LoginToAddProduct), false, None, [])
    else if store.None? then AddProductResult(Error(StoreNotFound), false, None, [])
    else
      var price := ParseField(form, "price", parseFloat);
      if NameMissing(form) then AddProductResult(Error(NameRequired), false, None, [])
      else if price.NaN? || price.value < 0.0 then AddProductResult(Error(PriceInvalid), false, None, [])
      else
        var uploaded := HasImage(form);
        if uploaded && upload.UploadFailed? then AddProductResult(Error(UploadFailedPrefix + upload.message), true, None, [])
        else
          var images := if uploaded then Some([upload.publicUrl]) else None;
          var row := ProductRowFor(store.value, form, price.value, parseFloat, parseInt, images);
          match insert
          case ProductInsertFailed(message) => AddProductResult(Error(message), uploaded, Some(row), [])
          case ProductInserted(id) =>
            var variants := PostedVariants(form, parseVariants);
            var rows := if |variants| > 0 then VariantRows(id, variants) else [];
            AddProductResult(Redirect("/dashboard/products"), uploaded, Some(row), rows)
  }

  /** A price of 0 passes the price check: with a signed-in owner, a valid
      name, no image and a successful insert, the product is created. */
  lemma ZeroPriceAccepted(user: string, store: string, form: Form,
                          parseFloat: string -> Number, parseInt: string -> Number,
                          parseVariants: string -> Option<seq<Variants.Variant>>,
                          upload: Upload, id: string, variantInsertError: Option<string>)
    requires !NameMissing(form) && !HasImage(form)
    requires ParseField(form, "price", parseFloat) == Num(0.0)
    ensures AddProduct(Some(user), Some(store), form, parseFloat, parseInt, parseVariants, upload,
                       ProductInserted(id), variantInsertError).response == Redirect("/dashboard/products")
  {
  }

  /** The variant insert's outcome never changes what `addProduct` returns or writes. */
  lemma VariantErrorIgnored(user: Option<string>, store: Option<string>, form: Form,
                            parseFloat: string -> Number, parseInt: string -> Number,
                            parseVariants: string -> Option<seq<Variants.Variant>>,
                            upload: Upload, insert: ProductInsert, e1: Option<string>, e2: Option<string>)
    ensures AddProduct(user, store, form, parseFloat, parseInt, parseVariants, upload, insert, e1)
         == AddProduct(user, store, form, parseFloat, parseInt, parseVariants, upload, insert, e2)
  {
  }

  /** A product is created, and the user sent to the product list, exactly
      when every check passes, an attached image was stored and the insert
      succeeded; the insert is attempted exactly when the first two hold. */
  lemma AddProductSucceedsIff(user: Option<string>, store: Option<string>, form: Form,
                              parseFloat: string -> Number, parseInt: string -> Number,
                              parseVariants: string -> Option<seq<Variants.Variant>>,
                              upload: Upload, insert: ProductInsert, variantInsertError: Option<string>)
    ensures var r := AddProduct(user, store, form, parseFloat, parseInt, parseVariants, upload, insert, variantInsertError);
      var stored := PassesChecks(user, store, form, parseFloat) && (!HasImage(form) || upload.Uploaded?);
      && (r.inserted.Some? <==> stored)
      && (r.response == Redirect("/dashboard/products") <==> stored && insert.ProductInserted?)
  {
  }

  /** One variant row per posted variant, each carrying the new product's id;
      unparseable variant JSON creates a product with no variant rows. */
  lemma VariantRowsPerVariant(user: string, store: string, form: Form,
                              parseFloat: string -> Number, parseInt: string -> Number,
                              parseVariants: string -> Option<seq<Variants.Variant>>,
                              upload: Upload, id: string, variantInsertError: Option<string>)
    requires !NameMissing(form) && !PriceRejected(ParseField(form, "price", parseFloat))
    requires HasImage(form) ==> upload.Uploaded?
    ensures var r := AddProduct(Some(user), Some(store), form, parseFloat, parseInt, parseVariants, upload,
                                ProductInserted(id), variantInsertError);
      var posted := PostedVariants(form, parseVariants);
      && r.response == Redirect("/dashboard/products")
      && |r.variantRows| == |posted|
      && (forall k :: 0 <= k < |posted| ==> r.variantRows[k].productId == id && r.variantRows[k].name == posted[k].name)
      && (Truthy(Field(form, "variants")) && parseVariants(form.fields["variants"]).None? ==> r.variantRows == [])
  {
  }

  // ---------------------------------------------------------------------------
  // updateProduct

  /** The fields sent to `products.update`; `images` only when a new image was stored. */
  datatype ProductUpdate = ProductUpdate(
    name: Option<string>, description: Option<string>, price: Number,
    compareAtPrice: Option<Number>, costPerItem: Option<Number>, inventoryCount: Number,
    category: Option<string>, status: Option<string>, images: Option<seq<string>>)

  datatype UpdateProductResult = UpdateProductResult(response: Response, uploaded: bool, update: Option<(string, ProductUpdate)>)

  const InvalidFormData := "Invalid form data."
  const LoginToUpdateProduct := "You must be logged in to update a product."
  const ProductIdRequired := "Product ID is required."

  /** `prevState instanceof FormData ? prevState : formData`: `prevState` is
      `Some` exactly when the first argument is form data. */
  function FormArgument(prevState: Option<Form>, formData: Option<Form>): (data: Option<Form>)
    ensures prevState.Some? ==> data == prevState
    ensures prevState.None? ==> data == formData
  {
    if prevState.Some? then prevState else formData
  }

  /** Every check before the upload passes: form data present, signed in,
      a non-empty product id and a store. */
  predicate UpdateChecksPass(prevState: Option<Form>, formData: Option<Form>, user: Option<string>, store: Option<string>)
  {
    var data := FormArgument(prevState, formData);
    data.Some? && user.Some? && Truthy(Field(data.value, "id")) && store.Some?
  }

  /** The update built from the form; no field is validated. */
  function UpdateFor(form: Form, parseFloat: string -> Number, parseInt: string -> Number,
                     images: Option<seq<string>>): ProductUpdate
  {
    ProductUpdate(Field(form, "name"), Field(form, "description"), ParseField(form, "price", parseFloat),
                  OptionalNumber(form, "compare_at_price", parseFloat), OptionalNumber(form, "cost_per_item", parseFloat),
                  ParseField(form, "stock", parseInt), Field(form, "category"), Field(form, "status"), images)
  }

  /** `updateProduct(prevState, formData)` with the signed-in user, the owner's
      store, the upload outcome and the update's error as inputs. */
  function UpdateProduct(prevState: Option<Form>, formData: Option<Form>, user: Option<string>, store: Option<string>,
                         parseFloat: string -> Number, parseInt: string -> Number,
                         upload: Upload, updateError: Option<string>): (r: UpdateProductResult)
    ensures FormArgument(prevState, formData).None? ==> r == UpdateProductResult(Error(InvalidFormData), false, None)
    ensures FormArgument(prevState, formData).Some? && user.None?
        ==> r == UpdateProductResult(Error(LoginToUpdateProduct), false, None)
    ensures FormArgument(prevState, formData).Some? && user.Some? && !Truthy(Field(FormArgument(prevState, formData).value, "id"))
        ==> r == UpdateProductResult(Error(ProductIdRequired), false, None)
    ensures FormArgument(prevState, formData).Some? && user.Some? && Truthy(Field(FormArgument(prevState, formData).value, "id"))
        && store.None?
        ==> r == UpdateProductResult(Error(StoreNotFound), false, None)
    ensures (UpdateChecksPass(prevState, formData, user, store) && HasImage(FormArgument(prevState, formData).value)
             && upload.UploadFailed?)
        ==> r == UpdateProductResult(Error(UploadFailedPrefix + upload.message), true, None)
    ensures (UpdateChecksPass(prevState, formData, user, store)
             && (!HasImage(FormArgument(prevState, formData).value) || upload.Uploaded?)) ==>
        var form := FormArgument(prevState, formData).value;
        && r.uploaded == HasImage(form)
        && r.update == Some((form.fields["id"],
                             UpdateFor(form, parseFloat, parseInt, if HasImage(form) then Some([upload.publicUrl]) else None)))
        && r.response == (if updateError.Some? then Error(updateError.value) else Redirect("/dashboard/products"))
  {
    var data := FormArgument(prevState, formData);
    if data.None? then UpdateProductResult(Error(InvalidFormData), false, None)
    else if user.None? then UpdateProductResult(Error(LoginToUpdateProduct), false, None)
    else
      var form := data.value;
      var id := Field(form, "id");
      if !Truthy(id) then UpdateProductResult(Error(ProductIdRequired), false, None)
      else if store.None? then UpdateProductResult(Error(StoreNotFound), false, None)
      else
        var uploaded := HasImage(form);
        if uploaded && upload.UploadFailed? then UpdateProductResult(Error(UploadFailedPrefix + upload.message), true, None)
        else
          var update := UpdateFor(form, parseFloat, parseInt, None);
          var update := if uploaded then update.(images := Some([upload.publicUrl])) else update;
          UpdateProductResult(if updateError.Some? then Error(updateError.value) else Redirect("/dashboard/products"),
                              uploaded, Some((id.value, update)))
  }

  /** Unlike `addProduct`, `updateProduct` checks neither name nor price: once
      signed in, with an id and a store, no image and no database error, any
      form is written and the user redirected. */
  lemma UpdateSkipsFieldChecks(form: Form, user: string, store: string,
                               parseFloat: string -> Number, parseInt: string -> Number, upload: Upload)
    requires Truthy(Field(form, "id")) && !HasImage(form)
    ensures var r := UpdateProduct(Some(form), None, Some(user), Some(store), parseFloat, parseInt, upload, None);
      r.response == Redirect("/dashboard/products") && r.update.Some? && r.update.value.1.images.None?
  {
  }

  /** A product is updated, and the user sent to the product list, exactly
      when every check passes, an attached image was stored and the update
      reported no error; the update is sent exactly when the first two hold. */
  lemma UpdateProductSucceedsIff(prevState: Option<Form>, formData: Option<Form>, user: Option<string>, store: Option<string>,
                                 parseFloat: string -> Number, parseInt: string -> Number,
                                 upload: Upload, updateError: Option<string>)
    ensures var r := UpdateProduct(prevState, formData, user, store, parseFloat, parseInt, upload, updateError);
      var sent := UpdateChecksPass(prevState, formData, user, store)
                  && (!HasImage(FormArgument(prevState, formData).value) || upload.Uploaded?);
      && (r.update.Some? <==> sent)
      && (r.response == Redirect("/dashboard/products") <==> sent && updateError.None?)
  {
  }

  /** The form data may come as either argument. */
  lemma FormInEitherArgument(form: Form, other: Option<Form>, user: Option<string>, store: Option<string>,
                             parseFloat: string -> Number, parseInt: string -> Number,
                             upload: Upload, updateError: Option<string>)
    ensures UpdateProduct(Some(form), other, user, store, parseFloat, parseInt, upload, updateError)
         == UpdateProduct(None, Some(form), user, store, parseFloat, parseInt, upload, updateError)
  {
  }
}
