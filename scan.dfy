/** The scan page: six pieces of state changed by three handlers and two
    timer callbacks, and the fixed product table the scan is looked up in.
    Prices are integer cents. */
module ScanPage {
  import opened Runtime
  import BarcodeScanner

  /** One row of the product table: `{barcode, name, price, image_url}`. */
  datatype Product = Product(barcode: string, name: string, price: nat, imageUrl: string)

  /** The uploaded image (a browser `File`); only its identity matters here. */
  datatype ImageFile = ImageFile(name: string)

  /** The product table the page resolves scans against. */
  const MockProducts: seq<Product> := [
    Product("7891234567890", "Organic Banana Bundle", 499,
            "https://images.unsplash.com/photo-1528825871115-3581a5387919?q=80&w=800&auto=format&fit=crop"),
    Product("7891234567891", "Fresh Milk 1L", 249,
            "https://images.unsplash.com/photo-1563636619-e9143da7973b?q=80&w=800&auto=format&fit=crop"),
    Product("7891234567892", "Whole Grain Bread", 329,
            "https://images.unsplash.com/photo-1509440159596-0249088772ff?q=80&w=800&auto=format&fit=crop"),
    Product("7891234567893", "Free Range Eggs (12pk)", 599,
            "https://images.unsplash.com/photo-1506976785307-8732e854ad03?q=80&w=800&auto=format&fit=crop"),
    Product("7891234567894", "Organic Apples (1kg)", 399,
            "https://images.unsplash.com/photo-1567306226416-28f0efdc88ce?q=80&w=800&auto=format&fit=crop")
  ]

  /** No two rows share a barcode. */
  ghost predicate DistinctBarcodes(table: seq<Product>) {
    forall i, j :: 0 <= i < j < |table| ==> table[i].barcode != table[j].barcode
  }

  /** A lookup table the scan page can draw from: at least one row, no two
      rows with the same barcode, every barcode valid. */
  ghost predicate WellFormedTable(table: seq<Product>) {
    && |table| > 0
    && DistinctBarcodes(table)
    && forall k :: 0 <= k < |table| ==> BarcodeScanner.IsBarcodeValid(table[k].barcode)
  }

  /** Row `i` is the first row whose barcode is `code`. */
  ghost predicate FirstWith(table: seq<Product>, code: string, i: nat) {
    i < |table| && table[i].barcode == code
    && forall j :: 0 <= j < i ==> table[j].barcode != code
  }

  /** `table.find(p => p.barcode === code)`: the first row with that barcode,
      or `None` (`undefined`) when there is none. */
  function Find(table: seq<Product>, code: string): (r: Option<Product>)
    ensures r.Some? ==> exists i :: 0 <= i < |table| && table[i] == r.value && FirstWith(table, code, i)
    ensures r.Some? ==> r.value.barcode == code
    ensures r.None? <==> forall i :: 0 <= i < |table| ==> table[i].barcode != code
  {
    if table == [] then None
    else if table[0].barcode == code then Some(table[0])
    else
      var r := Find(table[1..], code);
      assert r.Some? ==> table[1..][0] == table[1] by {
        if r.Some? { assert |table[1..]| > 0; }
      }
      assert forall i :: 0 <= i < |table[1..]| ==> table[1..][i] == table[i + 1];
      r
  }

  /** With distinct barcodes, looking up a row's own barcode finds that row. */
  lemma FindOwnBarcode(table: seq<Product>, k: nat)
    requires DistinctBarcodes(table) && k < |table|
    ensures Find(table, table[k].barcode) == Some(table[k])
  {
  }

  /** Row `k` of the table carries the scanner's `k`-th mock barcode. */
  lemma MockProductBarcodes()
    ensures |MockProducts| == |BarcodeScanner.MockBarcodes|
    ensures forall k :: 0 <= k < |MockProducts| ==> MockProducts[k].barcode == BarcodeScanner.MockBarcodes[k]
  {
  }

  /** The table's barcodes are pairwise distinct and each passes the
      barcode validity test. */
  lemma MockProductsWellFormed()
    ensures WellFormedTable(MockProducts)
  {
    MockProductBarcodes();
    BarcodeScanner.MockBarcodesDistinct();
    BarcodeScanner.MockBarcodesValid();
  }

  /** In a well-formed table, looking up the barcode of row `k` finds row
      `k`, and that barcode is valid. */
  lemma TableLookup(table: seq<Product>, k: nat)
    requires WellFormedTable(table) && k < |table|
    ensures Find(table, table[k].barcode) == Some(table[k])
    ensures BarcodeScanner.IsBarcodeValid(table[k].barcode)
  {
    FindOwnBarcode(table, k);
  }

  /** The `Scan` component's state (the six `useState` fields), together
      with the timer callbacks that `setTimeout` has queued and not yet run. */
  class Scan {
    /** The module-level `mockProducts` table the page captures. */
    const catalog: seq<Product>

    var isLoading: bool
    var selectedFile: Option<ImageFile>
    var previewUrl: Option<string>
    var barcode: Option<string>
    var product: Option<Product>
    var isAddedToCart: bool

    /** Scan-completion callbacks queued by `handleScan`. */
    ghost var pendingScans: nat
    /** Reset callbacks queued by `handleAddToCart`. */
    ghost var pendingResets: nat

    /** What every state satisfies, in whatever order the handlers and the
        queued callbacks run. */
    ghost predicate Valid()
      reads this
    {
      && WellFormedTable(catalog)
      && (previewUrl.Some? <==> selectedFile.Some?)
      && (barcode.Some? <==> product.Some?)
      && (product.Some? ==>
            barcode == Some(product.value.barcode)
            && BarcodeScanner.IsBarcodeValid(barcode.value))
      && (isAddedToCart ==> product.Some?)
      && (isLoading ==> pendingScans > 0)
    }

    /** The Scan button is rendered: a file is selected and nothing is scanned yet. */
    predicate ScanButtonShown()
      reads this
    {
      selectedFile.Some? && barcode.None?
    }

    /** The Scan button is rendered and clickable (not while loading). */
    predicate ScanButtonEnabled()
      reads this
    {
      ScanButtonShown() && !isLoading
    }

    /** The product card, and with it an add button, is rendered. */
    predicate AddButtonShown()
      reads this
    {
      product.Some?
    }

    /** The add button is clickable: it turns into a disabled
        "Added to Cart" button once the product has been added. */
    predicate AddButtonEnabled()
      reads this
    {
      AddButtonShown() && !isAddedToCart
    }

    /** A way to open the file dialog is rendered: the upload placeholder
        (no preview) or the Upload Image button (no file). */
    predicate UploadOffered()
      reads this
    {
      previewUrl.None? || selectedFile.None?
    }

    /** What every state satisfies that the page reaches from its first
        render when each handler runs only through a control the page shows:
        at most one callback is queued, loading means a completion is queued
        for the selected, not yet scanned image, and "added" means a reset is
        queued for the selected, scanned product. */
    ghost predicate Reachable()
      reads this
    {
      && pendingScans <= 1 && pendingResets <= 1
      && (isLoading <==> pendingScans == 1)
      && (isAddedToCart <==> pendingResets == 1)
      && (pendingScans == 1 ==> selectedFile.Some? && barcode.None? && pendingResets == 0)
      && (product.Some? ==> selectedFile.Some?)
    }

    /** In a reachable state a queued callback is the only event that can
        happen: while it is queued no control that could start another is
        offered, and as soon as nothing is queued some control is. */
    lemma QueuedCallbackIsOnlyEvent()
      requires Valid() && Reachable()
      ensures pendingScans + pendingResets <= 1
      ensures pendingScans + pendingResets == 1 <==>
        !UploadOffered() && !ScanButtonEnabled() && !AddButtonEnabled()
    {
    }

    /** The page as first rendered. */
    constructor ()
      ensures !isLoading && selectedFile.None? && previewUrl.None?
      ensures barcode.None? && product.None? && !isAddedToCart
      ensures pendingScans == 0 && pendingResets == 0
      ensures catalog == MockProducts
      ensures Valid() && Reachable()
    {
      catalog := MockProducts;
      MockProductsWellFormed();
      isLoading := false;
      selectedFile := None;
      previewUrl := None;
      barcode := None;
      product := None;
      isAddedToCart := false;
      pendingScans := 0;
      pendingResets := 0;
    }

    /** `handleFileChange`. `files` is the input's `FileList` (`None` for
        null); `objectUrl` is what `URL.createObjectURL` returns for the first
        file. Selecting a file starts over, whatever the state was; an event
        without a file changes nothing. */
    method HandleFileChange(files: Option<seq<ImageFile>>, objectUrl: string)
      requires Valid()
      modifies this
      ensures Valid()
      ensures files.Some? && |files.value| > 0 ==>
        && selectedFile == Some(files.value[0])
        && previewUrl == Some(objectUrl)
        && barcode.None? && product.None? && !isAddedToCart
        && isLoading == old(isLoading)
      ensures !(files.Some? && |files.value| > 0) ==>
        && selectedFile == old(selectedFile) && previewUrl == old(previewUrl)
        && barcode == old(barcode) && product == old(product)
        && isAddedToCart == old(isAddedToCart) && isLoading == old(isLoading)
      ensures pendingScans == old(pendingScans) && pendingResets == old(pendingResets)
      ensures old(Reachable()) && old(UploadOffered()) ==> Reachable()
    {
      if files.Some? && |files.value| > 0 {
        var file := files.value[0];
        selectedFile := Some(file);
        previewUrl := Some(objectUrl);
        barcode := None;
        product := None;
        isAddedToCart := false;
      }
    }

    /** `handleScan` up to `setTimeout`: with no file selected nothing
        happens; otherwise loading starts and a completion is queued. */
    method HandleScan()
      requires Valid()
      modifies this
      ensures Valid()
      ensures selectedFile == old(selectedFile) && previewUrl == old(previewUrl)
      ensures barcode == old(barcode) && product == old(product)
      ensures isAddedToCart == old(isAddedToCart) && pendingResets == old(pendingResets)
      ensures old(selectedFile).None? ==> isLoading == old(isLoading) && pendingScans == old(pendingScans)
      ensures old(selectedFile).Some? ==> isLoading && pendingScans == old(pendingScans) + 1
      ensures !ScanButtonEnabled()
      ensures old(Reachable()) && old(ScanButtonEnabled()) ==> Reachable()
    {
      if selectedFile.None? {
        return;
      }
      isLoading := true;
      pendingScans := pendingScans + 1;
    }

    /** The callback `handleScan` queued, firing. `randomIndex` is
        `Math.floor(Math.random() * mockProducts.length)`, which
        `Runtime.RandomIndex` shows is always a valid row. The result is
        applied without checking that it still belongs to the current image;
        in a `Reachable` state no control that could change the image is
        offered while it is queued. */
    method ScanCompletes(randomIndex: nat)
      requires Valid() && pendingScans > 0
      requires randomIndex < |catalog|
      modifies this
      ensures Valid()
      ensures barcode == Some(catalog[randomIndex].barcode)
      ensures product == Some(catalog[randomIndex])
      ensures !isLoading
      ensures selectedFile == old(selectedFile) && previewUrl == old(previewUrl)
      ensures isAddedToCart == old(isAddedToCart)
      ensures pendingScans == old(pendingScans) - 1 && pendingResets == old(pendingResets)
      ensures old(Reachable()) ==> Reachable()
    {
      var randomBarcode := catalog[randomIndex].barcode;
      barcode := Some(randomBarcode);
      TableLookup(catalog, randomIndex);
      var foundProduct := Find(catalog, randomBarcode);
      product := foundProduct;
      isLoading := false;
      pendingScans := pendingScans - 1;
    }

    /** `handleAddToCart`: with no product nothing happens; otherwise the
        product is marked added and a reset is queued. No cart is changed. */
    method HandleAddToCart()
      requires Valid()
      modifies this
      ensures Valid()
      ensures isLoading == old(isLoading) && selectedFile == old(selectedFile)
      ensures previewUrl == old(previewUrl) && barcode == old(barcode) && product == old(product)
      ensures pendingScans == old(pendingScans)
      ensures old(product).None? ==> isAddedToCart == old(isAddedToCart) && pendingResets == old(pendingResets)
      ensures old(product).Some? ==> isAddedToCart && pendingResets == old(pendingResets) + 1
      ensures !AddButtonEnabled()
      ensures old(Reachable()) && old(AddButtonEnabled()) ==> Reachable()
    {
      if product.None? {
        return;
      }
      isAddedToCart := true;
      pendingResets := pendingResets + 1;
    }

    /** The reset `handleAddToCart` queued, firing: it clears the session
        unconditionally. In a `Reachable` state nothing else can have happened
        since it was queued. */
    method ResetFires()
      requires Valid() && pendingResets > 0
      modifies this
      ensures Valid()
      ensures selectedFile.None? && previewUrl.None? && barcode.None? && product.None?
      ensures !isAddedToCart
      ensures isLoading == old(isLoading)
      ensures pendingScans == old(pendingScans) && pendingResets == old(pendingResets) - 1
      ensures old(Reachable()) ==> Reachable()
    {
      selectedFile := None;
      previewUrl := None;
      barcode := None;
      product := None;
      isAddedToCart := false;
      pendingResets := pendingResets - 1;
    }
  }

  /** One pass through the page using only the controls it shows: choose
      an image, scan it, let the scan complete with row `k`, add the product,
      and let the reset fire. At each step the control used is offered, and
      the page ends as it started. */
  method ScanAndAdd(file: ImageFile, k: nat) returns (page: Scan)
    requires k < |MockProducts|
    ensures page.Valid() && page.Reachable()
    ensures page.selectedFile.None? && page.previewUrl.None? && page.product.None?
    ensures !page.isLoading && !page.isAddedToCart && page.UploadOffered()
  {
    page := new Scan();
    assert page.UploadOffered();
    page.HandleFileChange(Some([file]), "blob:image");
    assert page.ScanButtonEnabled();
    page.HandleScan();
    page.ScanCompletes(k);
    assert page.product == Some(MockProducts[k]) && page.AddButtonEnabled();
    page.HandleAddToCart();
    page.ResetFires();
  }
}
