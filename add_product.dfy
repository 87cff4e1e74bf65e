/** The "Add New Product" dialog: its form state, the checks a submission
    must pass, the listing record it hands to the store, and what the form
    looks like after the store answers. */
module AddProduct {
  import opened Wrappers
  import opened Firestore

  const MissingFieldsMessage := "Please fill in all required fields."
  const InvalidPriceMessage := "Price must be a positive number."
  const AddFailedPrefix := "Failed to add product: "

  /** The checks made before any write: the three required fields must be
      non-empty, then the price text must parse (`parseFloat` giving None
      stands for NaN) to a positive number, which is the price written. */
  function ValidateListing(name: string, description: string, price: string,
                           parseFloat: string -> Option<real>): (r: Result<real, string>)
    ensures r == Failure(MissingFieldsMessage) <==> (name == "" || description == "" || price == "")
    ensures r == Failure(InvalidPriceMessage)
        <==> name != "" && description != "" && price != ""
             && (parseFloat(price).None? || parseFloat(price).value <= 0.0)
    ensures r.Success?
        <==> name != "" && description != "" && price != ""
             && parseFloat(price).Some? && parseFloat(price).value > 0.0
    ensures r.Success? ==> r.value > 0.0 && parseFloat(price) == Some(r.value)
  {
    if name == "" || description == "" || price == "" then Failure(MissingFieldsMessage)
    else
      var parsed := parseFloat(price);
      if parsed.None? || parsed.value <= 0.0 then Failure(InvalidPriceMessage)
      else Success(parsed.value)
  }

  /** The fields of the new listing document. It carries no "id" (the store
      assigns the key) and asks the store to stamp "createdAt". */
  function NewListing(name: string, description: string, price: real,
                      imageUrl: string, sellerId: string): (r: Data)
    ensures "id" !in r
    ensures r.Keys == {"name", "description", "price", "imageUrl", "sellerId", "createdAt"}
    ensures r["sellerId"] == Str(sellerId) && r["price"] == Num(price)
    ensures r["createdAt"] == ServerTimestamp
  {
    map["name" := Str(name), "description" := Str(description), "price" := Num(price),
        "imageUrl" := Str(imageUrl), "sellerId" := Str(sellerId), "createdAt" := ServerTimestamp]
  }

  /** Once the store has stored the listing under key `key` and stamped it
      with `stamp`, reading it back gives a product whose id is that key,
      whose createdAt is that stamp, and whose other fields are the ones
      submitted. */
  lemma StoredListingReadsBack(name: string, description: string, price: real,
                               imageUrl: string, sellerId: string, key: string, stamp: Timestamp)
    ensures var p := ToProduct(Doc(key, NewListing(name, description, price, imageUrl, sellerId)["createdAt" := Time(stamp)]));
      && p["id"] == Str(key)
      && p["createdAt"] == Time(stamp)
      && p["name"] == Str(name) && p["description"] == Str(description)
      && p["price"] == Num(price) && p["imageUrl"] == Str(imageUrl)
      && p["sellerId"] == Str(sellerId)
  {
    var data := NewListing(name, description, price, imageUrl, sellerId)["createdAt" := Time(stamp)];
    assert "id" !in data;
  }

  /** The dialog's state. It stays mounted inside the dashboard, so the
      form survives closing and reopening. `submitted` logs every record
      handed to the store's `addDoc`, in order; `open` stands for the
      dashboard's flag that `onOpen`/`onClose` set and clear. */
  class AddProductDialog {
    const userId: string
    var name: string
    var description: string
    var price: string
    var imageUrl: string
    var loading: bool
    var error: string
    var open: bool
    var submitted: seq<Data>

    /** A write is in flight only after a record has been handed over. */
    ghost predicate Valid()
      reads this
    {
      loading ==> submitted != []
    }

    constructor (userId: string)
      ensures Valid()
      ensures this.userId == userId && !open
      ensures name == "" && description == "" && price == "" && imageUrl == ""
      ensures !loading && error == "" && submitted == []
    {
      this.userId := userId;
      name, description, price, imageUrl := "", "", "", "";
      loading, error, open := false, "", false;
      submitted := [];
    }

    /** The "Add New Product" button: shows the dialog, form as it was left. */
    method Open()
      requires Valid()
      modifies this`open
      ensures Valid() && open
    {
      open := true;
    }

    /** The dialog's `onClose` (Cancel, or a click outside it): hides the
        dialog. Cancel is disabled during a write, the outside click is not,
        so a write may still be in flight. */
    method Close()
      requires Valid()
      modifies this`open
      ensures Valid() && !open
    {
      open := false;
    }

    /** The first half of `handleAddProduct`, up to the `await` on the store.
        It can only be started while no write is in flight: the submit button
        is disabled during one. */
    method Submit(parseFloat: string -> Option<real>)
      requires Valid() && !loading
      modifies this`error, this`loading, this`submitted
      ensures Valid()
      // A rejected submission shows the reason and writes nothing.
      ensures var v := ValidateListing(name, description, price, parseFloat);
        v.Failure? ==> error == v.error && submitted == old(submitted) && !loading
      // An accepted one hands exactly one record, built from the form, to the
      // store and waits for its reply.
      ensures var v := ValidateListing(name, description, price, parseFloat);
        v.Success? ==>
          && error == "" && loading
          && submitted == old(submitted) + [NewListing(name, description, v.value, imageUrl, userId)]
    {
      error := "";
      if name == "" || description == "" || price == "" {
        error := MissingFieldsMessage;
        return;
      }
      var parsedPrice := parseFloat(price);
      if parsedPrice.None? || parsedPrice.value <= 0.0 {
        error := InvalidPriceMessage;
        return;
      }
      loading := true;
      // `imageUrl || ''` keeps a string as it is.
      var record := NewListing(name, description, parsedPrice.value, imageUrl, userId);
      submitted := submitted + [record];
    }

    /** The second half of `handleAddProduct`: the store's reply to the
        write. Fields edited while the write was in flight are what a failed
        write keeps and what a successful one clears. */
    method OnWriteReply(reply: Outcome<string>)
      requires Valid() && loading
      modifies this
      ensures Valid() && !loading && submitted == old(submitted)
      // A successful write clears the form and closes the dialog.
      ensures reply.Pass? ==>
        && name == "" && description == "" && price == "" && imageUrl == ""
        && error == old(error) && !open
      // A failed write keeps the form for another try and reports why.
      ensures reply.Fail? ==>
        && name == old(name) && description == old(description)
        && price == old(price) && imageUrl == old(imageUrl)
        && error == AddFailedPrefix + reply.error && open == old(open)
    {
      match reply {
        case Pass =>
          name, description, price, imageUrl := "", "", "", "";
          open := false;
        case Fail(message) =>
          error := AddFailedPrefix + message;
      }
      loading := false;
    }
  }
}
