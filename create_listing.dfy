/** The "create a listing" page: the form state and its change handler, the
    two validation checks of submission, the image upload step (Storage object
    names and the collective settling of the uploads), and the listing record
    that is handed to the document database. Uploads, the signed-in user and
    the fresh ids in object names are inputs of the model. */
module CreateListing {
  import opened Optional
  import opened JsValues

  /** The form state: a JavaScript object from field id to value. */
  type FormData = map<string, FormValue>

  /** The form state when the page opens. */
  function InitialForm(): FormData {
    map[
      "type" := Str("rent"),
      "name" := Str(""),
      "bedrooms" := Num(1),
      "bathrooms" := Num(1),
      "parking" := Bool(false),
      "furnished" := Bool(false),
      "address" := Str(""),
      "description" := Str(""),
      "offer" := Bool(true),
      "regularPrice" := Num(0),
      "discountedPrice" := Num(0),
      "latitude" := Num(0),
      "longitude" := Num(0),
      "images" := EmptyObject
    ]
  }

  /** Reading a property: a missing key reads as `undefined`. */
  function Lookup(form: FormData, key: string): (v: FormValue)
    ensures key in form ==> v == form[key]
    ensures key !in form ==> v == Undefined
  {
    if key in form then form[key] else Undefined
  }

  // ---------------------------------------------------------------------
  // Editing the form

  /** The target of a change or click event: the element's id, its value
      (always text) and, for the file input only, its list of files. */
  datatype ChangeEvent = ChangeEvent(id: string, value: string, files: Option<seq<File>>)

  /** The text "true" and "false" become booleans; any other text is kept. */
  function Coerce(value: string): (r: FormValue)
    ensures r == Bool(true) <==> value == "true"
    ensures r == Bool(false) <==> value == "false"
    ensures value != "true" && value != "false" ==> r == Str(value)
  {
    if value == "true" then Bool(true)
    else if value == "false" then Bool(false)
    else Str(value)
  }

  /** The key a change writes: `images` when files arrive, the target's id otherwise. */
  function ChangedKey(e: ChangeEvent): string {
    if e.files.Some? then "images" else e.id
  }

  /** The change handler: files replace `images`; any other change stores the
      coerced value under the target's id. Every other key keeps its value. */
  function ApplyChange(form: FormData, e: ChangeEvent): (r: FormData)
    ensures r.Keys == form.Keys + {ChangedKey(e)}
    ensures forall k :: k in form && k != ChangedKey(e) ==> r[k] == form[k]
    ensures e.files.Some? ==> r["images"] == FileList(e.files.value)
    ensures e.files.None? ==> r[e.id] == Coerce(e.value)
  {
    if e.files.Some? then form["images" := FileList(e.files.value)]
    else form[e.id := Coerce(e.value)]
  }

  /** The form after a series of edits. */
  function ApplyAll(form: FormData, events: seq<ChangeEvent>): FormData
    decreases |events|
  {
    if |events| == 0 then form
    else ApplyAll(ApplyChange(form, events[0]), events[1..])
  }

  /** A change carrying files, even an empty list, touches `images` only. */
  lemma FileChangeReplacesOnlyImages(form: FormData, e: ChangeEvent)
    requires e.files.Some?
    ensures var r := ApplyChange(form, e);
      && r.Keys == form.Keys + {"images"}
      && r["images"] == FileList(e.files.value)
      && forall k :: k in form && k != "images" ==> r[k] == form[k]
  {
  }

  /** A change without files stores `true`, `false` or the raw text under
      the target's id and leaves every other key as it was. */
  lemma FieldChangeUpdatesOnlyTarget(form: FormData, e: ChangeEvent)
    requires e.files.None?
    ensures var r := ApplyChange(form, e);
      && r.Keys == form.Keys + {e.id}
      && (r[e.id] == Bool(true) <==> e.value == "true")
      && (r[e.id] == Bool(false) <==> e.value == "false")
      && (e.value != "true" && e.value != "false" ==> r[e.id] == Str(e.value))
      && forall k :: k in form && k != e.id ==> r[k] == form[k]
  {
  }

  /** Edits never remove a key nor store `undefined`: every field of the
      opening form stays readable. */
  lemma {:induction false} EditsKeepFields(form: FormData, events: seq<ChangeEvent>)
    requires forall k :: k in form ==> form[k] != Undefined
    ensures var r := ApplyAll(form, events);
      && form.Keys <= r.Keys
      && forall k :: k in r ==> r[k] != Undefined
    decreases |events|
  {
    if |events| > 0 {
      var next := ApplyChange(form, events[0]);
      EditsKeepFields(next, events[1..]);
    }
  }

  /** Hence the `images` field of the page's form is always present. */
  lemma EditedFormHasImages(events: seq<ChangeEvent>)
    ensures var r := ApplyAll(InitialForm(), events);
      "images" in r && r["images"] != Undefined
  {
    EditsKeepFields(InitialForm(), events);
  }

  // ---------------------------------------------------------------------
  // Validation

  datatype ValidationError =
    | DiscountNotBelowRegular   // "Discounted price needs to be less than regular price"
    | TooManyImagesSelected     // "maximum 6 images are allowed"

  const MaxImages: int := 6

  /** `discountedPrice >= regularPrice`, with JavaScript's `>=`: two edited
      prices are both text and compare character by character. The value of
      `offer` plays no part. */
  predicate PriceRejected(form: FormData) {
    GreaterOrEqual(Lookup(form, "discountedPrice"), Lookup(form, "regularPrice"))
  }

  /** `images.length`: a file list and a string have one; other values read
      as `undefined`. */
  function ImagesLength(v: FormValue): (n: Option<int>)
    ensures n.Some? <==> v.FileList? || v.Str?
    ensures v.FileList? ==> n == Some(|v.files|)
    ensures v.Str? ==> n == Some(|v.s|)
  {
    match v
    case FileList(fs) => Some(|fs|)
    case Str(s) => Some(|s|)
    case _ => None
  }

  /** `images.length > 6`; `undefined > 6` is false. */
  predicate TooManyImages(form: FormData) {
    var n := ImagesLength(Lookup(form, "images"));
    n.Some? && n.value > MaxImages
  }

  /** Opening the page and submitting at once is refused: both prices are 0. */
  lemma UntouchedFormRejected()
    ensures PriceRejected(InitialForm())
  {
  }

  /** The price check ignores `offer`. */
  lemma PriceCheckIgnoresOffer(form: FormData, offer: FormValue)
    ensures PriceRejected(form["offer" := offer]) == PriceRejected(form)
  {
  }

  /** With both prices edited to numerals, a discount of 100 on a regular
      price of 20 passes the check, and a discount of 9 on 10 fails it. */
  lemma PriceCheckIsTextual(form: FormData)
    ensures !PriceRejected(form["discountedPrice" := Str("100")]["regularPrice" := Str("20")])
    ensures PriceRejected(form["discountedPrice" := Str("9")]["regularPrice" := Str("10")])
  {
  }

  /** When both prices are numerals of the same length the check is the
      numeric one. */
  lemma PriceCheckNumericAtEqualLength(form: FormData, discounted: string, regular: string)
    requires AllDigits(discounted) && AllDigits(regular) && |discounted| == |regular|
    ensures PriceRejected(form["discountedPrice" := Str(discounted)]["regularPrice" := Str(regular)])
      <==> DigitsValue(discounted) >= DigitsValue(regular)
  {
    EqualLengthNumeralsGreaterOrEqual(discounted, regular);
  }

  // ---------------------------------------------------------------------
  // Uploading the images

  /** The names `[...images]` yields and `storeImage` reads with
      `image.name`; None when the value is not iterable. A string spreads
      into characters, which have no `name`. */
  function ItemNames(v: FormValue): (names: Option<seq<string>>)
    ensures names.Some? <==> v.FileList? || v.Str?
    ensures v.FileList? ==> |names.value| == |v.files| &&
                            forall i :: 0 <= i < |v.files| ==> names.value[i] == v.files[i].name
    ensures v.Str? ==> names == Some(seq(|v.s|, _ => "undefined"))
  {
    match v
    case FileList(fs) => Some(seq(|fs|, i requires 0 <= i < |fs| => fs[i].name))
    case Str(s) => Some(seq(|s|, _ => "undefined"))
    case _ => None
  }

  /** The Storage object name: the user's id, the image name and a fresh id,
      joined by `-`. */
  function StorageName(uid: string, imageName: string, freshId: string): string {
    uid + "-" + imageName + "-" + freshId
  }

  /** Length of a fresh id (a version-4 UUID in its 36-character text form). */
  const FreshIdLength: nat := 36

  /** The index of the first `-` in `s`, or `|s|` if there is none. */
  function FirstDash(s: string): (i: nat)
    ensures i <= |s|
    ensures forall j :: 0 <= j < i ==> s[j] != '-'
    ensures i < |s| ==> s[i] == '-'
  {
    if |s| == 0 || s[0] == '-' then 0 else 1 + FirstDash(s[1..])
  }

  /** Recovers user id, image name and fresh id from an object name. */
  function ParseStorageName(name: string): Option<(string, string, string)> {
    var d := FirstDash(name);
    if d < |name| && |name| >= d + 2 + FreshIdLength && name[|name| - FreshIdLength - 1] == '-'
    then Some((name[..d], name[d + 1 .. |name| - FreshIdLength - 1], name[|name| - FreshIdLength..]))
    else None
  }

  lemma {:induction false} FirstDashAfterPrefix(uid: string, rest: string)
    requires forall j :: 0 <= j < |uid| ==> uid[j] != '-'
    ensures FirstDash(uid + "-" + rest) == |uid|
    decreases |uid|
  {
    var s := uid + "-" + rest;
    if |uid| > 0 {
      assert s[1..] == uid[1..] + "-" + rest;
      FirstDashAfterPrefix(uid[1..], rest);
    }
  }

  /** An object name determines who uploaded which image under which fresh
      id, as long as user ids contain no `-`. */
  lemma StorageNameRoundTrip(uid: string, imageName: string, freshId: string)
    requires forall j :: 0 <= j < |uid| ==> uid[j] != '-'
    requires |freshId| == FreshIdLength
    ensures ParseStorageName(StorageName(uid, imageName, freshId)) == Some((uid, imageName, freshId))
  {
    var name := StorageName(uid, imageName, freshId);
    FirstDashAfterPrefix(uid, imageName + "-" + freshId);
    assert name == uid + "-" + (imageName + "-" + freshId);
    assert name[..|uid|] == uid;
    assert name[|uid| + 1 .. |name| - FreshIdLength - 1] == imageName;
    assert name[|name| - FreshIdLength..] == freshId;
  }

  /** So two uploads whose fresh ids differ never share an object name. */
  lemma StorageNamesDistinct(uid: string, n1: string, n2: string, id1: string, id2: string)
    requires forall j :: 0 <= j < |uid| ==> uid[j] != '-'
    requires |id1| == FreshIdLength && |id2| == FreshIdLength && id1 != id2
    ensures StorageName(uid, n1, id1) != StorageName(uid, n2, id2)
  {
    StorageNameRoundTrip(uid, n1, id1);
    StorageNameRoundTrip(uid, n2, id2);
  }

  /** How one image's upload ends: with its download URL, with an error, or
      never (the download-URL lookup has no error handler). */
  datatype UploadOutcome = Uploaded(url: string) | UploadFailed | NeverSettles

  /** One image's upload: the fresh id in its object name and how it ends. */
  datatype UploadEvent = UploadEvent(freshId: string, outcome: UploadOutcome)

  /** How `Promise.all` over the uploads ends. */
  datatype Settlement = AllUploaded(urls: seq<string>) | SomeFailed | Pending

  /** `Promise.all`: rejected as soon as any upload fails, pending while any
      upload is unsettled, otherwise every URL in image order. */
  function Settle(outcomes: seq<UploadOutcome>): (r: Settlement)
    ensures r == SomeFailed <==> exists i :: 0 <= i < |outcomes| && outcomes[i] == UploadFailed
    ensures r == Pending <==>
      (forall i :: 0 <= i < |outcomes| ==> outcomes[i] != UploadFailed) &&
      (exists i :: 0 <= i < |outcomes| && outcomes[i] == NeverSettles)
    ensures r.AllUploaded? ==> |r.urls| == |outcomes| &&
                               forall i :: 0 <= i < |outcomes| ==> outcomes[i] == Uploaded(r.urls[i])
  {
    if |outcomes| == 0 then AllUploaded([])
    else
      var rest := Settle(outcomes[1..]);
      assert forall i :: 1 <= i < |outcomes| ==> outcomes[i] == outcomes[1..][i - 1];
      match outcomes[0]
      case UploadFailed => SomeFailed
      case NeverSettles => if rest == SomeFailed then SomeFailed else Pending
      case Uploaded(url) =>
        match rest
        case AllUploaded(urls) => AllUploaded([url] + urls)
        case other => other
  }

  /** When every upload succeeds the URLs follow the images one for one. */
  lemma AllUploadsGiveUrlsInOrder(urls: seq<string>)
    ensures Settle(seq(|urls|, i requires 0 <= i < |urls| => Uploaded(urls[i]))) == AllUploaded(urls)
  {
  }

  // ---------------------------------------------------------------------
  // Submission

  /** A value of the stored listing record. */
  datatype Coords = Coords(lat: FormValue, lng: FormValue)
  datatype Field =
    | Scalar(value: FormValue)              // a copied form field, or the user id
    | ImgUrls(urls: Option<seq<string>>)    // None: `undefined` after a failed upload
    | Geolocation(point: Option<Coords>)    // None: the empty object
    | ServerTimestamp

  type ListingRecord = map<string, Field>

  /** Why submission stopped with an exception: `images` has no `length`
      property, `images` cannot be spread, or no user is signed in. */
  datatype Fault = ImagesUnreadable | ImagesNotIterable | NoSignedInUser

  datatype SubmitOutcome =
    | Invalid(error: ValidationError)    // reported, nothing uploaded or written
    | Crashed(fault: Fault)              // an uncaught exception ends the handler
    | Stalled(objectNames: seq<string>)  // the handler waits forever on the uploads
    | Submitted(objectNames: seq<string>, record: ListingRecord)  // `record` is passed to `addDoc`

  /** Keys removed from the copy of the form. */
  const DroppedKeys: set<string> := {"images", "latitude", "longitude"}
  /** Keys added to the copy of the form. */
  const AddedKeys: set<string> := {"imgUrls", "geolocation", "timestamp", "userRef"}

  predicate OfferOn(form: FormData) {
    Truthy(Lookup(form, "offer"))
  }

  /** `!formDataCopy.offer`: only a copied form field can be falsy. */
  predicate FieldTruthy(record: ListingRecord, key: string) {
    key in record && match record[key]
      case Scalar(v) => Truthy(v)
      case ImgUrls(urls) => urls.Some?
      case _ => true
  }

  /** How each upload ends, in image order. */
  function Outcomes(uploads: seq<UploadEvent>): (outcomes: seq<UploadOutcome>)
    ensures |outcomes| == |uploads|
    ensures forall i :: 0 <= i < |uploads| ==> outcomes[i] == uploads[i].outcome
  {
    seq(|uploads|, i requires 0 <= i < |uploads| => uploads[i].outcome)
  }

  /** The `geolocation` object: latitude and longitude when enabled, empty otherwise. */
  function GeolocationOf(form: FormData, geolocationEnabled: bool): (g: Option<Coords>)
    ensures g.Some? <==> geolocationEnabled
    ensures g.Some? ==> g.value == Coords(Lookup(form, "latitude"), Lookup(form, "longitude"))
  {
    if geolocationEnabled then Some(Coords(Lookup(form, "latitude"), Lookup(form, "longitude"))) else None
  }

  /** What the stored record holds: every form field except `images`,
      `latitude` and `longitude`, and `discountedPrice` only while `offer` is
      set, plus the image URLs, the geolocation, the server timestamp and
      the user's id. */
  ghost predicate IsListingRecord(r: ListingRecord, form: FormData, geolocation: Option<Coords>,
                                  imgUrls: Option<seq<string>>, uid: string)
  {
    && r.Keys == (form.Keys - DroppedKeys - (if OfferOn(form) then {} else {"discountedPrice"})) + AddedKeys
    && (forall k :: k in form && k !in DroppedKeys && k !in AddedKeys && k != "discountedPrice" ==>
          r[k] == Scalar(form[k]))
    && ("discountedPrice" in r <==> "discountedPrice" in form && OfferOn(form))
    && ("discountedPrice" in r ==> r["discountedPrice"] == Scalar(form["discountedPrice"]))
    && r["imgUrls"] == ImgUrls(imgUrls)
    && r["geolocation"] == Geolocation(geolocation)
    && r["timestamp"] == ServerTimestamp
    && r["userRef"] == Scalar(Str(uid))
  }

  /** Builds `formDataCopy`: the spread copy of the form with the four added
      keys, then the deletions. */
  method BuildRecord(form: FormData, geolocation: Option<Coords>, imgUrls: Option<seq<string>>, uid: string)
    returns (copy: ListingRecord)
    ensures IsListingRecord(copy, form, geolocation, imgUrls, uid)
    ensures "images" !in copy && "latitude" !in copy && "longitude" !in copy
  {
    copy := map k | k in form :: Scalar(form[k]);
    copy := copy["imgUrls" := ImgUrls(imgUrls)];
    copy := copy["geolocation" := Geolocation(geolocation)];
    copy := copy["timestamp" := ServerTimestamp];
    copy := copy["userRef" := Scalar(Str(uid))];
    assert FieldTruthy(copy, "offer") == OfferOn(form);

    copy := copy - {"images"};
    if !FieldTruthy(copy, "offer") {
      copy := copy - {"discountedPrice"};
    }
    copy := copy - {"latitude"};
    copy := copy - {"longitude"};
  }

  /** The submit handler. `geolocationEnabled` is the page's flag (it starts
      true and nothing changes it), `currentUser` the signed-in user's id,
      and `uploads` gives, per image in order, the fresh id of its object
      name and how its upload ends; `addDocResolves` says whether the
      database call resolves or rejects. `loading` is whether the spinner
      is still shown when the handler stops. */
  method Submit(form: FormData, geolocationEnabled: bool, currentUser: Option<string>,
                uploads: seq<UploadEvent>, addDocResolves: bool)
    returns (o: SubmitOutcome, loading: bool)
    requires ItemNames(Lookup(form, "images")).Some? ==>
               |uploads| == |ItemNames(Lookup(form, "images")).value|
    // The checks, in their order.
    ensures o == Invalid(DiscountNotBelowRegular) <==> PriceRejected(form)
    ensures o == Invalid(TooManyImagesSelected) <==>
              !PriceRejected(form) && Lookup(form, "images") != Undefined && TooManyImages(form)
    ensures o == Crashed(ImagesUnreadable) <==>
              !PriceRejected(form) && Lookup(form, "images") == Undefined
    ensures o == Crashed(ImagesNotIterable) <==>
              !PriceRejected(form) && Lookup(form, "images") != Undefined && !TooManyImages(form) &&
              ItemNames(Lookup(form, "images")).None?
    ensures o == Crashed(NoSignedInUser) <==>
              !PriceRejected(form) && !TooManyImages(form) &&
              ItemNames(Lookup(form, "images")).Some? && currentUser.None?
    ensures o == Crashed(NoSignedInUser) ==> loading == (|uploads| == 0)
    // The uploads.
    ensures o.Stalled? || o.Submitted? ==>
              var names := ItemNames(Lookup(form, "images")).value;
              |o.objectNames| == |names| &&
              forall i :: 0 <= i < |names| ==>
                o.objectNames[i] == StorageName(currentUser.value, names[i], uploads[i].freshId)
    ensures o.Stalled? <==> !o.Invalid? && !o.Crashed? && Settle(Outcomes(uploads)) == Pending
    // The record.
    ensures o.Submitted? ==>
              var settled := Settle(Outcomes(uploads));
              IsListingRecord(o.record, form, GeolocationOf(form, geolocationEnabled),
                              if settled.AllUploaded? then Some(settled.urls) else None,
                              currentUser.value)
    // The spinner.
    ensures o.Invalid? ==> !loading
    ensures o.Submitted? ==> (loading <==> !addDocResolves && Settle(Outcomes(uploads)).AllUploaded?)
    ensures o.Stalled? || o == Crashed(ImagesUnreadable) || o == Crashed(ImagesNotIterable) ==> loading
  {
    loading := true;

    if PriceRejected(form) {
      loading := false;
      return Invalid(DiscountNotBelowRegular), loading;
    }
    var images := Lookup(form, "images");
    if images == Undefined {
      return Crashed(ImagesUnreadable), loading;
    }
    if TooManyImages(form) {
      loading := false;
      return Invalid(TooManyImagesSelected), loading;
    }

    var geolocation: Option<Coords> := None;
    if geolocationEnabled {
      geolocation := Some(Coords(Lookup(form, "latitude"), Lookup(form, "longitude")));
    }

    var items := ItemNames(images);
    if items.None? {
      return Crashed(ImagesNotIterable), loading;
    }
    var names := items.value;
    if currentUser.None? {
      // Every upload rejects at once; the catch clears the spinner before
      // the record reads the user id and throws.
      if |names| > 0 {
        loading := false;
      }
      return Crashed(NoSignedInUser), loading;
    }
    var uid := currentUser.value;
    var objectNames := seq(|names|, i requires 0 <= i < |names| => StorageName(uid, names[i], uploads[i].freshId));

    var imgUrls: Option<seq<string>>;
    match Settle(Outcomes(uploads)) {
      case Pending =>
        return Stalled(objectNames), loading;
      case SomeFailed =>
        loading := false;
        imgUrls := None;
      case AllUploaded(urls) =>
        imgUrls := Some(urls);
    }

    var record := BuildRecord(form, geolocation, imgUrls, uid);
    // A rejected `addDoc` throws before the spinner is cleared.
    if addDocResolves {
      loading := false;
    }
    return Submitted(objectNames, record), loading;
  }
}
