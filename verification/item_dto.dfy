/**
 * The catalog item shapes and their document encoding. `Item` is the full stored document;
 * `PartialUpdateItem` is a sparse patch whose absent (nil) fields are omitted from the document.
 * Decoding a stored document into an existing `Item` follows the merge rules of Go's JSON decoder:
 * a present key overwrites its field, an absent key keeps the old value, a null leaves a struct,
 * string or number field alone and empties a slice, and a value of the wrong kind leaves its field
 * alone while marking the whole decode as failed.
 */
module ItemDto {
  import opened Wrappers
  import opened Document

  datatype Description = Description(plainText: string, html: string)

  datatype Pictures = Pictures(id: int, url: string)

  /** A Go slice: `None` is the nil slice, `Some([])` an empty but non-nil one. */
  type Slice<T> = Option<seq<T>>

  /** The stored document. `price` is a float in the service; here it is an opaque integer. */
  datatype Item = Item(
    id: string,
    seller: int,
    title: string,
    description: Description,
    pictures: Slice<Pictures>,
    video: string,
    price: int,
    availableQuantity: int,
    soldQuantity: int,
    status: string)

  /** The inner fields of a patched description are pointers without `omitempty`. */
  datatype UpdateDescription = UpdateDescription(plainText: Option<string>, html: Option<string>)

  datatype UpdatePictures = UpdatePictures(id: Option<int>, url: Option<string>)

  /**
   * A sparse update. Every field is a pointer with `omitempty`; `pictures` is a pointer to a
   * slice, so it may be absent, present and nil, or present and non-nil. There is no id or seller.
   */
  datatype PartialUpdateItem = PartialUpdateItem(
    title: Option<string>,
    description: Option<UpdateDescription>,
    pictures: Option<Slice<UpdatePictures>>,
    video: Option<string>,
    price: Option<int>,
    availableQuantity: Option<int>,
    soldQuantity: Option<int>,
    status: Option<string>)

  const ZeroDescription := Description("", "")
  const ZeroPictures := Pictures(0, "")
  const ZeroItem := Item("", 0, "", ZeroDescription, None, "", 0, 0, 0, "")
  const NoChanges := PartialUpdateItem(None, None, None, None, None, None, None, None)

  /** The ten keys of a stored item document. */
  const ItemKeys: set<string> := {"id", "seller", "title", "description", "pictures", "video",
                                  "price", "available_quantity", "sold_quantity", "status"}

  /** The eight keys a patch document may carry. */
  const PatchKeys: set<string> := {"title", "description", "pictures", "video",
                                   "price", "available_quantity", "sold_quantity", "status"}

  // ---------------------------------------------------------------------------------------------
  // Encoding

  function EncodeDescription(d: Description): Json {
    Object(map["plain_text" := Str(d.plainText), "html" := Str(d.html)])
  }

  function EncodePictures(p: Pictures): Json {
    Object(map["id" := Number(p.id), "url" := Str(p.url)])
  }

  /** A nil slice encodes as null, any other slice as an array of its encoded elements. */
  function EncodePictureList(ps: Slice<Pictures>): Json {
    match ps
    case None => Null
    case Some(s) => Array(seq(|s|, i requires 0 <= i < |s| => EncodePictures(s[i])))
  }

  /** The encoding of the item field stored under `key` (null for a key the item does not have). */
  function ItemEntry(x: Item, key: string): Json {
    if key == "id" then Str(x.id)
    else if key == "seller" then Number(x.seller)
    else if key == "title" then Str(x.title)
    else if key == "description" then EncodeDescription(x.description)
    else if key == "pictures" then EncodePictureList(x.pictures)
    else if key == "video" then Str(x.video)
    else if key == "price" then Number(x.price)
    else if key == "available_quantity" then Number(x.availableQuantity)
    else if key == "sold_quantity" then Number(x.soldQuantity)
    else if key == "status" then Str(x.status)
    else Null
  }

  /** The full document: every field under its key, zero values included. */
  function EncodeItem(x: Item): Json {
    Object(map key | key in ItemKeys :: ItemEntry(x, key))
  }

  /** A nil pointer without `omitempty` encodes as null. */
  function NullableStr(s: Option<string>): Json {
    if s.Some? then Str(s.value) else Null
  }

  function NullableNumber(n: Option<int>): Json {
    if n.Some? then Number(n.value) else Null
  }

  function EncodeUpdateDescription(d: UpdateDescription): Json {
    Object(map["plain_text" := NullableStr(d.plainText), "html" := NullableStr(d.html)])
  }

  function EncodeUpdatePictures(p: UpdatePictures): Json {
    Object(map["id" := NullableNumber(p.id), "url" := NullableStr(p.url)])
  }

  function EncodeUpdatePictureList(ps: Slice<UpdatePictures>): Json {
    match ps
    case None => Null
    case Some(s) => Array(seq(|s|, i requires 0 <= i < |s| => EncodeUpdatePictures(s[i])))
  }

  /** The encoding of the patch field stored under `key`, or `None` when that field is nil. */
  function PatchEntry(p: PartialUpdateItem, key: string): Option<Json> {
    if key == "title" then (if p.title.Some? then Some(Str(p.title.value)) else None)
    else if key == "description" then
      (if p.description.Some? then Some(EncodeUpdateDescription(p.description.value)) else None)
    else if key == "pictures" then
      (if p.pictures.Some? then Some(EncodeUpdatePictureList(p.pictures.value)) else None)
    else if key == "video" then (if p.video.Some? then Some(Str(p.video.value)) else None)
    else if key == "price" then (if p.price.Some? then Some(Number(p.price.value)) else None)
    else if key == "available_quantity" then
      (if p.availableQuantity.Some? then Some(Number(p.availableQuantity.value)) else None)
    else if key == "sold_quantity" then
      (if p.soldQuantity.Some? then Some(Number(p.soldQuantity.value)) else None)
    else if key == "status" then (if p.status.Some? then Some(Str(p.status.value)) else None)
    else None
  }

  /** The patch document: only the present fields, each under its key. */
  function EncodePatch(p: PartialUpdateItem): map<string, Json> {
    map key | key in PatchKeys && PatchEntry(p, key).Some? :: PatchEntry(p, key).value
  }

  // ---------------------------------------------------------------------------------------------
  // Decoding into an existing value

  /** The merged value and whether the decoder reported no error. */
  datatype Decoded<T> = Decoded(value: T, ok: bool)

  function DecodeString(j: Json, prev: string): Decoded<string> {
    match j
    case Str(s) => Decoded(s, true)
    case Null => Decoded(prev, true)
    case _ => Decoded(prev, false)
  }

  function DecodeInt(j: Json, prev: int): Decoded<int> {
    match j
    case Number(n) => Decoded(n, true)
    case Null => Decoded(prev, true)
    case _ => Decoded(prev, false)
  }

  function StringAt(m: map<string, Json>, key: string, prev: string): Decoded<string> {
    if key in m then DecodeString(m[key], prev) else Decoded(prev, true)
  }

  function IntAt(m: map<string, Json>, key: string, prev: int): Decoded<int> {
    if key in m then DecodeInt(m[key], prev) else Decoded(prev, true)
  }

  function DecodeDescription(j: Json, prev: Description): Decoded<Description> {
    match j
    case Object(m) =>
      var p := StringAt(m, "plain_text", prev.plainText);
      var h := StringAt(m, "html", prev.html);
      Decoded(Description(p.value, h.value), p.ok && h.ok)
    case Null => Decoded(prev, true)
    case _ => Decoded(prev, false)
  }

  function DecodePictures(j: Json, prev: Pictures): Decoded<Pictures> {
    match j
    case Object(m) =>
      var id := IntAt(m, "id", prev.id);
      var url := StringAt(m, "url", prev.url);
      Decoded(Pictures(id.value, url.value), id.ok && url.ok)
    case Null => Decoded(prev, true)
    case _ => Decoded(prev, false)
  }

  /**
   * Array elements decode in order, element `i` into the old element `i` when there is one and
   * into a zero value otherwise; the result has exactly as many elements as the array.
   */
  function DecodeElements(es: seq<Json>, prev: seq<Pictures>): (r: Decoded<seq<Pictures>>)
    ensures |r.value| == |es|
  {
    if es == [] then Decoded([], true)
    else
      var head := DecodePictures(es[0], if prev != [] then prev[0] else ZeroPictures);
      var tail := DecodeElements(es[1..], if prev != [] then prev[1..] else []);
      Decoded([head.value] + tail.value, head.ok && tail.ok)
  }

  /** Null makes the slice nil; an array (even an empty one) makes it non-nil. */
  function DecodePictureList(j: Json, prev: Slice<Pictures>): Decoded<Slice<Pictures>> {
    match j
    case Null => Decoded(None, true)
    case Array(es) =>
      var d := DecodeElements(es, if prev.Some? then prev.value else []);
      Decoded(Some(d.value), d.ok)
    case _ => Decoded(prev, false)
  }

  function DescriptionAt(m: map<string, Json>, prev: Description): Decoded<Description> {
    if "description" in m then DecodeDescription(m["description"], prev) else Decoded(prev, true)
  }

  function PicturesAt(m: map<string, Json>, prev: Slice<Pictures>): Decoded<Slice<Pictures>> {
    if "pictures" in m then DecodePictureList(m["pictures"], prev) else Decoded(prev, true)
  }

  /** Decode an object's fields into `into`; keys outside the ten item keys are ignored. */
  function MergeItem(m: map<string, Json>, into: Item): Decoded<Item> {
    var id := StringAt(m, "id", into.id);
    var seller := IntAt(m, "seller", into.seller);
    var title := StringAt(m, "title", into.title);
    var description := DescriptionAt(m, into.description);
    var pictures := PicturesAt(m, into.pictures);
    var video := StringAt(m, "video", into.video);
    var price := IntAt(m, "price", into.price);
    var available := IntAt(m, "available_quantity", into.availableQuantity);
    var sold := IntAt(m, "sold_quantity", into.soldQuantity);
    var status := StringAt(m, "status", into.status);
    Decoded(
      Item(id.value, seller.value, title.value, description.value, pictures.value,
           video.value, price.value, available.value, sold.value, status.value),
      id.ok && seller.ok && title.ok && description.ok && pictures.ok
      && video.ok && price.ok && available.ok && sold.ok && status.ok)
  }

  /**
   * Decode a stored source into the item `into`. Malformed text changes nothing and fails; a
   * top-level null changes nothing and succeeds; any other non-object value fails.
   */
  function DecodeItem(src: Source, into: Item): Decoded<Item> {
    match src
    case Malformed => Decoded(into, false)
    case Body(Object(m)) => MergeItem(m, into)
    case Body(Null) => Decoded(into, true)
    case Body(_) => Decoded(into, false)
  }

  // ---------------------------------------------------------------------------------------------
  // Properties

  /** An item document always carries exactly the ten item keys, whatever the field values. */
  lemma ItemHasAllKeys(x: Item)
    ensures EncodeItem(x).Object? && EncodeItem(x).fields.Keys == ItemKeys
  {
  }

  /** A patch key is present iff its field is; no other key (in particular no id or seller) appears. */
  lemma PatchKeysPresence(p: PartialUpdateItem)
    ensures EncodePatch(p).Keys <= PatchKeys
    ensures "id" !in EncodePatch(p) && "seller" !in EncodePatch(p)
    ensures ("title" in EncodePatch(p) <==> p.title.Some?)
      && ("description" in EncodePatch(p) <==> p.description.Some?)
      && ("pictures" in EncodePatch(p) <==> p.pictures.Some?)
      && ("video" in EncodePatch(p) <==> p.video.Some?)
      && ("price" in EncodePatch(p) <==> p.price.Some?)
      && ("available_quantity" in EncodePatch(p) <==> p.availableQuantity.Some?)
      && ("sold_quantity" in EncodePatch(p) <==> p.soldQuantity.Some?)
      && ("status" in EncodePatch(p) <==> p.status.Some?)
  {
  }

  /** A present pointer to a zero value is still emitted: absent and zero differ. */
  lemma ZeroIsNotAbsent(p: PartialUpdateItem)
    ensures p.title == Some("") ==> EncodePatch(p)["title"] == Str("")
    ensures p.price == Some(0) ==> EncodePatch(p)["price"] == Number(0)
    ensures p.availableQuantity == Some(0) ==> EncodePatch(p)["available_quantity"] == Number(0)
    ensures p.soldQuantity == Some(0) ==> EncodePatch(p)["sold_quantity"] == Number(0)
    ensures p.status == Some("") ==> EncodePatch(p)["status"] == Str("")
    ensures p.video == Some("") ==> EncodePatch(p)["video"] == Str("")
  {
  }

  /** The patch document is empty exactly when every field is nil: the no-op patch. */
  lemma EmptyPatch(p: PartialUpdateItem)
    ensures EncodePatch(p) == map[] <==> p == NoChanges
  {
    if p != NoChanges {
      PatchKeysPresence(p);
    }
  }

  /** The entry of a present field holds the field's own encoding. */
  lemma PatchValues(p: PartialUpdateItem)
    ensures p.title.Some? ==> EncodePatch(p)["title"] == Str(p.title.value)
    ensures p.description.Some? ==> EncodePatch(p)["description"] == EncodeUpdateDescription(p.description.value)
    ensures p.pictures.Some? ==> EncodePatch(p)["pictures"] == EncodeUpdatePictureList(p.pictures.value)
    ensures p.video.Some? ==> EncodePatch(p)["video"] == Str(p.video.value)
    ensures p.price.Some? ==> EncodePatch(p)["price"] == Number(p.price.value)
    ensures p.availableQuantity.Some? ==> EncodePatch(p)["available_quantity"] == Number(p.availableQuantity.value)
    ensures p.soldQuantity.Some? ==> EncodePatch(p)["sold_quantity"] == Number(p.soldQuantity.value)
    ensures p.status.Some? ==> EncodePatch(p)["status"] == Str(p.status.value)
  {
  }

  /**
   * Inner fields of a patched description or picture have no `omitempty`: both keys are always
   * there, and a nil inner field is emitted as null rather than left out.
   */
  lemma InnerNilIsNull(d: UpdateDescription, p: UpdatePictures)
    ensures EncodeUpdateDescription(d).fields.Keys == {"plain_text", "html"}
    ensures EncodeUpdateDescription(d).fields["plain_text"] == Null <==> d.plainText.None?
    ensures EncodeUpdateDescription(d).fields["html"] == Null <==> d.html.None?
    ensures EncodeUpdatePictures(p).fields.Keys == {"id", "url"}
    ensures EncodeUpdatePictures(p).fields["id"] == Null <==> p.id.None?
    ensures EncodeUpdatePictures(p).fields["url"] == Null <==> p.url.None?
  {
  }

  /** The full and partial shapes of a description and of a picture use the same key names. */
  lemma NestedKeysMatch(d: Description, ud: UpdateDescription, p: Pictures, up: UpdatePictures)
    ensures EncodeDescription(d).fields.Keys == EncodeUpdateDescription(ud).fields.Keys
    ensures EncodePictures(p).fields.Keys == EncodeUpdatePictures(up).fields.Keys
  {
  }

  /** Different patches give different documents: the encoding loses nothing. */
  lemma PatchInjective(p: PartialUpdateItem, q: PartialUpdateItem)
    requires EncodePatch(p) == EncodePatch(q)
    ensures p == q
  {
    PatchKeysPresence(p);
    PatchKeysPresence(q);
    PatchValues(p);
    PatchValues(q);
    if p.description.Some? {
      var dp, dq := p.description.value, q.description.value;
      assert EncodeUpdateDescription(dp) == EncodeUpdateDescription(dq);
      assert EncodeUpdateDescription(dp).fields["plain_text"] == EncodeUpdateDescription(dq).fields["plain_text"];
      assert EncodeUpdateDescription(dp).fields["html"] == EncodeUpdateDescription(dq).fields["html"];
    }
    if p.pictures.Some? {
      UpdatePictureListInjective(p.pictures.value, q.pictures.value);
    }
  }

  lemma UpdatePictureListInjective(a: Slice<UpdatePictures>, b: Slice<UpdatePictures>)
    requires EncodeUpdatePictureList(a) == EncodeUpdatePictureList(b)
    ensures a == b
  {
    if a.Some? {
      var sa, sb := a.value, b.value;
      assert EncodeUpdatePictureList(a).elems == EncodeUpdatePictureList(b).elems;
      assert |sa| == |sb|;
      forall i | 0 <= i < |sa|
        ensures sa[i] == sb[i]
      {
        assert EncodeUpdatePictureList(a).elems[i] == EncodeUpdatePictures(sa[i]);
        assert EncodeUpdatePictures(sa[i]).fields["id"] == EncodeUpdatePictures(sb[i]).fields["id"];
        assert EncodeUpdatePictures(sa[i]).fields["url"] == EncodeUpdatePictures(sb[i]).fields["url"];
      }
      assert sa == sb;
    }
  }

  /** Decoding an encoded list of pictures reproduces it, whatever the prev elements were. */
  lemma {:induction false} ElementsRoundTrip(s: seq<Pictures>, prev: seq<Pictures>)
    ensures DecodeElements(seq(|s|, i requires 0 <= i < |s| => EncodePictures(s[i])), prev) == Decoded(s, true)
  {
    var es := seq(|s|, i requires 0 <= i < |s| => EncodePictures(s[i]));
    if s != [] {
      var rest := seq(|s| - 1, i requires 0 <= i < |s| - 1 => EncodePictures(s[1..][i]));
      assert es[1..] == rest;
      ElementsRoundTrip(s[1..], if prev != [] then prev[1..] else []);
      assert [s[0]] + s[1..] == s;
    }
  }

  /** Each key of an item document holds its field's encoding. */
  lemma EncodedItemFields(x: Item)
    ensures var m := EncodeItem(x).fields;
      && m["id"] == Str(x.id) && m["seller"] == Number(x.seller) && m["title"] == Str(x.title)
      && m["description"] == EncodeDescription(x.description)
      && m["pictures"] == EncodePictureList(x.pictures) && m["video"] == Str(x.video)
      && m["price"] == Number(x.price) && m["available_quantity"] == Number(x.availableQuantity)
      && m["sold_quantity"] == Number(x.soldQuantity) && m["status"] == Str(x.status)
  {
  }

  /** Decoding an encoded item yields that item, with no error, whatever the receiver held. */
  lemma DecodeEncode(x: Item, into: Item)
    ensures DecodeItem(Body(EncodeItem(x)), into) == Decoded(x, true)
  {
    ItemHasAllKeys(x);
    EncodedItemFields(x);
    if x.pictures.Some? {
      ElementsRoundTrip(x.pictures.value, if into.pictures.Some? then into.pictures.value else []);
    }
  }

  /** A key absent from the stored object leaves its field as the receiver had it. */
  lemma AbsentKeysKept(m: map<string, Json>, into: Item)
    ensures var r := DecodeItem(Body(Object(m)), into).value;
      && ("id" !in m ==> r.id == into.id)
      && ("seller" !in m ==> r.seller == into.seller)
      && ("title" !in m ==> r.title == into.title)
      && ("description" !in m ==> r.description == into.description)
      && ("pictures" !in m ==> r.pictures == into.pictures)
      && ("video" !in m ==> r.video == into.video)
      && ("price" !in m ==> r.price == into.price)
      && ("available_quantity" !in m ==> r.availableQuantity == into.availableQuantity)
      && ("sold_quantity" !in m ==> r.soldQuantity == into.soldQuantity)
      && ("status" !in m ==> r.status == into.status)
  {
  }

  /** A source that is not an object changes nothing; it is an error unless it is null. */
  lemma NonObjectUnchanged(src: Source, into: Item)
    requires !(src.Body? && src.json.Object?)
    ensures DecodeItem(src, into).value == into
    ensures DecodeItem(src, into).ok <==> src == Body(Null)
  {
  }

  /** A key holding a value of the wrong kind fails the decode but leaves that field unchanged. */
  lemma MismatchFails(m: map<string, Json>, into: Item)
    requires "title" in m && !m["title"].Str? && !m["title"].Null?
    ensures !DecodeItem(Body(Object(m)), into).ok
    ensures DecodeItem(Body(Object(m)), into).value.title == into.title
  {
  }
}
