/**
 * The listKnowledgeDocs handler (amplify/functions/kb-upload/list.ts)
 * around its one S3 call: the defaulted prefix, the MaxKeys clamp, and the
 * filter and projection of the listed objects into the JSON answer. The
 * ListObjectsV2 reply is a parameter.
 */
module KbList {
  import opened Wrappers
  import opened JsString

  /**
   * The maxKeys argument as `Number(maxKeys)` sees it: undefined (the
   * destructuring default 100 applies), a value whose number is v (null and
   * '' are 0), or one whose number is NaN.
   */
  datatype MaxKeysArg = Absent | Numeric(v: int) | NotANumber

  const DEFAULT_MAX_KEYS := 100
  const MAX_KEYS_CAP := 1000

  /** `Math.min(Number(maxKeys) || 100, 1000)`. */
  function MaxKeys(arg: MaxKeysArg): int {
    var n := match arg
      case Absent => DEFAULT_MAX_KEYS
      case Numeric(v) => if v == 0 then DEFAULT_MAX_KEYS else v
      case NotANumber => DEFAULT_MAX_KEYS;
    if n < MAX_KEYS_CAP then n else MAX_KEYS_CAP
  }

  /**
   * MaxKeys is 100 for an absent, zero or non-numeric argument, the
   * argument itself when it is another number up to 1000, and never more
   * than 1000. A negative number is passed through as it is.
   */
  lemma MaxKeysSpec(arg: MaxKeysArg)
    ensures arg.Absent? || arg.NotANumber? || arg == Numeric(0) ==> MaxKeys(arg) == DEFAULT_MAX_KEYS
    ensures arg.Numeric? && arg.v != 0 && arg.v <= MAX_KEYS_CAP ==> MaxKeys(arg) == arg.v
    ensures arg.Numeric? && arg.v >= MAX_KEYS_CAP ==> MaxKeys(arg) == MAX_KEYS_CAP
    ensures MaxKeys(arg) <= MAX_KEYS_CAP
    ensures MaxKeys(arg) != 0
  {
  }

  /** `prefix = ''` as a destructuring default. */
  function PrefixOf(prefix: Option<string>): (r: string)
    ensures prefix.None? ==> r == ""
    ensures prefix.Some? ==> r == prefix.value
  {
    prefix.GetOr("")
  }

  /** The ListObjectsV2 request. */
  datatype ListRequest = ListRequest(bucket: Option<string>, prefix: string, maxKeys: int)

  function ListRequestOf(bucket: Option<string>, prefix: Option<string>, maxKeys: MaxKeysArg): ListRequest {
    ListRequest(bucket, PrefixOf(prefix), MaxKeys(maxKeys))
  }

  /** An entry of the reply's Contents; every field may be undefined. */
  datatype S3Object = S3Object(key: Option<string>, size: Option<int>, lastModified: Option<string>, etag: Option<string>)

  /** `(o.Key || '').toLowerCase().endsWith('.pdf')`. */
  predicate IsPdf(o: S3Object) {
    EndsWith(LowerAscii(o.key.GetOr("")), ".pdf")
  }

  /** `.filter(...)`: the objects that are PDFs, in their order. */
  function PdfObjects(objects: seq<S3Object>): (r: seq<S3Object>)
    ensures |r| <= |objects|
  {
    if objects == [] then []
    else (if IsPdf(objects[0]) then [objects[0]] else []) + PdfObjects(objects[1..])
  }

  /** One item of the answer. */
  datatype Item = Item(key: Option<string>, size: Option<int>, lastModified: Option<string>)

  function ItemOf(o: S3Object): (r: Item)
    ensures r.key == o.key && r.size == o.size && r.lastModified == o.lastModified
  {
    Item(o.key, o.size, o.lastModified)
  }

  /** `.map(...)` after the filter. */
  function Items(objects: seq<S3Object>): (r: seq<Item>)
    ensures |r| == |PdfObjects(objects)|
    ensures forall i :: 0 <= i < |r| ==> r[i] == ItemOf(PdfObjects(objects)[i])
  {
    var pdfs := PdfObjects(objects);
    seq(|pdfs|, i requires 0 <= i < |pdfs| => ItemOf(pdfs[i]))
  }

  /** The JSON answer. */
  datatype Answer = Listed(bucket: Option<string>, prefix: string, items: seq<Item>) | Failed(error: string)

  /** The whole handler; `contents` is the reply's Contents, `None` when S3 failed with the given message. */
  function ListDocs(bucket: Option<string>, prefix: Option<string>, reply: Result<Option<seq<S3Object>>, string>): Answer {
    match reply
    case Failure(e) => Failed(e)
    case Success(contents) => Listed(bucket, PrefixOf(prefix), Items(contents.GetOr([])))
  }

  /** The filter distributes over concatenation, so it keeps the listing's order. */
  lemma {:induction false} PdfObjectsAppend(a: seq<S3Object>, b: seq<S3Object>)
    ensures PdfObjects(a + b) == PdfObjects(a) + PdfObjects(b)
  {
    if a == [] {
      assert a + b == b;
    } else {
      assert (a + b)[1..] == a[1..] + b;
      PdfObjectsAppend(a[1..], b);
    }
  }

  /** Exactly the PDF objects are kept: everything kept is one, and every one is kept. */
  lemma {:induction false} PdfObjectsMembers(objects: seq<S3Object>)
    ensures forall o :: o in PdfObjects(objects) <==> o in objects && IsPdf(o)
  {
    if objects != [] {
      PdfObjectsMembers(objects[1..]);
      assert objects == [objects[0]] + objects[1..];
    }
  }

  /** Filtering twice is filtering once, and a listing of PDFs only is kept whole. */
  lemma {:induction false} PdfObjectsIdempotent(objects: seq<S3Object>)
    ensures PdfObjects(PdfObjects(objects)) == PdfObjects(objects)
    ensures (forall i :: 0 <= i < |objects| ==> IsPdf(objects[i])) ==> PdfObjects(objects) == objects
  {
    if objects != [] {
      PdfObjectsIdempotent(objects[1..]);
      var head := if IsPdf(objects[0]) then [objects[0]] else [];
      PdfObjectsAppend(head, PdfObjects(objects[1..]));
      if IsPdf(objects[0]) {
        assert PdfObjects(head) == head;
      } else {
        assert head + PdfObjects(objects[1..]) == PdfObjects(objects[1..]);
      }
      if forall i :: 0 <= i < |objects| ==> IsPdf(objects[i]) {
        assert forall i :: 0 <= i < |objects[1..]| ==> IsPdf(objects[1..][i]);
        assert objects == [objects[0]] + objects[1..];
      }
    }
  }

  /**
   * The extension test ignores case: 'A.PDF', 'a.Pdf' and 'a.pdf' are all
   * kept, and an object without a key never is.
   */
  lemma PdfCaseInsensitive(key: string, size: Option<int>, lastModified: Option<string>, etag: Option<string>)
    ensures IsPdf(S3Object(Some(key), size, lastModified, etag)) <==> IsPdf(S3Object(Some(LowerAscii(key)), size, lastModified, etag))
    ensures !IsPdf(S3Object(None, size, lastModified, etag))
  {
    LowerAsciiIdempotent(key);
  }

  /**
   * A successful answer echoes the bucket and the defaulted prefix and
   * lists, for each PDF object in order, exactly its key, size and
   * lastModified; an absent Contents gives no items, and an S3 error
   * becomes a failure carrying its message.
   */
  lemma ListDocsSpec(bucket: Option<string>, prefix: Option<string>, reply: Result<Option<seq<S3Object>>, string>)
    ensures reply.Failure? ==> ListDocs(bucket, prefix, reply) == Failed(reply.error)
    ensures reply.Success? ==> ListDocs(bucket, prefix, reply).Listed?
    ensures reply.Success? ==> ListDocs(bucket, prefix, reply).bucket == bucket
    ensures reply.Success? ==> ListDocs(bucket, prefix, reply).prefix == PrefixOf(prefix)
    ensures reply == Success(None) ==> ListDocs(bucket, prefix, reply).items == []
    ensures reply.Success? && reply.value.Some? ==>
      |ListDocs(bucket, prefix, reply).items| == |PdfObjects(reply.value.value)|
    ensures reply.Success? && reply.value.Some? ==>
      forall i :: 0 <= i < |ListDocs(bucket, prefix, reply).items| ==>
        ListDocs(bucket, prefix, reply).items[i] == ItemOf(PdfObjects(reply.value.value)[i])
  {
  }
}
