/**
 * Product image storage helpers (src/lib/storage.ts): the object path an
 * upload writes to, and the object a delete removes, recovered from a URL.
 * The storage service is a parameter: its reply to each call is passed in.
 */
module Storage {
  import opened Wrappers

  /** The last piece of `s` when split at `sep`: the text after the last `sep`, or all of `s` when there is none. */
  function LastSegment(s: string, sep: char): (r: string)
    ensures |r| <= |s| && r == s[|s| - |r|..]
    ensures sep !in r
    ensures |r| < |s| ==> s[|s| - |r| - 1] == sep
    decreases |s|
  {
    if s == [] then []
    else if s[|s| - 1] == sep then []
    else
      var init := s[..|s| - 1];
      var rest := LastSegment(init, sep);
      assert s[|s| - |rest| - 1..] == init[|init| - |rest|..] + [s[|s| - 1]];
      rest + [s[|s| - 1]]
  }

  /** Whatever precedes the last separator does not matter. */
  lemma {:induction false} LastSegmentAfterSeparator(a: string, sep: char, b: string)
    requires a != [] && a[|a| - 1] == sep && sep !in b
    ensures LastSegment(a + b, sep) == b
    decreases |b|
  {
    var s := a + b;
    if b != [] {
      var init := b[..|b| - 1];
      assert s[..|s| - 1] == a + init;
      assert sep !in init by {
        forall c | c in init ensures c != sep { assert c in b; }
      }
      LastSegmentAfterSeparator(a, sep, init);
      assert b == init + [b[|b| - 1]];
    } else {
      assert s == a;
    }
  }

  /** With no separator at all, the segment is the whole text. */
  lemma LastSegmentWithoutSeparator(s: string, sep: char)
    requires sep !in s
    ensures LastSegment(s, sep) == s
  {
  }

  /** The segment is empty exactly when the text is empty or ends with the separator. */
  lemma EmptyLastSegment(s: string, sep: char)
    ensures LastSegment(s, sep) == [] <==> s == [] || s[|s| - 1] == sep
  {
  }

  /** The file extension: the text after the last dot of the file name. */
  function Extension(fileName: string): (e: string)
    ensures '.' !in e
    ensures |e| <= |fileName| && e == fileName[|fileName| - |e|..]
  {
    LastSegment(fileName, '.')
  }

  /** The object path of an upload: the product id and the extension under `products/`. */
  function UploadPath(fileName: string, productId: string): (p: string)
    ensures |p| == |"products/"| + |productId| + 1 + |Extension(fileName)|
  {
    "products/" + productId + "." + Extension(fileName)
  }

  /** The path is `products/`, then the product id, then a dot and the extension. */
  lemma UploadPathShape(fileName: string, productId: string)
    ensures var p := UploadPath(fileName, productId);
      && p[..|"products/"|] == "products/"
      && p[|"products/"|..|"products/"| + |productId|] == productId
      && p[|"products/"| + |productId|..] == "." + Extension(fileName)
  {
    UploadPathParts(fileName, productId);
    ConcatSlices("products/", productId, ".", Extension(fileName));
  }

  lemma ConcatSlices(a: string, b: string, c: string, d: string)
    ensures (a + (b + c + d))[..|a|] == a
    ensures (a + (b + c + d))[|a|..|a| + |b|] == b
    ensures (a + (b + c + d))[|a| + |b|..] == c + d
  {
    var tail := b + c + d;
    assert tail == b + (c + d);
    assert (a + tail)[|a|..] == tail;
  }

  /** Two files of one product with the same extension are written to the same object. */
  lemma UploadPathOverwrites(fileName1: string, fileName2: string, productId: string)
    requires Extension(fileName1) == Extension(fileName2)
    ensures UploadPath(fileName1, productId) == UploadPath(fileName2, productId)
  {
  }

  datatype StorageError = InvalidUrl | Backend(message: string)

  /** The upload call: bucket, object path and the upsert flag. */
  datatype UploadRequest = UploadRequest(bucket: string, path: string, upsert: bool)

  /** What an upload returns (an error or a URL), with the upload call that was made. */
  datatype UploadResult = UploadResult(request: UploadRequest, error: Option<StorageError>, url: Option<string>)

  /**
   * `uploadProductImage(file, productId)`: `uploadError` is the storage
   * service's reply to the upload and `publicUrl` its `getPublicUrl`.
   */
  function UploadProductImage(fileName: string, productId: string, uploadError: Option<StorageError>,
                              publicUrl: string -> string): (r: UploadResult)
    ensures r.request == UploadRequest("products", UploadPath(fileName, productId), true)
    ensures r.error.None? <==> r.url.Some?
    ensures r.url.Some? <==> uploadError.None?
    ensures r.url.Some? ==> r.url.value == publicUrl(r.request.path)
    ensures r.error.Some? ==> r.error == uploadError
  {
    var request := UploadRequest("products", UploadPath(fileName, productId), true);
    if uploadError.Some? then UploadResult(request, uploadError, None)
    else UploadResult(request, None, Some(publicUrl(request.path)))
  }

  /** What a delete returns (an error, if any), with the object path removed, if the remove was called. */
  datatype DeleteResult = DeleteResult(removed: Option<string>, error: Option<StorageError>)

  /** `deleteProductImage(url)`: `removeError` is the storage service's reply to the remove. */
  function DeleteProductImage(url: string, removeError: Option<StorageError>): (r: DeleteResult)
    ensures r.removed.None? <==> LastSegment(url, '/') == []
    ensures r.removed.None? ==> r.error == Some(InvalidUrl)
    ensures r.removed.Some? ==>
      && r.error == removeError
      && r.removed.value == "products/" + LastSegment(url, '/')
      && '/' !in LastSegment(url, '/')
  {
    var path := LastSegment(url, '/');
    if path == "" then DeleteResult(None, Some(InvalidUrl))
    else DeleteResult(Some("products/" + path), removeError)
  }

  /**
   * Round trip: a URL that ends with `/` and the upload path of a product whose
   * id and file extension hold no `/` makes the delete remove that very path.
   */
  lemma DeleteAfterUpload(prefix: string, fileName: string, productId: string, removeError: Option<StorageError>)
    requires '/' !in productId && '/' !in Extension(fileName)
    ensures DeleteProductImage(prefix + "/" + UploadPath(fileName, productId), removeError).removed
      == Some(UploadPath(fileName, productId))
  {
    var url := prefix + "/" + UploadPath(fileName, productId);
    UploadUrlSegment(prefix, fileName, productId);
    UploadPathParts(fileName, productId);
    DeleteRemovesSegment(url, removeError);
  }

  lemma UploadPathParts(fileName: string, productId: string)
    ensures UploadPath(fileName, productId) == "products/" + (productId + "." + Extension(fileName))
  {
    var ext := Extension(fileName);
    ConcatAssociates("products/", productId, ".", ext);
  }

  lemma ConcatAssociates(a: string, b: string, c: string, d: string)
    ensures a + b + c + d == a + (b + c + d)
  {
  }

  lemma DeleteRemovesSegment(url: string, removeError: Option<StorageError>)
    requires LastSegment(url, '/') != []
    ensures DeleteProductImage(url, removeError).removed == Some("products/" + LastSegment(url, '/'))
  {
  }

  lemma UploadUrlSegment(prefix: string, fileName: string, productId: string)
    requires '/' !in productId && '/' !in Extension(fileName)
    ensures LastSegment(prefix + "/" + UploadPath(fileName, productId), '/') == productId + "." + Extension(fileName)
  {
    var name := productId + "." + Extension(fileName);
    var dir := prefix + "/products/";
    UploadUrlSplits(prefix, productId, Extension(fileName));
    LastSegmentAfterSeparator(dir, '/', name);
  }

  lemma UploadUrlSplits(prefix: string, productId: string, ext: string)
    requires '/' !in productId && '/' !in ext
    ensures prefix + "/" + ("products/" + productId + "." + ext) == (prefix + "/products/") + (productId + "." + ext)
    ensures '/' !in productId + "." + ext
    ensures (prefix + "/products/")[|prefix + "/products/"| - 1] == '/'
  {
  }
}
