/**
 * The media API route (src/app/api/media/route.ts). The auth service, the
 * database and the storage bucket are parameters: their replies are passed
 * in, and `publicUrl` stands for the bucket's `getPublicUrl`.
 */
module MediaApi {
  import opened Wrappers

  datatype User = User(id: string)

  /** The auth service's reply: an error, a user, both absent or both present; or the exception the call threw. */
  datatype AuthReply = AuthReply(error: Option<string>, user: Option<User>) | AuthThrew(message: string)

  /** The request is authenticated when the call returned no auth error and a user. */
  predicate Authenticated(auth: AuthReply)
  {
    auth.AuthReply? && auth.error.None? && auth.user.Some?
  }

  /** A database call: its result, or the exception it threw. */
  datatype DbReply<T> = Done(value: T) | Threw(message: string)

  /** A media file row of the database. */
  datatype MediaRecord = MediaRecord(id: string, name: string, url: string, kind: string, userId: string, createdAt: string)

  /** One file of the `stock/` folder of the media bucket. */
  datatype StockFile = StockFile(name: string, mimetype: Option<string>, createdAt: Option<string>)

  /** A bucket listing: its files, its error, or the exception the call threw. */
  datatype Listing = Listing(data: Option<seq<StockFile>>, error: Option<string>) | ListingThrew(message: string)

  /** One entry of the GET response. */
  datatype MediaEntry =
    | UserEntry(record: MediaRecord, signedUrl: string)
    | StockEntry(id: string, name: string, url: string, kind: string, signedUrl: string, createdAt: string)

  datatype GetResponse = Files(entries: seq<MediaEntry>) | GetFailed(status: int, message: string)

  /** A string field is truthy when present and not empty. */
  predicate Truthy(v: Option<string>)
  {
    v.Some? && v.value != ""
  }

  /** A falsy string defaults to `d`. */
  function OrElse(v: Option<string>, d: string): string
  {
    if Truthy(v) then v.value else d
  }

  /** The entry built for a stock file; `now` stands for `new Date().toISOString()`. */
  function StockEntryOf(f: StockFile, publicUrl: string -> string, now: string): (e: MediaEntry)
    ensures e.StockEntry?
    ensures e.id == "stock-" + f.name && e.name == f.name
    ensures e.url == e.signedUrl == publicUrl("stock/" + f.name)
    ensures e.kind == (if Truthy(f.mimetype) then f.mimetype.value else "image/jpeg")
    ensures e.createdAt == (if Truthy(f.createdAt) then f.createdAt.value else now)
  {
    var url := publicUrl("stock/" + f.name);
    StockEntry("stock-" + f.name, f.name, url, OrElse(f.mimetype, "image/jpeg"), url, OrElse(f.createdAt, now))
  }

  /** The files listed by a GET: those of the stock folder, or none when the listing failed. */
  function StockFiles(stock: Listing): (r: seq<StockFile>)
    ensures stock.Listing? && stock.data.Some? ==> r == stock.data.value
    ensures stock.ListingThrew? || stock.data.None? ==> r == []
  {
    if stock.Listing? && stock.data.Some? then stock.data.value else []
  }

  /** The stock entries, in listing order; a listing without data counts as an empty one. */
  function StockEntries(stock: Listing, publicUrl: string -> string, now: string): (r: seq<MediaEntry>)
    ensures |r| == |StockFiles(stock)|
    ensures forall i :: 0 <= i < |r| ==> r[i].StockEntry? && r[i].name == StockFiles(stock)[i].name
  {
    var files := StockFiles(stock);
    seq(|files|, i requires 0 <= i < |files| => StockEntryOf(files[i], publicUrl, now))
  }

  /** The user's records, in order, each with the public URL of the file under the user's folder. */
  function UserEntries(records: seq<MediaRecord>, userId: string, publicUrl: string -> string): (r: seq<MediaEntry>)
    ensures |r| == |records|
    ensures forall i :: 0 <= i < |r| ==> r[i].UserEntry? && r[i].record == records[i]
  {
    seq(|records|, i requires 0 <= i < |records| => UserEntry(records[i], publicUrl(userId + "/" + records[i].name)))
  }

  /** One of the three fetches that run together threw, which rejects all of them. */
  predicate FetchThrew(records: DbReply<seq<MediaRecord>>, userListing: Listing, stock: Listing)
  {
    records.Threw? || userListing.ListingThrew? || stock.ListingThrew?
  }

  /**
   * The GET handler: 401 unless authenticated, before anything is fetched;
   * 500 when the auth call throws or one of the three fetches throws;
   * otherwise the user's records, each with its public URL, followed by one
   * entry per stock file. The user folder's listing is fetched but only its
   * failure matters.
   */
  function Get(auth: AuthReply, records: DbReply<seq<MediaRecord>>, userListing: Listing, stock: Listing,
               publicUrl: string -> string, now: string): (r: GetResponse)
    ensures auth.AuthThrew? ==> r == GetFailed(500, "Failed to fetch media files")
    ensures auth.AuthReply? && !Authenticated(auth) ==> r == GetFailed(401, "Unauthorized")
    ensures Authenticated(auth) && FetchThrew(records, userListing, stock) ==> r == GetFailed(500, "Failed to fetch media files")
    ensures r.Files? <==> Authenticated(auth) && !FetchThrew(records, userListing, stock)
    ensures r.Files? ==>
      && |r.entries| == |records.value| + |StockFiles(stock)|
      && (forall i :: 0 <= i < |records.value| ==>
            r.entries[i] == UserEntry(records.value[i], publicUrl(auth.user.value.id + "/" + records.value[i].name)))
      && (forall j :: 0 <= j < |StockFiles(stock)| ==>
            r.entries[|records.value| + j] == StockEntryOf(StockFiles(stock)[j], publicUrl, now))
  {
    if auth.AuthThrew? then GetFailed(500, "Failed to fetch media files")
    else if auth.error.Some? then GetFailed(401, "Unauthorized")
    else if auth.user.None? then GetFailed(401, "Unauthorized")
    else if FetchThrew(records, userListing, stock) then GetFailed(500, "Failed to fetch media files")
    else
      var userFiles := UserEntries(records.value, auth.user.value.id, publicUrl);
      var stockFiles := StockEntries(stock, publicUrl, now);
      Files(userFiles + stockFiles)
  }

  /** Every stock entry's id carries the `stock-` prefix, so it is told apart from a database id without one. */
  lemma StockIdsArePrefixed(auth: AuthReply, records: seq<MediaRecord>, userListing: Listing, stock: Listing,
                            publicUrl: string -> string, now: string, k: nat)
    requires Authenticated(auth) && !userListing.ListingThrew? && !stock.ListingThrew?
    requires |records| <= k < |Get(auth, Done(records), userListing, stock, publicUrl, now).entries|
    ensures var e := Get(auth, Done(records), userListing, stock, publicUrl, now).entries[k];
      e.StockEntry? && |e.id| >= 6 && e.id[..6] == "stock-" && e.id[6..] == e.name
  {
    var r := Get(auth, Done(records), userListing, stock, publicUrl, now);
    var j := k - |records|;
    assert 0 <= j < |StockFiles(stock)|;
    assert r.entries[|records| + j] == StockEntryOf(StockFiles(stock)[j], publicUrl, now);
    var e := r.entries[k];
    assert e.id == "stock-" + e.name;
  }

  /** A listing that returned an error (the error is only logged) contributes no entries. */
  lemma FailedListingAddsNothing(auth: AuthReply, records: seq<MediaRecord>, userListing: Listing, error: string,
                                 publicUrl: string -> string, now: string)
    requires Authenticated(auth) && !userListing.ListingThrew?
    ensures Get(auth, Done(records), userListing, Listing(None, Some(error)), publicUrl, now)
      == Files(UserEntries(records, auth.user.value.id, publicUrl))
  {
    assert StockEntries(Listing(None, Some(error)), publicUrl, now) == [];
  }

  /** The body of a POST, when it parses: fields that may be missing. */
  datatype PostBody = PostBody(name: Option<string>, url: Option<string>, kind: Option<string>)

  /** The data handed to the database's `create`. */
  datatype NewMedia = NewMedia(name: string, url: string, kind: string, userId: string)

  datatype PostResponse = Created(record: MediaRecord) | PostFailed(status: int, message: string)

  /** The response, with the record data submitted to the database if it got that far. */
  datatype PostOutcome = PostOutcome(response: PostResponse, submitted: Option<NewMedia>)

  /** All three required fields are truthy. */
  predicate Complete(body: PostBody)
  {
    Truthy(body.name) && Truthy(body.url) && Truthy(body.kind)
  }

  /**
   * The POST handler: auth first (500 when the call throws, 401 otherwise),
   * then the body (500 when it does not parse, 400 when a required field is
   * falsy), then the database record, whose owner is the authenticated user.
   * `body` is `None` when the request body is not JSON.
   */
  function Post(auth: AuthReply, body: Option<PostBody>, create: DbReply<MediaRecord>): (r: PostOutcome)
    ensures auth.AuthThrew? ==> r == PostOutcome(PostFailed(500, "Failed to create media file"), None)
    ensures auth.AuthReply? && auth.error.Some? ==> r == PostOutcome(PostFailed(401, "Authentication failed"), None)
    ensures auth.AuthReply? && auth.error.None? && auth.user.None? ==> r == PostOutcome(PostFailed(401, "User not found"), None)
    ensures Authenticated(auth) && body.None? ==> r == PostOutcome(PostFailed(500, "Failed to create media file"), None)
    ensures Authenticated(auth) && body.Some? && !Complete(body.value) ==>
      r == PostOutcome(PostFailed(400, "Missing required fields: name, url, and type are required"), None)
    ensures r.submitted.Some? <==> Authenticated(auth) && body.Some? && Complete(body.value)
    ensures r.submitted.Some? ==>
      && r.submitted.value == NewMedia(body.value.name.value, body.value.url.value, body.value.kind.value, auth.user.value.id)
      && r.response == (if create.Done? then Created(create.value) else PostFailed(500, "Failed to create media file"))
  {
    if auth.AuthThrew? then PostOutcome(PostFailed(500, "Failed to create media file"), None)
    else if auth.error.Some? then PostOutcome(PostFailed(401, "Authentication failed"), None)
    else if auth.user.None? then PostOutcome(PostFailed(401, "User not found"), None)
    else if body.None? then PostOutcome(PostFailed(500, "Failed to create media file"), None)
    else
      var b := body.value;
      if !Truthy(b.name) || !Truthy(b.url) || !Truthy(b.kind) then
        PostOutcome(PostFailed(400, "Missing required fields: name, url, and type are required"), None)
      else
        var data := NewMedia(b.name.value, b.url.value, b.kind.value, auth.user.value.id);
        match create
        case Done(record) => PostOutcome(Created(record), Some(data))
        case Threw(_) => PostOutcome(PostFailed(500, "Failed to create media file"), Some(data))
  }
}
