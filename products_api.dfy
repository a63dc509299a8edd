/**
 * The products API route (src/app/api/products/route.ts). The query's reply
 * is passed in; `base` stands for the configured storage service URL.
 */
module ProductsApi {
  import opened Wrappers

  /** A product row as the query returns it. */
  datatype ProductRow = ProductRow(
    id: string,
    name: string,
    description: Option<string>,
    basePrice: real,
    imageUrl: Option<string>,
    tenantId: string,
    createdAt: string,
    updatedAt: string)

  /** The query's reply: rows, an error object with a message, or an exception. */
  datatype QueryReply = Rows(rows: seq<ProductRow>) | QueryError(message: string) | Threw

  datatype Response = Products(products: seq<ProductRow>) | Failed(status: int, message: string)

  /** The HTTP status of a response. */
  function Status(r: Response): int
  {
    if r.Products? then 200 else r.status
  }

  const PublicPath: string := "/storage/v1/object/public/products/"

  /** The rewritten `imageUrl`: a truthy value is prefixed with the public bucket path, a falsy one becomes null. */
  function PublicImageUrl(base: string, imageUrl: Option<string>): (r: Option<string>)
    ensures r.Some? <==> imageUrl.Some? && imageUrl.value != ""
    ensures r.Some? ==> |r.value| == |base + PublicPath| + |imageUrl.value| && r.value[|base + PublicPath|..] == imageUrl.value
    ensures r.Some? ==> r.value[..|base + PublicPath|] == base + PublicPath
  {
    if imageUrl.Some? && imageUrl.value != "" then Some(base + PublicPath + imageUrl.value) else None
  }

  /** `GET`: 400 with the query's message, 500 on an exception, otherwise the rows with rewritten image URLs. */
  function Get(base: string, reply: QueryReply): (r: Response)
    ensures reply.QueryError? ==> r == Failed(400, reply.message)
    ensures reply.Threw? ==> r == Failed(500, "Internal server error")
    ensures reply.Rows? ==>
      && r.Products?
      && |r.products| == |reply.rows|
      && forall i :: 0 <= i < |reply.rows| ==>
           && r.products[i].(imageUrl := reply.rows[i].imageUrl) == reply.rows[i]
           && r.products[i].imageUrl == PublicImageUrl(base, reply.rows[i].imageUrl)
  {
    match reply
    case QueryError(message) => Failed(400, message)
    case Threw => Failed(500, "Internal server error")
    case Rows(rows) =>
      Products(seq(|rows|, i requires 0 <= i < |rows| => rows[i].(imageUrl := PublicImageUrl(base, rows[i].imageUrl))))
  }

  /** The status is 200 exactly when the query returned rows. */
  lemma StatusOfGet(base: string, reply: QueryReply)
    ensures Status(Get(base, reply)) == (match reply case Rows(_) => 200 case QueryError(_) => 400 case Threw => 500)
  {
  }

  /**
   * The prefix is applied unconditionally: a value that already is a full
   * public URL gets the prefix a second time.
   */
  lemma PrefixAppliedTwice(base: string, name: string)
    requires name != ""
    ensures var once := PublicImageUrl(base, Some(name)).value;
      && PublicImageUrl(base, Some(once)) == Some(base + PublicPath + (base + PublicPath + name))
      && PublicImageUrl(base, Some(once)) != Some(once)
  {
    var once := PublicImageUrl(base, Some(name)).value;
    assert |PublicImageUrl(base, Some(once)).value| > |once|;
  }
}
