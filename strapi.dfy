/** The catalog gateway: the request URL, the response handling and the
    normalisation of the content service's collection and design records.
    The HTTP exchange is a parameter: each fetch operation receives the
    response the service gave, reduced to its status and its `data`
    (and, for pages, `meta.pagination`) members. */
module Strapi {
  import opened Wrappers
  import opened Text
  import opened Uri

  // ---------------------------------------------------------------- raw records

  datatype ImageFormat = ImageFormat(ext: string, url: string, width: int, height: int, mime: string)

  datatype Formats = Formats(thumbnail: Option<ImageFormat>, small: Option<ImageFormat>,
                             medium: Option<ImageFormat>, large: Option<ImageFormat>)

  datatype StrapiImage = StrapiImage(id: int, documentId: string, name: string, url: string,
                                     width: int, height: int, mime: string, formats: Option<Formats>)

  /** The parent collection as a design record carries it. */
  datatype CollectionRef = CollectionRef(documentId: string, nombre: Option<string>,
                                         descripcion: Option<string>, imagen: Option<StrapiImage>)

  datatype DesignDTO = DesignDTO(id: int, documentId: string, nombre: string, descripcion: Option<string>,
                                 precio: int, imagen: Option<StrapiImage>, createdAt: Option<string>,
                                 coleccion: Option<CollectionRef>)

  datatype CollectionDTO = CollectionDTO(id: int, documentId: string, nombre: string, descripcion: Option<string>,
                                         precio: Option<int>, fechaLanzamiento: Option<string>,
                                         imagen: Option<StrapiImage>, disenos: Option<seq<DesignDTO>>)

  // ---------------------------------------------------------------- normalised records

  datatype NormalizedCollection = NormalizedCollection(id: string, name: string, description: Option<string>,
                                                       price: Option<int>, image: Option<string>,
                                                       imageFormats: Option<Formats>, launchDate: Option<string>)

  datatype CollectionSummary = CollectionSummary(id: string, name: Option<string>, description: Option<string>,
                                                 image: Option<string>)

  datatype NormalizedDesign = NormalizedDesign(id: string, name: string, description: Option<string>, price: int,
                                               image: Option<string>, imageFormats: Option<Formats>,
                                               collectionId: Option<string>, collection: Option<CollectionSummary>,
                                               createdAt: Option<string>)

  datatype BestImage = BestImage(url: Option<string>, formats: Option<Formats>)

  // ---------------------------------------------------------------- best image

  /** `a || b` on optional strings. */
  function Or(a: Option<string>, b: Option<string>): Option<string> {
    if Truthy(a) then a else b
  }

  /** `s || null`: an empty or absent string becomes null. */
  function OrNull(s: Option<string>): (r: Option<string>)
    ensures r.Some? <==> Truthy(s)
    ensures r.Some? ==> r == s
  {
    Or(s, None)
  }

  datatype Size = Small | Medium | Large

  /** `img.formats?.<size>?.url`. */
  function FormatUrl(formats: Option<Formats>, size: Size): Option<string> {
    match formats
    case None => None
    case Some(f) =>
      var v := match size
               case Small => f.small
               case Medium => f.medium
               case Large => f.large;
      if v.Some? then Some(v.value.url) else None
  }

  /** The URLs in order of preference: large, medium, small, the original. */
  function Candidates(img: StrapiImage): seq<Option<string>> {
    [FormatUrl(img.formats, Large), FormatUrl(img.formats, Medium), FormatUrl(img.formats, Small), Some(img.url)]
  }

  /** The position of the first non-empty URL, or `|cs|` when there is none. */
  function FirstTruthyIndex(cs: seq<Option<string>>): (k: nat)
    ensures k <= |cs|
    ensures forall j :: 0 <= j < k ==> !Truthy(cs[j])
    ensures k < |cs| ==> Truthy(cs[k])
  {
    if cs == [] then 0
    else if Truthy(cs[0]) then 0
    else
      var k := FirstTruthyIndex(cs[1..]);
      assert forall j :: 1 <= j < k + 1 ==> cs[j] == cs[1..][j - 1];
      k + 1
  }

  /** The first non-empty URL of a list, if any. */
  function FirstTruthy(cs: seq<Option<string>>): Option<string> {
    var k := FirstTruthyIndex(cs);
    if k < |cs| then cs[k] else None
  }

  /** The `||` chain over four candidates picks the first non-empty one. */
  lemma FirstOfFour(a: Option<string>, b: Option<string>, c: Option<string>, d: Option<string>)
    ensures FirstTruthy([a, b, c, d]) == Or(Or(Or(Or(a, b), c), d), None)
  {
    var cs := [a, b, c, d];
    var k := FirstTruthyIndex(cs);
    assert cs[0] == a && cs[1] == b && cs[2] == c && cs[3] == d;
  }

  /** `pickBestImage(img)`: the first non-empty URL among large, medium,
      small and the original, else null; the formats pass through. */
  function PickBestImage(img: Option<StrapiImage>): (r: BestImage)
    ensures img.None? ==> r == BestImage(None, None)
    ensures img.Some? ==> r.formats == img.value.formats && r.url == FirstTruthy(Candidates(img.value))
    ensures r.url.Some? ==> r.url.value != ""
  {
    match img
    case None => BestImage(None, None)
    case Some(i) =>
      var url := Or(Or(Or(Or(FormatUrl(i.formats, Large), FormatUrl(i.formats, Medium)),
                             FormatUrl(i.formats, Small)), Some(i.url)), None);
      FirstOfFour(FormatUrl(i.formats, Large), FormatUrl(i.formats, Medium), FormatUrl(i.formats, Small), Some(i.url));
      BestImage(url, i.formats)
  }

  // ---------------------------------------------------------------- normalisers

  /** `normalizeCollection(c)`: empty text fields become null, a price of
      0 stays 0, and the image is the best URL with its formats. */
  function NormalizeCollection(c: CollectionDTO): (r: NormalizedCollection)
    ensures r.id == c.documentId && r.name == c.nombre && r.price == c.precio
    ensures r.description.Some? <==> Truthy(c.descripcion)
    ensures r.description.Some? ==> r.description == c.descripcion
    ensures r.launchDate.Some? <==> Truthy(c.fechaLanzamiento)
    ensures r.launchDate.Some? ==> r.launchDate == c.fechaLanzamiento
    ensures r.image == PickBestImage(c.imagen).url && r.imageFormats == PickBestImage(c.imagen).formats
  {
    var best := PickBestImage(c.imagen);
    NormalizedCollection(c.documentId, c.nombre, OrNull(c.descripcion), c.precio, best.url, best.formats,
                         OrNull(c.fechaLanzamiento))
  }

  /** A design names a collection id exactly when it carries the collection
      summary, and the two agree. */
  predicate LinkedConsistently(d: NormalizedDesign) {
    (d.collectionId.Some? <==> d.collection.Some?)
    && (d.collection.Some? ==> d.collectionId == Some(d.collection.value.id))
  }

  /** `normalizeDesign(d)`: the design's own fields, plus a summary of its
      collection when the record carries one. */
  function NormalizeDesign(d: DesignDTO): (r: NormalizedDesign)
    ensures r.id == d.documentId && r.name == d.nombre && r.price == d.precio && r.createdAt == d.createdAt
    ensures r.description.Some? <==> Truthy(d.descripcion)
    ensures r.description.Some? ==> r.description == d.descripcion
    ensures r.image == PickBestImage(d.imagen).url && r.imageFormats == PickBestImage(d.imagen).formats
    ensures LinkedConsistently(r)
    ensures r.collection.Some? <==> d.coleccion.Some?
    ensures d.coleccion.Some? ==>
              r.collectionId == Some(d.coleccion.value.documentId)
              && r.collection.value.name == d.coleccion.value.nombre
              && r.collection.value.description == OrNull(d.coleccion.value.descripcion)
              && r.collection.value.image == PickBestImage(d.coleccion.value.imagen).url
  {
    var best := PickBestImage(d.imagen);
    var collection :=
      match d.coleccion
      case None => None
      case Some(c) => Some(CollectionSummary(c.documentId, c.nombre, OrNull(c.descripcion), PickBestImage(c.imagen).url));
    var collectionId := if d.coleccion.Some? then Some(d.coleccion.value.documentId) else None;
    NormalizedDesign(d.documentId, d.nombre, OrNull(d.descripcion), d.precio, best.url, best.formats,
                     collectionId, collection, d.createdAt)
  }

  /** `xs.map(f)`. */
  function Map<A, B>(f: A -> B, xs: seq<A>): (ys: seq<B>)
    ensures |ys| == |xs|
    ensures forall i :: 0 <= i < |xs| ==> ys[i] == f(xs[i])
  {
    if xs == [] then [] else [f(xs[0])] + Map(f, xs[1..])
  }

  datatype CollectionWithDesigns = CollectionWithDesigns(collection: NormalizedCollection,
                                                         designs: seq<NormalizedDesign>)

  /** A collection with its populated designs; a record without `disenos`
      has no designs. */
  function WithDesigns(c: CollectionDTO): (r: CollectionWithDesigns)
    ensures r.collection == NormalizeCollection(c)
    ensures c.disenos.None? ==> r.designs == []
    ensures c.disenos.Some? ==>
              |r.designs| == |c.disenos.value|
              && forall i :: 0 <= i < |r.designs| ==> r.designs[i] == NormalizeDesign(c.disenos.value[i])
  {
    CollectionWithDesigns(NormalizeCollection(c), Map(NormalizeDesign, c.disenos.GetOr([])))
  }

  // ---------------------------------------------------------------- request URL

  /** `s.replace(/\/$/, '')`: one trailing slash is removed. */
  function StripTrailingSlash(s: string): (r: string)
    ensures s != [] && s[|s| - 1] == '/' ==> r == s[..|s| - 1]
    ensures s == [] || s[|s| - 1] != '/' ==> r == s
  {
    if s != [] && s[|s| - 1] == '/' then s[..|s| - 1] else s
  }

  /** Appending a slash and stripping it again gives the base back; a
      second trailing slash survives. */
  lemma StripTrailingSlashInverse(s: string)
    ensures StripTrailingSlash(s + "/") == s
    ensures StripTrailingSlash(s + "//") == s + "/"
  {
    assert (s + "/")[..|s|] == s;
    assert (s + "//")[..|s| + 1] == s + "/";
  }

  /** The URL `strapiFetch` requests: the base without its trailing slash,
      the path, and a truthy query after `?`, or after `&` when the path
      already has a query. */
  function RequestUrl(apiUrl: string, path: string, query: Option<string>): (url: string)
    ensures !Truthy(query) ==> url == StripTrailingSlash(apiUrl) + path
    ensures Truthy(query) && '?' !in path ==> url == StripTrailingSlash(apiUrl) + path + "?" + query.value
    ensures Truthy(query) && '?' in path ==> url == StripTrailingSlash(apiUrl) + path + "&" + query.value
  {
    StripTrailingSlash(apiUrl) + path + (if Truthy(query) then (if '?' in path then "&" else "?") + query.value else "")
  }

  /** With no `?` in the base, path or query, the URL holds exactly one `?`,
      with the base and path before it and the query after it. */
  lemma RequestUrlSplits(apiUrl: string, path: string, query: string)
    requires '?' !in apiUrl && '?' !in path && '?' !in query && query != ""
    ensures Split(RequestUrl(apiUrl, path, Some(query)), '?') == [StripTrailingSlash(apiUrl) + path, query]
  {
    var head := StripTrailingSlash(apiUrl) + path;
    assert '?' !in head by {
      forall i | 0 <= i < |head| ensures head[i] != '?' {
        if i < |StripTrailingSlash(apiUrl)| { assert head[i] == apiUrl[i]; }
        else { assert head[i] == path[i - |StripTrailingSlash(apiUrl)|]; }
      }
    }
    SplitJoin([head, query], '?');
    assert Join([head, query], '?') == head + "?" + query;
  }

  // ---------------------------------------------------------------- responses

  datatype HttpResponse<B> = HttpResponse(status: int, statusText: string, body: B)

  /** `Response.ok`: a status in the range 200 to 299. */
  predicate IsOk(status: int) {
    200 <= status <= 299
  }

  /** The message `strapiFetch` throws: it starts with the `[strapi] `
      tag, then the status, and ends with the URL. */
  function ErrorMessage(status: int, statusText: string, url: string): (m: string)
    ensures |m| >= 9 + |url|
    ensures m[..9] == "[strapi] " && m[|m| - |url|..] == url
  {
    "[strapi] " + Decimal(status) + " " + statusText + " fetching " + url
  }

  /** `strapiFetch`: the body of a successful response, else an error that
      names the status, its text and the URL. */
  function StrapiFetch<B>(apiUrl: string, path: string, query: Option<string>, resp: HttpResponse<B>): (r: Result<B, string>)
    ensures r.Success? <==> IsOk(resp.status)
    ensures r.Success? ==> r.value == resp.body
    ensures r.Failure? ==> r.error == ErrorMessage(resp.status, resp.statusText, RequestUrl(apiUrl, path, query))
  {
    if IsOk(resp.status) then Success(resp.body)
    else Failure(ErrorMessage(resp.status, resp.statusText, RequestUrl(apiUrl, path, query)))
  }

  /** The status in the error message parses back to the response's. */
  lemma ErrorMessageStatus(status: int, statusText: string, url: string)
    ensures var m := ErrorMessage(status, statusText, url);
            && 9 + |Decimal(status)| <= |m|
            && ParseDecimal(m[9..9 + |Decimal(status)|]) == Some(status)
  {
    var m := ErrorMessage(status, statusText, url);
    var d := Decimal(status);
    assert m == "[strapi] " + d + (" " + statusText + " fetching " + url);
    assert m[9..9 + |d|] == d;
    DecimalRoundTrip(status);
  }

  /** A `data` member holding one record or an array of them. */
  datatype Data<T> = One(record: T) | Many(records: seq<T>)

  /** `Array.isArray(r.data) ? r.data : [r.data]`. */
  function Records<T>(d: Data<T>): (r: seq<T>)
    ensures d.One? ==> |r| == 1 && r[0] == d.record
    ensures d.Many? ==> r == d.records
  {
    match d
    case One(x) => [x]
    case Many(xs) => xs
  }

  datatype Pagination = Pagination(page: int, pageSize: int, pageCount: int, total: int)

  datatype PageBody<T> = PageBody(data: Data<T>, pagination: Pagination)

  datatype CollectionsPage = CollectionsPage(collections: seq<NormalizedCollection>, pagination: Pagination)

  datatype DesignsPage = DesignsPage(designs: seq<NormalizedDesign>, pagination: Pagination)

  // ---------------------------------------------------------------- queries

  const CollectionsPath: string := "/api/colecciones"
  const DesignsPath: string := "/api/disenos"
  const CollectionsQuery: string := "populate=imagen"
  const CollectionQuery: string := "populate[0]=imagen&populate[1]=disenos.imagen"
  const DesignsQuery: string := "populate[0]=imagen&populate[1]=coleccion&populate[2]=coleccion.imagen"
  const CollectionsWithDesignsQuery: string := "populate[0]=imagen&populate[1]=disenos.imagen&sort=fecha_lanzamiento:desc"
  const DefaultPageSize: int := 24

  /** A requested page below 1 asks for page 1. */
  function ClampPage(page: int): (p: int)
    ensures p >= 1
    ensures page >= 1 ==> p == page
    ensures page < 1 ==> p == 1
  {
    if page < 1 then 1 else page
  }

  /** The four `query.set` calls of the collections page, in order; the
      page value reads back as the clamped page, the size as given. */
  function CollectionsPageParams(page: int, pageSize: int): (ps: seq<(string, string)>)
    ensures |ps| == 4
    ensures ps[1].0 == "pagination[page]" && ParseDecimal(ps[1].1) == Some(ClampPage(page))
    ensures ps[2].0 == "pagination[pageSize]" && ParseDecimal(ps[2].1) == Some(pageSize)
  {
    DecimalRoundTrip(ClampPage(page));
    DecimalRoundTrip(pageSize);
    [("populate", "imagen"),
     ("pagination[page]", Decimal(ClampPage(page))),
     ("pagination[pageSize]", Decimal(pageSize)),
     ("sort", "fecha_lanzamiento:desc")]
  }

  /** The six `query.set` calls of the designs page, in order; the page
      value reads back as the clamped page, the size as given. */
  function DesignsPageParams(page: int, pageSize: int): (ps: seq<(string, string)>)
    ensures |ps| == 6
    ensures ps[3].0 == "pagination[page]" && ParseDecimal(ps[3].1) == Some(ClampPage(page))
    ensures ps[4].0 == "pagination[pageSize]" && ParseDecimal(ps[4].1) == Some(pageSize)
  {
    DecimalRoundTrip(ClampPage(page));
    DecimalRoundTrip(pageSize);
    [("populate[0]", "imagen"),
     ("populate[1]", "coleccion"),
     ("populate[2]", "coleccion.imagen"),
     ("pagination[page]", Decimal(ClampPage(page))),
     ("pagination[pageSize]", Decimal(pageSize)),
     ("sort", "createdAt:desc")]
  }

  /** The collections page query holds its four parameters in order; the
      page reads back as the clamped page and the size as given. */
  lemma CollectionsPageQuery(page: int, pageSize: int)
    ensures var q := SearchParams(CollectionsPageParams(page, pageSize));
            |Split(q, '&')| == 4
            && ParamAt(q, 0) == Some(("populate", "imagen"))
            && ParamAt(q, 1) == Some(("pagination[page]", Decimal(ClampPage(page))))
            && ParamAt(q, 2) == Some(("pagination[pageSize]", Decimal(pageSize)))
            && ParamAt(q, 3) == Some(("sort", "fecha_lanzamiento:desc"))
            && ParseDecimal(ParamAt(q, 1).value.1) == Some(ClampPage(page))
            && ParseDecimal(ParamAt(q, 2).value.1) == Some(pageSize)
  {
    var ps := CollectionsPageParams(page, pageSize);
    SearchParamsRoundTrip(ps);
    assert ParamAt(SearchParams(ps), 1) == Some(ps[1]);
    assert ParamAt(SearchParams(ps), 2) == Some(ps[2]);
    DecimalRoundTrip(ClampPage(page));
    DecimalRoundTrip(pageSize);
  }

  /** The designs page query holds its six parameters in order; the page
      reads back as the clamped page and the size as given. */
  lemma DesignsPageQuery(page: int, pageSize: int)
    ensures var q := SearchParams(DesignsPageParams(page, pageSize));
            |Split(q, '&')| == 6
            && ParamAt(q, 0) == Some(("populate[0]", "imagen"))
            && ParamAt(q, 1) == Some(("populate[1]", "coleccion"))
            && ParamAt(q, 2) == Some(("populate[2]", "coleccion.imagen"))
            && ParamAt(q, 3) == Some(("pagination[page]", Decimal(ClampPage(page))))
            && ParamAt(q, 4) == Some(("pagination[pageSize]", Decimal(pageSize)))
            && ParamAt(q, 5) == Some(("sort", "createdAt:desc"))
            && ParseDecimal(ParamAt(q, 3).value.1) == Some(ClampPage(page))
            && ParseDecimal(ParamAt(q, 4).value.1) == Some(pageSize)
  {
    var ps := DesignsPageParams(page, pageSize);
    SearchParamsRoundTrip(ps);
    assert ParamAt(SearchParams(ps), 3) == Some(ps[3]);
    assert ParamAt(SearchParams(ps), 4) == Some(ps[4]);
    DecimalRoundTrip(ClampPage(page));
    DecimalRoundTrip(pageSize);
  }

  // ---------------------------------------------------------------- fetch operations

  /** `fetchCollections()`: every record, normalised, in order. */
  function FetchCollections(apiUrl: string, resp: HttpResponse<Data<CollectionDTO>>): (r: Result<seq<NormalizedCollection>, string>)
    ensures r.Success? <==> IsOk(resp.status)
    ensures r.Success? ==>
              |r.value| == |Records(resp.body)|
              && forall i :: 0 <= i < |r.value| ==> r.value[i] == NormalizeCollection(Records(resp.body)[i])
    ensures r.Failure? ==> r.error == ErrorMessage(resp.status, resp.statusText,
                                                   RequestUrl(apiUrl, CollectionsPath, Some(CollectionsQuery)))
  {
    match StrapiFetch(apiUrl, CollectionsPath, Some(CollectionsQuery), resp)
    case Failure(e) => Failure(e)
    case Success(body) => Success(Map(NormalizeCollection, Records(body)))
  }

  /** `fetchCollectionsPage(page, pageSize)`: one page of collections and
      the service's pagination, requested with the clamped page. */
  function FetchCollectionsPage(apiUrl: string, resp: HttpResponse<PageBody<CollectionDTO>>, page: int,
                                pageSize: int := DefaultPageSize): (r: Result<CollectionsPage, string>)
    ensures r.Success? <==> IsOk(resp.status)
    ensures r.Success? ==>
              r.value.pagination == resp.body.pagination
              && |r.value.collections| == |Records(resp.body.data)|
              && forall i :: 0 <= i < |r.value.collections| ==>
                   r.value.collections[i] == NormalizeCollection(Records(resp.body.data)[i])
    ensures r.Failure? ==> r.error == ErrorMessage(resp.status, resp.statusText,
                                                   RequestUrl(apiUrl, CollectionsPath, Some(SearchParams(CollectionsPageParams(page, pageSize)))))
  {
    match StrapiFetch(apiUrl, CollectionsPath, Some(SearchParams(CollectionsPageParams(page, pageSize))), resp)
    case Failure(e) => Failure(e)
    case Success(body) => Success(CollectionsPage(Map(NormalizeCollection, Records(body.data)), body.pagination))
  }

  /** `fetchCollection(documentId)`: the collection and its designs; a
      record without `disenos` has none. */
  function FetchCollection(apiUrl: string, documentId: string, resp: HttpResponse<CollectionDTO>): (r: Result<CollectionWithDesigns, string>)
    ensures r.Success? <==> IsOk(resp.status)
    ensures r.Success? ==> r.value == WithDesigns(resp.body)
    ensures r.Failure? ==> r.error == ErrorMessage(resp.status, resp.statusText,
                                                   RequestUrl(apiUrl, CollectionsPath + "/" + documentId, Some(CollectionQuery)))
  {
    match StrapiFetch(apiUrl, CollectionsPath + "/" + documentId, Some(CollectionQuery), resp)
    case Failure(e) => Failure(e)
    case Success(body) => Success(WithDesigns(body))
  }

  /** `fetchDesigns()`: every design, normalised, in order. */
  function FetchDesigns(apiUrl: string, resp: HttpResponse<Data<DesignDTO>>): (r: Result<seq<NormalizedDesign>, string>)
    ensures r.Success? <==> IsOk(resp.status)
    ensures r.Success? ==>
              |r.value| == |Records(resp.body)|
              && forall i :: 0 <= i < |r.value| ==> r.value[i] == NormalizeDesign(Records(resp.body)[i])
    ensures r.Failure? ==> r.error == ErrorMessage(resp.status, resp.statusText,
                                                   RequestUrl(apiUrl, DesignsPath, Some(DesignsQuery)))
  {
    match StrapiFetch(apiUrl, DesignsPath, Some(DesignsQuery), resp)
    case Failure(e) => Failure(e)
    case Success(body) => Success(Map(NormalizeDesign, Records(body)))
  }

  /** `fetchDesignsPage(page, pageSize)`: one page of designs and the
      service's pagination, requested with the clamped page. */
  function FetchDesignsPage(apiUrl: string, resp: HttpResponse<PageBody<DesignDTO>>, page: int,
                            pageSize: int := DefaultPageSize): (r: Result<DesignsPage, string>)
    ensures r.Success? <==> IsOk(resp.status)
    ensures r.Success? ==>
              r.value.pagination == resp.body.pagination
              && |r.value.designs| == |Records(resp.body.data)|
              && forall i :: 0 <= i < |r.value.designs| ==>
                   r.value.designs[i] == NormalizeDesign(Records(resp.body.data)[i])
    ensures r.Failure? ==> r.error == ErrorMessage(resp.status, resp.statusText,
                                                   RequestUrl(apiUrl, DesignsPath, Some(SearchParams(DesignsPageParams(page, pageSize)))))
  {
    match StrapiFetch(apiUrl, DesignsPath, Some(SearchParams(DesignsPageParams(page, pageSize))), resp)
    case Failure(e) => Failure(e)
    case Success(body) => Success(DesignsPage(Map(NormalizeDesign, Records(body.data)), body.pagination))
  }

  /** `fetchDesign(documentId)`: the one design, normalised. */
  function FetchDesign(apiUrl: string, documentId: string, resp: HttpResponse<DesignDTO>): (r: Result<NormalizedDesign, string>)
    ensures r.Success? <==> IsOk(resp.status)
    ensures r.Success? ==> r.value == NormalizeDesign(resp.body) && LinkedConsistently(r.value)
    ensures r.Failure? ==> r.error == ErrorMessage(resp.status, resp.statusText,
                                                   RequestUrl(apiUrl, DesignsPath + "/" + documentId, Some(DesignsQuery)))
  {
    match StrapiFetch(apiUrl, DesignsPath + "/" + documentId, Some(DesignsQuery), resp)
    case Failure(e) => Failure(e)
    case Success(body) => Success(NormalizeDesign(body))
  }

  /** `fetchCollectionsWithDesigns()`: every collection with its designs, in
      the service's order. */
  function FetchCollectionsWithDesigns(apiUrl: string, resp: HttpResponse<Data<CollectionDTO>>): (r: Result<seq<CollectionWithDesigns>, string>)
    ensures r.Success? <==> IsOk(resp.status)
    ensures r.Success? ==>
              |r.value| == |Records(resp.body)|
              && forall i :: 0 <= i < |r.value| ==> r.value[i] == WithDesigns(Records(resp.body)[i])
    ensures r.Failure? ==> r.error == ErrorMessage(resp.status, resp.statusText,
                                                   RequestUrl(apiUrl, CollectionsPath, Some(CollectionsWithDesignsQuery)))
  {
    match StrapiFetch(apiUrl, CollectionsPath, Some(CollectionsWithDesignsQuery), resp)
    case Failure(e) => Failure(e)
    case Success(body) => Success(Map(WithDesigns, Records(body)))
  }
}
