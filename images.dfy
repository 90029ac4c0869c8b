/**
 * Resolution of a product's image field to a URL (`get_image_url` in
 * strapi_helpers.py). The field is untyped JSON coming from the backend; it
 * may be absent, a nested media reference `{data: {attributes: {url}}}`, a
 * flat `{url}` object, or anything else.
 */
module Images {
  import opened Wrappers

  /** A decoded JSON value. */
  datatype Json =
    | JNull
    | JBool(b: bool)
    | JNumber(n: real)
    | JString(s: string)
    | JArray(elems: seq<Json>)
    | JObject(fields: map<string, Json>)

  /** `isinstance(value, dict) and key in value`. */
  predicate HasKey(value: Json, key: string) {
    value.JObject? && key in value.fields
  }

  /**
   * `value[key]`: `None` stands for the KeyError (missing key) or TypeError
   * (subscripting a non-dict) that the source catches and turns into no image.
   */
  function Index(value: Json, key: string): (r: Option<Json>)
    ensures r.Some? <==> HasKey(value, key)
  {
    if HasKey(value, key) then Some(value.fields[key]) else None
  }

  /** `image_data['data']['attributes']['url']`, if every step succeeds. */
  function NestedUrl(imageData: Json): Option<Json> {
    match Index(imageData, "data")
    case None => None
    case Some(data) =>
      match Index(data, "attributes")
      case None => None
      case Some(attributes) => Index(attributes, "url")
  }

  /** The url value the source picks: the nested shape first, then the flat one. */
  function LocatedUrl(imageData: Json): (r: Option<Json>)
    ensures r.Some? ==> imageData.JObject? && ("data" in imageData.fields || "url" in imageData.fields)
    ensures HasKey(imageData, "data") ==> r == NestedUrl(imageData)
    ensures HasKey(imageData, "url") && !HasKey(imageData, "data") ==> r == Some(imageData.fields["url"])
  {
    if HasKey(imageData, "data") then NestedUrl(imageData)
    else if HasKey(imageData, "url") then Some(imageData.fields["url"])
    else None
  }

  predicate StartsWithSlash(url: string) { |url| > 0 && url[0] == '/' }

  /** A path relative to the backend is joined onto its base URL; any other URL is kept. */
  function Absolutize(url: string, baseUrl: string): (r: string)
    ensures |url| <= |r| && r[|r| - |url|..] == url
    ensures r != url ==> StartsWithSlash(url) && |r| == |baseUrl| + |url| && r[..|baseUrl|] == baseUrl
  {
    if StartsWithSlash(url) then baseUrl + url else url
  }

  /**
   * `get_image_url(product, strapi_base_url)`, where `image` is the product's
   * `'image'` entry (`None` when the key is absent). The result is the URL or
   * `None`; a url that is not a string raises AttributeError at `.startswith`,
   * which the source does not catch.
   */
  function GetImageUrl(image: Option<Json>, baseUrl: string): (r: Result<Option<string>>)
    ensures image.None? ==> r == Ok(None)
    ensures r.Raise? ==> r.error == AttributeError
    ensures r.Ok? && r.value.Some? ==> image.Some? && image.value.JObject?
  {
    match image
    case None => Ok(None)
    case Some(imageData) =>
      match LocatedUrl(imageData)
      case None => Ok(None)
      case Some(JString(url)) => Ok(Some(Absolutize(url, baseUrl)))
      case Some(_) => Raise(AttributeError)
  }

  /** The nested media reference is resolved, whatever a flat `url` key says. */
  lemma NestedShapeWins(fields: map<string, Json>, attributes: Json, url: string, baseUrl: string)
    requires "data" in fields && Index(fields["data"], "attributes") == Some(attributes)
    requires Index(attributes, "url") == Some(JString(url))
    ensures GetImageUrl(Some(JObject(fields)), baseUrl) == Ok(Some(Absolutize(url, baseUrl)))
  {
  }

  /** A `data` key whose nesting is broken hides a flat `url` key: no image. */
  lemma BrokenNestedShapeGivesNone(fields: map<string, Json>, baseUrl: string)
    requires "data" in fields && NestedUrl(JObject(fields)).None?
    ensures GetImageUrl(Some(JObject(fields)), baseUrl) == Ok(None)
  {
  }

  /** Without `data`, a flat string `url` is resolved. */
  lemma FlatShape(fields: map<string, Json>, url: string, baseUrl: string)
    requires "data" !in fields && "url" in fields && fields["url"] == JString(url)
    ensures GetImageUrl(Some(JObject(fields)), baseUrl) == Ok(Some(Absolutize(url, baseUrl)))
  {
  }

  /** Any other shape (not an object, or an object with neither key) gives no image. */
  lemma OtherShapeGivesNone(imageData: Json, baseUrl: string)
    requires !imageData.JObject? || ("data" !in imageData.fields && "url" !in imageData.fields)
    ensures GetImageUrl(Some(imageData), baseUrl) == Ok(None)
  {
  }

  /**
   * Whichever shape the string url came from, a path starting with `/` is
   * returned joined onto the base URL and any other url is returned as it is.
   */
  lemma RelativePathIsJoined(imageData: Json, url: string, baseUrl: string)
    requires LocatedUrl(imageData) == Some(JString(url))
    ensures StartsWithSlash(url) ==> GetImageUrl(Some(imageData), baseUrl) == Ok(Some(baseUrl + url))
    ensures !StartsWithSlash(url) ==> GetImageUrl(Some(imageData), baseUrl) == Ok(Some(url))
  {
  }

  /** The only escaping exception is a located url that is not a string. */
  lemma RaisesOnlyOnNonStringUrl(image: Option<Json>, baseUrl: string)
    ensures GetImageUrl(image, baseUrl).Raise? <==>
      image.Some? && LocatedUrl(image.value).Some? && !LocatedUrl(image.value).value.JString?
  {
  }
}
