/**
 * `getImageUrl`: the URL the storefront shows for an image record of the content
 * store. A missing image or asset gives the placeholder; an asset reference
 * `<fileId>-<dimensions>-<format>` gives the content delivery network URL; otherwise
 * a direct asset URL is used verbatim. JavaScript truthiness is modelled: an empty
 * string counts as absent. The project id and dataset, read from the environment in
 * the storefront, are parameters; an unset one is `None`.
 */
module ImageUrl {

  import opened Wrappers
  import Text

  /** The asset of an image record: its opaque reference and its direct URL. */
  datatype Asset = Asset(ref: Option<string>, url: Option<string>)

  /** An image record of the content store. */
  datatype Image = Image(asset: Option<Asset>)

  const Placeholder: string := "/images/products/placeholder.jpg"
  const CdnPrefix: string := "https://cdn.sanity.io/images/"

  /** How a template string shows a value: itself, or `undefined` when it is absent. */
  function Show(s: Option<string>): string
  {
    if s.Some? then s.value else "undefined"
  }

  /** Field `k` of a split, absent when the split has fewer fields (JavaScript destructuring). */
  function FieldAt(fields: seq<string>, k: nat): Option<string>
  {
    if k < |fields| then Some(fields[k]) else None
  }

  /** The CDN URL built from the first three `-`-separated fields of `ref`. */
  function CdnUrl(projectId: Option<string>, dataset: Option<string>, ref: string): (url: string)
    ensures CdnPrefix <= url
  {
    var fields := Text.Split(ref, '-');
    var path := Show(projectId) + "/" + Show(dataset) + "/"
      + Show(FieldAt(fields, 0)) + "-" + Show(FieldAt(fields, 1)) + "." + Show(FieldAt(fields, 2));
    assert (CdnPrefix + path)[..|CdnPrefix|] == CdnPrefix;
    CdnPrefix + path
  }

  /** `getImageUrl(image)`: total, never empty. */
  function GetImageUrl(image: Option<Image>, projectId: Option<string>, dataset: Option<string>): (url: string)
    ensures url != ""
    ensures url == Placeholder || CdnPrefix <= url || (image.Some? && image.value.asset.Some? && Some(url) == image.value.asset.value.url)
  {
    if image.None? || image.value.asset.None? then Placeholder
    else
      var asset := image.value.asset.value;
      if Text.Truthy(asset.ref) then CdnUrl(projectId, dataset, asset.ref.value)
      else if Text.Truthy(asset.url) then asset.url.value
      else Placeholder
  }

  /** A reference made of three or more separator-free fields. */
  predicate WellFormedFields(fields: seq<string>)
  {
    |fields| >= 3 && forall k :: 0 <= k < |fields| ==> '-' !in fields[k]
  }

  /** No image, or an image without asset, gives the placeholder. */
  lemma MissingImageIsPlaceholder(image: Option<Image>, projectId: Option<string>, dataset: Option<string>)
    requires image.None? || image.value.asset.None?
    ensures GetImageUrl(image, projectId, dataset) == Placeholder
  {
  }

  /** An asset with neither a reference nor a URL gives the placeholder. */
  lemma EmptyAssetIsPlaceholder(asset: Asset, projectId: Option<string>, dataset: Option<string>)
    requires !Text.Truthy(asset.ref) && !Text.Truthy(asset.url)
    ensures GetImageUrl(Some(Image(Some(asset))), projectId, dataset) == Placeholder
  {
  }

  /** Without a reference, a direct URL is returned verbatim. */
  lemma DirectUrlVerbatim(asset: Asset, projectId: Option<string>, dataset: Option<string>)
    requires !Text.Truthy(asset.ref) && Text.Truthy(asset.url)
    ensures GetImageUrl(Some(Image(Some(asset))), projectId, dataset) == asset.url.value
  {
  }

  /** The reference wins over a direct URL: the URL plays no part once a reference is set. */
  lemma ReferenceWins(ref: string, url: Option<string>, projectId: Option<string>, dataset: Option<string>)
    requires ref != ""
    ensures GetImageUrl(Some(Image(Some(Asset(Some(ref), url)))), projectId, dataset)
         == GetImageUrl(Some(Image(Some(Asset(Some(ref), None)))), projectId, dataset)
         == CdnUrl(projectId, dataset, ref)
  {
  }

  /**
   * A reference `f0-f1-f2[-...]` gives `<prefix><project>/<dataset>/f0-f1.f2`;
   * fields after the third are ignored.
   */
  lemma WellFormedReference(fields: seq<string>, url: Option<string>, projectId: string, dataset: string)
    requires WellFormedFields(fields)
    ensures var ref := Text.Join(fields, '-');
      GetImageUrl(Some(Image(Some(Asset(Some(ref), url)))), Some(projectId), Some(dataset))
        == CdnPrefix + (projectId + "/" + dataset + "/" + fields[0] + "-" + fields[1] + "." + fields[2])
  {
    var ref := Text.Join(fields, '-');
    Text.SplitJoin(fields, '-');
    assert ref == fields[0] + ['-'] + Text.Join(fields[1..], '-');
  }

  /** The worked example: a 800x600 JPEG in dataset `production` of project `P1`. */
  lemma ExampleReference()
    ensures GetImageUrl(Some(Image(Some(Asset(Some("abc123-800x600-jpg"), None)))), Some("P1"), Some("production"))
         == "https://cdn.sanity.io/images/" + ("P1" + "/" + "production" + "/" + "abc123" + "-" + "800x600" + "." + "jpg")
  {
    var fields := ["abc123", "800x600", "jpg"];
    assert Text.Join(fields, '-') == "abc123-800x600-jpg" by {
      assert Text.Join(fields[2..], '-') == "jpg";
      assert Text.Join(fields[1..], '-') == "800x600-jpg";
    }
    WellFormedReference(fields, None, "P1", "production");
  }

  /** A reference with only two fields has no fallback: the format shows as `undefined`. */
  lemma TwoFieldReference()
    ensures GetImageUrl(Some(Image(Some(Asset(Some("abc-800x600"), None)))), Some("P1"), Some("production"))
         == "https://cdn.sanity.io/images/" + ("P1" + "/" + "production" + "/" + "abc" + "-" + "800x600" + "." + "undefined")
  {
    SplitTwo("abc", "800x600");
    assert "abc" + "-" + "800x600" == "abc-800x600";
    var fields := Text.Split("abc-800x600", '-');
    assert FieldAt(fields, 2) == None;
  }

  /** Two separator-free fields joined by one separator split back into those two. */
  lemma SplitTwo(a: string, b: string)
    requires '-' !in a && '-' !in b
    ensures Text.Split(a + "-" + b, '-') == [a, b]
  {
    Text.SplitJoin([a, b], '-');
    assert Text.Join([a, b], '-') == a + "-" + b by {
      assert [a, b][1..] == [b];
    }
  }

  /** An unset project id or dataset shows as `undefined` in the URL. */
  lemma UnsetEnvironment(fields: seq<string>)
    requires WellFormedFields(fields)
    ensures var ref := Text.Join(fields, '-');
      GetImageUrl(Some(Image(Some(Asset(Some(ref), None)))), None, None)
        == CdnPrefix + ("undefined" + "/" + "undefined" + "/" + fields[0] + "-" + fields[1] + "." + fields[2])
  {
    Text.SplitJoin(fields, '-');
    assert Text.Join(fields, '-') == fields[0] + ['-'] + Text.Join(fields[1..], '-');
  }
}
