/**
 * The main block: once a photo is uploaded and the button pressed, the ad
 * copy is generated once for the selected platform, and one creative is
 * rendered for each of the platform's sizes, in catalog order.
 */
module App {
  import opened Wrappers
  import opened AdCopy
  import opened Creative

  /** The options of the platform selector in the sidebar. */
  const Platforms: seq<string> := ["Instagram", "Amazon Ads", "Google Ads"]

  /** `platform_sizes`: the creative sizes each platform needs, in order. */
  const PlatformSizes: map<string, seq<Size>> := map[
    "Instagram" := [Size(1080, 1080), Size(1080, 1350)],
    "Amazon Ads" := [Size(1200, 628)],
    "Google Ads" := [Size(728, 90), Size(300, 250)]
  ]

  /** What one request shows: the ad copy and the creatives, in display order. */
  datatype Output = Output(copy: AdText, creatives: seq<Picture>)

  /** One layout per size, all with the same headline and call to action. */
  function Layouts(photo: Photo, copy: AdText, sizes: seq<Size>): (ps: seq<Picture>) {
    seq(|sizes|, i requires 0 <= i < |sizes| => AdLayout(photo, copy.headline, copy.cta, sizes[i]))
  }

  /** The whole request as a value: copy first, then the size lookup `platform_sizes[platform]`. */
  function Campaign(result: string, platform: string, photo: Photo): (r: Result<Output, Error>) {
    var copy :- GenerateAdCopy(result, platform);
    if platform in PlatformSizes then
      Success(Output(copy, Layouts(photo, copy, PlatformSizes[platform])))
    else
      Failure(KeyError(platform))
  }

  /** The main block: generate the copy, then render one creative per size in a loop. */
  method Generate(result: string, platform: string, photo: Photo) returns (r: Result<Output, Error>)
    ensures r == Campaign(result, platform, photo)
  {
    var copy :- GenerateAdCopy(result, platform);
    if platform !in PlatformSizes {
      return Failure(KeyError(platform));
    }
    var sizes := PlatformSizes[platform];
    var creatives: seq<Picture> := [];
    for i := 0 to |sizes|
      invariant |creatives| == i
      invariant forall k :: 0 <= k < i ==> creatives[k] == AdLayout(photo, copy.headline, copy.cta, sizes[k])
    {
      var img := CreateAdImage(photo, copy.headline, copy.cta, sizes[i]);
      creatives := creatives + [img.Snapshot()];
    }
    assert creatives == Layouts(photo, copy, sizes);
    r := Success(Output(copy, creatives));
  }

  // ----- properties of a request -----

  /** The selector offers exactly the keys of both tables, so no selectable platform is missing from either. */
  lemma SelectorMatchesTables()
    ensures (set p | p in Platforms) == CtaOptions.Keys
    ensures (set p | p in Platforms) == PlatformSizes.Keys
  {
  }

  /** A request fails, with KeyError on the platform, exactly when the platform is not one the selector offers. */
  lemma CampaignFailsOnlyOffSelector(result: string, platform: string, photo: Photo)
    ensures Campaign(result, platform, photo).Success? <==> platform in Platforms
    ensures Campaign(result, platform, photo).Failure? ==>
      Campaign(result, platform, photo).error == KeyError(platform)
  {
  }

  /**
   * One creative per catalog size, in catalog order, each of exactly that
   * size and each carrying the same headline and call to action.
   */
  lemma OneCreativePerSize(result: string, platform: string, photo: Photo)
    requires platform in Platforms
    ensures var r := Campaign(result, platform, photo);
      && r.Success?
      && var out := r.value;
      && |out.creatives| == |PlatformSizes[platform]|
      && forall i :: 0 <= i < |out.creatives| ==>
        && out.creatives[i].size == PlatformSizes[platform][i]
        && out.creatives[i].ops[1].content == Wrapped(out.copy.headline, WrapWidth)
        && out.creatives[i].ops[3].content == Plain(out.copy.cta)
  {
  }

  /** The sizes each platform's request renders. */
  lemma CreativeSizes(result: string, photo: Photo)
    ensures var r := Campaign(result, "Instagram", photo);
      r.Success? && var cs := r.value.creatives;
      |cs| == 2 && cs[0].size == Size(1080, 1080) && cs[1].size == Size(1080, 1350)
    ensures var r := Campaign(result, "Amazon Ads", photo);
      r.Success? && var cs := r.value.creatives;
      |cs| == 1 && cs[0].size == Size(1200, 628)
    ensures var r := Campaign(result, "Google Ads", photo);
      r.Success? && var cs := r.value.creatives;
      |cs| == 2 && cs[0].size == Size(728, 90) && cs[1].size == Size(300, 250)
  {
  }

  /** An Amazon Ads request gives one 1200 by 628 creative whose button reads "Buy Now". */
  lemma AmazonRequest(result: string, photo: Photo)
    ensures Campaign(result, "Amazon Ads", photo).Success?
    ensures var out := Campaign(result, "Amazon Ads", photo).value;
      && out.copy.cta == "Buy Now"
      && |out.creatives| == 1
      && out.creatives[0].size == Size(1200, 628)
      && out.creatives[0].ops[3].content == Plain("Buy Now")
  {
  }

  /**
   * On the 728 by 90 Google banner the band starts 90 pixels above the image
   * and the headline 70 above it; on the 300 by 250 creative both are on it.
   */
  lemma GoogleBannerOffCanvas(result: string, photo: Photo)
    ensures var r := Campaign(result, "Google Ads", photo);
      && r.Success? && |r.value.creatives| == 2
      && var cs := r.value.creatives;
      && cs[0].ops[0].box.lo.y == -90 && cs[0].ops[1].origin.y == -70
      && cs[1].ops[0].box.lo.y == 70 && cs[1].ops[1].origin.y == 90
  {
  }

  /** Of all the catalog's creatives, only the Google banner has its band start above the image. */
  lemma OnlyBannerOffCanvas(result: string, platform: string, photo: Photo)
    requires platform in Platforms
    ensures var r := Campaign(result, platform, photo);
      r.Success? && var cs := r.value.creatives;
      forall i :: 0 <= i < |cs| ==>
        (cs[i].ops[0].box.lo.y < 0 <==> platform == "Google Ads" && i == 0)
  {
  }
}
