/**
 * Ad-copy post-processing of `generate_ad_copy`: the language model's text
 * is split at every '.', the first piece becomes the headline (cut to 50
 * characters), the next two pieces become the caption, and the call to
 * action comes from a fixed table keyed by platform.
 */
module AdCopy {
  import opened Wrappers
  import opened PyStr

  datatype AdText = AdText(headline: string, caption: string, cta: string)

  /** `cta_options`: the call to action for each advertising platform. */
  const CtaOptions: map<string, string> :=
    map["Instagram" := "Shop Now", "Amazon Ads" := "Buy Now", "Google Ads" := "Learn More"]

  /** The headline keeps at most this many characters of the first piece. */
  const HeadlineLength: nat := 50

  const Period: char := '.'

  /**
   * `generate_ad_copy` once the model has produced `result`. The table
   * lookup `cta_options[platform]` raises KeyError for an unknown platform.
   */
  function GenerateAdCopy(result: string, platform: string): (r: Result<AdText, Error>)
    ensures r.Success? <==> platform in CtaOptions
    ensures r.Failure? ==> r.error == KeyError(platform)
    ensures r.Success? ==> r.value.cta == CtaOptions[platform]
    ensures r.Success? ==> |r.value.headline| <= HeadlineLength && Period !in r.value.headline
    ensures r.Success? ==> Trimmed(r.value.headline) && Trimmed(r.value.caption)
  {
    var lines := Split(result, Period);
    var headline := Prefix(lines[0], HeadlineLength);
    var caption := Join(". ", Slice(lines, 1, 3));
    if platform in CtaOptions then
      Success(AdText(Strip(headline), Strip(caption), CtaOptions[platform]))
    else
      Failure(KeyError(platform))
  }

  /** The table itself: each platform's call to action, whatever the model wrote. */
  lemma CtaTable(result: string)
    ensures GenerateAdCopy(result, "Instagram").Success? && GenerateAdCopy(result, "Instagram").value.cta == "Shop Now"
    ensures GenerateAdCopy(result, "Amazon Ads").Success? && GenerateAdCopy(result, "Amazon Ads").value.cta == "Buy Now"
    ensures GenerateAdCopy(result, "Google Ads").Success? && GenerateAdCopy(result, "Google Ads").value.cta == "Learn More"
  {
  }

  /** The call to action depends on the platform only, never on the generated text. */
  lemma CtaIgnoresText(result1: string, result2: string, platform: string)
    ensures GenerateAdCopy(result1, platform).Success? == GenerateAdCopy(result2, platform).Success?
    ensures GenerateAdCopy(result1, platform).Success? ==>
      GenerateAdCopy(result1, platform).value.cta == GenerateAdCopy(result2, platform).value.cta
  {
  }

  /** The headline is the stripped text before the first '.', cut to 50 characters. */
  lemma HeadlineFromText(result: string, platform: string)
    requires platform in CtaOptions
    ensures GenerateAdCopy(result, platform).value.headline ==
      Strip(result[..Min(HeadlineLength, IndexOf(result, Period))])
  {
    SplitAtFirst(result, Period);
    var first := result[..IndexOf(result, Period)];
    assert Prefix(first, HeadlineLength) == result[..Min(HeadlineLength, IndexOf(result, Period))];
  }

  /** Text without a '.' gives an empty caption. */
  lemma CaptionWithoutPeriod(result: string, platform: string)
    requires platform in CtaOptions
    requires Period !in result
    ensures GenerateAdCopy(result, platform).value.caption == ""
  {
    SplitWithoutSep(result, Period);
  }

  /** Text with exactly one '.' gives the stripped text after it as the caption. */
  lemma CaptionOnePeriod(result: string, platform: string)
    requires platform in CtaOptions
    requires multiset(result)[Period] == 1
    ensures GenerateAdCopy(result, platform).value.caption ==
      Strip(result[IndexOf(result, Period) + 1..])
  {
    assert Period in result;
    var after := After(result, Period);
    SplitAfter(result, Period);
    assert Period !in after;
    SplitWithoutSep(after, Period);
    CaptionOfOnePiece(Split(result, Period));
  }

  /** The caption of exactly two pieces is the second one, stripped. */
  lemma CaptionOfOnePiece(lines: seq<string>)
    requires |lines| == 2
    ensures Strip(Join(". ", Slice(lines, 1, 3))) == Strip(lines[1])
  {
    assert Slice(lines, 1, 3) == [lines[1]];
  }

  /** Joining pieces 1 and 2 of periodless pieces with ". " adds one '.' when there are two. */
  lemma JoinedPeriods(lines: seq<string>)
    requires forall i :: 0 <= i < |lines| ==> Period !in lines[i]
    ensures multiset(Join(". ", Slice(lines, 1, 3)))[Period] == if |lines| >= 3 then 1 else 0
  {
    var picked := Slice(lines, 1, 3);
    var joined := Join(". ", picked);
    if |picked| == 1 {
      assert joined == lines[1];
    } else if |picked| == 2 {
      assert joined == lines[1] + ". " + lines[2];
      assert multiset(joined) == multiset(lines[1]) + multiset(". ") + multiset(lines[2]);
    }
  }

  /**
   * The caption joins at most two pieces: it holds one '.' (the joiner)
   * exactly when the text has two or more, and none otherwise.
   */
  lemma CaptionPeriods(result: string, platform: string)
    requires platform in CtaOptions
    ensures multiset(GenerateAdCopy(result, platform).value.caption)[Period] ==
      if multiset(result)[Period] >= 2 then 1 else 0
  {
    var lines := Split(result, Period);
    SplitCount(result, Period);
    JoinedPeriods(lines);
    StripKeepsCount(Join(". ", Slice(lines, 1, 3)), Period);
  }

  /**
   * With two or more periods, the second piece is the text between the
   * first and second '.', and the third the text from the second '.' up to
   * the third or to the end.
   */
  lemma SecondAndThirdPieces(result: string)
    requires multiset(result)[Period] >= 2
    ensures var a := After(result, Period);
      && |Split(result, Period)| >= 3
      && Split(result, Period)[1] == Before(a, Period)
      && Split(result, Period)[2] == Before(After(a, Period), Period)
  {
    var a := After(result, Period);
    SplitAfter(result, Period);
    SplitAfter(a, Period);
    SplitFirst(After(a, Period), Period);
  }

  /** The caption of two pieces `x` and `y` is `x + ". " + y`, stripped. */
  lemma CaptionOfTwoPieces(lines: seq<string>)
    requires |lines| >= 3
    ensures Strip(Join(". ", Slice(lines, 1, 3))) == Strip(lines[1] + ". " + lines[2])
  {
    assert Slice(lines, 1, 3) == [lines[1], lines[2]];
    assert [lines[1], lines[2]][1..] == [lines[2]];
  }

  /**
   * Text with two or more periods gives as caption the second and third
   * pieces, joined by ". " and stripped; nothing after the third '.' is used.
   */
  lemma CaptionTwoPeriods(result: string, platform: string)
    requires platform in CtaOptions
    requires multiset(result)[Period] >= 2
    ensures var a := After(result, Period);
      GenerateAdCopy(result, platform).value.caption ==
        Strip(Before(a, Period) + ". " + Before(After(a, Period), Period))
  {
    SecondAndThirdPieces(result);
    CaptionOfTwoPieces(Split(result, Period));
  }
}
