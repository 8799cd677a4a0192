# AIGen Retail Creative Optimizer: a Dafny model of its core

The application takes a product photo and a platform, then builds ad
creatives for it. A language model writes some text. The application cuts
that text into a headline and a caption. It takes the call to action
(CTA) from a fixed per-platform table. Then, for every ad size the
platform needs, it stretches the photo to that size and draws four things
on it: a dark band, the headline, an orange button and the CTA label.

The model has five modules:

- `Wrappers` (`wrappers.dfy`): a `Result` type. `Error.KeyError` stands for
  the Python `KeyError` that a dictionary lookup raises on an unknown
  platform.
- `PyStr` (`pystr.dfy`): the Python string operations the post-processing
  uses. These are `str.split` with a one-character separator (empty pieces
  kept), `str.join`, `s[:n]`, list slicing `xs[lo:hi]` and `str.strip()`.
  `str.strip()` strips exactly the characters Python's `str.isspace`
  accepts. Characters are Unicode scalar values, so `[:50]` counts code
  points, as Python does. The lemmas show that split and join are inverse.
  They also show what strip keeps and that strip is idempotent.
- `AdCopy` (`ad_copy.dfy`): `cta_options` and the post-processing in
  `generate_ad_copy`. The language model's output is an input string, so
  the lemmas hold for every text the language model could produce.
- `Creative` (`creative.dfy`): `create_ad_image`.
  - The image is a `Canvas` object. Its size is fixed when it is made (this
    models `resize`). Each drawing call appends one draw operation.
  - `CreateAdImage` makes the four calls of the source in order. Its result
    equals the value `AdLayout`.
  - Lemmas about `AdLayout` give the geometry: sizes, containment and the
    unclamped negative coordinates.
- `App` (`app.py`'s main block, in `app.dfy`): the platform selector,
  `platform_sizes`, and the loop that renders one creative per size.
  `Generate` is the loop. `Campaign` is the specification function it is
  proved equal to.

## Model

| member | source | states |
|---|---|---|
| `PyStr.Split` | app.py:72 | `result.split(".")` always has at least one piece, so `lines[0]` exists; no piece holds the separator |
| `PyStr.SplitCount` | app.py:72 | a split has exactly one piece more than the text has separators; empty pieces are kept |
| `PyStr.SplitAfter` | app.py:72 | when the separator occurs, the split is the text before it followed by the split of the text after it |
| `PyStr.SplitAtFirst` | app.py:72 | the first piece is the text before the first separator; the rest is the split of what follows that separator |
| `PyStr.JoinSplit` | app.py:72 | joining the pieces of a split with the separator gives back the original text |
| `PyStr.SplitJoin` | app.py:72 | splitting a join of separator-free pieces gives back exactly those pieces |
| `PyStr.Join` | app.py:74 | `sep.join(parts)` starts with the first piece; `JoinSplit` and `SplitJoin` prove it is the inverse of `Split` |
| `PyStr.JoinLength` | app.py:74 | a join of one or more pieces is as long as the pieces plus one separator between each pair of neighbours |
| `PyStr.Prefix` | app.py:73 | `s[:50]` has length min(50, len(s)) and is a prefix of `s` |
| `PyStr.Slice` | app.py:74 | `lines[1:3]` is clamped to the list's length and holds the elements from index 1 on, in order |
| `PyStr.IsSpace` | app.py:76 | the whitespace `strip()` removes is exactly Python's `str.isspace` set: code points 9-13 and 28-32, U+0085, U+00A0, U+1680, U+2000-U+200A, U+2028, U+2029, U+202F, U+205F and U+3000 |
| `PyStr.Strip` | app.py:76 | `strip()` result has no leading or trailing whitespace; it is the infix starting after the leading whitespace; everything outside it is whitespace |
| `PyStr.StripKeepsCount` | app.py:76 | stripping does not change how often a non-whitespace character occurs |
| `PyStr.StripIdempotent` | app.py:76 | stripping twice is the same as stripping once |
| `AdCopy.GenerateAdCopy` | app.py:63-76 | succeeds exactly when the platform is a key of `cta_options`, otherwise KeyError on the platform; the CTA is the table's entry; the headline is at most 50 characters and holds no '.'; headline and caption have no outer whitespace |
| `AdCopy.CtaTable` | app.py:47-51 | Instagram gives "Shop Now", Amazon Ads gives "Buy Now", Google Ads gives "Learn More", whatever the language model wrote |
| `AdCopy.CtaIgnoresText` | app.py:76 | success and the CTA depend only on the platform, never on the generated text |
| `AdCopy.HeadlineFromText` | app.py:72-73 | the headline is the stripped text before the first '.', cut to 50 characters |
| `AdCopy.CaptionWithoutPeriod` | app.py:72-74 | text without a '.' gives an empty caption |
| `AdCopy.CaptionOnePeriod` | app.py:72-76 | text with exactly one '.' gives the stripped text after it as the caption |
| `AdCopy.SecondAndThirdPieces` | app.py:72 | with two or more '.', the second piece is the text between the first and second '.', and the third runs from the second '.' to the third or to the end |
| `AdCopy.CaptionTwoPeriods` | app.py:72-76 | with two or more '.', the caption is those two pieces joined by ". " and stripped; nothing after the third '.' is used |
| `AdCopy.JoinedPeriods` | app.py:74 | `". ".join(lines[1:3])` of separator-free pieces holds one '.' when there are at least three pieces, none otherwise |
| `AdCopy.CaptionPeriods` | app.py:72-76 | the caption holds exactly one '.' (the joiner) when the text has two or more, and none otherwise, so it uses at most two pieces |
| `Creative.Canvas.Resize` | app.py:80 | the new image has exactly the requested width and height and nothing drawn on it |
| `Creative.Canvas.Rectangle` | app.py:92-95 | a rectangle call appends one fill operation and changes nothing else |
| `Creative.Canvas.Text` | app.py:97-102 | a text call appends one text operation and changes nothing else |
| `Creative.CreateAdImage` | app.py:79-116 | a fresh image of the requested size carries exactly the band, headline, button and CTA draw calls, in that order |
| `Creative.Stretched` | app.py:80 | the creative has the requested size; what is drawn does not depend on the photo's dimensions, so the aspect ratio is not kept |
| `Creative.BandSpansBottom` | app.py:92-95 | the band is drawn first; it is full width, 180 pixels tall and ends at the bottom edge |
| `Creative.ButtonGeometry` | app.py:104-107 | the button is 180 by 40 pixels, with its left edge at x = 20 and its bottom 20 pixels above the image's bottom |
| `Creative.ButtonInsideBand` | app.py:92-107 | the button lies vertically inside the band at every height; it lies wholly inside exactly when the image is at least 200 pixels wide |
| `Creative.CtaLabelInsideButton` | app.py:104-114 | the CTA label is the CTA text itself, and its origin lies inside the button |
| `Creative.HeadlineInsideBand` | app.py:90-102 | the headline is drawn wrapped at 20 columns, 20 pixels below the band's top; its origin is inside the band exactly when the image is at least 20 pixels wide |
| `Creative.Unclamped` | app.py:92-102 | the band starts above the image exactly when the height is under 180; the headline origin does exactly when the height is under 160 |
| `App.Generate` | app.py:126-156 | the loop's result equals `Campaign`: the copy once, then one creative per catalog size, in order, or KeyError for an unknown platform |
| `App.SelectorMatchesTables` | app.py:36-51 | the selector's options are exactly the keys of `cta_options`; they are also exactly the keys of `platform_sizes` (lines 139-143) |
| `App.CampaignFailsOnlyOffSelector` | app.py:126-145 | a request fails exactly when the platform is not a selector option, and then with KeyError on that platform |
| `App.OneCreativePerSize` | app.py:145-151 | as many creatives as catalog sizes, each of its catalog size in order, each with the same headline and CTA |
| `App.CreativeSizes` | app.py:139-145 | Instagram renders 1080x1080 then 1080x1350; Amazon Ads renders 1200x628; Google Ads renders 728x90 then 300x250 |
| `App.AmazonRequest` | app.py:139-151 | an Amazon Ads request gives exactly one 1200x628 creative whose button label is "Buy Now" |
| `App.GoogleBannerOffCanvas` | app.py:142 | on the 728x90 banner the band top is at y = -90 and the headline origin at y = -70; on the 300x250 creative they are at 70 and 90 |
| `App.OnlyBannerOffCanvas` | app.py:139-156 | among all catalog creatives, only the Google 728x90 banner has its band starting above the image |

Four details of the code that the model keeps as written:

- The text is split only at '.' (app.py:72).
- The platform keys are "Instagram", "Amazon Ads" and "Google Ads", the
  last two with a space (app.py:48-50).
- The CTA label is drawn at x = 40 (app.py:110).
- The band is filled with `(0, 0, 0, 180)` (app.py:94). The model keeps
  only the colour black.

## Left out

- The Streamlit page is not modelled: configuration, title, sidebar widgets,
  the button, the "upload an image" message and every `st.*` display call.
  They are user interface. `Generate` starts where a photo has been uploaded
  and the button pressed.
- Loading GPT-2 through `transformers.pipeline` is not modelled, and neither
  is its caching or its invocation. The model is an external collaborator,
  so its output is the input string `result`.
- Building the prompt is not modelled; it only feeds the language model.
- Image decoding and `convert("RGB")` are not modelled. A photo is kept only
  as its dimensions, and the pixel resampling of `resize` is not modelled.
- Font loading is left out. This includes the fallback to the default font
  when "arial.ttf" is missing. Each text call records the font it requests
  (`Truetype("arial.ttf", 36)` or `28`), not the font it gets.
- `textwrap.fill(headline, width=20)` stays a symbolic label
  `Wrapped(headline, 20)`. Its line breaking belongs to the library.
- Text rasterisation is not modelled, so the model does not say whether
  drawn text fits inside the band or the button.
- The alpha component 180 of the band colour is dropped (`Rgb(0, 0, 0)`).
  Its effect on an RGB image is a drawing-library detail.
- The imaging library's behaviour for a zero width or height is not
  modelled. Sizes are natural numbers, and every catalog size is positive.
- The caption that `st.image` puts under each creative is display text and
  is not modelled.
