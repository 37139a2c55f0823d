/** lib/cloudinary.ts: `getCldImageUrl` builds a Cloudinary delivery URL whose
    transformation part is extended piece by piece. */
module Cloudinary {
  import opened Wrappers
  import opened Js
  import opened Numbers

  /** `quality?: string | number` (numbers are integers here). */
  datatype Quality = QualityText(text: string) | QualityNumber(n: int)

  datatype ImageOptions = ImageOptions(width: Option<int>, height: Option<int>, crop: Option<string>, quality: Option<Quality>)

  /** One comma-separated piece of the transformation string. */
  datatype Segment = QualitySegment(quality: string) | WidthSegment(width: int) | HeightSegment(height: int) | CropSegment(crop: string)

  function Rank(s: Segment): nat {
    match s
    case QualitySegment(_) => 0
    case WidthSegment(_) => 1
    case HeightSegment(_) => 2
    case CropSegment(_) => 3
  }

  /** `options || {}`. */
  function OrEmpty(options: Option<ImageOptions>): ImageOptions {
    if options.Some? then options.value else ImageOptions(None, None, None, None)
  }

  /** `quality = 'auto'`, rendered as a template literal renders it. */
  function QualityValue(options: Option<ImageOptions>): string {
    match OrEmpty(options).quality
    case None => "auto"
    case Some(QualityText(t)) => t
    case Some(QualityNumber(n)) => IntToString(n)
  }

  /** `crop = 'fill'`: the default replaces only a missing crop, not an empty one. */
  function CropValue(options: Option<ImageOptions>): string {
    var crop := OrEmpty(options).crop;
    if crop.Some? then crop.value else "fill"
  }

  /** The reference description of the transformations: which pieces appear, in which order. */
  function Segments(options: Option<ImageOptions>): (r: seq<Segment>)
    ensures 1 <= |r| <= 4 && r[0] == QualitySegment(QualityValue(options))
  {
    var o := OrEmpty(options);
    var q := [QualitySegment(QualityValue(options))];
    var w := if TruthyNumber(o.width) then q + [WidthSegment(o.width.value)] else q;
    var h := if TruthyNumber(o.height) then w + [HeightSegment(o.height.value)] else w;
    if CropValue(options) != "" then h + [CropSegment(CropValue(options))] else h
  }

  /** Quality comes first and only once, and the other pieces follow in the order
      width, height, crop. */
  lemma SegmentsOrder(options: Option<ImageOptions>)
    ensures var r := Segments(options);
      forall i :: 1 <= i < |r| ==> !r[i].QualitySegment?
    ensures var r := Segments(options);
      forall i, j :: 0 <= i < j < |r| ==> Rank(r[i]) < Rank(r[j])
  {
    var o := OrEmpty(options);
    var q := [QualitySegment(QualityValue(options))];
    var w := if TruthyNumber(o.width) then q + [WidthSegment(o.width.value)] else q;
    var h := if TruthyNumber(o.height) then w + [HeightSegment(o.height.value)] else w;
    assert Segments(options) == if CropValue(options) != "" then h + [CropSegment(CropValue(options))] else h;
  }

  /** A piece is present exactly when its option is truthy, and then carries that option. */
  lemma SegmentsPresence(options: Option<ImageOptions>)
    ensures var r, o := Segments(options), OrEmpty(options);
      && (TruthyNumber(o.width) ==> WidthSegment(o.width.value) in r)
      && (TruthyNumber(o.height) ==> HeightSegment(o.height.value) in r)
      && (CropValue(options) != "" ==> CropSegment(CropValue(options)) in r)
    ensures var r, o := Segments(options), OrEmpty(options);
      forall s :: s in r ==>
        && (s.WidthSegment? ==> TruthyNumber(o.width) && s == WidthSegment(o.width.value))
        && (s.HeightSegment? ==> TruthyNumber(o.height) && s == HeightSegment(o.height.value))
        && (s.CropSegment? ==> CropValue(options) != "" && s == CropSegment(CropValue(options)))
  {
    var o := OrEmpty(options);
    var q := [QualitySegment(QualityValue(options))];
    var w := if TruthyNumber(o.width) then q + [WidthSegment(o.width.value)] else q;
    var h := if TruthyNumber(o.height) then w + [HeightSegment(o.height.value)] else w;
    assert Segments(options) == if CropValue(options) != "" then h + [CropSegment(CropValue(options))] else h;
  }

  /** The text a piece adds: its template literal, with the leading comma for
      all but the quality. */
  function Render(s: Segment): string {
    match s
    case QualitySegment(q) => "q_" + q
    case WidthSegment(w) => ",w_" + IntToString(w)
    case HeightSegment(h) => ",h_" + IntToString(h)
    case CropSegment(c) => ",c_" + c
  }

  /** The pieces rendered one after another. */
  function Join(segments: seq<Segment>): string {
    if segments == [] then "" else Join(segments[..|segments| - 1]) + Render(segments[|segments| - 1])
  }

  /** Appending one more piece to rendered pieces. */
  lemma JoinSnoc(done: seq<Segment>, s: Segment)
    ensures Join(done + [s]) == Join(done) + Render(s)
  {
    assert (done + [s])[..|done|] == done;
  }

  /** The rendering begins with the first piece's text. */
  lemma {:induction false} JoinPrefix(segments: seq<Segment>)
    requires |segments| >= 1
    ensures var first := Render(segments[0]);
      |Join(segments)| >= |first| && Join(segments)[..|first|] == first
  {
    if |segments| > 1 {
      JoinPrefix(segments[..|segments| - 1]);
      assert segments[..|segments| - 1][0] == segments[0];
    } else {
      JoinSnoc([], segments[0]);
      assert [] + [segments[0]] == segments;
    }
  }

  /** The builder: start with the quality, then append each piece that applies. */
  method Transformations(options: Option<ImageOptions>) returns (transformations: string)
    ensures transformations == Join(Segments(options))
    ensures var head := "q_" + QualityValue(options);
      |transformations| >= |head| && transformations[..|head|] == head
  {
    var o := OrEmpty(options);
    ghost var done := [QualitySegment(QualityValue(options))];
    transformations := "q_" + QualityValue(options);
    assert transformations == Join(done) by {
      JoinSnoc([], done[0]);
    }
    if TruthyNumber(o.width) {
      JoinSnoc(done, WidthSegment(o.width.value));
      transformations := transformations + (",w_" + IntToString(o.width.value));
      done := done + [WidthSegment(o.width.value)];
    }
    if TruthyNumber(o.height) {
      JoinSnoc(done, HeightSegment(o.height.value));
      transformations := transformations + (",h_" + IntToString(o.height.value));
      done := done + [HeightSegment(o.height.value)];
    }
    if CropValue(options) != "" {
      JoinSnoc(done, CropSegment(CropValue(options)));
      transformations := transformations + (",c_" + CropValue(options));
      done := done + [CropSegment(CropValue(options))];
    }
    assert done == Segments(options);
    JoinPrefix(done);
  }

  /** `${cloudName}` of an unset variable is the text "undefined". */
  function CloudNameText(cloudName: Option<string>): string {
    if cloudName.Some? then cloudName.value else "undefined"
  }

  /** `getCldImageUrl`; `cloudName` is NEXT_PUBLIC_CLOUDINARY_CLOUD_NAME. */
  method GetCldImageUrl(cloudName: Option<string>, publicId: string, options: Option<ImageOptions>)
    returns (url: string)
    ensures url == "https://res.cloudinary.com/" + CloudNameText(cloudName) + "/image/upload/"
                   + Join(Segments(options)) + "/" + publicId
    ensures |url| > |publicId| && url[|url| - |publicId|..] == publicId && url[|url| - |publicId| - 1] == '/'
  {
    var transformations := Transformations(options);
    url := "https://res.cloudinary.com/" + CloudNameText(cloudName) + "/image/upload/" + transformations + "/" + publicId;
  }

  /** Without options the transformations are quality auto and crop fill. */
  lemma DefaultTransformations()
    ensures Join(Segments(None)) == "q_auto,c_fill"
  {
  }

  /** A zero width or an empty crop leaves its piece out, while quality is always written. */
  lemma FalsyOptions()
    ensures Join(Segments(Some(ImageOptions(Some(0), None, Some(""), Some(QualityNumber(0)))))) == "q_0"
  {
  }
}
