/** The download, resize and size-guard steps that turn an image URL into
    the PNG attachment. Decoding, resampling and PNG encoding are done by an
    imaging library; the model sees only the decoded dimensions and the
    length of the encoding the library produced. */
module ImagePipeline {
  import opened Wrappers
  import opened PyText

  const MaxWidth: nat := 1280
  /** The attachment ceiling the chat service imposes on bots, in bytes. */
  const MaxBytes: nat := 8000000
  const AttachmentName := "apod.png"
  const RawDir := "cached_raw"
  const CacheDir := "cache"

  datatype Dims = Dims(width: nat, height: nat)

  /** The HTTP download: a transport or status error, or a body that the
      imaging library either decodes to an image of some size or rejects. */
  datatype Download = TransportError | Received(decoded: Option<Dims>)

  datatype EncodedImage = EncodedImage(filename: string, dims: Dims, byteCount: nat)

  /** What one run leaves behind: the files it wrote, in order, and the
      attachment it hands back (None is the source's `return None`). */
  datatype Outcome = Outcome(written: seq<string>, file: Option<EncodedImage>)

  /** The target size: images wider than the cap are scaled down to exactly
      the cap with the height scaled in proportion (rounded down); narrower
      ones are left as they are. The body takes the exact floor of 1280·h/w;
      the contract also admits one less when 1280·h/w is a whole number, the
      value that truncating the double `(1280 / w) * h` can give there. */
  function Resize(d: Dims): (r: Dims)
    ensures d.width <= MaxWidth ==> r == d
    ensures d.width > MaxWidth ==> r.width == MaxWidth
    ensures d.width > MaxWidth ==>
      r.height * d.width <= MaxWidth * d.height <= (r.height + 1) * d.width
  {
    if d.width > MaxWidth then Dims(MaxWidth, MaxWidth * d.height / d.width) else d
  }

  /** Never an upscale: neither side grows. */
  lemma ResizeNeverGrows(d: Dims)
    ensures Resize(d).width <= d.width && Resize(d).width <= MaxWidth
    ensures Resize(d).height <= d.height
  {
    var r := Resize(d);
    if d.width > MaxWidth {
      assert MaxWidth * d.height <= d.width * d.height;
      CancelFactor(r.height, d.height, d.width);
    }
  }

  lemma CancelFactor(a: nat, b: nat, c: nat)
    requires c > 0 && a * c <= b * c
    ensures a <= b
  {
  }

  /** `os.path.join('cached_raw', os.path.basename(url))`. */
  function RawPath(url: string): string {
    RawDir + "/" + Basename(url)
  }

  /** Opening the raw path for writing fails when the basename names a
      directory ("cached_raw/", "cached_raw/.", "cached_raw/.."). */
  predicate RawWritable(url: string) {
    var b := Basename(url);
    b != "" && b != "." && b != ".."
  }

  function CachePath(dateKey: string): string {
    CacheDir + "/" + dateKey + ".png"
  }

  /** The imaging library refuses to resample to a zero height, which a very
      wide image (more than 1280 times as wide as it is tall) would need. */
  predicate Resizable(d: Dims) {
    d.width <= MaxWidth || Resize(d).height > 0
  }

  /** The raw-archive path string and the processed-cache path string always
      differ: the first has 'd' where the second has '/' (the sixth char). */
  lemma DistinctArchives(url: string, dateKey: string)
    ensures RawPath(url) != CachePath(dateKey)
  {
    DistinctDirectories(Basename(url), dateKey);
  }

  lemma DistinctDirectories(name: string, dateKey: string)
    ensures RawDir + "/" + name != CacheDir + "/" + dateKey + ".png"
  {
    var raw, cached := RawDir + "/", CacheDir + "/";
    assert raw[5] == 'd' && cached[5] == '/';
    assert (raw + name)[5] == raw[5];
    assert (cached + (dateKey + ".png"))[5] == cached[5];
    assert CacheDir + "/" + dateKey + ".png" == cached + (dateKey + ".png");
  }

  /** One run of the pipeline for `url` and `dateKey`, given the download, and
      `pngBytes`, the length of the PNG encoding of the resized image. Every
      failure is caught and turned into `None`. */
  function Process(url: string, dateKey: string, dl: Download, pngBytes: nat): (o: Outcome)
    ensures o.file.Some? <==>
      && dl.Received? && RawWritable(url) && dl.decoded.Some?
      && Resizable(dl.decoded.value) && pngBytes <= MaxBytes
    ensures o.file.Some? ==>
      o.file.value == EncodedImage(AttachmentName, Resize(dl.decoded.value), pngBytes)
    ensures RawPath(url) in o.written <==> dl.Received? && RawWritable(url)
    ensures CachePath(dateKey) in o.written <==> o.file.Some?
    ensures |o.written| <= 2
  {
    match dl
    case TransportError => Outcome([], None)
    case Received(decoded) =>
      DistinctArchives(url, dateKey);
      if !RawWritable(url) then Outcome([], None)
      else if decoded.None? then Outcome([RawPath(url)], None)
      else if !Resizable(decoded.value) then Outcome([RawPath(url)], None)
      else if pngBytes > MaxBytes then Outcome([RawPath(url)], None)
      else Outcome([RawPath(url), CachePath(dateKey)],
                   Some(EncodedImage(AttachmentName, Resize(decoded.value), pngBytes)))
  }

  /** The raw file, when written, is written first, and nothing is written
      twice. */
  lemma WriteOrder(url: string, dateKey: string, dl: Download, pngBytes: nat)
    ensures var o := Process(url, dateKey, dl, pngBytes);
      && (o.written != [] ==> o.written[0] == RawPath(url))
      && (|o.written| == 2 ==> o.written[1] == CachePath(dateKey))
      && (|o.written| == 2 ==> o.written[0] != o.written[1])
  {
    DistinctArchives(url, dateKey);
  }

  /** Whatever the inputs, an attachment handed back fits the ceiling and the
      width cap, has a positive height when the decoded image has one, and is
      no larger than the decoded image. */
  lemma AttachmentWithinLimits(url: string, dateKey: string, dl: Download, pngBytes: nat)
    ensures var o := Process(url, dateKey, dl, pngBytes);
      o.file.Some? ==>
        && o.file.value.byteCount <= MaxBytes
        && o.file.value.dims.width <= MaxWidth
        && o.file.value.dims.width <= dl.decoded.value.width
        && o.file.value.dims.height <= dl.decoded.value.height
        && (dl.decoded.value.height > 0 ==> o.file.value.dims.height > 0)
  {
    if dl.Received? && dl.decoded.Some? {
      ResizeNeverGrows(dl.decoded.value);
    }
  }
}
