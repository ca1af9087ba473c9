/** The single embed the bot sends for a record: title, explanation, footer,
    and the media branch (inline attachment or link field for images, linked
    title for videos, nothing for anything else). */
module MessageComposer {
  import opened Wrappers
  import opened PyText
  import opened ApodRecord
  import opened ImagePipeline

  const Separator := " | "
  const Signature := "Bot by lunar_sh"
  const CopyrightMark := "\U{A9} "
  const AttachmentRef := "attachment://apod.png"
  const VideoSuffix := " (Video)"
  const LinkFieldName := "Image Link"

  datatype Field = Field(name: string, value: string, inline: bool)

  datatype Embed = Embed(
    title: string,
    description: string,
    footer: string,
    image: Option<string>,
    url: Option<string>,
    fields: seq<Field>)

  datatype Message = Message(embed: Embed, file: Option<EncodedImage>)

  /** Which of the three branches a record takes. */
  datatype Media = ImageMedia | VideoMedia | OtherMedia

  /** The footer's parts in order: the stripped copyright when present, the
      date when present, and the signature. */
  function FooterParts(copyright: Option<string>, date: Option<string>): seq<string>
  {
    (if Present(copyright) then [CopyrightMark + Strip(copyright.value)] else [])
    + (if Present(date) then [date.value] else [])
    + [Signature]
  }

  function Footer(copyright: Option<string>, date: Option<string>): string
  {
    Join(FooterParts(copyright, date), Separator)
  }

  /** The footer spelled out: each optional part is followed by the separator
      and the signature always closes it. */
  lemma FooterLayout(copyright: Option<string>, date: Option<string>)
    ensures Footer(copyright, date) ==
      (if Present(copyright) then CopyrightMark + Strip(copyright.value) + Separator else "")
      + (if Present(date) then date.value + Separator else "")
      + Signature
  {
    var front := (if Present(copyright) then [CopyrightMark + Strip(copyright.value)] else [])
      + (if Present(date) then [date.value] else []);
    assert FooterParts(copyright, date) == front + [Signature];
    JoinSnoc(front, Signature, Separator);
    if Present(copyright) && Present(date) {
      assert front == [CopyrightMark + Strip(copyright.value)] + [date.value];
      JoinSnoc([CopyrightMark + Strip(copyright.value)], date.value, Separator);
    }
  }

  /** The signature is always the last thing in the footer. */
  lemma FooterEndsWithSignature(copyright: Option<string>, date: Option<string>)
    ensures var f := Footer(copyright, date);
      |f| >= |Signature| && f[|f| - |Signature|..] == Signature
  {
    FooterLayout(copyright, date);
  }

  /** The branch test of the source: an image needs a link and a date (the
      date names the cached PNG), a video needs a link. */
  function Branch(r: Record): Media
  {
    if r.mediaType == Some("image") && Present(ImageUrl(r)) && Present(r.date) then ImageMedia
    else if r.mediaType == Some("video") && Present(ImageUrl(r)) then VideoMedia
    else OtherMedia
  }

  /** The embed for `r`; `processed` is what the image pipeline returned when
      it was run on the record's image link and date (only the image branch
      runs it, so only that branch reads it). */
  function Compose(r: Record, processed: Option<EncodedImage>): (m: Message)
    ensures m.embed.footer == Footer(r.copyright, r.date)
    ensures m.embed.description == Explanation(r)
    ensures m.file.Some? <==> Branch(r) == ImageMedia && processed.Some?
    ensures m.file.Some? ==> m.file == processed && m.embed.image == Some(AttachmentRef)
    ensures m.embed.image.Some? ==> m.file.Some?
    ensures m.embed.fields != [] <==> Branch(r) == ImageMedia && processed.None?
    ensures m.embed.fields != [] ==>
      m.embed.fields == [Field(LinkFieldName, "[Click here to view image](" + ImageUrl(r).value + ")", false)]
    ensures m.embed.url.Some? <==> Branch(r) == VideoMedia
    ensures m.embed.url.Some? ==> m.embed.url == ImageUrl(r)
    ensures m.embed.title == Title(r) + (if Branch(r) == VideoMedia then VideoSuffix else "")
  {
    var base := Embed(Title(r), Explanation(r), Footer(r.copyright, r.date), None, None, []);
    match Branch(r)
    case ImageMedia =>
      if processed.Some? then Message(base.(image := Some(AttachmentRef)), processed)
      else
        var link := Field(LinkFieldName, "[Click here to view image](" + ImageUrl(r).value + ")", false);
        Message(base.(fields := [link]), None)
    case VideoMedia => Message(base.(url := ImageUrl(r), title := base.title + VideoSuffix), None)
    case OtherMedia => Message(base, None)
  }

  /** A message carries at most one way to the picture: the attachment, the
      link field or the linked title. */
  lemma MediaIsExclusive(r: Record, processed: Option<EncodedImage>)
    ensures var m := Compose(r, processed);
      (if m.file.Some? then 1 else 0) + (if m.embed.fields != [] then 1 else 0)
        + (if m.embed.url.Some? then 1 else 0) <= 1
  {
  }

  /** An attachment produced by the pipeline is never over the ceiling, so a
      composed message never carries an oversized file. */
  lemma AttachedFileFits(r: Record, dl: Download, pngBytes: nat)
    requires Branch(r) == ImageMedia
    ensures var m := Compose(r, Process(ImageUrl(r).value, r.date.value, dl, pngBytes).file);
      m.file.Some? ==> m.file.value.byteCount <= MaxBytes && m.file.value.filename == AttachmentName
  {
  }
}
