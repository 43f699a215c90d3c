/** The clipboard payload model shared by the views and the helpers. */
module Typedef {
  import opened Wrappers

  /** Who produced a payload: this device's clipboard watcher or the relay. */
  datatype ClipboardSource = Local | Remote

  /** The kinds of clipboard content that are synchronised; there is no files kind. */
  datatype ClipboardDataType = Text | Image | Html | Rtf

  /**
   * One clipboard content unit: `content` is always present, `plaintext` may
   * be absent. Its type is declared to be one of the four tags, but nothing
   * checks that at run time, so a payload built from a relay event carries
   * whatever tag the event had; hence the tag is kept as text.
   */
  datatype ClipboardData = ClipboardData(
    tag: string,
    content: string,
    plaintext: Option<string>,
    source: ClipboardSource)

  /** The tags of the four kinds, as they travel on the wire. */
  const KindTags: set<string> := {"text", "image", "html", "rtf"}

  /** The tag a kind is written as in requests, server capability lists and the writer table. */
  function Tag(kind: ClipboardDataType): (tag: string)
    ensures tag in KindTags
    ensures KindOfTag(tag) == Some(kind)
  {
    match kind
    case Text => "text"
    case Image => "image"
    case Html => "html"
    case Rtf => "rtf"
  }

  /** The kind a tag names, if it names one. */
  function KindOfTag(tag: string): (kind: Option<ClipboardDataType>)
    ensures kind.Some? <==> tag in KindTags
    ensures tag == "files" ==> kind.None?
  {
    if tag == "text" then Some(Text)
    else if tag == "image" then Some(Image)
    else if tag == "html" then Some(Html)
    else if tag == "rtf" then Some(Rtf)
    else None
  }
}
