/** How the media pop-up (Front-end/src/components/Dashboard/MediaPopup.js)
    shows a post's attachments: by the extension of the file URL. */
module FeMediaPopup {
  import opened Wrappers
  import opened Strings

  /** `url.split('.').pop()`: the text after the last dot, or the whole URL
      when it has none. */
  function LastSegment(url: string): (r: string)
    ensures '.' !in r
    ensures |r| <= |url| && r == url[|url| - |r|..]
    ensures |r| < |url| ==> url[|url| - |r| - 1] == '.'
  {
    if url == [] then []
    else if url[|url| - 1] == '.' then []
    else LastSegment(url[..|url| - 1]) + [url[|url| - 1]]
  }

  /** The extension after the final dot is what `LastSegment` returns. */
  lemma {:induction false} SegmentOfDotted(prefix: string, ext: string)
    requires '.' !in ext
    ensures LastSegment(prefix + "." + ext) == ext
    decreases |ext|
  {
    var u := prefix + "." + ext;
    if ext == [] {
      assert u[|u| - 1] == '.';
    } else {
      assert u[..|u| - 1] == prefix + "." + ext[..|ext| - 1];
      SegmentOfDotted(prefix, ext[..|ext| - 1]);
      assert ext[..|ext| - 1] + [ext[|ext| - 1]] == ext;
    }
  }

  /** The type tested: the last segment in lower case. */
  function FileType(url: string): string {
    LowerAscii(LastSegment(url))
  }

  const ImageTypes := ["jpg", "jpeg", "png", "gif"]
  const VideoTypes := ["mp4", "webm", "ogg"]
  const AudioTypes := ["mp3", "wav", "ogg"]

  datatype Media = Nothing | Image(src: string) | Video(src: string) | Audio(src: string) | Download(src: string)

  /** `renderMedia`: nothing without a URL; otherwise image, video or audio
      by type, tried in that order, and a download link for anything else. */
  function RenderMedia(file: Option<string>): (m: Media)
    ensures (file.None? || file == Some("")) <==> m.Nothing?
    ensures m.Image? <==> file.Some? && file.value != "" && FileType(file.value) in ImageTypes
    ensures m.Video? <==> file.Some? && file.value != "" && FileType(file.value) !in ImageTypes
                          && FileType(file.value) in VideoTypes
    ensures m.Audio? <==> file.Some? && file.value != "" && FileType(file.value) !in ImageTypes
                          && FileType(file.value) !in VideoTypes && FileType(file.value) in AudioTypes
    ensures m.Download? <==> file.Some? && file.value != "" && FileType(file.value) !in ImageTypes
                             && FileType(file.value) !in VideoTypes && FileType(file.value) !in AudioTypes
    ensures m.Audio? ==> FileType(file.value) != "ogg"
    ensures !m.Nothing? ==> m.src == file.value
  {
    if file.None? || file.value == "" then Nothing
    else
      var t := FileType(file.value);
      if t in ImageTypes then Image(file.value)
      else if t in VideoTypes then Video(file.value)
      else if t in AudioTypes then Audio(file.value)
      else Download(file.value)
  }

  /** An `.ogg` file is always played as video; the audio branch never sees it. */
  lemma OggIsVideo(prefix: string)
    ensures RenderMedia(Some(prefix + ".ogg")).Video?
  {
    assert prefix + ".ogg" == prefix + "." + "ogg";
    SegmentOfDotted(prefix, "ogg");
    assert LowerAscii("ogg") == "ogg";
  }

  /** The case of the extension does not matter. */
  lemma ExtensionCaseIgnored(prefix: string, ext: string)
    requires '.' !in ext && '.' !in LowerAscii(ext)
    ensures FileType(prefix + "." + ext) == FileType(prefix + "." + LowerAscii(ext))
  {
    SegmentOfDotted(prefix, ext);
    SegmentOfDotted(prefix, LowerAscii(ext));
    LowerAsciiIdempotent(ext);
  }

  datatype PopupBody = NoMedia(text: string) | MediaList(items: seq<Media>)

  /** The pop-up's body: the "no media" text for an empty list, otherwise
      one rendering per attachment, in order. */
  function Popup(attachments: seq<Option<string>>): (b: PopupBody)
    ensures attachments == [] <==> b == NoMedia("مدیایی یافت نشد.")
    ensures b.MediaList? ==>
      |b.items| == |attachments| && forall i :: 0 <= i < |attachments| ==> b.items[i] == RenderMedia(attachments[i])
  {
    if attachments == [] then NoMedia("مدیایی یافت نشد.")
    else MediaList(seq(|attachments|, i requires 0 <= i < |attachments| => RenderMedia(attachments[i])))
  }
}
