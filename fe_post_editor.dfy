/** The post editor form (Front-end/src/components/Dashboard/PostEditor.js):
    channel selection, the attached files, the checks made before sending
    and the multipart form it sends to `/posts/create/`. */
module FePostEditor {
  import opened Wrappers
  import opened Strings

  predicate NoDuplicates<T(==)>(s: seq<T>) {
    forall i, j :: 0 <= i < j < |s| ==> s[i] != s[j]
  }

  /** `prev.filter(id => id !== x)`. */
  function Without(s: seq<nat>, x: nat): (r: seq<nat>)
    ensures x !in r
    ensures forall y :: y != x ==> (y in r <==> y in s)
    ensures |r| <= |s|
    ensures x !in s ==> r == s
    ensures NoDuplicates(s) ==> NoDuplicates(r)
  {
    if s == [] then []
    else if s[0] == x then Without(s[1..], x)
    else
      assert NoDuplicates(s) ==> s[0] !in s[1..] && NoDuplicates(s[1..]);
      [s[0]] + Without(s[1..], x)
  }

  /** `toggleChannel`: drop the id when selected, append it otherwise. */
  function Toggled(selected: seq<nat>, id: nat): (r: seq<nat>)
    ensures id in r <==> id !in selected
    ensures forall y :: y != id ==> (y in r <==> y in selected)
    ensures NoDuplicates(selected) ==> NoDuplicates(r)
  {
    if id in selected then Without(selected, id) else selected + [id]
  }

  /** Selecting a channel and toggling it again restores the selection. */
  lemma ToggleTwice(selected: seq<nat>, id: nat)
    requires id !in selected
    ensures Toggled(Toggled(selected, id), id) == selected
  {
    assert Toggled(selected, id) == selected + [id];
    WithoutAppended(selected, id);
  }

  lemma {:induction false} WithoutAppended(s: seq<nat>, x: nat)
    requires x !in s
    ensures Without(s + [x], x) == s
  {
    if s == [] {
      assert [] + [x] == [x];
      assert Without([x], x) == Without([x][1..], x);
    } else {
      assert (s + [x])[1..] == s[1..] + [x];
      WithoutAppended(s[1..], x);
    }
  }

  /** `removeFile(index)`: keeps every file but the one at `index`. */
  function RemoveAt<T>(files: seq<T>, index: int): (r: seq<T>)
    ensures 0 <= index < |files| ==> |r| == |files| - 1
    ensures 0 <= index < |files| ==> forall j :: 0 <= j < index ==> r[j] == files[j]
    ensures 0 <= index < |files| ==> forall j :: index <= j < |r| ==> r[j] == files[j + 1]
    ensures !(0 <= index < |files|) ==> r == files
  {
    if 0 <= index < |files| then files[..index] + files[index + 1..] else files
  }

  /** The checks of `handleSubmit`, in order: a channel, some content, and
      files when media is on. None when the form may be sent. */
  function SubmitCheck(selected: seq<nat>, content: string, hasMedia: bool, files: seq<string>): (r: Option<string>)
    ensures r.None? <==> |selected| > 0 && (content != "" || hasMedia) && (hasMedia ==> |files| > 0)
    ensures |selected| == 0 ==> r == Some("لطفاً حداقل یک کانال انتخاب کنید")
  {
    if |selected| == 0 then Some("لطفاً حداقل یک کانال انتخاب کنید")
    else if content == "" && !hasMedia then Some("لطفاً متن پست را وارد کنید یا فایل رسانه‌ای انتخاب کنید")
    else if hasMedia && |files| == 0 then Some("لطفاً فایل رسانه‌ای انتخاب کنید")
    else None
  }

  /** One entry of the multipart form: a text field or an attached file. */
  datatype Part = TextPart(name: string, value: string) | FilePart(name: string, file: string)

  function ChannelParts(selected: seq<nat>): seq<Part> {
    seq(|selected|, i requires 0 <= i < |selected| => TextPart("channels", NatToString(selected[i])))
  }

  function FileParts(files: seq<string>): seq<Part> {
    seq(|files|, i requires 0 <= i < |files| => FilePart("media_files", files[i]))
  }

  /** `types` and, for media, the files. */
  function KindParts(hasMedia: bool, files: seq<string>): seq<Part> {
    if hasMedia then [TextPart("types", "media")] + FileParts(files) else [TextPart("types", "text")]
  }

  function ScheduleParts(isScheduled: bool, scheduledTime: string): seq<Part> {
    if isScheduled && scheduledTime != "" then [TextPart("scheduled_time", scheduledTime)] else []
  }

  /** The form `handleSubmit` sends. */
  function Payload(content: string, selected: seq<nat>, hasMedia: bool, files: seq<string>,
                   isScheduled: bool, scheduledTime: string): seq<Part>
  {
    [TextPart("content", content)] + ChannelParts(selected) + KindParts(hasMedia, files)
    + ScheduleParts(isScheduled, scheduledTime)
  }

  /** The text values of the fields called `name`, in order. */
  function Values(form: seq<Part>, name: string): seq<string> {
    if form == [] then []
    else (if form[0].TextPart? && form[0].name == name then [form[0].value] else []) + Values(form[1..], name)
  }

  /** The attached files, in order. */
  function Files(form: seq<Part>): seq<string> {
    if form == [] then [] else (if form[0].FilePart? then [form[0].file] else []) + Files(form[1..])
  }

  lemma {:induction false} ValuesAppend(a: seq<Part>, b: seq<Part>, name: string)
    ensures Values(a + b, name) == Values(a, name) + Values(b, name)
    ensures Files(a + b) == Files(a) + Files(b)
  {
    if a == [] {
      assert a + b == b;
    } else {
      assert (a + b)[1..] == a[1..] + b;
      ValuesAppend(a[1..], b, name);
    }
  }

  lemma {:induction false} ChannelPartsValues(selected: seq<nat>, name: string)
    ensures Values(ChannelParts(selected), name) == (if name == "channels" then Strs(selected) else [])
    ensures Files(ChannelParts(selected)) == []
  {
    if selected != [] {
      assert ChannelParts(selected)[1..] == ChannelParts(selected[1..]);
      ChannelPartsValues(selected[1..], name);
    }
  }

  lemma {:induction false} FilePartsValues(files: seq<string>, name: string)
    ensures Values(FileParts(files), name) == []
    ensures Files(FileParts(files)) == files
  {
    if files != [] {
      assert FileParts(files)[1..] == FileParts(files[1..]);
      FilePartsValues(files[1..], name);
    }
  }

  function Strs(ids: seq<nat>): (r: seq<string>)
    ensures |r| == |ids|
  {
    if ids == [] then [] else [NatToString(ids[0])] + Strs(ids[1..])
  }

  lemma PayloadSplit(content: string, selected: seq<nat>, hasMedia: bool, files: seq<string>,
                      isScheduled: bool, scheduledTime: string, name: string)
    ensures var form := Payload(content, selected, hasMedia, files, isScheduled, scheduledTime);
      && Values(form, name) == Values([TextPart("content", content)], name) + Values(ChannelParts(selected), name)
                               + Values(KindParts(hasMedia, files), name) + Values(ScheduleParts(isScheduled, scheduledTime), name)
      && Files(form) == Files(ChannelParts(selected)) + Files(KindParts(hasMedia, files))
  {
    var head: seq<Part> := [TextPart("content", content)];
    var kind := KindParts(hasMedia, files);
    var tail := ScheduleParts(isScheduled, scheduledTime);
    ValuesAppend(head + ChannelParts(selected) + kind, tail, name);
    ValuesAppend(head + ChannelParts(selected), kind, name);
    ValuesAppend(head, ChannelParts(selected), name);
    assert Files(head) == [] by { assert head[1..] == []; }
    assert Files(tail) == [] by { if tail != [] { assert tail[1..] == []; } }
  }

  lemma KindValues(hasMedia: bool, files: seq<string>, name: string)
    ensures Values(KindParts(hasMedia, files), name) == (if name == "types" then [if hasMedia then "media" else "text"] else [])
    ensures Files(KindParts(hasMedia, files)) == (if hasMedia then files else [])
  {
    FilePartsValues(files, name);
    var t := if hasMedia then "media" else "text";
    assert Values([TextPart("types", t)], name) == (if name == "types" then [t] else []) by {
      assert [TextPart("types", t)][1..] == [];
    }
    assert Files([TextPart("types", t)]) == [] by {
      assert [TextPart("types", t)][1..] == [];
    }
    if hasMedia {
      ValuesAppend([TextPart("types", "media")], FileParts(files), name);
    }
  }

  /** The fields of the form: one `content` (empty when there is no text),
      one `channels` per selected id in order, `types` naming the kind, the
      files only for media, and `scheduled_time` only when scheduling is on
      with a time. */
  lemma PayloadFields(content: string, selected: seq<nat>, hasMedia: bool, files: seq<string>,
                      isScheduled: bool, scheduledTime: string)
    ensures var form := Payload(content, selected, hasMedia, files, isScheduled, scheduledTime);
      && Values(form, "content") == [content]
      && Values(form, "channels") == Strs(selected)
      && Values(form, "types") == [if hasMedia then "media" else "text"]
      && Files(form) == (if hasMedia then files else [])
      && Values(form, "scheduled_time") == (if isScheduled && scheduledTime != "" then [scheduledTime] else [])
  {
    PayloadValues(content, selected, hasMedia, files, isScheduled, scheduledTime, "content");
    PayloadValues(content, selected, hasMedia, files, isScheduled, scheduledTime, "channels");
    PayloadValues(content, selected, hasMedia, files, isScheduled, scheduledTime, "types");
    PayloadValues(content, selected, hasMedia, files, isScheduled, scheduledTime, "scheduled_time");
  }

  lemma PayloadValues(content: string, selected: seq<nat>, hasMedia: bool, files: seq<string>,
                      isScheduled: bool, scheduledTime: string, name: string)
    ensures Values(Payload(content, selected, hasMedia, files, isScheduled, scheduledTime), name)
         == (if name == "content" then [content] else []) + (if name == "channels" then Strs(selected) else [])
            + (if name == "types" then [if hasMedia then "media" else "text"] else [])
            + (if name == "scheduled_time" && isScheduled && scheduledTime != "" then [scheduledTime] else [])
    ensures Files(Payload(content, selected, hasMedia, files, isScheduled, scheduledTime)) == (if hasMedia then files else [])
  {
    var head: seq<Part> := [TextPart("content", content)];
    assert head[1..] == [];
    assert Values(head, name) == (if name == "content" then [content] else []);
    var tail := ScheduleParts(isScheduled, scheduledTime);
    assert tail != [] ==> tail[1..] == [];
    assert Values(tail, name) == (if name == "scheduled_time" && isScheduled && scheduledTime != "" then [scheduledTime] else []);
    PayloadSplit(content, selected, hasMedia, files, isScheduled, scheduledTime, name);
    ChannelPartsValues(selected, name);
    KindValues(hasMedia, files, name);
  }

  /** Builds the form as `handleSubmit` does, appending to it field by field. */
  method BuildForm(content: string, selected: seq<nat>, hasMedia: bool, files: seq<string>,
                   isScheduled: bool, scheduledTime: string) returns (form: seq<Part>)
    ensures form == Payload(content, selected, hasMedia, files, isScheduled, scheduledTime)
  {
    form := [TextPart("content", if content != "" then content else "")];
    for i := 0 to |selected|
      invariant form == [TextPart("content", content)] + ChannelParts(selected[..i])
    {
      assert ChannelParts(selected[..i + 1]) == ChannelParts(selected[..i]) + [TextPart("channels", NatToString(selected[i]))];
      form := form + [TextPart("channels", NatToString(selected[i]))];
    }
    assert selected[..|selected|] == selected;
    var base := form;
    if hasMedia {
      form := form + [TextPart("types", "media")];
      for i := 0 to |files|
        invariant form == base + [TextPart("types", "media")] + FileParts(files[..i])
      {
        assert FileParts(files[..i + 1]) == FileParts(files[..i]) + [FilePart("media_files", files[i])];
        form := form + [FilePart("media_files", files[i])];
      }
      assert files[..|files|] == files;
    } else {
      form := form + [TextPart("types", "text")];
    }
    if isScheduled && scheduledTime != "" {
      form := form + [TextPart("scheduled_time", scheduledTime)];
    }
  }

  const Created := "پست با موفقیت ایجاد شد"

  /** The editor's state. */
  class Editor {
    var selected: seq<nat>
    var content: string
    var hasMedia: bool
    var isScheduled: bool
    var scheduledTime: string
    var files: seq<string>
    var message: string

    constructor ()
      ensures selected == [] && content == "" && !hasMedia && !isScheduled && scheduledTime == ""
      ensures files == [] && message == ""
    {
      selected := [];
      content := "";
      hasMedia := false;
      isScheduled := false;
      scheduledTime := "";
      files := [];
      message := "";
    }

    predicate Valid()
      reads this
    {
      NoDuplicates(selected) && (!hasMedia ==> files == [])
    }

    method ToggleChannel(id: nat)
      requires Valid()
      modifies this
      ensures Valid()
      ensures selected == Toggled(old(selected), id)
      ensures content == old(content) && hasMedia == old(hasMedia) && files == old(files)
      ensures isScheduled == old(isScheduled) && scheduledTime == old(scheduledTime) && message == old(message)
    {
      selected := Toggled(selected, id);
    }

    /** The media box; unchecking it drops the chosen files. */
    method SetHasMedia(on: bool)
      requires Valid()
      modifies this
      ensures Valid()
      ensures hasMedia == on
      ensures files == (if on then old(files) else [])
      ensures selected == old(selected) && content == old(content) && message == old(message)
      ensures isScheduled == old(isScheduled) && scheduledTime == old(scheduledTime)
    {
      hasMedia := on;
      if !on {
        files := [];
      }
    }

    /** `handleFileChange`: the picked files are added after the others. */
    method AddFiles(picked: seq<string>)
      requires Valid() && hasMedia
      modifies this
      ensures Valid()
      ensures files == old(files) + picked
      ensures selected == old(selected) && content == old(content) && hasMedia == old(hasMedia)
      ensures isScheduled == old(isScheduled) && scheduledTime == old(scheduledTime) && message == old(message)
    {
      files := files + picked;
    }

    method RemoveFile(index: int)
      requires Valid()
      modifies this
      ensures Valid()
      ensures files == RemoveAt(old(files), index)
      ensures selected == old(selected) && content == old(content) && hasMedia == old(hasMedia)
      ensures isScheduled == old(isScheduled) && scheduledTime == old(scheduledTime) && message == old(message)
    {
      files := RemoveAt(files, index);
    }

    /** `handleSubmit`. `serverError` is None when the server accepts the
        post and otherwise the text shown for its refusal. A refused check
        sends nothing; a success clears every field of the form. */
    method Submit(serverError: Option<string>) returns (sent: Option<seq<Part>>)
      requires Valid()
      modifies this
      ensures Valid()
      ensures SubmitCheck(old(selected), old(content), old(hasMedia), old(files)).Some? ==>
        && sent.None?
        && message == SubmitCheck(old(selected), old(content), old(hasMedia), old(files)).value
        && selected == old(selected) && content == old(content) && hasMedia == old(hasMedia) && files == old(files)
        && isScheduled == old(isScheduled) && scheduledTime == old(scheduledTime)
      ensures SubmitCheck(old(selected), old(content), old(hasMedia), old(files)).None? ==>
        sent == Some(Payload(old(content), old(selected), old(hasMedia), old(files), old(isScheduled), old(scheduledTime)))
      ensures SubmitCheck(old(selected), old(content), old(hasMedia), old(files)).None? && serverError.None? ==>
        && message == Created && selected == [] && content == "" && !hasMedia && files == []
        && !isScheduled && scheduledTime == ""
      ensures SubmitCheck(old(selected), old(content), old(hasMedia), old(files)).None? && serverError.Some? ==>
        && message == serverError.value
        && selected == old(selected) && content == old(content) && hasMedia == old(hasMedia) && files == old(files)
        && isScheduled == old(isScheduled) && scheduledTime == old(scheduledTime)
    {
      var refusal := SubmitCheck(selected, content, hasMedia, files);
      if refusal.Some? {
        message := refusal.value;
        return None;
      }
      message := "";
      var form := BuildForm(content, selected, hasMedia, files, isScheduled, scheduledTime);
      sent := Some(form);
      if serverError.None? {
        message := Created;
        content := "";
        files := [];
        hasMedia := false;
        isScheduled := false;
        scheduledTime := "";
        selected := [];
      } else {
        message := serverError.value;
      }
    }
  }
}
