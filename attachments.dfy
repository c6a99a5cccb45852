/**
  Attachments in model messages: image and file parts are listed for the model as Markdown
  links, and video files are removed from user messages before the model sees them.
 */
module Attachments {
  import opened Wrappers
  import opened Text
  import opened Js
  import opened Messages

  datatype Kind = Image | Video

  /** What a part contributes as an attachment: its kind and the URL it points to, if any. */
  datatype Attachment = Attachment(kind: Kind, url: Option<string>)

  /** `!!p && typeof p === "object" && p.type === t`. */
  predicate HasType(p: Value, t: string) {
    Truthy(p) && IsObjectType(p) && Get(p, "type") == Str(t)
  }

  /** `toUrlString`: a string as itself, a `URL` as its text, anything else as nothing. */
  function ToUrlString(v: Value): (r: Option<string>)
    ensures r.Some? <==> v.Str? || v.Url?
  {
    match v
    case Str(s) => Some(s)
    case Url(href) => Some(href)
    case _ => None
  }

  /** `part.mediaType ?? part.mimeType ?? null`. */
  function MediaType(part: Value): Value {
    Coalesce(Get(part, "mediaType"), Coalesce(Get(part, "mimeType"), Null))
  }

  /** `toUrlString(part.url) ?? toUrlString(part.data)`: an explicit URL wins over inline data. */
  function FileUrlOrData(part: Value): (r: Option<string>)
    ensures ToUrlString(Get(part, "url")).Some? ==> r == ToUrlString(Get(part, "url"))
    ensures ToUrlString(Get(part, "url")).None? ==> r == ToUrlString(Get(part, "data"))
  {
    var url := ToUrlString(Get(part, "url"));
    if url.Some? then url else ToUrlString(Get(part, "data"))
  }

  /** `getAttachmentInfo`. */
  function AttachmentInfo(part: Value): (r: Option<Attachment>)
    ensures HasType(part, "image") ==> r == Some(Attachment(Image, ToUrlString(Get(part, "image"))))
    ensures var file := !HasType(part, "image") && HasType(part, "file") && MediaType(part).Str?;
      file && StartsWith(MediaType(part).s, "image/") ==> r == Some(Attachment(Image, FileUrlOrData(part)))
    ensures var file := !HasType(part, "image") && HasType(part, "file") && MediaType(part).Str?;
      file && !StartsWith(MediaType(part).s, "image/") && StartsWith(MediaType(part).s, "video/") ==>
        r == Some(Attachment(Video, FileUrlOrData(part)))
    ensures var file := HasType(part, "file") && MediaType(part).Str?;
      r.Some? ==> HasType(part, "image") || (file && (StartsWith(MediaType(part).s, "image/") || StartsWith(MediaType(part).s, "video/")))
  {
    if HasType(part, "image") then Some(Attachment(Image, ToUrlString(Get(part, "image"))))
    else if HasType(part, "file") then
      var mediaType := MediaType(part);
      if !mediaType.Str? then None
      else if StartsWith(mediaType.s, "image/") then Some(Attachment(Image, FileUrlOrData(part)))
      else if StartsWith(mediaType.s, "video/") then Some(Attachment(Video, FileUrlOrData(part)))
      else None
    else None
  }

  /** The Markdown line an attachment is listed as, with a placeholder when it has no URL. */
  function Label(a: Attachment): (r: string)
    ensures a.kind.Image? ==> StartsWith(r, "[Image](")
    ensures a.kind.Video? ==> StartsWith(r, "[Video](")
  {
    match a.kind
    case Image => "[Image](" + a.url.GetOr("(inline image)") + ")"
    case Video => "[Video](" + a.url.GetOr("(inline video)") + ")"
  }

  /** The lines a list of parts contributes, in order. */
  function PartLines(parts: seq<Value>): seq<string> {
    if |parts| == 0 then []
    else
      var info := AttachmentInfo(parts[|parts| - 1]);
      PartLines(parts[..|parts| - 1]) + (if info.Some? then [Label(info.value)] else [])
  }

  /** The lines a message contributes: none for string content. */
  function MessageLines(m: ModelMessage): seq<string> {
    if m.content.Parts? then PartLines(m.content.parts) else []
  }

  /** What `extractAttachments` collects, message by message. */
  function AttachmentLines(messages: seq<ModelMessage>): seq<string> {
    if |messages| == 0 then []
    else AttachmentLines(messages[..|messages| - 1]) + MessageLines(messages[|messages| - 1])
  }

  /** `extractAttachments`: the nested loop that pushes one line per attachment part. */
  method ExtractAttachments(messages: seq<ModelMessage>) returns (out: seq<string>)
    ensures out == AttachmentLines(messages)
  {
    out := [];
    for i := 0 to |messages|
      invariant out == AttachmentLines(messages[..i])
    {
      assert messages[..i + 1][..i] == messages[..i];
      var m := messages[i];
      if !m.content.Parts? {
        continue;
      }
      var parts := m.content.parts;
      for j := 0 to |parts|
        invariant out == AttachmentLines(messages[..i]) + PartLines(parts[..j])
      {
        assert parts[..j + 1][..j] == parts[..j];
        var info := AttachmentInfo(parts[j]);
        if info.None? {
          continue;
        }
        out := out + [Label(info.value)];
      }
      assert parts[..|parts|] == parts;
    }
    assert messages[..|messages|] == messages;
  }

  /** Listing distributes over concatenation of parts: the order of the parts is kept. */
  lemma {:induction false} PartLinesAppend(a: seq<Value>, b: seq<Value>)
    ensures PartLines(a + b) == PartLines(a) + PartLines(b)
    decreases |b|
  {
    if |b| == 0 {
      assert a + b == a;
    } else {
      var n := |b| - 1;
      assert (a + b)[..|a + b| - 1] == a + b[..n];
      PartLinesAppend(a, b[..n]);
      assert b[..n] + [b[n]] == b;
    }
  }

  /** Listing distributes over concatenation of messages: message order, then part order. */
  lemma {:induction false} AttachmentLinesAppend(a: seq<ModelMessage>, b: seq<ModelMessage>)
    ensures AttachmentLines(a + b) == AttachmentLines(a) + AttachmentLines(b)
    decreases |b|
  {
    if |b| == 0 {
      assert a + b == a;
    } else {
      var n := |b| - 1;
      assert (a + b)[..|a + b| - 1] == a + b[..n];
      assert (a + b)[|a + b| - 1] == b[n];
      AttachmentLinesAppend(a, b[..n]);
      assert AttachmentLines(b) == AttachmentLines(b[..n]) + MessageLines(b[n]);
    }
  }

  /** A single message with one image part whose `image` is a URL string lists exactly that URL. */
  lemma OneImage(role: ModelRole, url: string)
    ensures AttachmentLines([ModelMessage(role, Parts([Obj([("type", Str("image")), ("image", Str(url))])]))])
      == ["[Image](" + url + ")"]
  {
    var part := Obj([("type", Str("image")), ("image", Str(url))]);
    assert Get(part, "type") == Str("image");
    assert part.fields[1..] == [("image", Str(url))];
    assert "type"[0] != "image"[0];
    assert Lookup(part.fields, "image") == Lookup(part.fields[1..], "image") == Str(url);
    assert HasType(part, "image");
    assert AttachmentInfo(part) == Some(Attachment(Image, Some(url)));
    assert [part][..0] == [];
    assert PartLines([part]) == [Label(Attachment(Image, Some(url)))];
    var ms := [ModelMessage(role, Parts([part]))];
    assert ms[..0] == [];
    assert AttachmentLines(ms) == MessageLines(ms[0]);
  }

  /** A message with string content lists nothing. */
  lemma TextContentListsNothing(role: ModelRole, text: string)
    ensures AttachmentLines([ModelMessage(role, Text(text))]) == []
  {
    var ms := [ModelMessage(role, Text(text))];
    assert ms[..0] == [];
  }

  /** The four-digit lower-case hexadecimal escape JSON uses for control characters. */
  function HexDigit(d: nat): char
    requires d < 16
  {
    if d < 10 then ('0' as int + d) as char else ('a' as int + d - 10) as char
  }

  /** How `JSON.stringify` writes one character inside a string literal. */
  function EscapeChar(c: char): (r: string)
    ensures c != '"' && c != '\\' && c as int >= 0x20 ==> r == [c]
  {
    if c == '"' then "\\\""
    else if c == '\\' then "\\\\"
    else if c as int == 0x08 then "\\b"
    else if c as int == 0x0C then "\\f"
    else if c == '\n' then "\\n"
    else if c == '\r' then "\\r"
    else if c == '\t' then "\\t"
    else if c as int < 0x20 then "\\u00" + [HexDigit(c as int / 16), HexDigit(c as int % 16)]
    else [c]
  }

  function EscapeChars(s: string): string {
    if |s| == 0 then "" else EscapeChars(s[..|s| - 1]) + EscapeChar(s[|s| - 1])
  }

  /** `JSON.stringify(s)` for a string. */
  function Quote(s: string): string {
    "\"" + EscapeChars(s) + "\""
  }

  /** A character needs no escape when it is neither a quote, a backslash nor a control character. */
  predicate Plain(s: string) {
    forall i :: 0 <= i < |s| ==> s[i] != '"' && s[i] != '\\' && s[i] as int >= 0x20
  }

  /** Text without quotes, backslashes or control characters is written verbatim between quotes. */
  lemma {:induction false} QuotePlain(s: string)
    requires Plain(s)
    ensures Quote(s) == "\"" + s + "\""
  {
    EscapePlain(s);
  }

  lemma {:induction false} EscapePlain(s: string)
    requires Plain(s)
    ensures EscapeChars(s) == s
    decreases |s|
  {
    if |s| > 0 {
      EscapePlain(s[..|s| - 1]);
      assert s[..|s| - 1] + [s[|s| - 1]] == s;
    }
  }

  /** `JSON.stringify(xs)` for an array of strings. */
  function QuoteAll(xs: seq<string>): (r: string)
    ensures |r| >= 2 && r[0] == '[' && r[|r| - 1] == ']'
  {
    "[" + Join(seq(|xs|, i requires 0 <= i < |xs| => Quote(xs[i])), ",") + "]"
  }

  const AttachmentsHeading := "Here is the list of all the attachments: "

  /** `getAttachmentsPrompt`: no prompt without attachments, else one system message listing them as JSON. */
  function AttachmentsPrompt(messages: seq<ModelMessage>): (r: Option<ModelMessage>)
    ensures r.None? <==> AttachmentLines(messages) == []
    ensures r.Some? ==> r.value == SystemMessage(AttachmentsHeading + QuoteAll(AttachmentLines(messages)))
  {
    var lines := AttachmentLines(messages);
    if |lines| == 0 then None else Some(SystemMessage(AttachmentsHeading + QuoteAll(lines)))
  }

  predicate IsVideo(part: Value) {
    var info := AttachmentInfo(part);
    info.Some? && info.value.kind.Video?
  }

  /** The parts without video files, in their original order. */
  function WithoutVideos(parts: seq<Value>): (r: seq<Value>)
    ensures |r| <= |parts|
    ensures forall p :: p in r ==> p in parts && !IsVideo(p)
    ensures forall p :: p in parts && !IsVideo(p) ==> p in r
  {
    if |parts| == 0 then []
    else if IsVideo(parts[0]) then WithoutVideos(parts[1..])
    else [parts[0]] + WithoutVideos(parts[1..])
  }

  /** Filtering distributes over concatenation, so the kept parts keep their order. */
  lemma {:induction false} WithoutVideosAppend(a: seq<Value>, b: seq<Value>)
    ensures WithoutVideos(a + b) == WithoutVideos(a) + WithoutVideos(b)
    decreases |a|
  {
    if |a| == 0 {
      assert a + b == b;
    } else {
      assert (a + b)[1..] == a[1..] + b;
      WithoutVideosAppend(a[1..], b);
    }
  }

  /** Parts that are not videos are all kept. */
  lemma {:induction false} WithoutVideosKeepsOthers(parts: seq<Value>)
    requires forall i :: 0 <= i < |parts| ==> !IsVideo(parts[i])
    ensures WithoutVideos(parts) == parts
    decreases |parts|
  {
    if |parts| > 0 {
      WithoutVideosKeepsOthers(parts[1..]);
    }
  }

  /** The user message's content with its video parts removed; any other message unchanged. */
  function StripVideos(m: ModelMessage): ModelMessage {
    if m.role != ModelUser || m.content.Text? then m
    else ModelMessage(m.role, Parts(WithoutVideos(m.content.parts)))
  }

  /**
    `getMessagesWithoutVideos`: as many messages as before, each with its role; only user
    messages with part lists change, and only by losing video parts.
   */
  function MessagesWithoutVideos(messages: seq<ModelMessage>): (r: seq<ModelMessage>)
    ensures |r| == |messages|
    ensures forall i :: 0 <= i < |r| ==> r[i].role == messages[i].role
    ensures forall i :: 0 <= i < |r| && (messages[i].role != ModelUser || messages[i].content.Text?) ==>
      r[i] == messages[i]
    ensures forall i :: 0 <= i < |r| && messages[i].role == ModelUser && messages[i].content.Parts? ==>
      r[i].content.Parts? && forall p :: p in r[i].content.parts ==> p in messages[i].content.parts && !IsVideo(p)
    ensures forall i :: 0 <= i < |r| && messages[i].role == ModelUser && messages[i].content.Parts? ==>
      r[i].content == Parts(WithoutVideos(messages[i].content.parts))
  {
    seq(|messages|, i requires 0 <= i < |messages| => StripVideos(messages[i]))
  }
}
