/** Plain-text extraction from transcript entries. */
module MessageText {
  import opened Wrappers
  import opened Js
  import opened Messages

  /** `isTextPart`: a truthy object whose `type` is "text" and whose `text` is a string. */
  predicate IsTextPart(part: Value) {
    Truthy(part) && IsObjectType(part) && Get(part, "type") == Str("text") && Get(part, "text").Str?
  }

  /** The text a part contributes: its `text` if it is a text part, nothing otherwise. */
  function PartText(part: Value): string {
    if IsTextPart(part) then Get(part, "text").s else ""
  }

  /** The texts of the text parts, in order, joined with the empty string. */
  function JoinTexts(parts: seq<Value>): string {
    if |parts| == 0 then "" else PartText(parts[0]) + JoinTexts(parts[1..])
  }

  /** `extractTextFromParts`: "" unless `parts` is an array. */
  function ExtractTextFromParts(parts: Value): (r: string)
    ensures !parts.Arr? ==> r == ""
  {
    if parts.Arr? then JoinTexts(parts.elems) else ""
  }

  /** Extraction distributes over concatenation of part lists. */
  lemma {:induction false} JoinTextsAppend(a: seq<Value>, b: seq<Value>)
    ensures JoinTexts(a + b) == JoinTexts(a) + JoinTexts(b)
  {
    if |a| == 0 {
      assert a + b == b;
    } else {
      var head, restA, restB := PartText(a[0]), JoinTexts(a[1..]), JoinTexts(b);
      JoinTextsStep(a, b);
      JoinTextsAppend(a[1..], b);
      AppendAssociative(head, restA, restB);
    }
  }

  /** Concatenation of texts is associative. */
  lemma AppendAssociative(x: string, y: string, z: string)
    ensures x + (y + z) == (x + y) + z
  {
  }

  /** The first part of a non-empty list contributes its text in front of the rest. */
  lemma JoinTextsStep(a: seq<Value>, b: seq<Value>)
    requires |a| > 0
    ensures JoinTexts(a + b) == PartText(a[0]) + JoinTexts(a[1..] + b)
    ensures JoinTexts(a) == PartText(a[0]) + JoinTexts(a[1..])
  {
    assert (a + b)[0] == a[0];
    assert (a + b)[1..] == a[1..] + b;
  }

  /** With no text parts among them, parts extract to "". */
  lemma {:induction false} JoinTextsNoText(parts: seq<Value>)
    requires forall i :: 0 <= i < |parts| ==> !IsTextPart(parts[i])
    ensures JoinTexts(parts) == ""
  {
    if |parts| > 0 {
      JoinTextsNoText(parts[1..]);
    }
  }

  /** Extraction is non-empty exactly when some text part has non-empty text. */
  lemma {:induction false} JoinTextsEmptyIff(parts: seq<Value>)
    ensures JoinTexts(parts) == "" <==> forall i :: 0 <= i < |parts| ==> PartText(parts[i]) == ""
  {
    if |parts| > 0 {
      JoinTextsEmptyIff(parts[1..]);
      assert forall i :: 1 <= i < |parts| ==> parts[i] == parts[1..][i - 1];
    }
  }

  /** Appending one text part to an array appends its text. */
  lemma AppendTextPart(parts: seq<Value>, text: string)
    ensures ExtractTextFromParts(Arr(parts + [Obj([("type", Str("text")), ("text", Str(text))])]))
         == ExtractTextFromParts(Arr(parts)) + text
  {
    var p := Obj([("type", Str("text")), ("text", Str(text))]);
    JoinTextsAppend(parts, [p]);
    assert JoinTexts([p]) == PartText(p) + JoinTexts([p][1..]);
    assert [p][1..] == [];
    assert "type" != "text" by { assert "type"[1] != "text"[1]; }
    assert Get(p, "text") == Lookup(p.fields[1..], "text") == Str(text);
    assert IsTextPart(p);
  }

  /** `getFirstUserText`: the text of the first user entry that has any; `None` for null. */
  function FirstUserText(messages: seq<UIMessage>): (r: Option<string>)
    ensures r.Some? ==> r.value != ""
  {
    if |messages| == 0 then None
    else if messages[0].role == User && ExtractTextFromParts(messages[0].parts) != "" then
      Some(ExtractTextFromParts(messages[0].parts))
    else FirstUserText(messages[1..])
  }

  /** Whether entry `i` is a user entry with text. */
  predicate HasUserText(messages: seq<UIMessage>, i: int)
    requires 0 <= i < |messages|
  {
    messages[i].role == User && ExtractTextFromParts(messages[i].parts) != ""
  }

  /**
    The first user text is the text of the earliest user entry with text, and it is `None`
    exactly when no user entry has text; other roles never contribute.
   */
  lemma {:induction false} FirstUserTextSpec(messages: seq<UIMessage>)
    ensures FirstUserText(messages).None? <==> forall i :: 0 <= i < |messages| ==> !HasUserText(messages, i)
    ensures FirstUserText(messages).Some? ==>
      exists i :: 0 <= i < |messages| && HasUserText(messages, i)
        && FirstUserText(messages).value == ExtractTextFromParts(messages[i].parts)
        && forall j :: 0 <= j < i ==> !HasUserText(messages, j)
  {
    if |messages| > 0 {
      var tail := messages[1..];
      FirstUserTextSpec(tail);
      assert forall i :: 1 <= i < |messages| ==> (HasUserText(messages, i) <==> HasUserText(tail, i - 1));
      if !HasUserText(messages, 0) && FirstUserText(tail).Some? {
        var k :| 0 <= k < |tail| && HasUserText(tail, k)
          && FirstUserText(tail).value == ExtractTextFromParts(tail[k].parts)
          && forall j :: 0 <= j < k ==> !HasUserText(tail, j);
        assert HasUserText(messages, k + 1);
      }
    }
  }
}
