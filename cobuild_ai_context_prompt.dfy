/**
  The live-stats system prompt: built from the snapshot, it quotes the endpoint's own prompt text
  verbatim when there is one and embeds the whole snapshot as indented JSON; without data it is
  a one-line notice carrying the error.
 */
module CobuildAiContextPrompt {
  import opened Wrappers
  import opened Text
  import opened Js
  import opened CobuildAiContext

  /** The notice for a snapshot without data. */
  function UnavailableNotice(error: Option<string>): (r: string)
    ensures error.Some? ==> r == "Cobuild live stats unavailable: " + error.value + "."
    ensures error.None? ==> r == "Cobuild live stats unavailable: unknown error."
  {
    "Cobuild live stats unavailable: " + error.GetOr("unknown error") + "."
  }

  /** `data.prompt` when it is a string with non-blank content, else "Unavailable.". */
  function PromptText(data: Value): (r: string)
    ensures Get(data, "prompt").Str? && Trim(Get(data, "prompt").s) != "" ==> r == Get(data, "prompt").s
    ensures !(Get(data, "prompt").Str? && Trim(Get(data, "prompt").s) != "") ==> r == "Unavailable."
  {
    var p := Get(data, "prompt");
    if p.Str? && Trim(p.s) != "" then p.s else "Unavailable."
  }

  /** The lines of the prompt for a snapshot with data, given the data's indented JSON. */
  function PromptLines(data: Value, indented: string): (lines: seq<string>)
    ensures |lines| == 12 && lines[4] == PromptText(data) && lines[8] == indented
    ensures lines[0] == "# Cobuild live stats (snapshot)" && lines[1] == "Source: " + ContextUrl
  {
    ["# Cobuild live stats (snapshot)", "Source: " + ContextUrl, "", "## API prompt (verbatim)", PromptText(data), "",
     "## Full response JSON", "```json", indented, "```", "",
     "Use the getCobuildAiContext tool to refresh when you need the most recent data."]
  }

  /**
    cobuildAiContextPrompt, given the snapshot and `JSON.stringify(_, null, 2)` as `indent`
    (`None` where it throws).
   */
  function CobuildAiContextPrompt(snapshot: Snapshot, indent: Value -> Option<string>): (r: Result<string>)
    ensures !Truthy(snapshot.data) ==> r == Ok(UnavailableNotice(snapshot.error))
    ensures Truthy(snapshot.data) && indent(snapshot.data).None? ==> r.Err?
    ensures Truthy(snapshot.data) && indent(snapshot.data).Some? ==>
      r == Ok(Join(PromptLines(snapshot.data, indent(snapshot.data).value), "\n"))
  {
    if !Truthy(snapshot.data) then Ok(UnavailableNotice(snapshot.error))
    else match indent(snapshot.data)
      case None => Err("JSON.stringify failed")
      case Some(text) => Ok(Join(PromptLines(snapshot.data, text), "\n"))
  }

  /** A prompt field of blanks only is replaced by "Unavailable.". */
  lemma BlankPromptUnavailable(data: Value)
    requires Get(data, "prompt") == Str("   ")
    ensures PromptText(data) == "Unavailable."
  {
    assert Trim("   ") == "" by {
      TrimEmptyIffAllSpace("   ");
    }
  }
}
