/**
  Helpers of the chat send route: the text shown when a stream fails, usage recording after a
  stream, mobile detection, the message list sent to the model, and the reasoning timer.
 */
module ChatHelpers {
  import opened Wrappers
  import opened Text
  import opened Js
  import opened Messages
  import opened Attachments
  import opened KvStore
  import RateLimit
  import AiRateLimit

  const ChatPersistError := "We couldn't save this chat. Please retry."
  const StreamFailed := "Chat failed to send. Please try again."

  /** `streamErrorMessage`: an `Error`'s own message when it has one, else the generic text; never empty. */
  function StreamErrorMessage(error: Value): (r: string)
    ensures error.Error? && error.message != "" ==> r == error.message
    ensures !(error.Error? && error.message != "") ==> r == StreamFailed
    ensures r != ""
  {
    if error.Error? && error.message != "" then error.message else StreamFailed
  }

  /**
    `recordUsageIfPresent`, once the usage is known: a missing or zero token count records
    nothing, any other count is recorded unchanged against the caller's address.
   */
  method RecordUsageIfPresent(store: Store, totalTokens: Option<int>, address: string, now: int)
    returns (r: Result<()>)
    modifies store
    ensures (totalTokens.None? || totalTokens.value == 0) ==> r == Ok(()) && store.entries == old(store.entries)
    ensures totalTokens.Some? && totalTokens.value != 0 ==>
      (store.entries, r) == RateLimit.RecordSpec(old(store.entries), AiRateLimit.AddressKey(address), totalTokens.value, now)
  {
    if totalTokens.None? || totalTokens.value == 0 {
      return Ok(());
    }
    r := AiRateLimit.RecordAiUsage(store, address, totalTokens.value, now);
  }

  /** The words that mark a mobile user agent. */
  const MobileMarkers := ["Android", "webOS", "iPhone", "iPad", "iPod", "BlackBerry", "IEMobile", "Opera Mini", "Mobile"]

  /**
    The case-insensitive test of the user agent against the markers. A regular expression with
    the `i` flag and no `u` flag folds only ASCII letters onto ASCII letters, as `Lower` does.
   */
  predicate IsMobileUserAgent(userAgent: Option<string>) {
    userAgent.Some? && userAgent.value != ""
    && exists k :: 0 <= k < |MobileMarkers| && Contains(Lower(userAgent.value), Lower(MobileMarkers[k]))
  }

  /** An explicit "mobile" or "desktop" device header wins; otherwise the user agent decides. */
  function ResolveIsMobileRequest(clientDevice: Header, userAgent: Option<string>): (r: bool)
    ensures clientDevice.One? && Lower(clientDevice.text) == "mobile" ==> r
    ensures clientDevice.One? && Lower(clientDevice.text) == "desktop" ==> !r
    ensures !(clientDevice.One? && Lower(clientDevice.text) in {"mobile", "desktop"}) ==> (r <==> IsMobileUserAgent(userAgent))
  {
    var device := HeaderString(clientDevice);
    if device.Some? && Lower(device.value) == "mobile" then true
    else if device.Some? && Lower(device.value) == "desktop" then false
    else IsMobileUserAgent(userAgent)
  }

  /** Any agent containing "Mobile" is mobile, whatever surrounds it. */
  lemma MobileAnywhere(before: string, after: string)
    ensures IsMobileUserAgent(Some(before + "Mobile" + after))
  {
    var ua := before + "Mobile" + after;
    LowerAppend(before + "Mobile", after);
    LowerAppend(before, "Mobile");
    assert Lower("Mobile") == "mobile";
    assert Lower(ua) == Lower(before) + "mobile" + Lower(after);
    assert Lower(ua)[|before|..|before| + 6] == "mobile";
    assert OccursAt(Lower(ua), Lower(MobileMarkers[8]), |before|);
  }

  /** Mobile detection ignores the case of the user agent. */
  lemma MobileIgnoresCase(ua: string)
    ensures IsMobileUserAgent(Some(ua)) <==> IsMobileUserAgent(Some(Lower(ua)))
  {
    LowerIdempotent(ua);
  }

  /** The device header is compared without regard to case. */
  lemma DesktopHeaderWins(userAgent: Option<string>)
    ensures !ResolveIsMobileRequest(One("DESKTOP"), userAgent)
  {
    assert Lower("DESKTOP") == "desktop";
  }

  /** The optional "Additional context" system message, present only when the trimmed context is not empty. */
  function ContextPrompt(context: Option<string>): (r: seq<ModelMessage>)
    ensures |r| <= 1
    ensures |r| == 1 <==> context.Some? && Trim(context.value) != ""
    ensures |r| == 1 ==> r[0] == SystemMessage("Additional context: " + Trim(context.value))
  {
    if context.Some? && Trim(context.value) != "" then [SystemMessage("Additional context: " + Trim(context.value))]
    else []
  }

  function OptionToSeq(m: Option<ModelMessage>): seq<ModelMessage> {
    if m.Some? then [m.value] else []
  }

  /**
    `buildStreamMessages`: the agent's system prompts, then the context prompt, then the
    attachments prompt, then the conversation with videos removed, each part only as present.
   */
  function BuildStreamMessages(system: seq<ModelMessage>, modelMessages: seq<ModelMessage>, context: Option<string>)
    : (r: seq<ModelMessage>)
    ensures |r| == |system| + |ContextPrompt(context)| + |OptionToSeq(AttachmentsPrompt(modelMessages))| + |modelMessages|
    ensures r[..|system|] == system
    ensures r[|system|..|system| + |ContextPrompt(context)|] == ContextPrompt(context)
    ensures AttachmentsPrompt(modelMessages).Some? ==>
      r[|system| + |ContextPrompt(context)|] == AttachmentsPrompt(modelMessages).value
    ensures r[|r| - |modelMessages|..] == MessagesWithoutVideos(modelMessages)
  {
    var contextPrompt, attachments, rest :=
      ContextPrompt(context), OptionToSeq(AttachmentsPrompt(modelMessages)), MessagesWithoutVideos(modelMessages);
    FourPieces(system, contextPrompt, attachments, rest);
    system + contextPrompt + attachments + rest
  }

  /** Where each of four concatenated pieces sits in the whole. */
  lemma FourPieces(a: seq<ModelMessage>, b: seq<ModelMessage>, c: seq<ModelMessage>, d: seq<ModelMessage>)
    ensures var w := a + b + c + d;
      && |w| == |a| + |b| + |c| + |d|
      && w[..|a|] == a
      && w[|a|..|a| + |b|] == b
      && (|c| > 0 ==> w[|a| + |b|] == c[0])
      && w[|w| - |d|..] == d
  {
  }

  /** Without context or attachments the model sees the system prompts and the conversation, nothing else. */
  lemma PlainConversation(system: seq<ModelMessage>, modelMessages: seq<ModelMessage>)
    requires AttachmentLines(modelMessages) == []
    ensures BuildStreamMessages(system, modelMessages, None) == system + MessagesWithoutVideos(modelMessages)
  {
  }

  /** The reasoning time reported on "finish": the time since start, never negative. */
  function Elapsed(startedAt: int, now: int): (r: nat)
    ensures now >= startedAt ==> r == now - startedAt
    ensures now < startedAt ==> r == 0
  {
    if now >= startedAt then now - startedAt else 0
  }

  /** `createReasoningTracker`: the start time it last saw and the part handler. */
  class ReasoningTracker {
    var startedAt: int

    constructor (now: int)
      ensures startedAt == now
    {
      startedAt := now;
    }

    /** `trackPart`: "start" restarts the timer, "finish" reports the elapsed time, nothing else does anything. */
    method TrackPart(partType: string, now: int) returns (r: Option<nat>)
      modifies this
      ensures partType == "start" ==> r.None? && startedAt == now
      ensures partType != "start" ==> startedAt == old(startedAt)
      ensures partType != "start" && partType != "finish" ==> r.None?
      ensures partType == "finish" ==> r == Some(Elapsed(old(startedAt), now))
    {
      if partType == "start" {
        startedAt := now;
        return None;
      }
      if partType != "finish" {
        return None;
      }
      r := Some(Elapsed(startedAt, now));
    }
  }
}
