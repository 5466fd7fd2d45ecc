/** The conversation logic of the bot: asking the completion service with
    the user's recent history (`ask_gpt`) and routing one incoming text
    (`process_message`). Sending is modelled as appending to an outbox. */
module Bot {

  import opened Optional
  import opened Text
  import opened Context
  import opened Usage

  /** The fixed system instruction sent ahead of every history. */
  const SystemPrompt: string := "أجب بإيجاز وبأسلوب ودود."
  /** The reply used when the completion call fails. */
  const Fallback: string := "عذرًا، تعذّر الردّ حاليًا."
  /** The notice sent when the user asks for a human. */
  const SupportNotice: string := "تم تحويلك للدعم البشري، يرجى الانتظار."
  /** The notice sent for the `SERVICE_INFO` quick reply. */
  const ServiceInfoNotice: string := "نقدم خدماتنا على مدار الساعة. كيف أساعدك؟"

  /** Phrases that turn a message into a request for human support. */
  const SupportKeywords: seq<string> := ["دعم بشري", "موظف", "مساعدة حقيقية", "تحدث إلى شخص"]

  const HumanSupportPayload: string := "HUMAN_SUPPORT"
  const ServiceInfoPayload: string := "SERVICE_INFO"

  /** A tappable button: its label and the payload token it sends back. */
  datatype QuickReply = QuickReply(title: string, payload: string)

  /** The two buttons attached to every completion reply. */
  const ReplyOptions: seq<QuickReply> := [
    QuickReply("دعم بشري", HumanSupportPayload),
    QuickReply("معلومات عن الخدمات", ServiceInfoPayload)
  ]

  /** One call of `send_message`; no buttons is the same as `quick_replies=None`. */
  datatype Send = Send(recipient: string, text: string, quickReplies: seq<QuickReply>)

  /** Everything the bot changes: the context store, the usage counters and
      the messages sent so far. */
  datatype State = State(contexts: Store, counts: Counts, outbox: seq<Send>)

  /** The line of `process_message` that looks for a support phrase in the
      lowered text. */
  predicate IsSupportRequest(text: string) {
    exists k :: k in SupportKeywords && Contains(Lower(text), k)
  }

  /** Lowering cannot create or destroy an occurrence of the support phrases,
      which contain no Latin letters: the check is the same on the raw text. */
  lemma SupportIgnoresCase(text: string)
    ensures IsSupportRequest(text) <==> exists k :: k in SupportKeywords && Contains(text, k)
  {
    forall k | k in SupportKeywords
      ensures Contains(Lower(text), k) <==> Contains(text, k)
    {
      assert NoLatinLetters(k);
      LowerKeepsContains(text, k);
    }
  }

  /** The `any(...)` over the support phrases, scanning each in turn. */
  method DetectSupport(text: string) returns (found: bool)
    ensures found <==> IsSupportRequest(text)
  {
    var lowered := Lower(text);
    var i := 0;
    while i < |SupportKeywords|
      invariant 0 <= i <= |SupportKeywords|
      invariant forall j :: 0 <= j < i ==> !Contains(lowered, SupportKeywords[j])
    {
      found := Find(lowered, SupportKeywords[i]);
      if found {
        return;
      }
      i := i + 1;
    }
    return false;
  }

  /** What `ask_gpt` produces: the updated store, the messages it sent to the
      completion service and the reply it returns. */
  datatype Asked = Asked(contexts: Store, prompt: seq<Turn>, reply: string)

  /** The reply `ask_gpt` settles on: the stripped content of the first
      choice, or the fallback text when the completion call raised. */
  function ReplyOf(completion: Option<string>): (reply: string)
    ensures completion.None? ==> reply == Fallback
    ensures completion.Some? ==> StrippedFrom(reply, completion.value) && Tight(reply)
  {
    match completion
    case Some(content) => Strip(content)
    case None => Fallback
  }

  /** The last turn of a window that was just pushed. */
  lemma NewestEndsWith(s: seq<Turn>, t: Turn)
    ensures |Newest(s + [t], Limit)| > 0
    ensures Newest(s + [t], Limit)[|Newest(s + [t], Limit)| - 1] == t
  {
  }

  /** `ask_gpt`. `completion` is the outcome of the completion call on
      `prompt`: the raw content of the first choice, or `None` when the call
      (or reading its content) raised. */
  function AskGpt(contexts: Store, uid: string, userMsg: string, completion: Option<string>): (r: Asked)
    ensures 2 <= |r.prompt| <= Limit + 1
    ensures r.prompt[0] == Turn(System, SystemPrompt)
    ensures r.prompt[1..] == Newest(GetContext(contexts, uid) + [Turn(User, userMsg)], Limit)
    ensures r.prompt[|r.prompt| - 1] == Turn(User, userMsg)
    ensures completion.None? ==> r.reply == Fallback
    ensures completion.Some? ==> StrippedFrom(r.reply, completion.value) && Tight(r.reply)
    ensures GetContext(r.contexts, uid)
      == Newest(GetContext(contexts, uid) + [Turn(User, userMsg), Turn(Assistant, r.reply)], Limit)
    ensures GetContext(r.contexts, uid)[|GetContext(r.contexts, uid)| - 1] == Turn(Assistant, r.reply)
    ensures forall u :: u != uid ==> GetContext(r.contexts, u) == GetContext(contexts, u)
  {
    var w := GetContext(contexts, uid);
    var asked := UpdateContext(contexts, uid, User, userMsg);
    var window := GetContext(asked, uid);
    var prompt := [Turn(System, SystemPrompt)] + window;
    assert prompt[1..] == window && prompt[0] == Turn(System, SystemPrompt);
    NewestEndsWith(w, Turn(User, userMsg));
    assert prompt[|prompt| - 1] == window[|window| - 1];
    var reply := ReplyOf(completion);
    var answered := UpdateContext(asked, uid, Assistant, reply);
    UpdateTwice(contexts, uid, Turn(User, userMsg), Turn(Assistant, reply));
    Asked(answered, prompt, reply)
  }

  /** `process_message`: a support request only sends the support notice;
      anything else asks the completion service, counts the message and
      sends the reply with the two buttons. */
  function ProcessMessage(st: State, uid: string, text: string, completion: Option<string>): (r: State)
    ensures IsSupportRequest(text) ==>
      r == st.(outbox := st.outbox + [Send(uid, SupportNotice, [])])
    ensures !IsSupportRequest(text) ==>
      && Count(r.counts, uid) == Count(st.counts, uid) + 1
      && (forall u :: u != uid ==> Count(r.counts, u) == Count(st.counts, u))
      && (forall u :: u != uid ==> GetContext(r.contexts, u) == GetContext(st.contexts, u))
      && r.counts.Keys == st.counts.Keys + {uid}
      && r.outbox == st.outbox + [Send(uid, AskGpt(st.contexts, uid, text, completion).reply, ReplyOptions)]
    ensures !IsSupportRequest(text) ==>
      GetContext(r.contexts, uid)
        == Newest(GetContext(st.contexts, uid)
                  + [Turn(User, text), Turn(Assistant, r.outbox[|r.outbox| - 1].text)], Limit)
    ensures !IsSupportRequest(text) && completion.None? ==>
      r.outbox == st.outbox + [Send(uid, Fallback, ReplyOptions)]
  {
    if IsSupportRequest(text) then
      st.(outbox := st.outbox + [Send(uid, SupportNotice, [])])
    else
      var asked := AskGpt(st.contexts, uid, text, completion);
      State(asked.contexts, LogConversation(st.counts, uid),
            st.outbox + [Send(uid, asked.reply, ReplyOptions)])
  }
}
