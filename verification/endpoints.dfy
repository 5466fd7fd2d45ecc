/** The three HTTP routes, with requests reduced to their parameters: the
    webhook handshake, the event loop of the webhook and the statistics page. */
module Endpoints {

  import opened Optional
  import opened Context
  import opened Usage
  import opened Bot

  /** The `quick_reply` field of a message: absent (or empty, hence falsy),
      present with a `payload`, or present without one. */
  datatype QuickReplyField = NoQuickReply | Payload(token: string) | PayloadMissing

  /** The `message` object of an event; a missing object has no text. */
  datatype Message = Message(text: Option<string>, quickReply: QuickReplyField)

  /** One element of `messaging`: the sender id (if any) and the message. */
  datatype Event = Event(sender: Option<string>, message: Message)

  /** One element of `entry`. */
  datatype Entry = Entry(messaging: seq<Event>)

  /** The guard `if uid and "text" in msg`: a non-empty sender id and a
      `text` field. */
  predicate Accepted(ev: Event) {
    ev.sender.Some? && ev.sender.value != "" && ev.message.text.Some?
  }

  /** Reading `msg["quick_reply"]["payload"]` raises `KeyError`. */
  predicate Raises(ev: Event) {
    Accepted(ev) && ev.message.quickReply.PayloadMissing?
  }

  /** An accepted plain-text event that reaches the completion service. */
  predicate Dispatched(ev: Event) {
    Accepted(ev) && ev.message.quickReply.NoQuickReply?
      && !IsSupportRequest(ev.message.text.value)
  }

  /** The result of one loop iteration: the new state, or the exception
      that ends the request. */
  datatype Step = Done(state: State) | Raised

  /** The body of the inner loop of `webhook` for one event. `completion`
      is what the completion service would answer should the event reach it. */
  function HandleEvent(st: State, ev: Event, completion: Option<string>): (r: Step)
    ensures !Accepted(ev) ==> r == Done(st)
    ensures Raises(ev) ==> r == Raised
    ensures Accepted(ev) && ev.message.quickReply.Payload? ==>
      && r.Done?
      && r.state.contexts == st.contexts
      && r.state.counts == st.counts
      && (ev.message.quickReply.token == HumanSupportPayload ==>
            r.state.outbox == st.outbox + [Send(ev.sender.value, SupportNotice, [])])
      && (ev.message.quickReply.token == ServiceInfoPayload ==>
            r.state.outbox == st.outbox + [Send(ev.sender.value, ServiceInfoNotice, [])])
      && (ev.message.quickReply.token !in {HumanSupportPayload, ServiceInfoPayload} ==>
            r.state.outbox == st.outbox)
    ensures Accepted(ev) && ev.message.quickReply.NoQuickReply? ==>
      r == Done(ProcessMessage(st, ev.sender.value, ev.message.text.value, completion))
  {
    if !Accepted(ev) then Done(st)
    else
      var uid := ev.sender.value;
      match ev.message.quickReply
      case PayloadMissing => Raised
      case Payload(token) =>
        if token == HumanSupportPayload then
          Done(st.(outbox := st.outbox + [Send(uid, SupportNotice, [])]))
        else if token == ServiceInfoPayload then
          Done(st.(outbox := st.outbox + [Send(uid, ServiceInfoNotice, [])]))
        else
          Done(st)
      case NoQuickReply =>
        Done(ProcessMessage(st, uid, ev.message.text.value, completion))
  }

  /** The HTTP answer of the webhook: the final state and the status code. */
  datatype Outcome = Outcome(state: State, status: nat)

  /** The loop over all events; `completions[i]` is the completion outcome for
      `evs[i]`. The request answers 200 unless some event raised, in which
      case the events after it are never looked at and the answer is 500. */
  function HandleEvents(st: State, evs: seq<Event>, completions: seq<Option<string>>): (r: Outcome)
    requires |completions| == |evs|
    ensures r.status == 200 <==> forall i :: 0 <= i < |evs| ==> !Raises(evs[i])
    ensures r.status != 200 ==> r.status == 500
    ensures st.outbox <= r.state.outbox
    decreases |evs|
  {
    if evs == [] then Outcome(st, 200)
    else
      match HandleEvent(st, evs[0], completions[0])
      case Raised => Outcome(st, 500)
      case Done(next) => HandleEvents(next, evs[1..], completions[1..])
  }

  /** A user who sent none of the events keeps their window and counter. */
  lemma {:induction false} HandleEventsFrame(st: State, evs: seq<Event>, completions: seq<Option<string>>, u: string)
    requires |completions| == |evs|
    requires forall i :: 0 <= i < |evs| ==> evs[i].sender != Some(u)
    ensures GetContext(HandleEvents(st, evs, completions).state.contexts, u) == GetContext(st.contexts, u)
    ensures Count(HandleEvents(st, evs, completions).state.counts, u) == Count(st.counts, u)
    decreases |evs|
  {
    if evs != [] {
      match HandleEvent(st, evs[0], completions[0])
      case Raised =>
      case Done(next) =>
        assert evs[0].sender != Some(u);
        assert GetContext(next.contexts, u) == GetContext(st.contexts, u);
        assert Count(next.counts, u) == Count(st.counts, u);
        HandleEventsFrame(next, evs[1..], completions[1..], u);
    }
  }

  /** How many events reach the completion service before the loop stops. */
  function DispatchCount(evs: seq<Event>): nat
    decreases |evs|
  {
    if evs == [] || Raises(evs[0]) then 0
    else (if Dispatched(evs[0]) then 1 else 0) + DispatchCount(evs[1..])
  }

  /** The message total grows by exactly the number of dispatched events:
      support requests and quick replies are never counted. */
  lemma {:induction false} HandleEventsTotal(st: State, evs: seq<Event>, completions: seq<Option<string>>)
    requires |completions| == |evs|
    ensures Total(HandleEvents(st, evs, completions).state.counts) == Total(st.counts) + DispatchCount(evs)
    decreases |evs|
  {
    if evs != [] && !Raises(evs[0]) {
      var ev := evs[0];
      var next := HandleEvent(st, ev, completions[0]).state;
      HandleEventsTotal(next, evs[1..], completions[1..]);
      if Dispatched(ev) {
        var uid := ev.sender.value;
        assert next.counts == LogConversation(st.counts, uid);
        LogConversationAddsOne(st.counts, uid);
      } else {
        assert next.counts == st.counts;
      }
    }
  }

  /** The events of all entries, in order. */
  function Events(body: seq<Entry>): (evs: seq<Event>)
    ensures forall e, ev :: e in body && ev in e.messaging ==> ev in evs
    ensures forall ev :: ev in evs ==> exists e :: e in body && ev in e.messaging
    decreases |body|
  {
    if body == [] then [] else body[0].messaging + Events(body[1..])
  }

  /** Flattening distributes over the concatenation of entry lists. */
  lemma {:induction false} EventsAppend(x: seq<Entry>, y: seq<Entry>)
    ensures Events(x + y) == Events(x) + Events(y)
    decreases |x|
  {
    if x == [] {
      assert x + y == y;
    } else {
      assert (x + y)[0] == x[0];
      assert (x + y)[1..] == x[1..] + y;
      EventsAppend(x[1..], y);
    }
  }

  /** A single entry contributes exactly its `messaging` list, in order. */
  lemma EventsSingle(e: Entry)
    ensures Events([e]) == e.messaging
  {
  }

  /** `webhook` (POST): processes every event of every entry in order. */
  function Webhook(st: State, body: seq<Entry>, completions: seq<Option<string>>): (r: Outcome)
    requires |completions| == |Events(body)|
    ensures r.status == 200 <==> forall ev :: ev in Events(body) ==> !Raises(ev)
    ensures r.status != 200 ==> r.status == 500
    ensures st.outbox <= r.state.outbox
  {
    HandleEvents(st, Events(body), completions)
  }

  /** What the two gated GET routes answer. */
  datatype Reply = Reply(status: nat, body: string)

  /** `verify_webhook`: echoes `hub.challenge` (empty when absent) exactly
      when `hub.verify_token` equals the configured token. */
  function VerifyWebhook(verifyToken: string, token: Option<string>, challenge: Option<string>): (r: Reply)
    ensures r.status == 200 <==> token == Some(verifyToken)
    ensures r.status == 200 ==> r.body == challenge.GetOr("")
    ensures r.status != 200 ==> r == Reply(403, "Invalid token")
  {
    if token == Some(verifyToken) then Reply(200, challenge.GetOr("")) else Reply(403, "Invalid token")
  }

  /** What `/stats` answers. */
  datatype StatsPage = Forbidden | Page(users: nat, messages: nat)

  /** `stats`: the user count and message total, only for the admin
      password; a missing `pwd` argument never matches. */
  ghost function Stats(adminPassword: string, pwd: Option<string>, counts: Counts): (r: StatsPage)
    ensures r.Page? <==> pwd == Some(adminPassword)
    ensures r.Page? ==> r.users == |counts| && r.messages == Total(counts)
  {
    if pwd != Some(adminPassword) then Forbidden else Page(|counts|, Total(counts))
  }
}
