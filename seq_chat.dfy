/** The chat state hook (src/hooks/useSeqChat.ts): the conversation with
    Seq as an object whose handlers replace its fields and append to its
    message list. The reply of /api/seq/chat and the clock are parameters. */
module SeqChat {
  import opened Common
  import SeqIdentity

  datatype Role = Visitor | Seq

  datatype ChatMessage = ChatMessage(id: string, role: Role, content: string, thinking: Option<string>, timestamp: int)

  /** The hook's state record. */
  datatype ChatState = ChatState(
    conversationId: Option<string>, messages: seq<ChatMessage>,
    isThinking: bool, showThinking: bool, error: Option<string>)

  function InitialState(showThinkingDefault: bool): ChatState {
    ChatState(None, [], false, showThinkingDefault, None)
  }

  /** The JSON body of a successful /api/seq/chat reply. */
  datatype ChatReply = ChatReply(
    conversationId: Option<string>, message: string, thinking: Option<string>,
    currentCostCents: Option<int>, costGateReached: Option<bool>)

  /** How the request ended: a successful reply, a non-OK status, or an
      exception (carrying its message when it is an `Error`). */
  datatype ChatResponse = Answered(reply: ChatReply) | NotOk | Thrown(message: Option<string>)

  /** A send is ignored when the content is blank or the visitor id is not
      loaded yet. */
  predicate Accepts(visitorId: Option<string>, content: string) {
    !IsBlank(content) && Present(visitorId)
  }

  function VisitorMessage(content: string, now: int): ChatMessage {
    ChatMessage("user-" + IntToString(now), Visitor, content, None, now)
  }

  function SeqMessage(reply: ChatReply, now: int): ChatMessage {
    ChatMessage("seq-" + IntToString(now), Seq, reply.message, reply.thinking, now)
  }

  /** The first state update of `sendMessage`, made before the request. */
  function Submit(s: ChatState, content: string, now: int): (t: ChatState)
    ensures t.messages == s.messages + [VisitorMessage(content, now)]
    ensures t.isThinking && t.error == None
    ensures t.conversationId == s.conversationId && t.showThinking == s.showThinking
  {
    s.(messages := s.messages + [VisitorMessage(content, now)], isThinking := true, error := None)
  }

  /** The second state update, made once the request has ended. */
  function Settle(s: ChatState, response: ChatResponse, now: int): (t: ChatState)
    ensures !t.isThinking && t.showThinking == s.showThinking
    ensures response.Answered? ==>
      && t.messages == s.messages + [SeqMessage(response.reply, now)]
      && t.conversationId == response.reply.conversationId && t.error == s.error
    ensures !response.Answered? ==>
      t.messages == s.messages && t.conversationId == s.conversationId && t.error.Some?
  {
    match response
    case Answered(reply) =>
      s.(conversationId := reply.conversationId, messages := s.messages + [SeqMessage(reply, now)], isThinking := false)
    case NotOk => s.(isThinking := false, error := Some("Failed to get response from Seq"))
    case Thrown(m) => s.(isThinking := false, error := Some(m.GetOr("Unknown error")))
  }

  /** The whole of `sendMessage`: nothing when the send is ignored, else the
      two updates. */
  function Send(s: ChatState, visitorId: Option<string>, content: string, response: ChatResponse, now: int, later: int): (t: ChatState)
    ensures !Accepts(visitorId, content) ==> t == s
    ensures Accepts(visitorId, content) ==>
      && |t.messages| > |s.messages| && t.messages[..|s.messages| + 1] == s.messages + [VisitorMessage(content, now)]
      && !t.isThinking && (t.error == None <==> response.Answered?)
  {
    if Accepts(visitorId, content) then Settle(Submit(s, content, now), response, later) else s
  }

  /** The call made to `onCostUpdate`, if any: only when a callback is given
      and the reply carries `currentCostCents`; a missing `costGateReached`
      reads as false. */
  function CostUpdate(response: ChatResponse, hasCallback: bool): (r: Option<(int, bool)>)
    ensures r.Some? <==> hasCallback && response.Answered? && response.reply.currentCostCents.Some?
    ensures r.Some? ==> r.value.0 == response.reply.currentCostCents.value
    ensures r.Some? ==> (r.value.1 <==> response.reply.costGateReached == Some(true))
  {
    match response
    case Answered(reply) =>
      if hasCallback && reply.currentCostCents.Some? then
        Some((reply.currentCostCents.value, reply.costGateReached.GetOr(false)))
      else None
    case _ => None
  }

  /** The chat messages `addOpeningMessages` builds: 'seq' messages with ids
      seq-opening-0, seq-opening-1, ... */
  function OpeningChat(ms: seq<SeqIdentity.Message>, now: int): (cs: seq<ChatMessage>)
    ensures |cs| == |ms|
    ensures forall i | 0 <= i < |ms| ::
      cs[i] == ChatMessage("seq-opening-" + NatToString(i), Seq, ms[i].text, Some(ms[i].thinking), now)
  {
    seq(|ms|, i requires 0 <= i < |ms| => ChatMessage("seq-opening-" + NatToString(i), Seq, ms[i].text, Some(ms[i].thinking), now))
  }

  function AddOpenings(s: ChatState, ms: seq<SeqIdentity.Message>, now: int): ChatState {
    s.(messages := s.messages + OpeningChat(ms, now))
  }

  function Toggled(s: ChatState): ChatState {
    s.(showThinking := !s.showThinking)
  }

  /** A blank message, or one sent before the visitor id is known, changes
      nothing and notifies no one. */
  lemma IgnoredSendChangesNothing(s: ChatState, visitorId: Option<string>, content: string, response: ChatResponse, now: int, later: int)
    requires IsBlank(content) || !Present(visitorId)
    ensures Send(s, visitorId, content, response, now, later) == s
  {
  }

  /** An answered send appends exactly the visitor's message and then Seq's
      answer, adopts the reply's conversation id and stops thinking. */
  lemma AnsweredSendAppendsBoth(s: ChatState, visitorId: Option<string>, content: string, reply: ChatReply, now: int, later: int)
    requires Accepts(visitorId, content)
    ensures var r := Send(s, visitorId, content, Answered(reply), now, later);
      && r.messages == s.messages + [VisitorMessage(content, now), SeqMessage(reply, later)]
      && r.messages[|s.messages|].role == Visitor && r.messages[|s.messages|].content == content
      && r.messages[|s.messages| + 1].role == Seq && r.messages[|s.messages| + 1].content == reply.message
      && r.conversationId == reply.conversationId
      && !r.isThinking && r.error == None && r.showThinking == s.showThinking
  {
    var r := Send(s, visitorId, content, Answered(reply), now, later);
    assert r.messages == s.messages + [VisitorMessage(content, now)] + [SeqMessage(reply, later)];
  }

  /** A failed send keeps the visitor's message, stops thinking and records
      an error; the conversation id is kept. */
  lemma FailedSendKeepsVisitorMessage(s: ChatState, visitorId: Option<string>, content: string, response: ChatResponse, now: int, later: int)
    requires Accepts(visitorId, content) && !response.Answered?
    ensures var r := Send(s, visitorId, content, response, now, later);
      && r.messages == s.messages + [VisitorMessage(content, now)]
      && !r.isThinking && r.error.Some?
      && r.error.value == (if response.NotOk? then "Failed to get response from Seq" else response.message.GetOr("Unknown error"))
      && r.conversationId == s.conversationId
  {
  }

  /** Opening messages go after the existing ones, which stay as they were;
      the i-th carries the i-th text and thinking. */
  lemma OpeningsAppended(s: ChatState, ms: seq<SeqIdentity.Message>, now: int)
    ensures var r := AddOpenings(s, ms, now);
      && |r.messages| == |s.messages| + |ms|
      && r.messages[..|s.messages|] == s.messages
      && forall i | 0 <= i < |ms| ::
           var m := r.messages[|s.messages| + i];
           m.role == Seq && m.id == "seq-opening-" + NatToString(i) && m.content == ms[i].text
  {
    var r := AddOpenings(s, ms, now);
    assert r.messages[..|s.messages|] == s.messages;
  }

  /** Toggling twice restores the setting. */
  lemma ToggleTwice(s: ChatState)
    ensures Toggled(Toggled(s)) == s && Toggled(s).showThinking != s.showThinking
  {
  }

  /** The things a user of the hook can do (clearing aside). */
  datatype Action =
    | SendAction(content: string, response: ChatResponse, now: int, later: int)
    | OpeningsAction(openings: seq<SeqIdentity.Message>, now: int)
    | ToggleAction

  function Apply(s: ChatState, visitorId: Option<string>, a: Action): ChatState {
    match a
    case SendAction(content, response, now, later) => Send(s, visitorId, content, response, now, later)
    case OpeningsAction(ms, now) => AddOpenings(s, ms, now)
    case ToggleAction => Toggled(s)
  }

  function Run(s: ChatState, visitorId: Option<string>, actions: seq<Action>): ChatState
    decreases |actions|
  {
    if actions == [] then s else Run(Apply(s, visitorId, actions[0]), visitorId, actions[1..])
  }

  /** Number of sends among `actions` the hook accepts. */
  function AcceptedSends(visitorId: Option<string>, actions: seq<Action>): nat
    decreases |actions|
  {
    if actions == [] then 0
    else
      (if actions[0].SendAction? && Accepts(visitorId, actions[0].content) then 1 else 0)
      + AcceptedSends(visitorId, actions[1..])
  }

  function VisitorCount(ms: seq<ChatMessage>): nat {
    if ms == [] then 0 else (if ms[|ms| - 1].role == Visitor then 1 else 0) + VisitorCount(ms[..|ms| - 1])
  }

  lemma VisitorCountAppend(a: seq<ChatMessage>, b: seq<ChatMessage>)
    ensures VisitorCount(a + b) == VisitorCount(a) + VisitorCount(b)
    decreases |b|
  {
    if b != [] {
      assert (a + b)[..|a + b| - 1] == a + b[..|b| - 1];
      VisitorCountAppend(a, b[..|b| - 1]);
    } else {
      assert a + b == a;
    }
  }

  lemma OpeningsHaveNoVisitor(ms: seq<SeqIdentity.Message>, now: int)
    ensures VisitorCount(OpeningChat(ms, now)) == 0
    decreases |ms|
  {
    if ms != [] {
      var cs := OpeningChat(ms, now);
      assert cs[..|cs| - 1] == OpeningChat(ms[..|ms| - 1], now);
      OpeningsHaveNoVisitor(ms[..|ms| - 1], now);
    }
  }

  /** Over any run of actions the message list only grows, the chat is not
      left thinking, and there is exactly one visitor message per accepted
      send. */
  lemma {:induction false} RunOnlyAppends(s: ChatState, visitorId: Option<string>, actions: seq<Action>)
    requires !s.isThinking
    ensures var r := Run(s, visitorId, actions);
      && |s.messages| <= |r.messages| && r.messages[..|s.messages|] == s.messages
      && !r.isThinking
      && VisitorCount(r.messages) == VisitorCount(s.messages) + AcceptedSends(visitorId, actions)
    decreases |actions|
  {
    if actions != [] {
      var s1 := Apply(s, visitorId, actions[0]);
      StepOnlyAppends(s, visitorId, actions[0]);
      RunOnlyAppends(s1, visitorId, actions[1..]);
      var r := Run(s1, visitorId, actions[1..]);
      assert r.messages[..|s.messages|] == r.messages[..|s1.messages|][..|s.messages|];
    }
  }

  /** One action of a run: what `RunOnlyAppends` says, for a single step. */
  lemma StepOnlyAppends(s: ChatState, visitorId: Option<string>, a: Action)
    requires !s.isThinking
    ensures var s1 := Apply(s, visitorId, a);
      && |s.messages| <= |s1.messages| && s1.messages[..|s.messages|] == s.messages && !s1.isThinking
      && VisitorCount(s1.messages) == VisitorCount(s.messages)
           + (if a.SendAction? && Accepts(visitorId, a.content) then 1 else 0)
  {
    match a
    case SendAction(content, response, now, later) =>
      SendAppends(s, visitorId, content, response, now, later);
      Appended(s.messages, SendExtra(visitorId, content, response, now, later));
    case OpeningsAction(ms, now) =>
      Appended(s.messages, OpeningChat(ms, now));
      OpeningsHaveNoVisitor(ms, now);
    case ToggleAction =>
  }

  /** The messages one send adds to the transcript. */
  function SendExtra(visitorId: Option<string>, content: string, response: ChatResponse, now: int, later: int)
    : seq<ChatMessage>
  {
    if !Accepts(visitorId, content) then []
    else [VisitorMessage(content, now)] + (if response.Answered? then [SeqMessage(response.reply, later)] else [])
  }

  lemma SendAppends(s: ChatState, visitorId: Option<string>, content: string, response: ChatResponse, now: int, later: int)
    requires !s.isThinking
    ensures var s1 := Send(s, visitorId, content, response, now, later);
      && s1.messages == s.messages + SendExtra(visitorId, content, response, now, later)
      && !s1.isThinking
    ensures VisitorCount(SendExtra(visitorId, content, response, now, later))
         == if Accepts(visitorId, content) then 1 else 0
  {
    if Accepts(visitorId, content) {
      var v := VisitorMessage(content, now);
      var s0 := Submit(s, content, now);
      assert s0.messages == s.messages + [v];
      if response.Answered? {
        var q := SeqMessage(response.reply, later);
        assert s.messages + [v] + [q] == s.messages + ([v] + [q]);
        OneVisitorThenSeq(v, q);
      } else {
        assert s.messages + [v] == s.messages + ([v] + []);
        OneVisitorThenSeq(v, v.(role := Seq));
      }
    }
  }

  lemma OneVisitorThenSeq(v: ChatMessage, q: ChatMessage)
    requires v.role == Visitor && q.role == Seq
    ensures VisitorCount([v] + [q]) == 1 && VisitorCount([v] + []) == 1
  {
    assert [v][..0] == [];
    assert VisitorCount([v]) == 1;
    assert ([v] + [q])[..1] == [v] && [v] + [] == [v];
  }

  /** What appending `b` to a transcript `a` keeps and counts. */
  lemma Appended(a: seq<ChatMessage>, b: seq<ChatMessage>)
    ensures |a| <= |a + b| && (a + b)[..|a|] == a
    ensures VisitorCount(a + b) == VisitorCount(a) + VisitorCount(b)
  {
    VisitorCountAppend(a, b);
    assert (a + b)[..|a|] == a;
  }

  /** The hook's state, held as fields that its handlers replace. */
  class Chat {
    const visitorId: Option<string>
    const showThinkingDefault: bool
    var conversationId: Option<string>
    var messages: seq<ChatMessage>
    var isThinking: bool
    var showThinking: bool
    var error: Option<string>

    function State(): ChatState
      reads this
    {
      ChatState(conversationId, messages, isThinking, showThinking, error)
    }

    /** `isReady`: the visitor id is loaded and not empty. */
    predicate IsReady() {
      Present(visitorId)
    }

    constructor (visitorId: Option<string>, showThinkingDefault: bool)
      ensures this.visitorId == visitorId && this.showThinkingDefault == showThinkingDefault
      ensures State() == InitialState(showThinkingDefault)
    {
      this.visitorId := visitorId;
      this.showThinkingDefault := showThinkingDefault;
      conversationId := None;
      messages := [];
      isThinking := false;
      showThinking := showThinkingDefault;
      error := None;
    }

    /** `sendMessage(content)`, with the request's outcome given. The visitor
        message is stamped `now`, Seq's answer `later`. */
    method SendMessage(content: string, response: ChatResponse, now: int, later: int, hasCallback: bool)
      returns (costUpdate: Option<(int, bool)>)
      modifies this
      ensures State() == Send(old(State()), visitorId, content, response, now, later)
      ensures costUpdate == if Accepts(visitorId, content) then CostUpdate(response, hasCallback) else None
    {
      if IsBlank(content) || !Present(visitorId) {
        return None;
      }
      messages := messages + [VisitorMessage(content, now)];
      isThinking := true;
      error := None;
      match response {
        case Answered(reply) =>
          conversationId := reply.conversationId;
          messages := messages + [SeqMessage(reply, later)];
          isThinking := false;
          costUpdate := CostUpdate(response, hasCallback);
        case NotOk =>
          isThinking := false;
          error := Some("Failed to get response from Seq");
          costUpdate := None;
        case Thrown(m) =>
          isThinking := false;
          error := Some(m.GetOr("Unknown error"));
          costUpdate := None;
      }
    }

    /** `addOpeningMessages(ms)` */
    method AddOpeningMessages(ms: seq<SeqIdentity.Message>, now: int)
      modifies this
      ensures State() == AddOpenings(old(State()), ms, now)
    {
      messages := messages + OpeningChat(ms, now);
    }

    /** `toggleThinking` */
    method ToggleThinking()
      modifies this
      ensures State() == Toggled(old(State()))
    {
      showThinking := !showThinking;
    }

    /** `clearConversation`: back to the initial state. */
    method ClearConversation()
      modifies this
      ensures State() == InitialState(showThinkingDefault)
    {
      conversationId := None;
      messages := [];
      isThinking := false;
      showThinking := showThinkingDefault;
      error := None;
    }
  }
}
