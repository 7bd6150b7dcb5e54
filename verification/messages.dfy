/** The message walk that DeepSeek and Claude run after their model defaults:
    each message in order first has an empty role replaced by "user", then is
    rejected if its content is empty. The walk mutates the slice in place, so
    the roles it has already defaulted stay defaulted when a later message
    aborts it. */
module Messages {
  import opened Types

  /** A message whose empty role is replaced by "user"; the content is kept. */
  function DefaultRole(m: Message): (r: Message)
    ensures r.content == m.content
    ensures r.role != ""
    ensures m.role != "" ==> r.role == m.role
    ensures m.role == "" ==> r.role == RoleUser
  {
    if m.role == "" then m.(role := RoleUser) else m
  }

  /** Every message has non-empty content. */
  predicate AllHaveContent(msgs: seq<Message>)
  {
    forall j :: 0 <= j < |msgs| ==> msgs[j].content != ""
  }

  /** Every message has a non-empty role. */
  predicate AllHaveRole(msgs: seq<Message>)
  {
    forall j :: 0 <= j < |msgs| ==> msgs[j].role != ""
  }

  /** The index of the first message with empty content, or |msgs| if there is none. */
  function FirstEmptyContent(msgs: seq<Message>): (k: nat)
    ensures k <= |msgs|
    ensures forall j :: 0 <= j < k ==> msgs[j].content != ""
    ensures k < |msgs| ==> msgs[k].content == ""
    decreases |msgs|
  {
    if |msgs| == 0 then 0
    else if msgs[0].content == "" then 0
    else 1 + FirstEmptyContent(msgs[1..])
  }

  /** No message has empty content exactly when the first empty content is past the end. */
  lemma {:induction false} NoFirstEmptyContentIffAllHaveContent(msgs: seq<Message>)
    ensures FirstEmptyContent(msgs) == |msgs| <==> AllHaveContent(msgs)
  {
  }

  /** The messages after the walk, and whether it got through all of them. */
  datatype Walk = Walk(messages: seq<Message>, outcome: Outcome)

  /** The walk over the message list. It stops at the first empty content, after
      defaulting that message's own role: messages up to and including the
      offending one have their roles defaulted, the ones after it are untouched. */
  function WalkMessages(msgs: seq<Message>): (w: Walk)
    ensures |w.messages| == |msgs|
    ensures w.outcome.Pass? <==> FirstEmptyContent(msgs) == |msgs|
    ensures w.outcome.Fail? ==> w.outcome.error == ContentRequired
    ensures forall j :: 0 <= j < |msgs| ==>
              w.messages[j] == if j <= FirstEmptyContent(msgs) then DefaultRole(msgs[j]) else msgs[j]
    decreases |msgs|
  {
    if |msgs| == 0 then Walk([], Pass)
    else
      var head := DefaultRole(msgs[0]);
      if msgs[0].content == "" then Walk([head] + msgs[1..], Fail(ContentRequired))
      else
        var rest := WalkMessages(msgs[1..]);
        Walk([head] + rest.messages, rest.outcome)
  }

  /** The walk passes exactly when every message has content, and never changes a content. */
  lemma {:induction false} WalkPassesIffAllHaveContent(msgs: seq<Message>)
    ensures WalkMessages(msgs).outcome.Pass? <==> AllHaveContent(msgs)
    ensures forall j :: 0 <= j < |msgs| ==> WalkMessages(msgs).messages[j].content == msgs[j].content
  {
  }

  /** On success every role is set: originally empty roles became "user", the
      others are unchanged, and count, order and contents are preserved. */
  lemma {:induction false} WalkPassDefaultsEveryRole(msgs: seq<Message>)
    requires WalkMessages(msgs).outcome.Pass?
    ensures var out := WalkMessages(msgs).messages;
      && |out| == |msgs|
      && AllHaveRole(out)
      && AllHaveContent(out)
      && (forall j :: 0 <= j < |msgs| && msgs[j].role == "" ==> out[j] == Message(RoleUser, msgs[j].content))
      && (forall j :: 0 <= j < |msgs| && msgs[j].role != "" ==> out[j] == msgs[j])
  {
  }

  /** When message k is the first with empty content, the walk fails, messages
      0..k have defaulted roles and messages after k are the originals. */
  lemma {:induction false} WalkFailsAtFirstEmptyContent(msgs: seq<Message>, k: nat)
    requires k < |msgs| && msgs[k].content == ""
    requires forall j :: 0 <= j < k ==> msgs[j].content != ""
    ensures WalkMessages(msgs).outcome == Fail(ContentRequired)
    ensures forall j :: 0 <= j <= k ==> WalkMessages(msgs).messages[j] == DefaultRole(msgs[j])
    ensures forall j :: k < j < |msgs| ==> WalkMessages(msgs).messages[j] == msgs[j]
  {
  }

  /** Walking messages that already passed the walk succeeds and changes nothing. */
  lemma {:induction false} WalkIdempotent(msgs: seq<Message>)
    requires WalkMessages(msgs).outcome.Pass?
    ensures WalkMessages(WalkMessages(msgs).messages) == WalkMessages(msgs)
  {
  }
}
