/** The assistant chat (`sendChat` in src/components/Dashboard.jsx). The
    user's turn is appended and the input cleared before `POST /chat` is
    issued; the assistant's turn is appended whenever the answer arrives.
    There is no in-flight guard, so the two halves are separate steps that
    other events, and other chat exchanges, may come between. */
module ChatRelay {
  import opened Wrappers
  import opened Text
  import opened Dashboard

  /** The chat form is submitted. A message that trims to nothing is
      ignored; otherwise the untrimmed text becomes one user turn, the
      input is cleared, and the text alone is sent. */
  function SubmitChat(s: DashState): (st: Step)
    ensures Blank(s.chatInput) ==> st == Step(s, [], None)
    ensures !Blank(s.chatInput) ==>
      && st.state.chat == s.chat + [ChatMsg(UserTurn, Some(s.chatInput))]
      && st.state.chatInput == ""
      && st.calls == [PostChat(s.chatInput)]
      && st.alert.None?
      && st.state.(chat := s.chat, chatInput := s.chatInput) == s
  {
    TrimEmptyIffBlank(s.chatInput);
    if Trim(s.chatInput) == "" then Step(s, [], None)
    else
      Step(s.(chat := s.chat + [ChatMsg(UserTurn, Some(s.chatInput))], chatInput := ""),
           [PostChat(s.chatInput)], None)
  }

  /** The answer to `POST /chat` arrives: its `reply` field, whatever the
      status, becomes one assistant turn after every existing entry. */
  function ReceiveReply(s: DashState, reply: Option<string>): (r: DashState)
    ensures |r.chat| == |s.chat| + 1
    ensures r.chat[..|s.chat|] == s.chat
    ensures r.chat[|s.chat|] == ChatMsg(AssistantTurn, reply)
    ensures r.(chat := s.chat) == s
  {
    s.(chat := s.chat + [ChatMsg(AssistantTurn, reply)])
  }

  /** One exchange with nothing in between: a blank message is a no-op;
      otherwise exactly one user turn and then one assistant turn are
      appended, the input is cleared, and nothing else changes: no store,
      not the tab, not the busy flag. */
  function SendChat(s: DashState, reply: Option<string>): (st: Step)
    ensures Blank(s.chatInput) ==> st == Step(s, [], None)
    ensures !Blank(s.chatInput) ==>
      && |st.state.chat| == |s.chat| + 2
      && st.state.chat[..|s.chat|] == s.chat
      && st.state.chat[|s.chat|..] == [ChatMsg(UserTurn, Some(s.chatInput)), ChatMsg(AssistantTurn, reply)]
      && st.state.chatInput == ""
      && st.calls == [PostChat(s.chatInput)]
      && st.alert.None?
      && st.state.(chat := s.chat, chatInput := s.chatInput) == s
  {
    var sub := SubmitChat(s);
    if sub.calls == [] then sub
    else
      var r := ReceiveReply(sub.state, reply);
      assert r.chat == s.chat + [ChatMsg(UserTurn, Some(s.chatInput)), ChatMsg(AssistantTurn, reply)];
      Step(r, sub.calls, None)
  }
}
