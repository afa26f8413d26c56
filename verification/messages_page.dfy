/** The messages page: the conversation list with its name search, the
    thread of the selected conversation, and the send box, which only
    accepts text with something other than white space. */
module MessagesPage {
  import opened Seqs
  import opened Text
  import opened MockData
  import opened App

  /** `selectedConversation`, `messageText`, `searchQuery`. */
  datatype Chat = Chat(selected: Conversation, text: string, query: string)

  /** The first conversation is selected, the box and the search are empty. */
  const Init: Chat := Chat(Conversations[0], "", "")

  /** `mockMessages[id] || []`. */
  function Thread(threads: map<string, seq<Message>>, c: Conversation): (r: seq<Message>)
    ensures c.id in threads ==> r == threads[c.id]
    ensures c.id !in threads ==> r == []
  {
    if c.id in threads then threads[c.id] else []
  }

  /** Each seeded conversation opens on its own non-empty thread, which
      ends with the message its preview line shows. */
  lemma SeedThreads(i: int)
    requires 0 <= i < |Conversations|
    ensures |Thread(MockData.Messages, Conversations[i])| > 0
    ensures Thread(MockData.Messages, Conversations[i])[|Thread(MockData.Messages, Conversations[i])| - 1].text == Conversations[i].lastMessage
  {
    ConversationsMatchThreads();
  }

  function NameMatches(q: string): Conversation -> bool
  {
    (c: Conversation) => ContainsIgnoringCase(c.name, q)
  }

  /** The list shown on the left. */
  function Visible(cs: seq<Conversation>, q: string): seq<Conversation>
  {
    Filter(cs, NameMatches(q))
  }

  /** A conversation is listed exactly when its name contains the query,
      ignoring case; an empty query lists them all in order. */
  lemma VisibleMeaning(cs: seq<Conversation>, q: string)
    ensures forall c :: c in Visible(cs, q) <==> c in cs && ContainsIgnoringCase(c.name, q)
    ensures q == "" ==> Visible(cs, q) == cs
  {
    if q == "" {
      forall i | 0 <= i < |cs| ensures NameMatches(q)(cs[i]) {
        EmptyQueryMatches(cs[i].name);
      }
      FilterAll(cs, NameMatches(q));
    }
  }

  /** Clicking a listed conversation selects it; the draft stays. */
  function Select(ch: Chat, c: Conversation): Chat
  {
    ch.(selected := c)
  }

  /** Clicking a seeded conversation shows its own thread: non-empty, and
      ending with the message its preview line quotes. The draft and the
      search stay as they were. */
  lemma SelectShowsThread(ch: Chat, i: int)
    requires 0 <= i < |Conversations|
    ensures var shown := Thread(MockData.Messages, Select(ch, Conversations[i]).selected);
      && |shown| > 0
      && shown[|shown| - 1].text == Conversations[i].lastMessage
    ensures Select(ch, Conversations[i]).text == ch.text && Select(ch, Conversations[i]).query == ch.query
  {
    SeedThreads(i);
  }

  /** The send button is enabled when the trimmed draft is non-empty. */
  predicate SendEnabled(text: string)
  {
    Trim(text) != ""
  }

  /** `handleSendMessage`, from the button or the Enter key: a draft with
      content is cleared, a blank one is left alone. */
  function Send(ch: Chat): Chat
  {
    if SendEnabled(ch.text) then ch.(text := "") else ch
  }

  /** Sending changes the state exactly when the button is enabled, which
      is exactly when the draft has a character that is not white space;
      afterwards the box is empty or blank, and a second send does nothing. */
  lemma SendMeaning(ch: Chat)
    ensures Send(ch) != ch <==> SendEnabled(ch.text)
    ensures SendEnabled(ch.text) <==> exists i :: 0 <= i < |ch.text| && !IsSpace(ch.text[i])
    ensures Send(ch).selected == ch.selected && Send(ch).query == ch.query
    ensures SendEnabled(ch.text) ==> Send(ch).text == ""
    ensures !SendEnabled(Send(ch).text)
    ensures Send(Send(ch)) == Send(ch)
  {
    TrimEmptyIffBlank(ch.text);
    TrimEmptyIffBlank(Send(ch).text);
    if SendEnabled(ch.text) {
      assert ch.text != "";
    }
  }

  /** The side panel's buttons. */
  function ViewInCalendar(s: State): State
  {
    Navigate(s, Id(Calendar), None)
  }

  function BookAnotherSession(s: State): State
  {
    Navigate(s, Id(Booking), Some(PageData(Some("1"))))
  }

  /** "Book Another Session" always books tutor "1", whoever the selected
      conversation is with; "View in Calendar" keeps the payload. */
  lemma SidePanelTargets(s: State)
    ensures Render(BookAnotherSession(s)) == BookingView("1")
    ensures Render(ViewInCalendar(s)) == CalendarView && ViewInCalendar(s).data == s.data
  {
  }
}
