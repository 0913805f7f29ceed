/** The per-browser session of the chat front end: the current thread id, the list of
    known threads shown in the sidebar, and the visible message history. Randomness
    (fresh thread ids), the checkpoint store (loaded messages, stored thread ids) and the
    streamed reply enter as parameters. */
module ChatSession {
  import opened Optional
  import opened Sequences
  import opened Messages

  datatype Role = User | Assistant

  /** One visible history entry, the dictionary {role, content}. */
  datatype Entry = Entry(role: Role, content: string)

  /** The session keys once set up: `thread_id`, `chat_thread`, `message_history`. */
  datatype Session = Session(threadId: string, chatThread: seq<string>, messageHistory: seq<Entry>)

  /** The session store before set-up, where each key may still be missing. */
  datatype SessionStore = SessionStore(
    messageHistory: Option<seq<Entry>>,
    threadId: Option<string>,
    chatThread: Option<seq<string>>)

  /** The current thread is listed in the sidebar, and no thread is listed twice. */
  predicate Valid(s: Session)
  {
    s.threadId in s.chatThread && NoDuplicates(s.chatThread)
  }

  /** `add_thread`: append the id unless it is already listed. */
  function AddThread(threads: seq<string>, t: string): (r: seq<string>)
    ensures t in r
    ensures threads <= r
    ensures forall x :: x in r <==> x in threads || x == t
    ensures |r| == if t in threads then |threads| else |threads| + 1
    ensures NoDuplicates(threads) ==> NoDuplicates(r)
  {
    AppendFreshKeepsNoDuplicates(threads, t);
    if t in threads then threads else threads + [t]
  }

  /** Adding the same thread twice is adding it once. */
  lemma AddThreadIdempotent(threads: seq<string>, t: string)
    ensures AddThread(AddThread(threads, t), t) == AddThread(threads, t)
  {
  }

  /** `reset_chat` with `newId` in place of the generated id. */
  function ResetChat(s: Session, newId: string): (r: Session)
    ensures r.threadId == newId
    ensures newId in r.chatThread
    ensures r.messageHistory == []
    ensures s.chatThread <= r.chatThread
    // the thread list gains the new id and nothing else, and only when it was absent
    ensures forall x :: x in r.chatThread <==> x in s.chatThread || x == newId
    ensures |r.chatThread| == if newId in s.chatThread then |s.chatThread| else |s.chatThread| + 1
    ensures NoDuplicates(s.chatThread) ==> Valid(r)
  {
    Session(newId, AddThread(s.chatThread, newId), [])
  }

  /** The set-up block run at the top of every script run: each missing key is filled in
      (`newId` stands for a generated id, `stored` for the ids listed by the checkpoint
      store), then the current thread is registered. */
  function Setup(st: SessionStore, newId: string, stored: seq<string>): (r: Session)
    ensures r.threadId in r.chatThread
    ensures r.threadId == (if st.threadId.Some? then st.threadId.value else newId)
    ensures r.messageHistory == (if st.messageHistory.Some? then st.messageHistory.value else [])
    ensures st.chatThread.GetOr(stored) <= r.chatThread
    // the thread list gains the current id and nothing else, and only when it was absent
    ensures forall x :: x in r.chatThread <==> x in st.chatThread.GetOr(stored) || x == r.threadId
    ensures |r.chatThread| == if r.threadId in st.chatThread.GetOr(stored)
      then |st.chatThread.GetOr(stored)| else |st.chatThread.GetOr(stored)| + 1
    ensures NoDuplicates(st.chatThread.GetOr(stored)) ==> Valid(r)
  {
    var history := st.messageHistory.GetOr([]);
    var id := st.threadId.GetOr(newId);
    var threads := st.chatThread.GetOr(stored);
    Session(id, AddThread(threads, id), history)
  }

  /** The role a loaded message is shown with. */
  function RoleOf(m: Message): (r: Role)
    ensures r == User <==> m.kind == Human
  {
    if m.kind == Human then User else Assistant
  }

  /** The loaded messages as history entries, in order. */
  function ToEntries(msgs: seq<Message>): (h: seq<Entry>)
    ensures |h| == |msgs|
    ensures forall i :: 0 <= i < |msgs| ==> h[i].content == msgs[i].content
    ensures forall i :: 0 <= i < |msgs| ==> (h[i].role == User <==> msgs[i].kind == Human)
    decreases |msgs|
  {
    if |msgs| == 0 then []
    else
      var init, last := msgs[..|msgs| - 1], msgs[|msgs| - 1];
      ToEntries(init) + [Entry(RoleOf(last), last.content)]
  }

  /** The history after a thread's messages are loaded. The source assigns the rebuilt
      list to `message_history` inside the loop over the messages, so when there are no
      messages the assignment never runs and the previous history stays. */
  function RestoreHistory(previous: seq<Entry>, loaded: seq<Message>): (h: seq<Entry>)
    ensures |loaded| == 0 ==> h == previous
    ensures |loaded| > 0 ==> |h| == |loaded|
    ensures |loaded| > 0 ==> forall i :: 0 <= i < |loaded| ==> h[i].content == loaded[i].content
    ensures |loaded| > 0 ==> forall i :: 0 <= i < |loaded| ==> (h[i].role == User <==> loaded[i].kind == Human)
  {
    if |loaded| == 0 then previous else ToEntries(loaded)
  }

  /** A click on the sidebar button at `index` of `chat_thread`; `loaded` is that
      thread's stored message list. There is no button past the end of the list. */
  function SelectThread(s: Session, index: nat, loaded: seq<Message>): (r: Session)
    ensures index < |s.chatThread| ==> r.threadId == s.chatThread[index]
    ensures index < |s.chatThread| ==> r.messageHistory == RestoreHistory(s.messageHistory, loaded)
    ensures index >= |s.chatThread| ==> r == s
    ensures r.chatThread == s.chatThread
    ensures Valid(s) ==> Valid(r)
  {
    if index < |s.chatThread| then
      Session(s.chatThread[index], s.chatThread, RestoreHistory(s.messageHistory, loaded))
    else s
  }

  /** A submitted chat input. The user's entry is appended before the reply is streamed;
      `reply` is the streamed text, or `None` when the unguarded streaming call raises, in
      which case the assistant's entry is never appended. An empty or absent input (`""`)
      is falsy and changes nothing. */
  function UserTurn(s: Session, input: string, reply: Option<string>): (r: Session)
    ensures input == "" ==> r == s
    ensures s.messageHistory <= r.messageHistory
    ensures input != "" ==> |r.messageHistory| > |s.messageHistory|
    ensures input != "" ==> r.messageHistory[|s.messageHistory|] == Entry(User, input)
    // a completed turn adds exactly the user's entry and then the reply
    ensures input != "" && reply.Some? ==> |r.messageHistory| == |s.messageHistory| + 2
    ensures input != "" && reply.Some? ==>
      r.messageHistory[|s.messageHistory| + 1] == Entry(Assistant, reply.value)
    // a turn whose stream raised adds only the user's entry
    ensures input != "" && reply.None? ==> |r.messageHistory| == |s.messageHistory| + 1
    ensures r.threadId == s.threadId && r.chatThread == s.chatThread
  {
    if input == "" then s
    else
      var withUser := s.messageHistory + [Entry(User, input)];
      match reply
      case None => s.(messageHistory := withUser)
      case Some(text) => s.(messageHistory := withUser + [Entry(Assistant, text)])
  }

  /** What a user can do between script runs. */
  datatype Event =
    | NewChat(newId: string)
    | ClickThread(index: nat, loaded: seq<Message>)
    | Submit(input: string, reply: Option<string>)

  /** The state change of one event. Streamlit reruns the whole script on each event, so
      the set-up block runs first; on a session that is already set up and valid it changes
      nothing (`RerunSetupKeepsSession`), so it is left out of the step. */
  function Step(s: Session, e: Event): (r: Session)
    ensures s.chatThread <= r.chatThread
    ensures Valid(s) ==> Valid(r)
    ensures e.Submit? ==> r.threadId == s.threadId && r.chatThread == s.chatThread
  {
    match e
    case NewChat(newId) => ResetChat(s, newId)
    case ClickThread(index, loaded) => SelectThread(s, index, loaded)
    case Submit(input, reply) => UserTurn(s, input, reply)
  }

  /** The session after a sequence of events, one script rerun each. */
  function Run(s: Session, events: seq<Event>): (r: Session)
    ensures s.chatThread <= r.chatThread
    decreases |events|
  {
    if |events| == 0 then s else Run(Step(s, events[0]), events[1..])
  }

  /** The set-up block at the top of a rerun, on a store where every key is present and
      holds a valid session, gives back exactly that session. */
  lemma RerunSetupKeepsSession(s: Session, newId: string, stored: seq<string>)
    requires Valid(s)
    ensures Setup(SessionStore(Some(s.messageHistory), Some(s.threadId), Some(s.chatThread)), newId, stored) == s
  {
  }

  /** Every sequence of user actions keeps the current thread listed and the list free of
      duplicates, and the sidebar list only grows. */
  lemma {:induction false} RunPreservesValid(s: Session, events: seq<Event>)
    requires Valid(s)
    ensures Valid(Run(s, events))
    ensures s.chatThread <= Run(s, events).chatThread
    decreases |events|
  {
    if |events| > 0 {
      var s' := Step(s, events[0]);
      RunPreservesValid(s', events[1..]);
    }
  }

  /** A session freshly set up from a store whose thread list is duplicate-free is valid
      after any sequence of user actions. */
  lemma SetupThenRunValid(st: SessionStore, newId: string, stored: seq<string>, events: seq<Event>)
    requires NoDuplicates(st.chatThread.GetOr(stored))
    ensures Valid(Run(Setup(st, newId, stored), events))
  {
    RunPreservesValid(Setup(st, newId, stored), events);
  }

  /** Two submitted turns in a row extend the history by the four entries in order,
      without losing or reordering what was there. */
  lemma TwoTurnsAppend(s: Session, in1: string, out1: string, in2: string, out2: string)
    requires in1 != "" && in2 != ""
    ensures UserTurn(UserTurn(s, in1, Some(out1)), in2, Some(out2)).messageHistory
         == s.messageHistory + [Entry(User, in1), Entry(Assistant, out1), Entry(User, in2), Entry(Assistant, out2)]
  {
  }
}
