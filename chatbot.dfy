/**
 * The chatbot widget of every page. It keeps two browser-storage entries:
 * the chat history (a log of messages that only grows) and whether the
 * window was left open. The chat body on the page shows the messages.
 */
module Chatbot {
  import opened Base
  import opened Strings

  /** An entry of the stored history. */
  datatype Message = Message(text: string, isUser: bool)

  /** The bot's greeting, the first entry of every history. */
  const Greeting: Message := Message("¡Hola! ¿En qué puedo ayudarte hoy?", false)

  const Open: string := "open"
  const Closed: string := "closed"

  /** The history `saveMessage(text, isUser)` stores, given the stored one (`None` when absent). */
  function Saved(history: Option<seq<Message>>, m: Message): (r: seq<Message>)
    ensures history.None? ==> r == [Greeting, m]
    ensures history.Some? ==> |r| == |history.value| + 1 && r[..|history.value|] == history.value
    ensures r[|r| - 1] == m
  {
    (if history.Some? then history.value else [Greeting]) + [m]
  }

  /** Saving onto the history a page shows appends to what it shows. */
  lemma SavedExtends(history: Option<seq<Message>>, body: seq<Message>, m: Message)
    requires body == (if history.Some? then history.value else [Greeting])
    ensures Saved(history, m) == body + [m]
  {
  }

  /** The stored history after saving `ms` one after another. */
  function SaveAll(history: Option<seq<Message>>, ms: seq<Message>): Option<seq<Message>>
    decreases |ms|
  {
    if ms == [] then history else SaveAll(Some(Saved(history, ms[0])), ms[1..])
  }

  /** Saving appends: the history is the old one (or the greeting) followed by every saved message, in order. */
  lemma {:induction false} SaveAllAppends(history: Option<seq<Message>>, ms: seq<Message>)
    requires ms != []
    ensures SaveAll(history, ms) == Some((if history.Some? then history.value else [Greeting]) + ms)
    decreases |ms|
  {
    var start := if history.Some? then history.value else [Greeting];
    if |ms| == 1 {
      assert ms[1..] == [] && ms == [ms[0]];
      assert SaveAll(Some(Saved(history, ms[0])), ms[1..]) == Some(Saved(history, ms[0]));
    } else {
      SaveAllAppends(Some(Saved(history, ms[0])), ms[1..]);
      assert start + [ms[0]] + ms[1..] == start + ms;
    }
  }

  /** The widget: the two storage entries and what the page shows. */
  class Widget {
    var history: Option<seq<Message>>
    var state: Option<string>
    var body: seq<Message>
    var windowActive: bool
    var buttonShown: bool
    var input: string

    /** The page shows what the history holds: the stored log, or the greeting when none is stored. */
    predicate Synced()
      reads this
    {
      body == (if history.Some? then history.value else [Greeting])
    }

    /** A page just loaded, with the storage left by earlier pages and the chat body of the page's markup. */
    constructor (storedHistory: Option<seq<Message>>, storedState: Option<string>, initialBody: seq<Message>)
      ensures history == storedHistory && state == storedState && body == initialBody
      ensures !windowActive && buttonShown && input == ""
    {
      history, state, body := storedHistory, storedState, initialBody;
      windowActive, buttonShown, input := false, true, "";
    }

    /** `loadChatHistory`: a stored history replaces the chat body; otherwise the body stays. */
    method LoadChatHistory()
      modifies this`body
      ensures history.Some? ==> body == history.value
      ensures history.None? ==> body == old(body)
      ensures history.Some? || old(body) == [Greeting] ==> Synced()
    {
      if history.Some? {
        body := history.value;
      }
    }

    /** `saveMessage(text, isUser)`: one entry is appended to the stored history. */
    method SaveMessage(text: string, isUser: bool)
      modifies this`history
      ensures history == Some(Saved(old(history), Message(text, isUser)))
    {
      var messages := if history.Some? then history.value else [Greeting];
      messages := messages + [Message(text, isUser)];
      history := Some(messages);
    }

    /** `loadChatState`: a window left open opens again and hides the button. */
    method LoadChatState()
      modifies this`windowActive, this`buttonShown
      ensures state == Some(Open) ==> windowActive && !buttonShown
      ensures state != Some(Open) ==> windowActive == old(windowActive) && buttonShown == old(buttonShown)
    {
      if state == Some(Open) {
        windowActive := true;
        buttonShown := false;
      }
    }

    /**
     * `sendMessage`: a blank input is ignored and stays in the box;
     * otherwise the trimmed text is shown and saved as the user's, and
     * the box is cleared.
     */
    method SendMessage()
      modifies this`body, this`input, this`history
      ensures Trim(old(input)) == "" ==> body == old(body) && input == old(input) && history == old(history)
      ensures Trim(old(input)) != "" ==>
        && body == old(body) + [Message(Trim(old(input)), true)]
        && input == ""
        && history == Some(Saved(old(history), Message(Trim(old(input)), true)))
      ensures old(Synced()) ==> Synced()
    {
      var message := Trim(input);
      if message != "" {
        if Synced() {
          SavedExtends(history, body, Message(message, true));
        }
        body := body + [Message(message, true)];
        input := "";
        SaveMessage(message, true);
      }
    }

    /** The Enter key sends, so a blank input is ignored there too; any other key does nothing. */
    method KeyPress(key: string)
      modifies this`body, this`input, this`history
      ensures key != "Enter" || Trim(old(input)) == "" ==>
        body == old(body) && input == old(input) && history == old(history)
      ensures key == "Enter" && Trim(old(input)) != "" ==>
        && body == old(body) + [Message(Trim(old(input)), true)]
        && input == ""
        && history == Some(Saved(old(history), Message(Trim(old(input)), true)))
      ensures old(Synced()) ==> Synced()
    {
      if key == "Enter" {
        SendMessage();
      }
    }

    /** The chatbot button: the window opens, the button hides, and the open state is stored. */
    method OpenWindow()
      modifies this`windowActive, this`buttonShown, this`state
      ensures windowActive && !buttonShown && state == Some(Open)
    {
      windowActive := true;
      buttonShown := false;
      state := Some(Open);
    }

    /** The close button: the window closes, the button shows, and the closed state is stored. */
    method CloseWindow()
      modifies this`windowActive, this`buttonShown, this`state
      ensures !windowActive && buttonShown && state == Some(Closed)
    {
      windowActive := false;
      buttonShown := true;
      state := Some(Closed);
    }
  }

  /**
   * What a page does when it loads: it shows the stored history and
   * reopens a window left open. The window is open exactly when the
   * stored state says so.
   */
  method PageLoad(storedHistory: Option<seq<Message>>, storedState: Option<string>, initialBody: seq<Message>)
    returns (w: Widget)
    ensures fresh(w)
    ensures w.history == storedHistory && w.state == storedState && w.input == ""
    ensures w.windowActive <==> storedState == Some(Open)
    ensures w.buttonShown <==> storedState != Some(Open)
    ensures storedHistory.Some? ==> w.body == storedHistory.value
    ensures storedHistory.None? ==> w.body == initialBody
    ensures storedHistory.Some? || initialBody == [Greeting] ==> w.Synced()
  {
    w := new Widget(storedHistory, storedState, initialBody);
    w.LoadChatHistory();
    w.LoadChatState();
  }
}
