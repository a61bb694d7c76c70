/** What the screen shows of the session: which of the three views is
    rendered, and, in the chat view, which entries of the log appear. */
module ChatView {
  import opened Protocol

  datatype Screen = LoadingScreen | ChatScreen | LobbyScreen

  /** The view selector: loading takes precedence over being in a chat. */
  function SelectScreen(loading: bool, inChat: bool): (s: Screen)
    ensures s == LoadingScreen <==> loading
    ensures s == ChatScreen <==> !loading && inChat
    ensures s == LobbyScreen <==> !loading && !inChat
  {
    if loading then LoadingScreen else if inChat then ChatScreen else LobbyScreen
  }

  /** `a` is `b` with some elements left out, the rest in their order. */
  ghost predicate IsSubsequence<T>(a: seq<T>, b: seq<T>)
    decreases |b|
  {
    a == [] || (b != [] && ((a[0] == b[0] && IsSubsequence(a[1..], b[1..])) || IsSubsequence(a, b[1..])))
  }

  /** The log filtered to entries of type "message": only message events,
      never more entries than the log. */
  function ChatMessages(log: seq<Event>): (r: seq<Event>)
    ensures |r| <= |log|
    ensures forall i :: 0 <= i < |r| ==> r[i].Message?
  {
    if log == [] then []
    else if log[0].Message? then [log[0]] + ChatMessages(log[1..])
    else ChatMessages(log[1..])
  }

  /** The filter keeps exactly the message events of the log, and keeps them
      in the order they were received. */
  lemma {:induction false} ChatMessagesKeepsMessages(log: seq<Event>)
    ensures forall e :: e in ChatMessages(log) <==> e in log && e.Message?
    ensures IsSubsequence(ChatMessages(log), log)
  {
    if log != [] {
      ChatMessagesKeepsMessages(log[1..]);
      var rest := ChatMessages(log[1..]);
      if log[0].Message? {
        assert ([log[0]] + rest)[1..] == rest;
      }
      assert forall e :: e in log <==> e == log[0] || e in log[1..];
    }
  }

  /** The number of message events in the log, counted from its end. */
  function CountMessages(log: seq<Event>): nat {
    if log == [] then 0
    else CountMessages(log[..|log| - 1]) + (if log[|log| - 1].Message? then 1 else 0)
  }

  /** Filtering commutes with concatenation. */
  lemma {:induction false} ChatMessagesAppend(a: seq<Event>, b: seq<Event>)
    ensures ChatMessages(a + b) == ChatMessages(a) + ChatMessages(b)
  {
    if a == [] {
      assert a + b == b;
    } else {
      assert (a + b)[0] == a[0];
      assert (a + b)[1..] == a[1..] + b;
      ChatMessagesAppend(a[1..], b);
    }
  }

  /** Receiving one event adds it to the chat list exactly when it is a message. */
  lemma ChatMessagesSnoc(log: seq<Event>, e: Event)
    ensures ChatMessages(log + [e]) == ChatMessages(log) + (if e.Message? then [e] else [])
  {
    ChatMessagesAppend(log, [e]);
    assert [e][1..] == [];
  }

  /** The chat list holds as many entries as the log holds message events. */
  lemma {:induction false} ChatMessagesCount(log: seq<Event>)
    ensures |ChatMessages(log)| == CountMessages(log)
  {
    if log != [] {
      var init := log[..|log| - 1];
      assert log == init + [log[|log| - 1]];
      ChatMessagesSnoc(init, log[|log| - 1]);
      ChatMessagesCount(init);
    }
  }

  /** After any run of message events, in whatever number, the chat list is
      the earlier list followed by exactly those events in arrival order. */
  lemma {:induction false} ChatMessagesOfMessageRun(log: seq<Event>, run: seq<Event>)
    requires forall i :: 0 <= i < |run| ==> run[i].Message?
    ensures ChatMessages(log + run) == ChatMessages(log) + run
    ensures CountMessages(log + run) == CountMessages(log) + |run|
  {
    if run == [] {
      assert log + run == log;
    } else {
      var init := run[..|run| - 1];
      assert run == init + [run[|run| - 1]];
      assert log + run == (log + init) + [run[|run| - 1]];
      ChatMessagesOfMessageRun(log, init);
      ChatMessagesSnoc(log + init, run[|run| - 1]);
    }
    ChatMessagesCount(log + run);
    ChatMessagesCount(log);
  }

  /** The chat pane: the "No messages yet" placeholder, or the bubbles. */
  datatype ChatPane = NoMessagesYet | Bubbles(shown: seq<Event>)

  /** The placeholder is shown exactly when the log holds no message event;
      otherwise the bubbles are the filtered log, one per message event. */
  function Pane(log: seq<Event>): (p: ChatPane)
    ensures p.NoMessagesYet? <==> CountMessages(log) == 0
    ensures p.Bubbles? ==> p.shown == ChatMessages(log) && |p.shown| == CountMessages(log)
  {
    ChatMessagesCount(log);
    var shown := ChatMessages(log);
    if |shown| == 0 then NoMessagesYet else Bubbles(shown)
  }
}
