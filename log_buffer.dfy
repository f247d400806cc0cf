/**
 * The bounded log kept by `WeChatHook.log`: a list of the most recent messages, at most
 * `MaxLogSize` long, from which the oldest entry is removed before a message is added to a full list.
 */
module LogBuffer {

  const MaxLogSize: nat := 1500

  /** The list after one `log(message)` call on `log`. */
  function Pushed(log: seq<string>, message: string): seq<string>
  {
    if |log| >= MaxLogSize then log[1..] + [message] else log + [message]
  }

  /** The list after logging each of `messages` in turn, starting from `log`. */
  function PushedAll(log: seq<string>, messages: seq<string>): seq<string>
    decreases |messages|
  {
    if messages == [] then log else PushedAll(Pushed(log, messages[0]), messages[1..])
  }

  /** Reference definition: the last `MaxLogSize` entries of `s`, or all of `s` if it is shorter. */
  function Window(s: seq<string>): (r: seq<string>)
    ensures |r| == if |s| <= MaxLogSize then |s| else MaxLogSize
    ensures s == s[..|s| - |r|] + r
  {
    if |s| <= MaxLogSize then s else s[|s| - MaxLogSize..]
  }

  /** One call keeps the list within `MaxLogSize`, puts `message` last and drops at most the oldest entry. */
  lemma PushedShape(log: seq<string>, message: string)
    requires |log| <= MaxLogSize
    ensures |Pushed(log, message)| <= MaxLogSize
    ensures Pushed(log, message)[|Pushed(log, message)| - 1] == message
    ensures |log| < MaxLogSize ==> Pushed(log, message) == log + [message]
    ensures |log| == MaxLogSize ==>
      |Pushed(log, message)| == MaxLogSize && Pushed(log, message)[..MaxLogSize - 1] == log[1..]
  {
  }

  /** Logging one more message moves the window over the whole history by one. */
  lemma PushedWindow(s: seq<string>, message: string)
    ensures Pushed(Window(s), message) == Window(s + [message])
  {
    if |s| >= MaxLogSize {
      assert Window(s)[1..] + [message] == (s + [message])[|s| + 1 - MaxLogSize..];
    }
  }

  /** Logging `messages` after a history `s` leaves exactly the window over `s + messages`. */
  lemma {:induction false} PushedAllWindow(s: seq<string>, messages: seq<string>)
    ensures PushedAll(Window(s), messages) == Window(s + messages)
    decreases |messages|
  {
    if messages != [] {
      var s' := s + [messages[0]];
      calc {
        PushedAll(Window(s), messages);
        PushedAll(Pushed(Window(s), messages[0]), messages[1..]);
        { PushedWindow(s, messages[0]); }
        PushedAll(Window(s'), messages[1..]);
        { PushedAllWindow(s', messages[1..]); }
        Window(s' + messages[1..]);
        { assert s' + messages[1..] == s + messages; }
        Window(s + messages);
      }
    }
  }

  /**
   * Starting from the empty list, logging `MaxLogSize + k` messages leaves exactly the last
   * `MaxLogSize` of them, oldest first.
   */
  lemma {:induction false} LastMessagesKept(messages: seq<string>, k: nat)
    requires |messages| == MaxLogSize + k
    ensures PushedAll([], messages) == messages[k..]
  {
    PushedAllWindow([], messages);
    assert [] + messages == messages;
  }

  /** Appending one more message to a batch is one more `log` call after the batch. */
  lemma {:induction false} PushedAllSnoc(log: seq<string>, messages: seq<string>, message: string)
    ensures PushedAll(log, messages + [message]) == Pushed(PushedAll(log, messages), message)
    decreases |messages|
  {
    if messages == [] {
      assert [] + [message] == [message];
      assert [message][1..] == [];
    } else {
      PushedAllSnoc(Pushed(log, messages[0]), messages[1..], message);
      assert (messages + [message])[1..] == messages[1..] + [message];
    }
  }

  /** A list within the bound is its own window, so every batch of calls keeps the bound. */
  lemma PushedAllBounded(log: seq<string>, messages: seq<string>)
    requires |log| <= MaxLogSize
    ensures |PushedAll(log, messages)| <= MaxLogSize
  {
    PushedAllWindow(log, messages);
  }
}
