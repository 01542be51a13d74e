/** The greeting contract's message board: a persisted deque of messages
    under the namespace "messages" and one stored "sender" entry.

    Each entry point is a method of `MessageBoard`; the account that calls it
    (the host's `context.sender`) is passed in as `caller`. Logging is not
    modelled.
 */
module Greeting {
  import opened Deque

  datatype Option<T> = None | Some(value: T)

  /** What an entry point returns, or the message it aborts the call with.
      An aborted call leaves the contract state as it was. */
  datatype Result<T> = Success(value: T) | Failure(error: string)

  /** The text between the author and the message of a stored entry. */
  const Says: string := " says "

  /** The message `saveMyMessage` aborts with when the message is blank. */
  const BlankMessage: string := "Message can not be blank."

  /** The stored form of a message: its author, " says ", then the message.
      The postconditions locate each part; `EntryDeterminesPost` uses them. */
  function Entry(caller: string, message: string): (r: string)
    ensures |r| == |caller| + |Says| + |message|
    ensures r[..|caller|] == caller
    ensures r[|caller|..|caller| + |Says|] == Says
    ensures r[|caller| + |Says|..] == message
  {
    caller + Says + message
  }

  /** If neither author contains a space (account names never do), the
      stored entry determines who posted what: no two different posts are
      stored as the same string. */
  lemma EntryDeterminesPost(c1: string, m1: string, c2: string, m2: string)
    requires ' ' !in c1 && ' ' !in c2
    requires Entry(c1, m1) == Entry(c2, m2)
    ensures c1 == c2 && m1 == m2
  {
    var e := Entry(c1, m1);
    assert e[|c1|] == ' ';
    assert e[|c2|] == Entry(c2, m2)[|c2|] == ' ';
  }

  /** One accepted `saveMyMessage` call: who called it and with what. */
  datatype Post = Post(caller: string, message: string)

  /** The stored entries of `posts`, in the order the posts were made. */
  function Entries(posts: seq<Post>): seq<string>
    decreases |posts|
  {
    if posts == [] then []
    else
      var p := posts[|posts| - 1];
      Entries(posts[..|posts| - 1]) + [Entry(p.caller, p.message)]
  }

  /** The deque after `posts` were saved, in order, into an empty one. */
  function Stored(posts: seq<Post>): Deque {
    PushAllFront([], Entries(posts))
  }

  /** Draining the deque returns the entries oldest first: in the order the
      messages were saved. */
  lemma DrainReplaysPosts(posts: seq<Post>)
    ensures DrainOrder(Stored(posts)) == Entries(posts)
  {
    FifoDrain([], Entries(posts));
  }

  /** The contract's persistent state. */
  class MessageBoard {
    /** The deque stored under "messages", front first. */
    var messages: Deque
    /** The "sender" entry of the key-value store; `None` until first set. */
    var sender: Option<string>
    /** The posts accepted since the deque was last drained, oldest first. */
    ghost var Posts: seq<Post>

    /** Every accepted post has a non-blank message, and the deque holds
        exactly the entries of the accepted posts, newest at the front. */
    ghost predicate Valid()
      reads this
    {
      (forall i :: 0 <= i < |Posts| ==> Posts[i].message != "") &&
      messages == Stored(Posts)
    }

    /** A contract whose storage is still empty. */
    constructor ()
      ensures Valid()
      ensures messages == [] && sender == None && Posts == []
    {
      messages := [];
      sender := None;
      Posts := [];
    }

    /** `saveMyName`: records the caller under "sender", replacing any
        earlier value; the messages stay as they are. */
    method SaveMyName(caller: string)
      requires Valid()
      modifies this
      ensures Valid()
      ensures sender == Some(caller)
      ensures messages == old(messages) && Posts == old(Posts)
    {
      sender := Some(caller);
    }

    /** `saveMyMessage`: aborts on a blank message and changes nothing;
        otherwise puts "<caller> says <message>" in front of every stored
        message and returns true. The "sender" entry is never touched. */
    method SaveMyMessage(caller: string, message: string) returns (r: Result<bool>)
      requires Valid()
      modifies this
      ensures Valid()
      ensures message == "" ==> r == Failure(BlankMessage) && messages == old(messages) && Posts == old(Posts)
      ensures message != "" ==> r == Success(true) && messages == [Entry(caller, message)] + old(messages)
      ensures message != "" ==> Posts == old(Posts) + [Post(caller, message)]
      ensures sender == old(sender)
    {
      if |message| == 0 {
        return Failure(BlankMessage);
      }
      ghost var p := Post(caller, message);
      messages := PushFront(messages, Entry(caller, message));
      Posts := Posts + [p];
      r := Success(true);
    }

    /** `getAllMessages`: pops the back of the deque until it is empty and
        returns what it popped, in that order. That is every stored message,
        oldest first; the deque is left empty and "sender" untouched. */
    method GetAllMessages() returns (results: seq<string>)
      requires Valid()
      modifies this
      ensures Valid()
      ensures results == DrainOrder(old(messages))
      ensures results == Entries(old(Posts))
      ensures messages == [] && Posts == []
      ensures sender == old(sender)
    {
      DrainReplaysPosts(Posts);
      results := [];
      while !IsEmpty(messages)
        invariant results + DrainOrder(messages) == DrainOrder(old(messages))
        invariant sender == old(sender) && Posts == old(Posts)
        decreases |messages|
      {
        var (rest, x) := PopBack(messages);
        messages := rest;
        results := results + [x];
      }
      Posts := [];
    }
  }

  /** Two posts, drained: they come back in the order they were saved. */
  method TwoPostsDrainInOrder() {
    var board := new MessageBoard();
    var r := board.SaveMyMessage("alice", "hi");
    assert r == Success(true);
    r := board.SaveMyMessage("bob", "");
    assert r.Failure?;
    r := board.SaveMyMessage("bob", "yo");
    var all := board.GetAllMessages();
    assert all == [Entry("alice", "hi"), Entry("bob", "yo")];
    assert Entry("alice", "hi") == "alice says hi" by {
      assert "alice" + Says + "hi" == "alice says hi";
    }
    assert Entry("bob", "yo") == "bob says yo" by {
      assert "bob" + Says + "yo" == "bob says yo";
    }
    assert all == ["alice says hi", "bob says yo"];
    all := board.GetAllMessages();
    assert all == [];
  }
}
