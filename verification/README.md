# Greeting contract message board, modelled in Dafny

The greeting contract (`contracts/01.greeting/assembly/index.ts`) is a small
message board. Its state is a persistent double-ended queue of strings under
the namespace `"messages"` and one key-value entry, `"sender"`. It has three
entry points that touch that state:

- `saveMyName` stores the calling account under `"sender"`.
- `saveMyMessage(message)` refuses a blank message. Otherwise it pushes
  `"<caller> says <message>"` onto the front of the deque and returns `true`.
- `getAllMessages` pops the back of the deque until it is empty and returns
  what it popped.

The project has two modules:

- `deque.dfy`, module `Deque`: the deque library's behaviour, abstractly.
  A deque is the sequence of its elements, front first. `PushFront`,
  `PopBack` and `IsEmpty` are its operations; they model the library calls
  at `contracts/01.greeting/assembly/index.ts` lines 48 (`pushFront`),
  69 (`popBack`) and 68 (`isEmpty`). `DrainOrder` is the order in
  which repeated `PopBack` calls return the elements. The lemmas prove that
  pushing to the front and draining from the back is first in, first out.
- `greeting.dfy`, module `Greeting`: the class `MessageBoard` with the
  fields `messages` (the deque) and `sender` (the `"sender"` entry, `None`
  until first written), and one method per entry point. A ghost field
  `Posts` records the posts accepted since the deque was last drained.
  The object invariant `Valid()` ties the deque to those posts, so
  `GetAllMessages` can promise that it returns every stored message oldest
  first. The caller's account (`context.sender` on the host) is an explicit
  `caller` parameter. An aborted call is a `Failure` result that leaves the
  state unchanged, as the host reverts an aborted call.

## Model

| member | source | states |
|---|---|---|
| `Deque.DrainOrder` | contracts/01.greeting/assembly/index.ts:68-70 | draining returns exactly one element per element the deque held, so an empty deque gives an empty result |
| `Deque.DrainOrderAt` | contracts/01.greeting/assembly/index.ts:68-70 | the k-th element drained from the back is the k-th element from the back of the deque |
| `Deque.DrainAfterPushFront` | contracts/01.greeting/assembly/index.ts:48-70 | an element pushed to the front is drained after every element already in the deque |
| `Deque.FifoDrain` | contracts/01.greeting/assembly/index.ts:48-70 | elements pushed to the front one after another are drained from the back in the order they were pushed |
| `Greeting.EntryDeterminesPost` | contracts/01.greeting/assembly/index.ts:48 | when authors contain no space, equal stored entries come from the same author and the same message |
| `Greeting.DrainReplaysPosts` | contracts/01.greeting/assembly/index.ts:43-73 | saving posts in order and then draining returns their entries in the order they were saved, oldest first |
| `Greeting.MessageBoard.SaveMyName` | contracts/01.greeting/assembly/index.ts:28-32 | `"sender"` becomes the caller, replacing any earlier value; the messages are untouched |
| `Greeting.MessageBoard.SaveMyMessage` | contracts/01.greeting/assembly/index.ts:43-51 | a blank message aborts with "Message can not be blank." and changes nothing; otherwise exactly one entry `caller says message` is added at the front, older messages are kept, `true` is returned, and `"sender"` is untouched |
| `Greeting.MessageBoard.GetAllMessages` | contracts/01.greeting/assembly/index.ts:62-73 | returns every stored message, oldest first, as many as the deque held; the loop ends with the deque empty; `"sender"` is untouched |

## Left out

- `showYouKnow` and every `logging.log` call: they only append to the host's log, which holds no state of the contract.
- The host platform: how `context.sender` is resolved, gas, and transactions. The caller is a parameter.
- The deque library's internals: its index counters, storage-key derivation and string serialisation. The library is not part of this model; only its sequence behaviour is.
- The deque's `pushBack` and `popFront`: the contract never calls them.
- `Deque.PopBack`: popping an empty deque is a fatal error of the library. The contract never does it, because its loop checks `isEmpty` first, so it is a precondition rather than an error result.
- The view-call question: the doc comment of `getAllMessages` calls it a "view" function that does not alter state, yet the code pops every element. Whether the host throws away writes made during a view call is platform behaviour. `GetAllMessages` models what the code does: it returns the drained list and leaves the deque empty.
- The length check of `saveMyMessage` counts UTF-16 code units. A string has length zero exactly when it is empty, so the model tests for the empty string.
