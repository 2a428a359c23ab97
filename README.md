# Chat relay and shopping cart, modelled in Dafny

This project models the two pieces of state logic in the repository.

- **The chat relay** (`main.js`) is a Socket.IO server. It keeps a `users` registry, keyed by connection id, and a `messageHistory` of at most 100 messages. Its handlers for `userJoin`, `sendMessage`, `typing`, `stopTyping`, `getUsers` and `disconnect` update these stores and emit events, and `/api/status` reports two counters. In `chat.dfy`, module `Chat` models the server as the class `Relay`. The class has one field for each store:
  - the set of connected sockets;
  - the registry, as a map plus the insertion order of its keys, because `Object.values` lists entries in that order;
  - the history;
  - an outbox that records each emit with the exact set of connections it reaches.

  `io.emit` reaches every connected socket, and `socket.broadcast.emit` reaches every connected socket except the sender. Neither depends on who has joined. `socket.emit` reaches only the sender.
- **The cart slice** (`exp.js`) is a Redux slice. It holds a list of `{id, price, quantity}` items and a `totalPrice`. In `cart.dfy`, module `Cart` models it as the class `CartState`, with the reducers `addItem`, `removeItem`, `updateQuantity` and `clearCart` as methods. The three array iterations the reducers use (`find`, `filter` and `reduce`) are loop methods. Each one is proved against a recursive function: `FirstIndex`, `Without` and `Total`. Prices are integer cents, so the total is exact.

The class invariants are `Relay.Valid()` and `CartState.Valid()`. Every handler and reducer keeps its invariant.
- `Relay.Valid()` says four things. The key order has no repeats and lists exactly the registry's keys. Every entry's `id` is its key. Every registered id belongs to a connected socket. The history holds at most 100 messages.
- `CartState.Valid()` says three things. Ids are unique. Quantities are at least 1. `totalPrice` is the sum of price × quantity.

The model follows `main.js` on three points:
- The code keeps no typing state. `typing` and `stopTyping` only relay, and `disconnect` clears nothing for typing.
- Broadcasts go to every connected socket, not only to joined users.
- A `sendMessage` or `typing` event from a connection that never joined is processed like any other. It uses the username from the payload.

## Model

| member | source | states |
|---|---|---|
| `Chat.Relay.constructor` | main.js:25-26 | The server starts with no sockets, an empty registry, an empty history and nothing emitted. |
| `Chat.Relay.Connect` | main.js:29 | A new socket joins the connected set. The invariant is kept. |
| `Chat.Relay.UserJoin` | main.js:33-53 | The entry under the caller's id becomes `{id, username, joinedAt}`. Every other entry and the history are unchanged. A new id goes last in the key order, and an existing id keeps its place. Exactly two events are emitted, in this order. The first is `userJoined` to every connected socket, with the users list and the joiner in it. The second is `messageHistory` to the joiner alone, carrying the history as it was before the join. |
| `Chat.Relay.SendMessage` | main.js:56-79 | The history becomes `Pushed(old history, msg)`, where `msg` has the sender's connection id and the payload's username. The users are unchanged. The new message is the newest history entry. Then one `receiveMessage` goes to every connected socket, sender included. |
| `Chat.Relay.Typing` | main.js:82-87 | Only one `userTyping {username, userId}` is emitted, to every connected socket except the sender. No state changes. |
| `Chat.Relay.StopTyping` | main.js:90-94 | Only one `userStoppedTyping {userId}` is emitted, to every connected socket except the sender. No state changes. |
| `Chat.Relay.GetUsers` | main.js:97-99 | Only one `usersList` is emitted, to the requester alone. It lists every registry entry. No state changes. |
| `Chat.Relay.Disconnect` | main.js:102-116 | The socket leaves the connected set. If it had joined, exactly its entry is deleted. Then `userLeft` goes to the remaining sockets, with a users list equal to the old one minus the leaver, the others in their earlier order. If it had not joined, nothing else changes and nothing is emitted. The id is absent afterwards, so a second disconnect is a no-op. |
| `Chat.Relay.Status` | main.js:125-131 | `connectedUsers` equals the number of registry entries. `messageCount` equals the history length, which is at most 100. Nothing is modified. |
| `Chat.Replay` | main.js:68-73 | From a history of at most 100 entries, repeated sends leave at most 100 entries. After at least one send, the last message sent is the newest entry. |
| `Chat.Pushed` | main.js:68-73 | From a history of at most 100 entries, push plus conditional shift leaves at most 100 entries. The pushed message is last. |
| `Chat.PushedIsNewest` | main.js:68-73 | One push leaves exactly the newest 100 messages, in order. |
| `Chat.NewestAfterPush` | main.js:68-73 | Evicting the oldest message on overflow does not change which messages are the newest 100 after later sends. |
| `Chat.ReplayKeepsNewest` | main.js:68-73 | From any history of at most 100 entries, a series of sends leaves the newest 100 of all the messages, in arrival order. This is the FIFO eviction law. |
| `Chat.ReplayFromEmpty` | main.js:68-73 | From an empty history, n sends leave the last min(n, 100) messages, in arrival order. |
| `Chat.Roster` | main.js:46 | `Object.values(users)` has one entry per key, and every listed entry is a registry value. |
| `Chat.Inserted` | main.js:35 | After `users[id] = …` the id is listed if it was new or already listed, so in a consistent registry it is listed either way. The old key order is a prefix of the new one, which grows by at most one key. |
| `Chat.Erase` | main.js:105 | After `delete users[id]` the key order is no longer than before and does not list the id. |
| `Chat.EraseAbsent` | main.js:105 | Deleting a key that is not listed leaves the key order unchanged. |
| `Chat.EraseAt` | main.js:105 | Deleting a key listed once at index k removes exactly that index, and the other keys keep their order. |
| `Chat.KeyCount` | main.js:128 | `Object.keys(users).length` equals the number of entries in the registry. |
| `Chat.JoinKeyed` | main.js:35-39 | Assigning `users[id]` keeps the registry consistent. The key order stays free of repeats and lists exactly the keys, and each entry's `id` is its key. |
| `Chat.JoinListing` | main.js:35-46 | After `users[id] = …`, the joiner is in `Object.values(users)`. Every other entry stays at its position. A new id is appended at the end. |
| `Chat.LeaveKeyed` | main.js:105 | `delete users[id]` keeps the registry consistent. |
| `Chat.LeaveMembers` | main.js:105-111 | After `delete users[id]`, the listing holds exactly the old entries whose id is not the leaver's. |
| `Chat.LeaveOrder` | main.js:105-111 | After `delete users[id]`, the listing is the old listing with the leaver's position cut out, so the others keep their relative order. |
| `Chat.LeaveListing` | main.js:105-111 | After `delete users[id]`, the listing is exactly the old listing minus entries with the leaver's id. It is one shorter, and the others keep their earlier order. |
| `Cart.Total` | exp.js:23 | The `reduce` sum is never negative when no line has a negative price or quantity. |
| `Cart.Without` | exp.js:27 | `filter` returns no more lines than it was given. Each kept line was in the input and has a different id. |
| `Cart.Added` | exp.js:15-21 | After `addItem` the payload's id is in the cart. The number of lines is unchanged for a known id and one more for a new id. |
| `Cart.Updated` | exp.js:32-39 | `updateQuantity` never adds lines. With an absent id it returns the list unchanged. |
| `Cart.FirstIndex` | exp.js:15 | `find` by id returns the first index holding that id. It returns nothing exactly when no item has that id. |
| `Cart.Find` | exp.js:15 | The `find` loop returns the same index as `FirstIndex`. |
| `Cart.FilterOut` | exp.js:27 | The `filter` loop returns `Without(items, id)`. |
| `Cart.SumTotal` | exp.js:23 | The `reduce` loop returns `Total(items)`, the sum of price × quantity. |
| `Cart.TotalAppend` | exp.js:20-23 | Pushing one line raises the `reduce` sum by exactly that line's price × quantity. |
| `Cart.TotalReplace` | exp.js:18 | Changing one line changes the total by exactly the difference of the two lines. |
| `Cart.TotalRemove` | exp.js:27-28 | Dropping one line takes exactly that line's price × quantity off the total. |
| `Cart.WithoutAbsent` | exp.js:27 | Filtering out an absent id returns the list unchanged. |
| `Cart.WithoutPresent` | exp.js:27 | When ids are unique, filtering out a present id removes exactly that index, and the rest stay in order. |
| `Cart.AddExisting` | exp.js:15-18 | `addItem` with an id already in the cart raises exactly that line's quantity by 1. Every other line is unchanged. |
| `Cart.AddNew` | exp.js:19-21 | `addItem` with a new id appends the payload with quantity 1, overriding the payload's quantity. |
| `Cart.AddSpec` | exp.js:14-21 | `addItem` keeps ids unique and quantities ≥ 1, and the id is then in the cart. |
| `Cart.AddTotal` | exp.js:14-23 | After `addItem`, the total rises by one unit price: the existing line's price, or the payload's price for a new line. |
| `Cart.WithoutConcat` | exp.js:27 | `filter` distributes over concatenation. |
| `Cart.WithoutSplit` | exp.js:27 | Filtering out an id that only one line holds removes exactly that line. |
| `Cart.RemoveSpec` | exp.js:26-29 | `removeItem` drops the line with that id and keeps the others in order. An absent id changes nothing. Afterwards no line has that id, ids stay unique and quantities stay ≥ 1. |
| `Cart.OnlyIndex` | exp.js:15 | With unique ids, an index that holds an id is the only index holding it, so `find` hits the one matching line. |
| `Cart.RemoveTotal` | exp.js:27-28 | After `removeItem`, the total falls by exactly the removed line's price × quantity. |
| `Cart.UpdateSpec` | exp.js:31-39 | With an absent id, `updateQuantity` changes nothing. A quantity ≤ 0 drops exactly that line, and the others keep their order. Otherwise only that line's quantity is set. Ids stay unique and quantities stay ≥ 1. |
| `Cart.UpdateTotal` | exp.js:31-41 | After `updateQuantity`, the new total is the old total minus the old line, plus price × new quantity, or plus 0 when the line was dropped. |
| `Cart.CartState.constructor` | exp.js:9-12 | The initial state has no items and a `totalPrice` of 0. |
| `Cart.CartState.AddItem` | exp.js:14-24 | The items become `Added(old items, payload)`. The invariant is kept, so the total equals the sum of the lines. |
| `Cart.CartState.RemoveItem` | exp.js:26-29 | The items become `Without(old items, id)`, and the id is absent afterwards. The invariant is kept. |
| `Cart.CartState.UpdateQuantity` | exp.js:31-42 | The items become `Updated(old items, id, quantity)`. The invariant is kept. |
| `Cart.CartState.ClearCart` | exp.js:44-47 | The items become empty and `totalPrice` becomes 0. |

## Left out

- Express, HTTP, Socket.IO and CORS setup, static serving, `server.listen`, the `error` handler and all console logging are left out. They are I/O plumbing.
- Delivery over sockets is not modelled. Each emit is an outbox record with its recipient set, so delivery failures are not modelled either.
- `new Date()` is not modelled. Each timestamp is a parameter: `joinedAt` and the event's `now` in `UserJoin`, `now` in `SendMessage` and `Disconnect`.
- The constant fields `type: 'system'` and `type: 'user'` are not modelled. The event constructor stands for them.
- Payload validation is not modelled. Each handler takes its payload fields as given, so a missing field, which JavaScript would read as `undefined`, is not represented.
- `Chat.Roster` orders keys by insertion only. JavaScript lists integer-like keys first, in numeric order. Socket.IO ids are random strings, not integers.
- `Cart.Item`: ids and quantities are integers, and prices are integer cents. JavaScript numbers are floating point, and floating-point rounding of `totalPrice` is not modelled.
- Redux store configuration, the Immer draft mechanics, the React components and the `PRODUCTS` data are not modelled.
