# mico: URL normalisation and the front-end state store

mico is a desktop RSS reader. Its Tauri back end fetches and stores feeds.
Its Svelte front end keeps the channels and items it has received in a store.
This project models two pieces of that system and proves what they guarantee.

- **Backend** (`backend.dfy`) models `format_url`. This is the normalisation applied to a
  feed URL before it is fetched. A string that does not start with the literal,
  case-sensitive prefix `http` gets `https://` put in front of it. Any other string is
  returned unchanged. The model proves that the result always starts with `http`. It
  proves the input is returned unchanged exactly when it already had the prefix. It proves
  the input is a suffix of the result, and that normalising is idempotent. It also pins
  down the quirks: `HTTP://x` is not recognised, `httpfoo` passes through, and a bare host
  and the same host written with `https://` normalise to the same string.
- **Models** (`models.ts`, modelled in `models.dfy`) covers the records the front end
  receives. A record arriving from the back end carries an `id`, modelled as
  `Input(id, fields)`. `ObjectToIdTuple` pairs that id with a copy of the whole record.
  `ArrayToIdMap` builds the id-keyed map that a JavaScript `Map` constructor builds from
  those pairs. The model proves that the map's key set is exactly the set of input ids.
  It proves that every entry sits under its own id, that the last record with a given id
  wins, and that every stored value is one of the inputs. It proves the map has at most
  one entry per input, and exactly one per input when the ids are distinct. Building the
  map from `a + b` is the same as building it from `a` and then overlaying `b`. The
  `subscribe` command constructor is modelled as `SubscribeTo`.
- **Stores** (`store.ts`, modelled in `store.dfy`) models the application state as a
  class `Store` with fields `items`, `channels` and `openItem`, and one method per
  reducer. `Valid()` is the invariant that every item and every channel is stored under
  the id it carries. Every reducer keeps it. Each method states the whole new state:
  what it replaces or updates, and that nothing else changes. The batch merge of new
  items is specified by the pure function `MergeById`. The model proves that this merge
  is idempotent, that two merges in a row equal one merge of the concatenated payload,
  and that inserting one channel is a one-record merge.

`store.ts` carries its own copies of `objectToIdTuple` and `arrayToIdMap`
(src-frontend/src/store.ts:40-45). They behave the same as the ones in `models.ts`, so
the model defines each only once, in `Models`.

## Model

| member | source | states |
|---|---|---|
| `Backend.FormatUrl` | src-tauri/src/main.rs:78-83 | The result starts with `http`. It equals the input iff the input starts with `http`, and is otherwise `https://` followed by the input. The input is a suffix of the result, and the length grows by exactly 0 or 8. |
| `Backend.FormatUrlIdempotent` | src-tauri/src/main.rs:78-83 | Normalising a normalised URL changes nothing. |
| `Backend.FormatUrlLiteralPrefix` | src-tauri/src/main.rs:79 | The prefix test is literal and case-sensitive: `HTTP://x` becomes `https://HTTP://x`. `httpx.org` and `httpfoo` are left alone, and the empty string becomes `https://`. |
| `Backend.FormatUrlMergesSchemelessAndExplicit` | src-tauri/src/main.rs:79-82 | A host without the prefix and the same host with `https://` written out normalise to one string, although they are different inputs. |
| `Models.SubscribeTo` | src-frontend/src/models.ts:9 | The subscribe command has `cmd` equal to `Action.Subscribe` and carries the URL argument unchanged. |
| `Models.ObjectToIdTuple` | src-frontend/src/models.ts:43-46 | The key is the input's id. The value is a field-for-field copy of the input that keeps the `id` field, so the key equals the value's id. |
| `Models.ArrayToIdMap` | src-frontend/src/models.ts:47-48 | The key set is exactly the set of ids in the inputs. Every entry is stored under its own id. The map is empty iff the input array is empty. |
| `Models.ArrayToIdMapLastWins` | src-frontend/src/models.ts:47-48 | For each id, the stored value is the last input carrying that id (the `Map` constructor sets the pairs in order). |
| `Models.ArrayToIdMapValuesFromInputs` | src-frontend/src/models.ts:47-48 | Every stored value is one of the inputs. |
| `Models.ArrayToIdMapSize` | src-frontend/src/models.ts:47-48 | The map size is at most the input length, and equals it when all ids are distinct. |
| `Models.ArrayToIdMapAppend` | src-frontend/src/models.ts:47-48 | The map of `a + b` is the map of `a` overlaid by the map of `b`. |
| `Stores.MergeById` | src-frontend/src/store.ts:29 | The key set is the old keys united with the payload ids. A payload id takes the payload's value, and other ids keep their old values. Storing every entry under its own id is preserved. |
| `Stores.MergeByIdIdempotent` | src-frontend/src/store.ts:29 | Merging the same payload twice equals merging it once. |
| `Stores.MergeByIdSequential` | src-frontend/src/store.ts:26-30 | Merging payload `a` and then payload `b` equals merging `a + b`. |
| `Stores.MergeByIdIntoEmpty` | src-frontend/src/store.ts:29 | Merging into an empty map is the same as building the map from the payload alone. |
| `Stores.SetIsSingletonMerge` | src-frontend/src/store.ts:23 | Setting one record under its own id is the same as merging a one-record payload. |
| `Stores.Store.constructor` | src-frontend/src/store.ts:6-9 | The initial state has no items, no channels and no open item, and satisfies the invariant. |
| `Stores.Store.ItemsToState` | src-frontend/src/store.ts:14-15 | `items` becomes the id map of the payload. `channels` and `openItem` are unchanged, and the invariant is kept. |
| `Stores.Store.ChannelsToState` | src-frontend/src/store.ts:17-18 | `channels` becomes the id map of the payload. `items` and `openItem` are unchanged, and the invariant is kept. |
| `Stores.Store.NewChannelToState` | src-frontend/src/store.ts:20-24 | The channel's id is added to the keys and maps to the received channel. Every other channel keeps its old value. `items` and `openItem` are unchanged. |
| `Stores.Store.NewItemsToState` | src-frontend/src/store.ts:26-30 | `items` becomes the old items merged with the payload, with payload entries winning. `channels` and `openItem` are unchanged. |
| `Stores.Store.OpenItem` | src-frontend/src/store.ts:32-36 | `openItem` becomes the given id. `items` and `channels` are unchanged. |
| `Stores.ReceiveItemsTwice` | src-frontend/src/store.ts:26-30 | Receiving the same batch of new items twice leaves the store as receiving it once would. |

## Left out

- Feed fetching and parsing (`fetch_channel`, src-tauri/src/main.rs:84-91) are left out. The network fetch goes through `surf` and the RSS parse through the `rss` crate, and neither has logic of its own to state. The shown back end has no date normalisation, no article-novelty decision and no merge of fetched articles, so none is modelled.
- The event loop and error reporting (`setup` and `emit_error_if_necessary`, src-tauri/src/main.rs:19-75) are Tauri event I/O on an async runtime. They are left out.
- The SQLite persistence in src-tauri/src/db.rs, the Diesel declarations in src-tauri/src/models.rs and src-tauri/src/schema.rs, and the serde-decoded command enum in src-tauri/src/cmd.rs are left out. They hold storage and decoding plumbing whose behaviour lives in libraries.
- The command tags do not line up across the two halves, and the model does not connect them. The front end emits `subscribe` and `getChannels` (`Action.Tag`). The back end's serde enum accepts `addFeed`, `getFeeds` and `getItemsByFeed`. JSON decoding is not part of this model.
- `toast.ts` (timer-driven notifications) and `api.ts` (a wrapper over Tauri `emit` and `JSON.stringify`) are left out.
- Svelte's notification of store subscribers after each `update` is not modelled. Only the state each reducer produces is.
- `Stores.Store.NewChannelToState`: JavaScript `Map.set` changes the existing channel map in place, so the previous state object sees the new channel too. The model reassigns a value-typed map and does not capture that aliasing.
- JavaScript `Map` insertion order is abstracted away, because no shown code iterates over it. Ids are JavaScript numbers and are modelled as unbounded integers.
- `Reception.payload` is declared as a one-element tuple type in `models.ts:16`, but every reducer uses it as the array itself. The model follows the use, not the declaration.
- `Backend.FormatUrl` works on Unicode characters, whereas Rust's `starts_with` compares UTF-8 bytes. For the ASCII prefix `http` the two tests agree.
