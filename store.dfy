/**
 The front end's application state (src-frontend/src/store.ts): a writable
 cell holding the known items and channels, each keyed by id, and the id of
 the item the reader has open. Each reducer replaces or updates part of the
 state and leaves the rest alone.
 */
module Stores {
  import opened Models

  /**
   `m` with the records of `payload` written over it: the entries of the
   existing map come first and the payload's entries second, so a payload
   record wins over an existing one with the same id.
   */
  function MergeById<T>(m: map<Id, Input<T>>, payload: seq<Input<T>>): (r: map<Id, Input<T>>)
    ensures r.Keys == m.Keys + Ids(payload)
    ensures forall k | k in m && k !in Ids(payload) :: r[k] == m[k]
    ensures forall k | k in Ids(payload) :: r[k] == ArrayToIdMap(payload)[k]
    ensures IdKeyed(m) ==> IdKeyed(r)
  {
    m + ArrayToIdMap(payload)
  }

  /** Merging the same payload a second time changes nothing. */
  lemma MergeByIdIdempotent<T>(m: map<Id, Input<T>>, payload: seq<Input<T>>)
    ensures MergeById(MergeById(m, payload), payload) == MergeById(m, payload)
  {
  }

  /** Merging two payloads one after the other is merging their concatenation. */
  lemma MergeByIdSequential<T>(m: map<Id, Input<T>>, a: seq<Input<T>>, b: seq<Input<T>>)
    ensures MergeById(MergeById(m, a), b) == MergeById(m, a + b)
  {
    ArrayToIdMapAppend(a, b);
  }

  /** Merging into an empty map is building the map from the payload alone. */
  lemma MergeByIdIntoEmpty<T>(payload: seq<Input<T>>)
    ensures MergeById(map[], payload) == ArrayToIdMap(payload)
  {
  }

  /** Setting one record under its own id is merging a one-record payload. */
  lemma SetIsSingletonMerge<T>(m: map<Id, Input<T>>, c: Input<T>)
    ensures m[c.id := c] == MergeById(m, [c])
  {
  }

  /** The state held by the store. */
  class Store {
    var items: map<Id, Input<Item>>
    var channels: map<Id, Input<Channel>>
    var openItem: Option<Id>

    /** Every item and every channel sits under the id it carries. */
    ghost predicate Valid()
      reads this
    {
      IdKeyed(items) && IdKeyed(channels)
    }

    /** The initial state: no items, no channels, no open item. */
    constructor ()
      ensures Valid()
      ensures items == map[] && channels == map[] && openItem == None
    {
      items := map[];
      channels := map[];
      openItem := None;
    }

    /** Replaces all items with the received ones. */
    method ItemsToState(received: Reception<seq<Input<Item>>>)
      requires Valid()
      modifies this
      ensures Valid()
      ensures items == ArrayToIdMap(received.payload)
      ensures channels == old(channels) && openItem == old(openItem)
    {
      items := ArrayToIdMap(received.payload);
    }

    /** Replaces all channels with the received ones. */
    method ChannelsToState(received: Reception<seq<Input<Channel>>>)
      requires Valid()
      modifies this
      ensures Valid()
      ensures channels == ArrayToIdMap(received.payload)
      ensures items == old(items) && openItem == old(openItem)
    {
      channels := ArrayToIdMap(received.payload);
    }

    /** Inserts one received channel, or overwrites the channel with its id. */
    method NewChannelToState(received: Reception<Input<Channel>>)
      requires Valid()
      modifies this
      ensures Valid()
      ensures channels.Keys == old(channels).Keys + {received.payload.id}
      ensures channels[received.payload.id] == received.payload
      ensures forall k | k in old(channels) && k != received.payload.id :: channels[k] == old(channels)[k]
      ensures items == old(items) && openItem == old(openItem)
    {
      var (k, v) := ObjectToIdTuple(received.payload);
      channels := channels[k := v];
    }

    /** Merges a batch of received items into the known ones; a received item wins. */
    method NewItemsToState(received: Reception<seq<Input<Item>>>)
      requires Valid()
      modifies this
      ensures Valid()
      ensures items == MergeById(old(items), received.payload)
      ensures channels == old(channels) && openItem == old(openItem)
    {
      items := items + ArrayToIdMap(received.payload);
    }

    /** Records which item the reader has open. */
    method OpenItem(itemId: Id)
      requires Valid()
      modifies this
      ensures Valid()
      ensures openItem == Some(itemId)
      ensures items == old(items) && channels == old(channels)
    {
      openItem := Some(itemId);
    }
  }

  /**
   A reader's session: receiving the same batch of new items twice leaves the
   store as receiving it once would, and the channel list is untouched.
   */
  method ReceiveItemsTwice(s: Store, received: Reception<seq<Input<Item>>>)
    requires s.Valid()
    modifies s
    ensures s.Valid()
    ensures s.items == MergeById(old(s.items), received.payload)
    ensures s.channels == old(s.channels) && s.openItem == old(s.openItem)
  {
    s.NewItemsToState(received);
    s.NewItemsToState(received);
    MergeByIdIdempotent(old(s.items), received.payload);
  }
}
