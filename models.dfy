/**
 The front end's data shapes and the helpers that turn a received array of
 id-carrying records into an id-keyed map (src-frontend/src/models.ts).
 A JavaScript `Map<Id, T>` becomes a Dafny `map`: no code here depends on
 the insertion order a JavaScript map remembers.
 */
module Models {

  datatype Option<T> = None | Some(value: T)

  /** Ids are JavaScript numbers; every id the back end hands out is an integer. */
  type Id = int

  /** The commands the front end can send to the back end, with their wire tags. */
  datatype Action = GetChannels | Subscribe
  {
    function Tag(): string
    {
      match this
      case GetChannels => "getChannels"
      case Subscribe => "subscribe"
    }
  }

  /** A message the front end emits: the union of the `Subscribe` and `GetChannels` shapes. */
  datatype Emission = SubscribeEmission(url: string) | GetChannelsEmission
  {
    /** The `cmd` field of the message. */
    function Cmd(): Action
    {
      match this
      case SubscribeEmission(_) => Subscribe
      case GetChannelsEmission => GetChannels
    }
  }

  /** Builds the command that asks the back end to subscribe to `url`. */
  function SubscribeTo(url: string): (e: Emission)
    ensures e.Cmd() == Subscribe
    ensures e.SubscribeEmission? && e.url == url
  {
    SubscribeEmission(url)
  }

  /** The kinds of event the back end sends to the front end. */
  datatype Event = AllChannels | AllItems

  /** An event received from the back end, carrying its payload. */
  datatype Reception<T> = Reception(kind: Event, payload: T)

  datatype Channel = Channel(url: string, date: string, title: string)

  datatype Item = Item(url: Option<string>, feedId: Id, read: bool, date: string, content: string, title: string)

  /** A record of shape `T` together with the `id` field the back end attaches (`T & { id: Id }`). */
  datatype Input<T> = Input(id: Id, fields: T)

  /** The ids carried by a sequence of records. */
  function Ids<T>(inputs: seq<Input<T>>): set<Id>
  {
    set i | 0 <= i < |inputs| :: inputs[i].id
  }

  /** Every entry is stored under the id its record carries. */
  ghost predicate IdKeyed<T>(m: map<Id, Input<T>>)
  {
    forall k | k in m :: m[k].id == k
  }

  /** No two records carry the same id. */
  ghost predicate DistinctIds<T>(inputs: seq<Input<T>>)
  {
    forall i, j | 0 <= i < j < |inputs| :: inputs[i].id != inputs[j].id
  }

  /** Pairs a record's id with a copy of the whole record, its `id` field included. */
  function ObjectToIdTuple<T>(input: Input<T>): (r: (Id, Input<T>))
    ensures r.0 == input.id && r.1.id == r.0
    ensures r.1.fields == input.fields
  {
    (input.id, Input(input.id, input.fields))
  }

  /**
   The map a JavaScript `Map` constructor builds from the id-tuples of
   `inputs`: it sets the pairs one after another, so a later record replaces
   an earlier one with the same id.
   */
  function ArrayToIdMap<T>(inputs: seq<Input<T>>): (r: map<Id, Input<T>>)
    ensures r.Keys == Ids(inputs)
    ensures IdKeyed(r)
    ensures r == map[] <==> inputs == []
    decreases |inputs|
  {
    if inputs == [] then map[]
    else
      var prefix := inputs[..|inputs| - 1];
      var (k, v) := ObjectToIdTuple(inputs[|inputs| - 1]);
      assert Ids(inputs) == Ids(prefix) + {k} by {
        assert forall i | 0 <= i < |prefix| :: prefix[i] == inputs[i];
      }
      ArrayToIdMap(prefix)[k := v]
  }

  /** The record stored under an id is the last record in `inputs` that carries it. */
  lemma {:induction false} ArrayToIdMapLastWins<T>(inputs: seq<Input<T>>, i: int)
    requires 0 <= i < |inputs|
    requires forall j | i < j < |inputs| :: inputs[j].id != inputs[i].id
    ensures inputs[i].id in ArrayToIdMap(inputs)
    ensures ArrayToIdMap(inputs)[inputs[i].id] == inputs[i]
    decreases |inputs|
  {
    if i < |inputs| - 1 {
      var prefix := inputs[..|inputs| - 1];
      ArrayToIdMapLastWins(prefix, i);
    }
  }

  /** Every stored record is one of the inputs. */
  lemma {:induction false} ArrayToIdMapValuesFromInputs<T>(inputs: seq<Input<T>>, k: Id)
    requires k in ArrayToIdMap(inputs)
    ensures exists i | 0 <= i < |inputs| :: inputs[i] == ArrayToIdMap(inputs)[k]
    decreases |inputs|
  {
    var n := |inputs|;
    if inputs[n - 1].id != k {
      var prefix := inputs[..n - 1];
      ArrayToIdMapValuesFromInputs(prefix, k);
      var i :| 0 <= i < |prefix| && prefix[i] == ArrayToIdMap(prefix)[k];
      assert inputs[i] == prefix[i];
    } else {
      assert inputs[n - 1] == ArrayToIdMap(inputs)[k];
    }
  }

  /** The map has at most one entry per input, and exactly one when the ids are distinct. */
  lemma {:induction false} ArrayToIdMapSize<T>(inputs: seq<Input<T>>)
    ensures |ArrayToIdMap(inputs)| <= |inputs|
    ensures DistinctIds(inputs) ==> |ArrayToIdMap(inputs)| == |inputs|
    decreases |inputs|
  {
    if inputs != [] {
      var n := |inputs|;
      var prefix := inputs[..n - 1];
      ArrayToIdMapSize(prefix);
      if DistinctIds(inputs) {
        assert DistinctIds(prefix);
        assert inputs[n - 1].id !in Ids(prefix) by {
          forall i | 0 <= i < |prefix|
            ensures prefix[i].id != inputs[n - 1].id
          {
            assert prefix[i] == inputs[i];
          }
        }
      }
    }
  }

  /** Building the map from two arrays one after the other equals building it from their concatenation. */
  lemma {:induction false} ArrayToIdMapAppend<T>(a: seq<Input<T>>, b: seq<Input<T>>)
    ensures ArrayToIdMap(a + b) == ArrayToIdMap(a) + ArrayToIdMap(b)
    decreases |b|
  {
    if b == [] {
      assert a + b == a;
    } else {
      var n := |b|;
      var b' := b[..n - 1];
      assert (a + b)[..|a + b| - 1] == a + b';
      assert (a + b)[|a + b| - 1] == b[n - 1];
      ArrayToIdMapAppend(a, b');
    }
  }
}
