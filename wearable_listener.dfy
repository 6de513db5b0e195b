/** The wearable listener service: on a batch of data events from the
    paired handheld it forwards the data map of every "changed" event to
    the one registered listener, if there is one. */
module WearableListener {

  /** The kind of a data event (`DataEvent.getType()`). */
  datatype EventKind = Created | Changed | Deleted

  /** One data event of a batch: its kind and its data item. The data item
      is opaque; its data map is obtained with an extraction function. */
  datatype DataEvent<Item> = DataEvent(kind: EventKind, item: Item)

  /** The payloads a batch delivers: the extracted data map of each Changed
      event, in batch order. Defined from the end of the batch, the way the
      service's loop grows its prefix. */
  function Deliveries<Item, Payload>(events: seq<DataEvent<Item>>, extract: Item -> Payload): (r: seq<Payload>)
    ensures |r| <= |events|
  {
    if events == [] then []
    else
      var last := events[|events| - 1];
      Deliveries(events[..|events| - 1], extract)
        + (if last.kind == Changed then [extract(last.item)] else [])
  }

  /** The positions of the Changed events of a batch, in increasing order. */
  function ChangedPositions<Item>(events: seq<DataEvent<Item>>): (r: seq<nat>)
    ensures forall k :: 0 <= k < |r| ==> r[k] < |events|
  {
    if events == [] then []
    else
      ChangedPositions(events[..|events| - 1])
        + (if events[|events| - 1].kind == Changed then [|events| - 1] else [])
  }

  /** The number of Changed events in a batch, counted from the front. */
  function CountChanged<Item>(events: seq<DataEvent<Item>>): nat
  {
    if events == [] then 0
    else (if events[0].kind == Changed then 1 else 0) + CountChanged(events[1..])
  }

  /** A position is listed exactly when the event there is Changed:
      Created and Deleted events are skipped, and no Changed event is missed. */
  lemma {:induction false} ChangedPositionsExact<Item>(events: seq<DataEvent<Item>>, j: nat)
    ensures j in ChangedPositions(events) <==> j < |events| && events[j].kind == Changed
  {
    if events != [] {
      var n := |events| - 1;
      ChangedPositionsExact(events[..n], j);
      if j < n {
        assert events[..n][j] == events[j];
      }
    }
  }

  /** Positions are strictly increasing, so every Changed event appears once
      and in batch order. */
  lemma {:induction false} ChangedPositionsIncreasing<Item>(events: seq<DataEvent<Item>>)
    ensures forall a, b :: 0 <= a < b < |ChangedPositions(events)| ==>
      ChangedPositions(events)[a] < ChangedPositions(events)[b]
  {
    if events != [] {
      var n := |events| - 1;
      ChangedPositionsIncreasing(events[..n]);
    }
  }

  /** The k-th delivery is the extracted data map of the k-th Changed event,
      unmodified; there are as many deliveries as Changed events. */
  lemma {:induction false} DeliveriesAtChangedPositions<Item, Payload>(events: seq<DataEvent<Item>>, extract: Item -> Payload)
    ensures |Deliveries(events, extract)| == |ChangedPositions(events)|
    ensures forall k :: 0 <= k < |ChangedPositions(events)| ==>
      Deliveries(events, extract)[k] == extract(events[ChangedPositions(events)[k]].item)
  {
    if events != [] {
      var n := |events| - 1;
      var front := events[..n];
      DeliveriesAtChangedPositions(front, extract);
      forall k | 0 <= k < |ChangedPositions(front)|
        ensures front[ChangedPositions(front)[k]] == events[ChangedPositions(front)[k]]
      {
      }
    }
  }

  /** The number of deliveries is the number of Changed events in the batch. */
  lemma {:induction false} DeliveriesCount<Item, Payload>(events: seq<DataEvent<Item>>, extract: Item -> Payload)
    ensures |Deliveries(events, extract)| == CountChanged(events)
  {
    if events != [] {
      DeliveriesCount(events[1..], extract);
      DeliveriesCons(events[0], events[1..], extract);
      assert events == [events[0]] + events[1..];
    }
  }

  /** A batch delivers nothing exactly when it holds no Changed event. */
  lemma {:induction false} NothingDeliveredIffNoChange<Item, Payload>(events: seq<DataEvent<Item>>, extract: Item -> Payload)
    ensures Deliveries(events, extract) == []
        <==> forall k :: 0 <= k < |events| ==> events[k].kind != Changed
  {
    if events != [] {
      var n := |events| - 1;
      NothingDeliveredIffNoChange(events[..n], extract);
      assert forall k :: 0 <= k < n ==> events[..n][k] == events[k];
    }
  }

  /** Splitting a batch in two splits its deliveries the same way. */
  lemma {:induction false} DeliveriesConcat<Item, Payload>(a: seq<DataEvent<Item>>, b: seq<DataEvent<Item>>, extract: Item -> Payload)
    ensures Deliveries(a + b, extract) == Deliveries(a, extract) + Deliveries(b, extract)
  {
    if b != [] {
      var n := |b| - 1;
      DeliveriesConcat(a, b[..n], extract);
      assert (a + b)[..|a + b| - 1] == a + b[..n];
    } else {
      assert a + b == a;
    }
  }

  /** Unfolding from the front: the first event of a batch delivers first
      (its data map if it is Changed, nothing otherwise), then the rest. */
  lemma DeliveriesCons<Item, Payload>(e: DataEvent<Item>, rest: seq<DataEvent<Item>>, extract: Item -> Payload)
    ensures Deliveries([e] + rest, extract)
      == (if e.kind == Changed then [extract(e.item)] else []) + Deliveries(rest, extract)
  {
    DeliveriesConcat([e], rest, extract);
    assert [e][..0] == [];
  }

  /** A batch of one Changed and one Deleted event delivers the Changed
      event's data map once, and nothing for the Deleted one. */
  lemma ChangedThenDeleted<Item, Payload>(x: Item, y: Item, extract: Item -> Payload)
    ensures Deliveries([DataEvent(Changed, x), DataEvent(Deleted, y)], extract) == [extract(x)]
  {
  }

  /** Created and Deleted events around a Changed one deliver nothing. */
  lemma ChangedAmidOthers<Item, Payload>(x: Item, y: Item, extract: Item -> Payload)
    ensures Deliveries([DataEvent(Created, y), DataEvent(Changed, x), DataEvent(Deleted, y)], extract)
      == [extract(x)]
  {
    DeliveriesCons(DataEvent(Created, y), [DataEvent(Changed, x), DataEvent(Deleted, y)], extract);
    DeliveriesCons(DataEvent(Changed, x), [DataEvent(Deleted, y)], extract);
    DeliveriesCons(DataEvent(Deleted, y), [], extract);
    assert [DataEvent(Created, y), DataEvent(Changed, x), DataEvent(Deleted, y)]
      == [DataEvent(Created, y)] + [DataEvent(Changed, x), DataEvent(Deleted, y)];
    assert [DataEvent(Changed, x), DataEvent(Deleted, y)]
      == [DataEvent(Changed, x)] + [DataEvent(Deleted, y)];
    assert [DataEvent(Deleted, y)] == [DataEvent(Deleted, y)] + [];
  }

  /** `DataReceivedListener`: the callback interface. Each call of
      `HandleDataReceived` is recorded in the ghost trace `received`. */
  class DataReceivedListener<Payload> {
    ghost var received: seq<Payload>

    constructor ()
      ensures received == []
    {
      received := [];
    }

    method HandleDataReceived(dataMap: Payload)
      modifies this
      ensures received == old(received) + [dataMap]
    {
      received := received + [dataMap];
    }
  }

  /** `SunshineWearableListenerService`. The source's static `listener`
      field is a field of the service object; `null` means no listener. */
  class SunshineWearableListenerService<Item, Payload> {
    var listener: DataReceivedListener?<Payload>

    constructor ()
      ensures listener == null
    {
      listener := null;
    }

    /** `onDataChanged`: for each Changed event, in batch order, extract its
        data map and, when a listener is registered, hand it over. The
        listener field is left as it was; only the listener's trace grows,
        by exactly the batch's deliveries. With no listener, `modifies`
        names nothing, so nothing changes. */
    method OnDataChanged(dataEvents: seq<DataEvent<Item>>, fromDataItem: Item -> Payload)
      modifies listener
      ensures listener == old(listener)
      ensures listener != null ==>
        listener.received == old(listener.received) + Deliveries(dataEvents, fromDataItem)
    {
      for i := 0 to |dataEvents|
        invariant listener != null ==>
          listener.received == old(listener.received) + Deliveries(dataEvents[..i], fromDataItem)
      {
        var e := dataEvents[i];
        if e.kind == Changed {
          var dataMap := fromDataItem(e.item);
          if listener != null {
            listener.HandleDataReceived(dataMap);
          }
        }
        assert dataEvents[..i + 1][..i] == dataEvents[..i];
      }
      assert dataEvents[..|dataEvents|] == dataEvents;
    }
  }
}
