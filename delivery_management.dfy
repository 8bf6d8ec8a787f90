/**
 * The admin delivery list (src/components/admin/DeliveryManagement.js):
 * the fetched deliveries without the ones whose status is "complete".
 */
module DeliveryManagement {
  import opened Common

  /** A delivery as `/deliveries/all` returns it; `status` may be missing. */
  datatype Delivery = Delivery(delivery_id: string, customer_id: string, product_id: ProductId,
                               quantity: int, total_price: Money, delivery_address: string,
                               status: Option<string>, invoice_url: Option<string>)

  /** `delivery.status !== "complete"`: case-sensitive, and a missing status is kept. */
  predicate IsOpen(d: Delivery)
  {
    d.status != Some("complete")
  }

  /** The `filter` over the fetched list. */
  function OpenDeliveries(ds: seq<Delivery>): (open: seq<Delivery>)
    ensures |open| <= |ds|
    ensures forall d :: d in open <==> d in ds && IsOpen(d)
  {
    if ds == [] then []
    else
      var rest := OpenDeliveries(ds[..|ds| - 1]);
      var last := ds[|ds| - 1];
      assert forall d :: d in ds <==> d in ds[..|ds| - 1] || d == last by {
        assert ds == ds[..|ds| - 1] + [last];
      }
      if IsOpen(last) then rest + [last] else rest
  }

  /** Filtering distributes over concatenation. */
  lemma {:induction false} OpenDeliveriesAppend(a: seq<Delivery>, b: seq<Delivery>)
    ensures OpenDeliveries(a + b) == OpenDeliveries(a) + OpenDeliveries(b)
  {
    if b != [] {
      var last := b[|b| - 1];
      assert (a + b)[..|a + b| - 1] == a + b[..|b| - 1];
      OpenDeliveriesAppend(a, b[..|b| - 1]);
    } else {
      assert a + b == a;
    }
  }

  /** `index` places each delivery of `kept` in `ds`, in increasing order,
      and every delivery of `ds` it misses is closed. */
  predicate Places(index: seq<nat>, kept: seq<Delivery>, ds: seq<Delivery>)
  {
    |index| == |kept|
    && (forall k :: 0 <= k < |index| ==> index[k] < |ds| && kept[k] == ds[index[k]])
    && (forall k, l :: 0 <= k < l < |index| ==> index[k] < index[l])
    && (forall i :: 0 <= i < |ds| && i !in index ==> !IsOpen(ds[i]))
  }

  /** The filter keeps the fetched order: each kept delivery sits at an
      index of the fetched list, the indices increase, and every delivery
      it skips is a "complete" one. */
  lemma {:induction false} OpenDeliveriesKeepOrder(ds: seq<Delivery>) returns (index: seq<nat>)
    ensures Places(index, OpenDeliveries(ds), ds)
  {
    if ds == [] {
      index := [];
    } else {
      var n := |ds| - 1;
      var before := OpenDeliveriesKeepOrder(ds[..n]);
      assert ds == ds[..n] + [ds[n]];
      index := PlaceLast(ds[..n], ds[n], OpenDeliveries(ds[..n]), before);
    }
  }

  /** One step of the proof above: the placement of the prefix's kept
      deliveries extends to the list with one more delivery. */
  lemma PlaceLast(prefix: seq<Delivery>, last: Delivery, kept: seq<Delivery>, before: seq<nat>)
    returns (index: seq<nat>)
    requires Places(before, kept, prefix)
    ensures Places(index, if IsOpen(last) then kept + [last] else kept, prefix + [last])
  {
    if IsOpen(last) {
      PlaceOpen(prefix, last, kept, before);
      index := before + [|prefix|];
    } else {
      PlaceClosed(prefix, last, kept, before);
      index := before;
    }
  }

  /** A closed delivery at the end is skipped: the placement stays as it was. */
  lemma PlaceClosed(prefix: seq<Delivery>, last: Delivery, kept: seq<Delivery>, before: seq<nat>)
    requires Places(before, kept, prefix) && !IsOpen(last)
    ensures Places(before, kept, prefix + [last])
  {
    var ds := prefix + [last];
    forall k | 0 <= k < |before| ensures before[k] < |ds| && kept[k] == ds[before[k]] {
      assert ds[before[k]] == prefix[before[k]];
    }
    forall i | 0 <= i < |ds| && i !in before ensures !IsOpen(ds[i]) {
      if i < |prefix| {
        assert ds[i] == prefix[i];
      }
    }
  }

  /** An open delivery at the end is kept, at the last index. */
  lemma PlaceOpen(prefix: seq<Delivery>, last: Delivery, kept: seq<Delivery>, before: seq<nat>)
    requires Places(before, kept, prefix) && IsOpen(last)
    ensures Places(before + [|prefix|], kept + [last], prefix + [last])
  {
    var ds := prefix + [last];
    var index := before + [|prefix|];
    var open := kept + [last];
    forall k | 0 <= k < |index| ensures index[k] < |ds| && open[k] == ds[index[k]] {
      if k < |before| {
        assert index[k] == before[k] && open[k] == kept[k];
        assert ds[before[k]] == prefix[before[k]];
      }
    }
    forall k, l | 0 <= k < l < |index| ensures index[k] < index[l] {
      assert index[k] == before[k];
      if l < |before| {
        assert index[l] == before[l];
      }
    }
    forall i | 0 <= i < |ds| && i !in index ensures !IsOpen(ds[i]) {
      assert i != |prefix|;
      assert i !in before;
      assert ds[i] == prefix[i];
    }
  }

  /** Filtering twice is filtering once. */
  lemma {:induction false} OpenDeliveriesIdempotent(ds: seq<Delivery>)
    ensures OpenDeliveries(OpenDeliveries(ds)) == OpenDeliveries(ds)
  {
    if ds != [] {
      var rest := ds[..|ds| - 1];
      OpenDeliveriesIdempotent(rest);
      if IsOpen(ds[|ds| - 1]) {
        OpenDeliveriesAppend(OpenDeliveries(rest), [ds[|ds| - 1]]);
        assert OpenDeliveries([ds[|ds| - 1]]) == [ds[|ds| - 1]] by {
          assert [ds[|ds| - 1]][..0] == [];
        }
      }
    }
  }

  /** The comparison is case-sensitive: "Complete" stays in the list, "complete" does not. */
  lemma CapitalisedCompleteIsKept(d: Delivery)
    ensures d.status == Some("Complete") ==> d in OpenDeliveries([d])
    ensures d.status == Some("complete") ==> OpenDeliveries([d]) == []
  {
    assert [d][..0] == [];
  }

  const LoadFailed := "Failed to load deliveries. Please try again."

  /** The list and error state the page shows. */
  datatype DeliveryList = DeliveryList(deliveries: seq<Delivery>, error: string)

  /** `fetchDeliveries`: the error is cleared, then either the open
      deliveries are stored or the error set, the previous list kept. */
  function FetchDeliveries(previous: seq<Delivery>, response: Response<seq<Delivery>>): (shown: DeliveryList)
    ensures response.Ok? ==> shown.error == "" && forall d :: d in shown.deliveries <==> d in response.value && IsOpen(d)
    ensures response.Err? ==> shown.deliveries == previous && shown.error == LoadFailed
  {
    match response
    case Ok(fetched) => DeliveryList(OpenDeliveries(fetched), "")
    case Err(_) => DeliveryList(previous, LoadFailed)
  }

  /** After a successful fetch no "complete" delivery is shown. */
  lemma FetchShowsNoCompleteDelivery(previous: seq<Delivery>, response: Response<seq<Delivery>>)
    requires response.Ok?
    ensures forall k :: 0 <= k < |FetchDeliveries(previous, response).deliveries| ==>
              FetchDeliveries(previous, response).deliveries[k].status != Some("complete")
  {
    var shown := FetchDeliveries(previous, response).deliveries;
    forall k | 0 <= k < |shown| ensures shown[k].status != Some("complete") {
      assert shown[k] in shown;
    }
  }

  datatype StatusChange = MarkCompleted | MarkInTransit

  /** The alert `markAsCompleted` or `markAsInTransit` shows. */
  function StatusChangeAlert(change: StatusChange, accepted: bool): (alert: string)
  {
    match (change, accepted)
    case (MarkCompleted, true) => "Delivery marked as completed!"
    case (MarkCompleted, false) => "Failed to mark delivery as completed. Please try again."
    case (MarkInTransit, true) => "Delivery marked as in-transit!"
    case (MarkInTransit, false) => "Failed to mark delivery as in-transit. Please try again."
  }

  /** A status change: an accepted one alerts and refreshes the list with
      `refetched`; a refused one alerts and leaves the list as it was. */
  function ChangeStatus(current: DeliveryList, change: StatusChange, accepted: bool,
                        refetched: Response<seq<Delivery>>): (r: (DeliveryList, string))
    ensures r.1 == StatusChangeAlert(change, accepted)
    ensures !accepted ==> r.0 == current
    ensures accepted ==> r.0 == FetchDeliveries(current.deliveries, refetched)
  {
    (if accepted then FetchDeliveries(current.deliveries, refetched) else current,
     StatusChangeAlert(change, accepted))
  }

  /** A delivery just marked complete disappears once the refreshed list
      reports it "complete". */
  lemma CompletedDeliveryLeavesList(current: DeliveryList, fetched: seq<Delivery>, d: Delivery)
    requires d in fetched && d.status == Some("complete")
    ensures d !in ChangeStatus(current, MarkCompleted, true, Ok(fetched)).0.deliveries
  {
  }
}
