/** Processing actions of the NVH module. Each action maps its input channels,
    one result per channel and in channel order; the numerical kernels they call
    (power-spectrum averaging, inverse FFT, order-slice peak extraction) are
    passed in as functions. */
module NvhActions {
  import opened Wrappers
  import opened Python
  import opened NvhData

  /** How short-time spectra are averaged into one spectrum. */
  datatype AverageType = Energy | Linear

  /** How the tolerance of an order search is given. */
  datatype ToleranceType = FixLines

  /** One requested order: label, ratio, and the ratio to display if it differs. */
  datatype OrderTriple = OrderTriple(name: string, value: real, dispValue: Option<real>)

  /** An order built from a triple: a missing display ratio falls back to the ratio. */
  function OrderOf(t: OrderTriple): OrderInfo
  {
    OrderInfo(t.name, t.value, if t.dispValue.Some? then t.dispValue.value else t.value)
  }

  function OrdersOf(ts: seq<OrderTriple>): (os: seq<OrderInfo>)
    ensures |os| == |ts| && forall i :: 0 <= i < |ts| ==> os[i] == OrderOf(ts[i])
  {
    seq(|ts|, i requires 0 <= i < |ts| => OrderOf(ts[i]))
  }

  /** The triples that re-enter an existing order list, display ratios included. */
  function TriplesOf(os: seq<OrderInfo>): (ts: seq<OrderTriple>)
    ensures |ts| == |os| && forall i :: 0 <= i < |os| ==> ts[i] == OrderTriple(os[i].name, os[i].value, Some(os[i].dispValue))
  {
    seq(|os|, i requires 0 <= i < |os| => OrderTriple(os[i].name, os[i].value, Some(os[i].dispValue)))
  }

  /** Re-entering the orders of a list reproduces the list, so the defaulting rule
      never alters an order that already has a display ratio. */
  lemma {:induction false} CreateOrdersRoundTrip(os: seq<OrderInfo>)
    ensures OrdersOf(TriplesOf(os)) == os
  {
  }

  /** `CreateOrders`: an order list named "Orders" with one order per triple, in order. */
  method CreateOrders(infos: seq<OrderTriple>) returns (ol: OrderList)
    ensures ol.name == Some("Orders")
    ensures ol.orders == OrdersOf(infos)
    ensures |ol.orders| == |infos|
    ensures forall i :: 0 <= i < |infos| ==>
      && ol.orders[i].name == infos[i].name
      && ol.orders[i].value == infos[i].value
      && (infos[i].dispValue.Some? ==> ol.orders[i].dispValue == infos[i].dispValue.value)
      && (infos[i].dispValue.None? ==> ol.orders[i].dispValue == infos[i].value)
  {
    var orders: seq<OrderInfo> := [];
    for k := 0 to |infos|
      invariant orders == OrdersOf(infos[..k])
    {
      var dispValue := infos[k].dispValue;
      if dispValue.None? {
        dispValue := Some(infos[k].value);
      }
      orders := orders + [OrderInfo(infos[k].name, infos[k].value, dispValue.value)];
    }
    assert infos[..|infos|] == infos;
    ol := OrderList(Some("Orders"), orders);
  }

  /** `FilterSpectrumAction`: every channel with the bands removed, or with only
      the bands kept. */
  method FilterSpectrum<T>(channels: seq<FreqDomainData<T>>, bands: seq<Band>, remove: bool, zero: T)
    returns (rst: seq<FreqDomainData<T>>)
    ensures |rst| == |channels|
    ensures remove ==> forall i :: 0 <= i < |channels| ==> rst[i] == Removed(channels[i], bands, zero)
    ensures !remove ==> forall i :: 0 <= i < |channels| ==> rst[i] == Kept(channels[i], bands, zero)
  {
    rst := [];
    if remove {
      for k := 0 to |channels|
        invariant |rst| == k
        invariant forall i :: 0 <= i < k ==> rst[i] == Removed(channels[i], bands, zero)
      {
        var filtered := RemoveSpec(channels[k], bands, zero);
        rst := rst + [filtered];
      }
    } else {
      for k := 0 to |channels|
        invariant |rst| == k
        invariant forall i :: 0 <= i < k ==> rst[i] == Kept(channels[i], bands, zero)
      {
        var filtered := KeepSpec(channels[k], bands, zero);
        rst := rst + [filtered];
      }
    }
  }

  /** `ExtractOrderSlicesAction`: one order slice per channel, renamed after the
      channel. The tolerance handed on is the truncated `tolValue`; `tolType`
      plays no part. */
  method ExtractOrderSlices(channels: seq<FreqIntermediateData>, orders: OrderList,
                            tolType: ToleranceType, tolValue: real,
                            extractOrderSlice: (FreqIntermediateData, OrderList, int) -> OrderSliceData)
    returns (rst: seq<OrderSliceData>)
    ensures |rst| == |channels|
    ensures forall i :: 0 <= i < |channels| ==>
      rst[i] == extractOrderSlice(channels[i], orders, Trunc(tolValue)).(name := Some("OrderSlice-" + Str(channels[i].name)))
  {
    rst := [];
    for k := 0 to |channels|
      invariant |rst| == k
      invariant forall i :: 0 <= i < k ==>
        rst[i] == extractOrderSlice(channels[i], orders, Trunc(tolValue)).(name := Some("OrderSlice-" + Str(channels[i].name)))
    {
      var os := extractOrderSlice(channels[k], orders, Trunc(tolValue));
      os := os.(name := Some("OrderSlice-" + Str(channels[k].name)));
      rst := rst + [os];
    }
  }

  /** `AverageIntermediateAction`: each channel averaged to one spectrum, in order. */
  method AverageIntermediate<C>(channels: seq<FreqIntermediateData>, averageBy: AverageType,
                                toPowerSpectrum: (FreqIntermediateData, AverageType) -> FreqDomainData<C>)
    returns (rst: seq<FreqDomainData<C>>)
    ensures |rst| == |channels|
    ensures forall i :: 0 <= i < |channels| ==> rst[i] == toPowerSpectrum(channels[i], averageBy)
  {
    rst := [];
    for k := 0 to |channels|
      invariant |rst| == k
      invariant forall i :: 0 <= i < k ==> rst[i] == toPowerSpectrum(channels[i], averageBy)
    {
      rst := rst + [toPowerSpectrum(channels[k], averageBy)];
    }
  }

  /** `SpectrumToTimeAction`: each spectrum converted to a time signal, in order. */
  method SpectrumToTime<C, D>(channels: seq<FreqDomainData<C>>, toTimeDomain: FreqDomainData<C> -> D)
    returns (rst: seq<D>)
    ensures |rst| == |channels|
    ensures forall i :: 0 <= i < |channels| ==> rst[i] == toTimeDomain(channels[i])
  {
    rst := [];
    for k := 0 to |channels|
      invariant |rst| == k
      invariant forall i :: 0 <= i < k ==> rst[i] == toTimeDomain(channels[i])
    {
      rst := rst + [toTimeDomain(channels[k])];
    }
  }
}
