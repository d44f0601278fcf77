/** What the Explore view does to a completed scan's records before storing them, and the
    signal bar it draws for each (src/components/Explore/explore.jsx). */
module ExploreNetworks {
  import opened WifiRecords

  const NoSignalDbm := -100

  /** `typeof rssi !== "number" ? (Number(rssi) || -100) : rssi`. */
  function CoerceRssi(r: RawRssi): (dbm: int)
    ensures r.Numeric? ==> dbm == r.dbm
    ensures r.NonNumeric? && r.asNumber.Converted? && r.asNumber.value != 0 ==> dbm == r.asNumber.value
    ensures r.NonNumeric? && (r.asNumber == NaN || r.asNumber == Converted(0)) ==> dbm == -100
  {
    match r
    case Numeric(v) => v
    case NonNumeric(Converted(v)) => if v != 0 then v else NoSignalDbm
    case NonNumeric(NaN) => NoSignalDbm
  }

  /** The record after the write-back of its coerced rssi: only `rssi` changes, and a record
      whose rssi is already numeric is left as it is. */
  function Coerce(n: Network): (m: Network)
    ensures m.ssid == n.ssid && m.bssid == n.bssid && m.channel == n.channel
    ensures m.rssi == Numeric(CoerceRssi(n.rssi))
    ensures n.rssi.Numeric? ==> m == n
  {
    if n.rssi.Numeric? then n else n.(rssi := Numeric(CoerceRssi(n.rssi)))
  }

  function CoerceAll(s: seq<Network>): (r: seq<Network>)
    ensures |r| == |s| && forall k :: 0 <= k < |s| ==> r[k] == Coerce(s[k])
  {
    seq(|s|, k requires 0 <= k < |s| => Coerce(s[k]))
  }

  /** The sort key: the comparator `(a, b) => b.rssi - a.rssi` reads the (coerced) rssi. */
  function Key(n: Network): int {
    CoerceRssi(n.rssi)
  }

  /** Strongest signal first. */
  ghost predicate NonIncreasing(s: seq<Network>) {
    forall p, q :: 0 <= p < q < |s| ==> Key(s[p]) >= Key(s[q])
  }

  /** `list` is what the view stores for the scan records `source`: the same records with their
      rssi coerced, each one as often as in the source, strongest first. */
  ghost predicate Normalised(source: seq<Network>, list: seq<Network>) {
    && |list| == |source|
    && multiset(list) == multiset(CoerceAll(source))
    && NonIncreasing(list)
    && forall k :: 0 <= k < |list| ==> list[k].rssi.Numeric?
  }

  /** Records scanned with rssi -80, -40 and -60 are stored in the order -40, -60, -80. */
  lemma NormalisedOrderExample(source: seq<Network>, list: seq<Network>)
    requires |source| == 3
    requires source[0].rssi == Numeric(-80) && source[1].rssi == Numeric(-40) && source[2].rssi == Numeric(-60)
    requires Normalised(source, list)
    ensures Key(list[0]) == -40 && Key(list[1]) == -60 && Key(list[2]) == -80
  {
    assert CoerceAll(source) == source;
    var m := multiset(list);
    assert m == multiset(source);
    forall k | 0 <= k < 3 ensures Key(list[k]) in {-80, -40, -60} {
      assert list[k] in m;
      assert list[k] in source;
    }
    assert source[1] in m && source[2] in m && source[0] in m;
    assert source[1] in list && source[2] in list && source[0] in list;
  }

  /** Exchanges two neighbours. */
  method SwapWithPrevious(a: array<Network>, j: int)
    requires 0 < j < a.Length
    modifies a
    ensures a[j - 1] == old(a[j]) && a[j] == old(a[j - 1])
    ensures forall k :: 0 <= k < a.Length && k != j - 1 && k != j ==> a[k] == old(a[k])
    ensures multiset(a[..]) == multiset(old(a[..]))
  {
    a[j - 1], a[j] := a[j], a[j - 1];
  }

  /** Moves `a[i]` towards the front past every weaker neighbour, so that `a[..i+1]` is sorted
      when `a[..i]` was. */
  method SinkInto(a: array<Network>, i: int)
    requires 0 <= i < a.Length
    requires forall p, q :: 0 <= p < q < i ==> Key(a[p]) >= Key(a[q])
    modifies a
    ensures forall p, q :: 0 <= p < q <= i ==> Key(a[p]) >= Key(a[q])
    ensures forall k :: i < k < a.Length ==> a[k] == old(a[k])
    ensures multiset(a[..]) == multiset(old(a[..]))
  {
    var j := i;
    while j > 0 && Key(a[j - 1]) < Key(a[j])
      invariant 0 <= j <= i
      invariant forall p, q :: 0 <= p < q < j ==> Key(a[p]) >= Key(a[q])
      invariant forall p, q :: j <= p < q <= i ==> Key(a[p]) >= Key(a[q])
      invariant forall p, q :: 0 <= p < j < q <= i ==> Key(a[p]) >= Key(a[q])
      invariant forall k :: i < k < a.Length ==> a[k] == old(a[k])
      invariant multiset(a[..]) == multiset(old(a[..]))
    {
      SwapWithPrevious(a, j);
      j := j - 1;
    }
  }

  /** `list.sort((a, b) => b.rssi - a.rssi)`, in place: an insertion sort, which is stable as
      `Array.prototype.sort` is. */
  method SortByRssi(a: array<Network>)
    modifies a
    ensures NonIncreasing(a[..])
    ensures multiset(a[..]) == multiset(old(a[..]))
  {
    var i := 0;
    while i < a.Length
      invariant 0 <= i <= a.Length
      invariant forall p, q :: 0 <= p < q < i ==> Key(a[p]) >= Key(a[q])
      invariant multiset(a[..]) == multiset(old(a[..]))
    {
      SinkInto(a, i);
      i := i + 1;
    }
  }

  /** The `complete` branch of `handleScanJson` up to the dispatch: copy the list (`slice`),
      coerce every rssi (`forEach`), sort. */
  method NormaliseNetworks(networks: seq<Network>) returns (list: seq<Network>)
    ensures Normalised(networks, list)
  {
    var a := new Network[|networks|](k requires 0 <= k < |networks| => networks[k]);
    var i := 0;
    while i < a.Length
      invariant 0 <= i <= a.Length
      invariant forall k :: 0 <= k < i ==> a[k] == Coerce(networks[k])
      invariant forall k :: i <= k < a.Length ==> a[k] == networks[k]
    {
      if !a[i].rssi.Numeric? {
        a[i] := a[i].(rssi := Numeric(CoerceRssi(a[i].rssi)));
      }
      i := i + 1;
    }
    assert a[..] == CoerceAll(networks);
    SortByRssi(a);
    list := a[..];
    forall k | 0 <= k < |list| ensures list[k].rssi.Numeric? {
      assert list[k] in multiset(CoerceAll(networks));
    }
  }

  /** `Math.round`: the nearest integer, halves rounded up. */
  function Round(x: real): (n: int)
    ensures n as real - 0.5 <= x < n as real + 0.5
  {
    (x + 0.5).Floor
  }

  function Clamp(n: int, lo: int, hi: int): (r: int)
    requires lo <= hi
    ensures lo <= r <= hi
    ensures lo <= n <= hi ==> r == n
  {
    if n < lo then lo else if n > hi then hi else n
  }

  /** The width, in percent, of a record's signal bar:
      `max(0, min(100, round((rssi + 100) / 70 * 100)))`, evaluated on exact rationals. */
  function BarWidth(rssi: int): (w: int)
    ensures 0 <= w <= 100
  {
    Clamp(Round((rssi + 100) as real / 70.0 * 100.0), 0, 100)
  }

  /** The rounding in `BarWidth` is exact integer arithmetic: `(rssi + 100) * 100 / 70` is never
      a half, so `round` is `floor((20 * (rssi + 100) + 7) / 14)`. */
  lemma BarWidthInIntegers(rssi: int)
    ensures BarWidth(rssi) == Clamp((20 * (rssi + 100) + 7) / 14, 0, 100)
  {
    var x := rssi + 100;
    var q := (20 * x + 7) / 14;
    assert 14 * q <= 20 * x + 7 < 14 * q + 14;
    var y := x as real / 70.0 * 100.0;
    assert y + 0.5 == (20 * x + 7) as real / 14.0;
    assert q as real <= y + 0.5 < q as real + 1.0;
  }

  /** A stronger signal never draws a shorter bar. */
  lemma BarWidthMonotone(weaker: int, stronger: int)
    requires weaker <= stronger
    ensures BarWidth(weaker) <= BarWidth(stronger)
  {
    BarWidthInIntegers(weaker);
    BarWidthInIntegers(stronger);
    var a, b := 20 * (weaker + 100) + 7, 20 * (stronger + 100) + 7;
    assert a / 14 <= b / 14 by {
      assert a <= b;
    }
  }

  /** No bar at -100 dBm and below, a full bar from -30 dBm up, 64% at -55 dBm. */
  lemma BarWidthLandmarks(rssi: int)
    ensures rssi <= -100 ==> BarWidth(rssi) == 0
    ensures rssi >= -30 ==> BarWidth(rssi) == 100
    ensures BarWidth(-55) == 64
  {
    BarWidthInIntegers(rssi);
    BarWidthInIntegers(-55);
  }
}
