/** Properties of the distance client's specification functions: the joined lists can be
    read back, the diagnostics name exactly the failed inputs in order, and the totals are
    sums over the whole origin x destination matrix. */
module DistanceProperties {
  import opened Common
  import opened DistanceMatrix

  // ---------------------------------------------------------------------------
  // The `|`-joined lists of the query

  lemma {:induction false} SplitWithoutSeparator(s: string, separator: char)
    requires separator !in s
    ensures Split(s, separator) == [s]
  {
    if s != [] {
      SplitWithoutSeparator(s[1..], separator);
      assert [s[0]] + s[1..] == s;
    }
  }

  lemma {:induction false} SplitAtFirstSeparator(a: string, b: string, separator: char)
    requires separator !in a
    ensures Split(a + [separator] + b, separator) == [a] + Split(b, separator)
  {
    var s := a + [separator] + b;
    if a == [] {
      assert s[1..] == b;
    } else {
      assert s[1..] == a[1..] + [separator] + b;
      SplitAtFirstSeparator(a[1..], b, separator);
      assert [s[0]] + a[1..] == a;
    }
  }

  /** The provider recovers every list `prepareUrl` joins, provided no entry holds the separator. */
  lemma {:induction false} JoinSplitRoundTrip(items: seq<string>, separator: char)
    requires |items| > 0
    requires forall i :: 0 <= i < |items| ==> separator !in items[i]
    ensures Split(Join(items, separator), separator) == items
  {
    if |items| == 1 {
      SplitWithoutSeparator(items[0], separator);
    } else {
      JoinSplitRoundTrip(items[1..], separator);
      SplitAtFirstSeparator(items[0], Join(items[1..], separator), separator);
      assert [items[0]] + items[1..] == items;
    }
  }

  // ---------------------------------------------------------------------------
  // Diagnostics

  /** The indices of the empty addresses, in increasing order. */
  function EmptyIndices(addresses: seq<string>): seq<nat>
  {
    if addresses == [] then []
    else
      var n := |addresses| - 1;
      EmptyIndices(addresses[..n]) + (if addresses[n] == "" then [n] else [])
  }

  lemma {:induction false} EmptyIndicesExact(addresses: seq<string>)
    ensures forall i: nat :: i in EmptyIndices(addresses) ==> i < |addresses| && addresses[i] == ""
    ensures forall i: nat :: i < |addresses| && addresses[i] == "" ==> i in EmptyIndices(addresses)
    ensures forall k, l :: 0 <= k < l < |EmptyIndices(addresses)| ==> EmptyIndices(addresses)[k] < EmptyIndices(addresses)[l]
  {
    if addresses != [] {
      var n := |addresses| - 1;
      var front := addresses[..n];
      EmptyIndicesExact(front);
      var p := EmptyIndices(front);
      assert forall k :: 0 <= k < |p| ==> p[k] < n by {
        forall k | 0 <= k < |p| ensures p[k] < n {
          assert p[k] in p;
        }
      }
      forall i: nat | i < |addresses| && addresses[i] == "" ensures i in EmptyIndices(addresses) {
        if i < n {
          assert front[i] == addresses[i];
        }
      }
    }
  }

  lemma {:induction false} EmptyIndicesNone(addresses: seq<string>)
    requires "" !in addresses
    ensures EmptyIndices(addresses) == []
  {
    if addresses != [] {
      var n := |addresses| - 1;
      assert addresses[n] in addresses;
      assert forall x :: x in addresses[..n] ==> x in addresses;
      EmptyIndicesNone(addresses[..n]);
    }
  }

  lemma {:induction false} EmptyIndicesSingle(addresses: seq<string>, k: nat)
    requires k < |addresses| && addresses[k] == ""
    requires forall i :: 0 <= i < |addresses| && i != k ==> addresses[i] != ""
    ensures EmptyIndices(addresses) == [k]
  {
    var n := |addresses| - 1;
    var front := addresses[..n];
    if n == k {
      assert forall x :: x in front ==> x != "" by {
        forall x | x in front ensures x != "" {
          var i :| 0 <= i < |front| && front[i] == x;
          assert addresses[i] == x;
        }
      }
      EmptyIndicesNone(front);
    } else {
      EmptyIndicesSingle(front, k);
    }
  }

  /** One message per empty address, in index order, each naming the stored input at that index. */
  lemma {:induction false} AddressDiagnosticsAt(addresses: seq<string>, inputs: seq<string>, kind: string)
    ensures |AddressDiagnostics(addresses, inputs, kind)| == |EmptyIndices(addresses)|
    ensures forall k :: 0 <= k < |EmptyIndices(addresses)| ==>
      AddressDiagnostics(addresses, inputs, kind)[k] == InvalidAddressMessage(kind, InputAt(inputs, EmptyIndices(addresses)[k]))
  {
    if addresses != [] {
      AddressDiagnosticsAt(addresses[..|addresses| - 1], inputs, kind);
    }
  }

  lemma {:induction false} AddressDiagnosticsNone(addresses: seq<string>, inputs: seq<string>, kind: string)
    ensures AddressDiagnostics(addresses, inputs, kind) == [] <==> "" !in addresses
  {
    if addresses != [] {
      var n := |addresses| - 1;
      AddressDiagnosticsNone(addresses[..n], inputs, kind);
      assert addresses == addresses[..n] + [addresses[n]];
    }
  }

  /** A non-fatal reply is rejected exactly when it produces at least one diagnostic. */
  lemma ClassifyAgreesWithDiagnostics(response: Response, destinations: seq<string>, origins: seq<string>)
    requires !IsFatal(response.status)
    ensures Classify(response).Rejected? <==> Diagnostics(response, destinations, origins) != []
  {
    AddressDiagnosticsNone(response.destinationAddresses, destinations, DestinationLabel);
    AddressDiagnosticsNone(response.originAddresses, origins, OriginLabel);
  }

  /** One unresolved destination among several: the reply is rejected with exactly one
      message, which names that destination's input. */
  lemma SingleBadDestination(response: Response, destinations: seq<string>, origins: seq<string>, k: nat)
    requires !IsFatal(response.status) && response.status != InvalidRequest
    requires k < |response.destinationAddresses| && response.destinationAddresses[k] == ""
    requires forall i :: 0 <= i < |response.destinationAddresses| && i != k ==> response.destinationAddresses[i] != ""
    requires "" !in response.originAddresses
    ensures Classify(response) == Rejected
    ensures Answer(Some(response)) == Failed
    ensures Diagnostics(response, destinations, origins) == [InvalidAddressMessage(DestinationLabel, InputAt(destinations, k))]
  {
    var addresses := response.destinationAddresses;
    EmptyIndicesSingle(addresses, k);
    AddressDiagnosticsAt(addresses, destinations, DestinationLabel);
    AddressDiagnosticsNone(response.originAddresses, origins, OriginLabel);
  }

  // ---------------------------------------------------------------------------
  // Totals

  lemma {:induction false} TotalDistanceAppend(a: seq<Row>, b: seq<Row>)
    ensures TotalDistance(a + b) == TotalDistance(a) + TotalDistance(b)
  {
    if b != [] {
      var n := |b| - 1;
      assert (a + b)[..|a + b| - 1] == a + b[..n];
      TotalDistanceAppend(a, b[..n]);
    } else {
      assert a + b == a;
    }
  }

  lemma {:induction false} TotalDurationAppend(a: seq<Row>, b: seq<Row>)
    ensures TotalDuration(a + b) == TotalDuration(a) + TotalDuration(b)
  {
    if b != [] {
      var n := |b| - 1;
      assert (a + b)[..|a + b| - 1] == a + b[..n];
      TotalDurationAppend(a, b[..n]);
    } else {
      assert a + b == a;
    }
  }

  ghost predicate NonNegativeElements(rows: seq<Row>) {
    forall i, j :: 0 <= i < |rows| && 0 <= j < |rows[i].elements| ==>
      rows[i].elements[j].distanceValue >= 0 && rows[i].elements[j].durationValue >= 0
  }

  lemma {:induction false} RowSumsNonNegative(elements: seq<Element>)
    requires forall j :: 0 <= j < |elements| ==> elements[j].distanceValue >= 0 && elements[j].durationValue >= 0
    ensures SumDistances(elements) >= 0 && SumDurations(elements) >= 0
  {
    if elements != [] {
      RowSumsNonNegative(elements[..|elements| - 1]);
    }
  }

  /** With non-negative element values (as the provider sends them) both totals are non-negative. */
  lemma {:induction false} TotalsNonNegative(rows: seq<Row>)
    requires NonNegativeElements(rows)
    ensures TotalDistance(rows) >= 0 && TotalDuration(rows) >= 0
  {
    if rows != [] {
      var n := |rows| - 1;
      TotalsNonNegative(rows[..n]);
      RowSumsNonNegative(rows[n].elements);
    }
  }

  /** Two origins by two destinations with distances 10, 20, 30, 40 and durations 5, 10, 15, 20
      give a Route of 100 metres and 50 seconds. */
  lemma TwoByTwoTotals(response: Response)
    requires response.status == "OK"
    requires response.destinationAddresses == ["A", "B"] && response.originAddresses == ["C", "D"]
    requires response.rows == [Row([Element(10, 5), Element(20, 10)]), Row([Element(30, 15), Element(40, 20)])]
    ensures Answer(Some(response)) == Found(Route(100, 50))
  {
    var first := [Element(10, 5), Element(20, 10)];
    var second := [Element(30, 15), Element(40, 20)];
    assert first[..1] == [Element(10, 5)] && second[..1] == [Element(30, 15)];
    assert SumDistances(first) == 30 && SumDurations(first) == 15;
    assert SumDistances(second) == 70 && SumDurations(second) == 35;
    var rows := response.rows;
    assert rows[..1] == [Row(first)] && rows[..1][..0] == [];
    assert TotalDistance(rows[..1]) == 30 && TotalDuration(rows[..1]) == 15;
    assert TotalDistance(rows) == 100 && TotalDuration(rows) == 50;
  }
}
