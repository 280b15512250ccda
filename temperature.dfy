/** The temperature classifier: a table of six inclusive ranges, each with a
    label, and a lookup that returns the label of a range containing the
    temperature. The table is a `map`, so it has no order, and neighbouring
    ranges share their end points. */
module Temperature {

  /** An inclusive band `[min, max]` of whole degrees; the key of the table. */
  datatype TemperatureRange = TemperatureRange(min: int, max: int)

  /** The label given when no range contains the temperature. */
  const UnknownRange: string := "unknown temperature range"

  /** The description table, keyed by range as in the source. */
  const TemperatureDescriptions: map<TemperatureRange, string> := map[
    TemperatureRange(12, 32) := "very cold",
    TemperatureRange(32, 50) := "cold",
    TemperatureRange(40, 60) := "moderate",
    TemperatureRange(60, 80) := "warm",
    TemperatureRange(80, 95) := "hot",
    TemperatureRange(95, 120) := "very hot"
  ]

  /** The keys in the order the table is written down. */
  const SourceOrder: seq<TemperatureRange> := [
    TemperatureRange(12, 32), TemperatureRange(32, 50), TemperatureRange(40, 60),
    TemperatureRange(60, 80), TemperatureRange(80, 95), TemperatureRange(95, 120)
  ]

  predicate InRange(r: TemperatureRange, temp: int) {
    r.min <= temp <= r.max
  }

  /** The labels of every range of the table that contains `temp`. */
  function Matches(temp: int): set<string> {
    set r | r in TemperatureDescriptions && InRange(r, temp) :: TemperatureDescriptions[r]
  }

  /** What a lookup may answer whatever order it visits the table in: a label
      of a range containing `temp`, or the unknown label when there is none. */
  predicate Acceptable(temp: int, d: string) {
    if Matches(temp) == {} then d == UnknownRange else d in Matches(temp)
  }

  /** The lookup as the source performs it: visit the ranges of the map in an
      order that is not specified (each step picks any range not yet visited)
      and return the label of the first one that contains `temp`. */
  method GetTemperatureDescription(temp: int) returns (d: string)
    ensures Acceptable(temp, d)
    ensures d == UnknownRange <==> Matches(temp) == {}
  {
    UnknownIsNotALabel();
    var unvisited := TemperatureDescriptions.Keys;
    while unvisited != {}
      invariant unvisited <= TemperatureDescriptions.Keys
      invariant forall r :: r in TemperatureDescriptions && r !in unvisited ==> !InRange(r, temp)
      decreases unvisited
    {
      var r :| r in unvisited;
      if InRange(r, temp) {
        assert TemperatureDescriptions[r] in Matches(temp);
        return TemperatureDescriptions[r];
      }
      unvisited := unvisited - {r};
    }
    return UnknownRange;
  }

  /** The unknown label is not the label of any range, so an answer tells a
      match from a miss. */
  lemma UnknownIsNotALabel()
    ensures UnknownRange !in TemperatureDescriptions.Values
  {
  }

  /** Which labels apply where, written band by band independently of the
      table: it is the reference the table is checked against. */
  function Bands(temp: int): set<string> {
    if temp < 12 || temp > 120 then {}
    else if temp < 32 then {"very cold"}
    else if temp == 32 then {"very cold", "cold"}
    else if temp < 40 then {"cold"}
    else if temp <= 50 then {"cold", "moderate"}
    else if temp < 60 then {"moderate"}
    else if temp == 60 then {"moderate", "warm"}
    else if temp < 80 then {"warm"}
    else if temp == 80 then {"warm", "hot"}
    else if temp < 95 then {"hot"}
    else if temp == 95 then {"hot", "very hot"}
    else {"very hot"}
  }

  /** The labels matching a temperature are exactly the ones its band lists. */
  lemma MatchesAreBands(temp: int)
    ensures Matches(temp) == Bands(temp)
  {
    var vc, c, m := TemperatureRange(12, 32), TemperatureRange(32, 50), TemperatureRange(40, 60);
    var w, h, vh := TemperatureRange(60, 80), TemperatureRange(80, 95), TemperatureRange(95, 120);
    assert TemperatureDescriptions.Keys == {vc, c, m, w, h, vh};
    assert Matches(temp) ==
      (if InRange(vc, temp) then {"very cold"} else {}) +
      (if InRange(c, temp) then {"cold"} else {}) +
      (if InRange(m, temp) then {"moderate"} else {}) +
      (if InRange(w, temp) then {"warm"} else {}) +
      (if InRange(h, temp) then {"hot"} else {}) +
      (if InRange(vh, temp) then {"very hot"} else {});
  }

  /** The answer is the unknown label exactly when the temperature is below
      12 or above 120: the ranges leave no gap in between. */
  lemma UnknownExactlyOutsideTable(temp: int)
    ensures Matches(temp) == {} <==> temp < 12 || temp > 120
  {
    MatchesAreBands(temp);
  }

  /** At most two labels apply to a temperature, and two do exactly at the
      shared end points 32, 60, 80, 95 and on the overlap 40..50. */
  lemma AmbiguousExactlyAtSharedBounds(temp: int)
    ensures |Matches(temp)| <= 2
    ensures |Matches(temp)| == 2 <==> temp == 32 || 40 <= temp <= 50 || temp == 60 || temp == 80 || temp == 95
  {
    MatchesAreBands(temp);
  }

  /** A temperature in exactly one range gets that range's label whatever
      order the table is visited in. */
  lemma UnambiguousAnswer(temp: int, r: TemperatureRange, d: string)
    requires r in TemperatureDescriptions && InRange(r, temp)
    requires forall r' :: r' in TemperatureDescriptions && InRange(r', temp) ==> r' == r
    requires Acceptable(temp, d)
    ensures d == TemperatureDescriptions[r]
  {
    assert Matches(temp) == {TemperatureDescriptions[r]};
  }

  /** Worked examples: one label, two labels at an overlap, and none. */
  lemma Examples()
    ensures Matches(20) == {"very cold"}
    ensures Matches(70) == {"warm"}
    ensures Matches(100) == {"very hot"}
    ensures Matches(45) == {"cold", "moderate"}
    ensures Matches(32) == {"very cold", "cold"}
    ensures Matches(10) == {} && Matches(121) == {}
  {
    MatchesAreBands(20);
    MatchesAreBands(70);
    MatchesAreBands(100);
    MatchesAreBands(45);
    MatchesAreBands(32);
    MatchesAreBands(10);
    MatchesAreBands(121);
  }

  /** The position of the first range in `order` that contains `temp`, or
      `|order|` when none does. */
  function FirstMatchIndex(order: seq<TemperatureRange>, temp: int): (i: nat)
    ensures i <= |order|
    ensures i < |order| ==> InRange(order[i], temp)
    ensures forall j :: 0 <= j < i ==> !InRange(order[j], temp)
  {
    if order == [] then 0
    else if InRange(order[0], temp) then 0
    else 1 + FirstMatchIndex(order[1..], temp)
  }

  /** The ordered refinement: visit the keys in the given order and answer
      with the label of the first range that contains `temp`. */
  function FirstMatch(order: seq<TemperatureRange>, temp: int): (d: string)
    requires forall r :: r in order ==> r in TemperatureDescriptions
    ensures d == UnknownRange <==> forall j :: 0 <= j < |order| ==> !InRange(order[j], temp)
  {
    UnknownIsNotALabel();
    var i := FirstMatchIndex(order, temp);
    if i < |order| then TemperatureDescriptions[order[i]] else UnknownRange
  }

  /** Any order that visits every key of the table gives an acceptable
      answer, so fixing an order refines the unordered lookup. */
  lemma FirstMatchRefines(order: seq<TemperatureRange>, temp: int)
    requires forall r :: r in order <==> r in TemperatureDescriptions
    ensures Acceptable(temp, FirstMatch(order, temp))
  {
    var i := FirstMatchIndex(order, temp);
    if i < |order| {
      assert TemperatureDescriptions[order[i]] in Matches(temp);
    } else {
      assert forall r :: r in TemperatureDescriptions ==> !InRange(r, temp);
      assert Matches(temp) == {};
    }
  }

  /** The table's written order is one such order. */
  lemma SourceOrderRefines(temp: int)
    ensures Acceptable(temp, FirstMatch(SourceOrder, temp))
  {
    assert forall r :: r in SourceOrder <==> r in TemperatureDescriptions;
    FirstMatchRefines(SourceOrder, temp);
  }

  /** With the table's written order the lookup is deterministic and an
      overlap goes to the lower range: each label covers up to and including
      its range's upper end. */
  lemma SourceOrderPrefersLowerRange(temp: int)
    ensures FirstMatch(SourceOrder, temp) ==
      if temp < 12 || temp > 120 then UnknownRange
      else if temp <= 32 then "very cold"
      else if temp <= 50 then "cold"
      else if temp <= 60 then "moderate"
      else if temp <= 80 then "warm"
      else if temp <= 95 then "hot"
      else "very hot"
  {
    var o := SourceOrder;
    assert o[0] == TemperatureRange(12, 32) && o[1] == TemperatureRange(32, 50);
    assert o[2] == TemperatureRange(40, 60) && o[3] == TemperatureRange(60, 80);
    assert o[4] == TemperatureRange(80, 95) && o[5] == TemperatureRange(95, 120);
  }
}
