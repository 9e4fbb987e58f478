/**
 * The advice list: an error card when there is no data, otherwise at most one
 * card per rule (water temperature, pH, conductivity, light, water/air gap,
 * feeding), in that order.
 */
module Advice {
  import opened Wrappers
  import opened Snapshot

  /** The card's `type`, which decides its colour on the dashboard. */
  datatype Kind = Error | Critical | Warning | Info | Success

  /** The card's title; `ThermalGap` carries the absolute water/air difference shown in its message. */
  datatype Topic =
    | DataUnavailable
    | VeryColdWater | WinterMode | WaterTooHot | IdealTemperature
    | PhTooAcidic | PhTooAlkaline
    | VerySoftWater | HighConductivity
    | StrongLight | WeakLight
    | ThermalGap(difference: real)
    | NoFeeding | WinterFeeding | ReducedFeeding | ActiveFeeding

  datatype AdviceItem = AdviceItem(kind: Kind, topic: Topic)

  /** The type each title is always shown with. */
  function KindOf(t: Topic): Kind
  {
    match t
    case DataUnavailable => Error
    case VeryColdWater => Critical
    case WinterMode => Info
    case WaterTooHot => Critical
    case IdealTemperature => Success
    case PhTooAcidic => Critical
    case PhTooAlkaline => Warning
    case VerySoftWater => Info
    case HighConductivity => Warning
    case StrongLight => Info
    case WeakLight => Info
    case ThermalGap(_) => Info
    case NoFeeding => Warning
    case WinterFeeding => Info
    case ReducedFeeding => Info
    case ActiveFeeding => Info
  }

  function Card(t: Topic): AdviceItem
  {
    AdviceItem(KindOf(t), t)
  }

  /** The rule a title comes from, numbered in the order the rules run. */
  function Rule(t: Topic): nat
  {
    match t
    case DataUnavailable => 0
    case VeryColdWater => 1
    case WinterMode => 1
    case WaterTooHot => 1
    case IdealTemperature => 1
    case PhTooAcidic => 2
    case PhTooAlkaline => 2
    case VerySoftWater => 3
    case HighConductivity => 3
    case StrongLight => 4
    case WeakLight => 4
    case ThermalGap(_) => 5
    case NoFeeding => 6
    case WinterFeeding => 6
    case ReducedFeeding => 6
    case ActiveFeeding => 6
  }

  function Abs(x: real): real
  {
    if x < 0.0 then -x else x
  }

  /** The water temperature rule; 12 to 15 and 25 to 28 degrees get no card. */
  function TemperatureAdvice(temp: Reading): (a: seq<AdviceItem>)
    ensures |a| <= 1
    ensures forall c <- a :: c == Card(c.topic) && Rule(c.topic) == 1
    ensures a == [] <==> temp.None? || (12.0 <= temp.value < 15.0) || (25.0 < temp.value <= 28.0)
    ensures temp.Some? && temp.value < 8.0 ==> a == [Card(VeryColdWater)]
    ensures temp.Some? && 8.0 <= temp.value < 12.0 ==> a == [Card(WinterMode)]
    ensures temp.Some? && temp.value > 28.0 ==> a == [Card(WaterTooHot)]
    ensures temp.Some? && 15.0 <= temp.value <= 25.0 ==> a == [Card(IdealTemperature)]
  {
    if temp.None? then []
    else if temp.value < 8.0 then [Card(VeryColdWater)]
    else if temp.value < 12.0 then [Card(WinterMode)]
    else if temp.value > 28.0 then [Card(WaterTooHot)]
    else if 15.0 <= temp.value <= 25.0 then [Card(IdealTemperature)]
    else []
  }

  /** The pH rule: a card below 6.0 or above 7.5. */
  function PhAdvice(ph: Reading): (a: seq<AdviceItem>)
    ensures |a| <= 1
    ensures forall c <- a :: c == Card(c.topic) && Rule(c.topic) == 2
    ensures a == [] <==> ph.None? || 6.0 <= ph.value <= 7.5
    ensures ph.Some? && ph.value < 6.0 ==> a == [Card(PhTooAcidic)]
    ensures ph.Some? && ph.value > 7.5 ==> a == [Card(PhTooAlkaline)]
  {
    if ph.None? then []
    else if ph.value < 6.0 then [Card(PhTooAcidic)]
    else if ph.value > 7.5 then [Card(PhTooAlkaline)]
    else []
  }

  /** The conductivity rule: a card below 400 or above 1600 µS/cm. */
  function ConductivityAdvice(ec: Reading): (a: seq<AdviceItem>)
    ensures |a| <= 1
    ensures forall c <- a :: c == Card(c.topic) && Rule(c.topic) == 3
    ensures a == [] <==> ec.None? || 400.0 <= ec.value <= 1600.0
    ensures ec.Some? && ec.value < 400.0 ==> a == [Card(VerySoftWater)]
    ensures ec.Some? && ec.value > 1600.0 ==> a == [Card(HighConductivity)]
  {
    if ec.None? then []
    else if ec.value < 400.0 then [Card(VerySoftWater)]
    else if ec.value > 1600.0 then [Card(HighConductivity)]
    else []
  }

  /** The light rule: a card above 10000 or below 500 lux. */
  function LightAdvice(light: Reading): (a: seq<AdviceItem>)
    ensures |a| <= 1
    ensures forall c <- a :: c == Card(c.topic) && Rule(c.topic) == 4
    ensures a == [] <==> light.None? || 500.0 <= light.value <= 10000.0
    ensures light.Some? && light.value > 10000.0 ==> a == [Card(StrongLight)]
    ensures light.Some? && light.value < 500.0 ==> a == [Card(WeakLight)]
  {
    if light.None? then []
    else if light.value > 10000.0 then [Card(StrongLight)]
    else if light.value < 500.0 then [Card(WeakLight)]
    else []
  }

  /** The water/air differential rule: a card when the two differ by more than 10 degrees. */
  function DifferentialAdvice(temp: Reading, airTemp: Reading): (a: seq<AdviceItem>)
    ensures |a| <= 1
    ensures forall c <- a :: c == Card(c.topic) && Rule(c.topic) == 5
    ensures a != [] <==> temp.Some? && airTemp.Some? && (temp.value - airTemp.value > 10.0 || airTemp.value - temp.value > 10.0)
    ensures a != [] ==> a[0].topic.ThermalGap? && a[0].topic.difference > 10.0
    ensures a != [] ==> a[0] == Card(ThermalGap(Abs(temp.value - airTemp.value)))
  {
    if temp.Some? && airTemp.Some? && Abs(temp.value - airTemp.value) > 10.0 then
      [Card(ThermalGap(Abs(temp.value - airTemp.value)))]
    else []
  }

  /** The feeding rule: a card for every known temperature up to 28 degrees. */
  function FeedingAdvice(temp: Reading): (a: seq<AdviceItem>)
    ensures |a| <= 1
    ensures forall c <- a :: c == Card(c.topic) && Rule(c.topic) == 6
    ensures a != [] <==> temp.Some? && temp.value <= 28.0
    ensures temp.Some? && temp.value < 8.0 ==> a == [Card(NoFeeding)]
    ensures temp.Some? && 8.0 <= temp.value < 12.0 ==> a == [Card(WinterFeeding)]
    ensures temp.Some? && 12.0 <= temp.value < 15.0 ==> a == [Card(ReducedFeeding)]
    ensures temp.Some? && 15.0 <= temp.value <= 28.0 ==> a == [Card(ActiveFeeding)]
  {
    if temp.None? then []
    else if temp.value < 8.0 then [Card(NoFeeding)]
    else if 8.0 <= temp.value < 12.0 then [Card(WinterFeeding)]
    else if 12.0 <= temp.value < 15.0 then [Card(ReducedFeeding)]
    else if 15.0 <= temp.value <= 28.0 then [Card(ActiveFeeding)]
    else []
  }

  /** The whole list for a snapshot, or the error card without one. */
  function GetAdvice(data: Option<PondSnapshot>): (r: seq<AdviceItem>)
    ensures data.None? ==> r == [AdviceItem(Error, DataUnavailable)]
    ensures data.Some? ==> |r| <= 6 && forall c <- r :: c.topic != DataUnavailable
  {
    if data.None? then [Card(DataUnavailable)]
    else
      var s := data.value;
      TemperatureAdvice(WaterTemperature(s)) + PhAdvice(WaterPh(s)) + ConductivityAdvice(WaterConductivity(s))
      + LightAdvice(LightLevel(s)) + DifferentialAdvice(WaterTemperature(s), AirTemperature(s))
      + FeedingAdvice(WaterTemperature(s))
  }

  /** Rules listed in strictly increasing order, so each rule adds at most one card. */
  predicate InRuleOrder(a: seq<AdviceItem>)
  {
    forall i, j :: 0 <= i < j < |a| ==> Rule(a[i].topic) < Rule(a[j].topic)
  }

  /** Cards of the rules after the error card, each with its title's type. */
  predicate RuleCards(a: seq<AdviceItem>)
  {
    forall c <- a :: c == Card(c.topic) && Rule(c.topic) > 0
  }

  /**
   * Appending the output of rule `k` (at most one card of that rule) to a list
   * of earlier rules keeps the rule order.
   */
  lemma AppendRule(a: seq<AdviceItem>, t: seq<AdviceItem>, k: nat)
    requires InRuleOrder(a) && RuleCards(a) && forall c <- a :: Rule(c.topic) < k
    requires 0 < k && |t| <= 1 && forall c <- t :: c == Card(c.topic) && Rule(c.topic) == k
    ensures InRuleOrder(a + t) && RuleCards(a + t) && forall c <- a + t :: Rule(c.topic) <= k
  {
    if t != [] {
      forall i, j | 0 <= i < j < |a + t| ensures Rule((a + t)[i].topic) < Rule((a + t)[j].topic) {
        assert (a + t)[i] == a[i] && a[i] in a;
        if j < |a| {
          assert (a + t)[j] == a[j];
        } else {
          assert (a + t)[j] == t[0] && t[0] in t;
        }
      }
    }
  }

  /** With data the cards are rule cards, in increasing rule order. */
  lemma RuleListOrdered(s: PondSnapshot)
    ensures InRuleOrder(GetAdvice(Some(s))) && RuleCards(GetAdvice(Some(s)))
  {
    var t1, t2, t3 := TemperatureAdvice(WaterTemperature(s)), PhAdvice(WaterPh(s)), ConductivityAdvice(WaterConductivity(s));
    var t4, t5, t6 := LightAdvice(LightLevel(s)), DifferentialAdvice(WaterTemperature(s), AirTemperature(s)), FeedingAdvice(WaterTemperature(s));
    AppendRule([], t1, 1);
    assert [] + t1 == t1;
    AppendRule(t1, t2, 2);
    var u2 := t1 + t2;
    AppendRule(u2, t3, 3);
    var u3 := u2 + t3;
    AppendRule(u3, t4, 4);
    var u4 := u3 + t4;
    AppendRule(u4, t5, 5);
    var u5 := u4 + t5;
    AppendRule(u5, t6, 6);
    assert GetAdvice(Some(s)) == u5 + t6;
  }

  /**
   * Without data the list is the single error card; with data there is no
   * error card, every card has its title's type, and the rules appear in
   * order, each at most once.
   */
  lemma AdviceShape(data: Option<PondSnapshot>)
    ensures data.None? ==> GetAdvice(data) == [AdviceItem(Error, DataUnavailable)]
    ensures data.Some? ==> InRuleOrder(GetAdvice(data)) && |GetAdvice(data)| <= 6
    ensures data.Some? ==> forall c <- GetAdvice(data) :: c.kind != Error && c.kind == KindOf(c.topic)
  {
    if data.Some? {
      var a := GetAdvice(data);
      RuleListOrdered(data.value);
      forall c <- a ensures c.kind != Error && c.kind == KindOf(c.topic) {
        assert c == Card(c.topic) && Rule(c.topic) > 0;
      }
    }
  }

  /** Below 8 degrees the list both warns of freezing water and says not to feed. */
  lemma FreezingWater(s: PondSnapshot)
    requires WaterTemperature(s).Some? && WaterTemperature(s).value < 8.0
    ensures AdviceItem(Critical, VeryColdWater) in GetAdvice(Some(s))
    ensures AdviceItem(Warning, NoFeeding) in GetAdvice(Some(s))
  {
    var a := GetAdvice(Some(s));
    var head := TemperatureAdvice(WaterTemperature(s));
    assert a == head + (a[|head|..]);
    assert a[0] == Card(VeryColdWater);
    assert a[|a| - 1] == Card(NoFeeding);
  }

  /** A critical card is only ever about cold water, hot water or acidic water. */
  lemma CriticalCards(data: Option<PondSnapshot>)
    ensures forall c <- GetAdvice(data) :: c.kind == Critical ==>
      c.topic == VeryColdWater || c.topic == WaterTooHot || c.topic == PhTooAcidic
  {
    AdviceShape(data);
    forall c <- GetAdvice(data) | c.kind == Critical
      ensures c.topic == VeryColdWater || c.topic == WaterTooHot || c.topic == PhTooAcidic
    {
      CriticalTopics(c.topic);
    }
  }

  /** The step of `CriticalCards` that reads the type of every title: exactly three titles are critical. */
  lemma CriticalTopics(t: Topic)
    ensures KindOf(t) == Critical <==> t == VeryColdWater || t == WaterTooHot || t == PhTooAcidic
  {
  }
}
