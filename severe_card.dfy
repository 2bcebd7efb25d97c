/**
 * The severe-weather event card: an icon chosen from the event name, a header
 * colour chosen from the severity, and an "Analyze Risk" button.
 */
module SevereCard {
  import opened Wrappers
  import opened Text

  datatype Icon = Cloud | Fire | Bolt | ExclamationTriangle | ShieldCheck

  datatype Gradient = Red | Orange | Yellow | Gray

  predicate StormName(lower: string) {
    Contains(lower, "hurricane") || Contains(lower, "tropical storm")
  }

  predicate FloodName(lower: string) {
    Contains(lower, "flood") || Contains(lower, "coastal")
  }

  /** `getEventIcon`: the first matching keyword of the lower-cased name wins. */
  function EventIcon(eventName: string): (r: Icon)
    ensures r == Cloud <==> StormName(Lower(eventName))
    ensures r == Fire <==> !StormName(Lower(eventName)) && Contains(Lower(eventName), "heat")
    ensures r == Bolt <==>
      !StormName(Lower(eventName)) && !Contains(Lower(eventName), "heat")
      && Contains(Lower(eventName), "thunderstorm")
    ensures r == ExclamationTriangle <==>
      !StormName(Lower(eventName)) && !Contains(Lower(eventName), "heat")
      && !Contains(Lower(eventName), "thunderstorm") && FloodName(Lower(eventName))
    ensures r == ShieldCheck <==>
      !StormName(Lower(eventName)) && !Contains(Lower(eventName), "heat")
      && !Contains(Lower(eventName), "thunderstorm") && !FloodName(Lower(eventName))
  {
    var lower := Lower(eventName);
    if StormName(lower) then Cloud
    else if Contains(lower, "heat") then Fire
    else if Contains(lower, "thunderstorm") then Bolt
    else if FloodName(lower) then ExclamationTriangle
    else ShieldCheck
  }

  /** `getEventColor`: exact comparison of the lower-cased severity. */
  function EventColor(severity: string): (r: Gradient)
    ensures r == Red <==> Lower(severity) == "extreme"
    ensures r == Orange <==> Lower(severity) == "severe"
    ensures r == Yellow <==> Lower(severity) == "moderate"
    ensures r == Gray <==> Lower(severity) !in {"extreme", "severe", "moderate"}
  {
    var lower := Lower(severity);
    if lower == "extreme" then Red
    else if lower == "severe" then Orange
    else if lower == "moderate" then Yellow
    else Gray
  }

  /** Both classifiers ignore letter case: names that agree after lower-casing get the same icon and colour. */
  lemma ClassifiersIgnoreCase(a: string, b: string)
    requires Lower(a) == Lower(b)
    ensures EventIcon(a) == EventIcon(b) && EventColor(a) == EventColor(b)
    ensures EventIcon(Lower(a)) == EventIcon(a) && EventColor(Lower(a)) == EventColor(a)
  {
    LowerIdempotent(a);
  }

  /** Any capitalisation of 'extreme' colours the card red. */
  lemma ExtremeIsRed(severity: string)
    requires |severity| == 7
    requires forall i :: 0 <= i < 7 ==> LowerChar(severity[i]) == "extreme"[i]
    ensures EventColor(severity) == Red
  {
    assert Lower(severity) == "extreme";
  }

  /** A storm keyword outranks every later keyword: 'Tropical Storm Flood Warning' still gets the cloud. */
  lemma StormOutranksFlood(eventName: string, k: nat)
    requires OccursAt(Lower(eventName), "tropical storm", k)
    ensures EventIcon(eventName) == Cloud
  {
  }

  /**
   * The Analyze Risk button: disabled when the page passed no handler; a click
   * on an enabled button hands the card's own event to the handler.
   */
  function AnalyzeClick<E>(event: E, hasHandler: bool): (r: Option<E>)
    ensures r.Some? <==> hasHandler
    ensures r.Some? ==> r.value == event
  {
    if hasHandler then Some(event) else None
  }
}
