/** The Eisenhower quadrants of the task prioritizer and its two `getQuadrant`
    classifiers: the server's, which compares the raw field values, and the browser's,
    which lower-cases them first. */
module Quadrants {
  import opened Basics
  import opened JsText

  datatype Quadrant = Do | Decide | Delegate | Delete

  /** The `quadrantOrder` weights of the server's comparator. */
  function Weight(q: Quadrant): (w: int)
    ensures 1 <= w <= 4
  {
    match q
    case Do => 4
    case Decide => 3
    case Delegate => 2
    case Delete => 1
  }

  /** Reference reading of a quadrant: the two axes it stands for. */
  function FromAxes(important: bool, urgent: bool): Quadrant
  {
    if important then (if urgent then Do else Decide)
    else (if urgent then Delegate else Delete)
  }

  /** The level a field names, if it names one: "high" or "low", nothing else. */
  function Level(field: Option<string>): Option<bool>
  {
    if field == Some("high") then Some(true)
    else if field == Some("low") then Some(false)
    else None
  }

  /** `getQuadrant` of the server: strict equality with "high" and "low"; a missing
      field is `None`. */
  function ServerQuadrant(importance: Option<string>, urgency: Option<string>): Quadrant
  {
    if importance == Some("high") && urgency == Some("high") then Do
    else if importance == Some("high") && urgency == Some("low") then Decide
    else if importance == Some("low") && urgency == Some("high") then Delegate
    else Delete
  }

  /** `getQuadrant` of the browser: both fields are lower-cased before the comparison. */
  function ClientQuadrant(importance: string, urgency: string): Quadrant
  {
    var importanceValue := ToLower(importance);
    var urgencyValue := ToLower(urgency);
    if importanceValue == "high" && urgencyValue == "high" then Do
    else if importanceValue == "high" && urgencyValue == "low" then Decide
    else if importanceValue == "low" && urgencyValue == "high" then Delegate
    else Delete
  }

  /** The weights order the quadrants strictly: equal weight means equal quadrant. */
  lemma WeightInjective(p: Quadrant, q: Quadrant)
    ensures Weight(p) == Weight(q) <==> p == q
  {
  }

  /** The server classifier is total: two recognised levels give the quadrant of their
      axes, and anything else (a missing field, another word, another letter case)
      falls to Delete. */
  lemma ServerQuadrantByLevels(importance: Option<string>, urgency: Option<string>)
    ensures ServerQuadrant(importance, urgency)
            == if Level(importance).Some? && Level(urgency).Some?
               then FromAxes(Level(importance).value, Level(urgency).value)
               else Delete
    ensures ServerQuadrant(importance, urgency) != Delete ==>
              && IsImportant(ServerQuadrant(importance, urgency)) == (importance == Some("high"))
              && IsUrgent(ServerQuadrant(importance, urgency)) == (urgency == Some("high"))
  {
  }

  predicate IsImportant(q: Quadrant)
  {
    q == Do || q == Decide
  }

  predicate IsUrgent(q: Quadrant)
  {
    q == Do || q == Delegate
  }

  /** The browser classifier is the server classifier applied to lower-cased fields. */
  lemma ClientIsServerOnLowered(importance: string, urgency: string)
    ensures ClientQuadrant(importance, urgency)
            == ServerQuadrant(Some(ToLower(importance)), Some(ToLower(urgency)))
  {
  }

  /** The browser classifier ignores letter case: fields that lower-case alike classify alike. */
  lemma ClientIgnoresCase(i1: string, u1: string, i2: string, u2: string)
    requires ToLower(i1) == ToLower(i2) && ToLower(u1) == ToLower(u2)
    ensures ClientQuadrant(i1, u1) == ClientQuadrant(i2, u2)
  {
  }

  /** On fields already in lower case (as the task parser produces them) the two
      classifiers agree. */
  lemma ClientAgreesOnLowerCase(importance: string, urgency: string)
    requires IsLower(importance) && IsLower(urgency)
    ensures ClientQuadrant(importance, urgency) == ServerQuadrant(Some(importance), Some(urgency))
  {
    ClientIsServerOnLowered(importance, urgency);
  }

  /** "HIGH" and "High" classify like "high" in the browser, not on the server. */
  lemma MixedCaseExample()
    ensures ClientQuadrant("HIGH", "High") == Do
    ensures ServerQuadrant(Some("HIGH"), Some("High")) == Delete
  {
    assert ToLower("HIGH") == "high";
    assert ToLower("High") == "high";
  }
}
