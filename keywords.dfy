/**
 * The one test on the inbound text that is not an exact match: the request to
 * plan a trip, `message.includes("PLAN") && message.includes("TRIP")`.
 */
module Keywords {
  import opened Text

  /** The text asks for a trip plan, judged on the upper-cased text before trimming. */
  predicate PlanTripRequested(body: string) {
    Contains(Upper(body), "PLAN") && Contains(Upper(body), "TRIP")
  }

  /** Trimming cannot change whether the text asks for a trip plan, since neither word holds white space. */
  lemma PlanTripSurvivesTrim(body: string)
    ensures PlanTripRequested(body)
      <==> Contains(Normalise(body), "PLAN") && Contains(Normalise(body), "TRIP")
  {
    var plan, trip := "PLAN", "TRIP";
    assert forall k :: 0 <= k < |plan| ==> !IsSpace(plan[k]);
    assert forall k :: 0 <= k < |trip| ==> !IsSpace(trip[k]);
    WordSurvivesNormalise(body, plan);
    WordSurvivesNormalise(body, trip);
  }
}
