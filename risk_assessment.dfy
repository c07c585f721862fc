/**
 * The risk questionnaire: three habit answers are scored into a number of
 * risk factors, and together with the recent-eye-test answer they select one
 * of four recommendations and whether the "find an optometrist" button is
 * offered.
 *
 * Each answer is the data-value of a segmented control, which may never have
 * been set.
 */
module RiskAssessment {

  datatype Answer = Unanswered | Chosen(value: string)

  datatype Outcome = ActionRecommended | GoodToKnow | StayVigilant | LookingGood

  datatype Recommendation = Recommendation(outcome: Outcome, showFinder: bool)

  /** The three risk flags, each 1 when the habit is a risk. A family-history
      answer counts unless it is exactly 'nil'. */
  function FamilyHistoryFlag(a: Answer): nat { if a != Chosen("nil") then 1 else 0 }
  function NearWorkFlag(a: Answer): nat { if a == Chosen("more") then 1 else 0 }
  function OutdoorFlag(a: Answer): nat { if a == Chosen("less") then 1 else 0 }

  /** riskFactors: the sum of the three flags. */
  function RiskFactors(familyHistory: Answer, nearWork: Answer, outdoorTime: Answer): (r: nat)
    ensures r <= 3
    ensures r == 0 <==> familyHistory == Chosen("nil") && nearWork != Chosen("more") && outdoorTime != Chosen("less")
    ensures r == 3 <==> familyHistory != Chosen("nil") && nearWork == Chosen("more") && outdoorTime == Chosen("less")
  {
    FamilyHistoryFlag(familyHistory) + NearWorkFlag(nearWork) + OutdoorFlag(outdoorTime)
  }

  /** The outcome table on (eye-test answer, riskFactors >= 2). */
  function Recommend(eyeTest: Answer, riskFactors: int): (r: Recommendation)
    ensures r.showFinder <==> eyeTest == Chosen("no")
    ensures r.outcome == ActionRecommended <==> eyeTest == Chosen("no") && riskFactors >= 2
    ensures r.outcome == GoodToKnow <==> eyeTest == Chosen("no") && riskFactors < 2
    ensures r.outcome == StayVigilant <==> eyeTest == Chosen("yes") && riskFactors >= 2
    ensures r.outcome == LookingGood <==>
      eyeTest != Chosen("no") && !(eyeTest == Chosen("yes") && riskFactors >= 2)
  {
    if eyeTest == Chosen("no") && riskFactors >= 2 then Recommendation(ActionRecommended, true)
    else if eyeTest == Chosen("no") && riskFactors < 2 then Recommendation(GoodToKnow, true)
    else if eyeTest == Chosen("yes") && riskFactors >= 2 then Recommendation(StayVigilant, false)
    else Recommendation(LookingGood, false)
  }

  /** The submit-answers handler. */
  function SubmitAnswers(familyHistory: Answer, nearWork: Answer, outdoorTime: Answer, eyeTest: Answer): (r: Recommendation)
    ensures r.outcome in {ActionRecommended, StayVigilant} <==>
      (eyeTest == Chosen("no") || eyeTest == Chosen("yes")) &&
      FamilyHistoryFlag(familyHistory) + NearWorkFlag(nearWork) + OutdoorFlag(outdoorTime) >= 2
    ensures eyeTest != Chosen("no") && eyeTest != Chosen("yes") ==> r == Recommendation(LookingGood, false)
  {
    Recommend(eyeTest, RiskFactors(familyHistory, nearWork, outdoorTime))
  }

  /** With a known eye-test answer, the urgent outcomes are exactly those where
      at least two of the three habits are risky; a missing eye-test answer
      always reads as "Looking Good" without the finder button. */
  lemma UrgentIffTwoRisks(familyHistory: Answer, nearWork: Answer, outdoorTime: Answer, eyeTest: Answer)
    ensures eyeTest == Unanswered ==>
      SubmitAnswers(familyHistory, nearWork, outdoorTime, eyeTest) == Recommendation(LookingGood, false)
    ensures eyeTest == Chosen("no") ==>
      (SubmitAnswers(familyHistory, nearWork, outdoorTime, eyeTest).outcome == ActionRecommended <==>
       (familyHistory != Chosen("nil") && nearWork == Chosen("more")) ||
       (familyHistory != Chosen("nil") && outdoorTime == Chosen("less")) ||
       (nearWork == Chosen("more") && outdoorTime == Chosen("less")))
  {
  }

  /** The four example cases of the outcome table. */
  lemma TableExamples()
    ensures Recommend(Chosen("no"), 2) == Recommendation(ActionRecommended, true)
    ensures Recommend(Chosen("no"), 0) == Recommendation(GoodToKnow, true)
    ensures Recommend(Chosen("yes"), 3) == Recommendation(StayVigilant, false)
    ensures Recommend(Chosen("yes"), 0) == Recommendation(LookingGood, false)
    ensures SubmitAnswers(Unanswered, Chosen("more"), Chosen("more"), Chosen("no")).outcome == ActionRecommended
  {
  }
}
