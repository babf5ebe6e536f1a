/** The analysis page's display helpers: the rating and score colours, the
    market-potential star row, the description preview and the numbered
    recommendations. */
module ChatbotAnalysis {
  import opened Presentation
  import opened SubmissionForm

  /** `getRatingColor`: green from 4, yellow from 3, red below. Ratings are
      whole numbers here, so the yellow band is the rating 3 alone. */
  function RatingColor(rating: int): (band: Band)
    ensures band == Green <==> rating >= 4
    ensures band == Yellow <==> rating == 3
    ensures band == Red <==> rating < 3
  {
    if rating >= 4 then Green
    else if rating >= 3 then Yellow
    else Red
  }

  /** `getScoreColor` of the analysis page: green from 80, yellow from 60,
      red below. The page defines it but draws the score with a fixed
      style, so this colour is never applied. */
  function ScoreColor(score: int): (band: Band)
    ensures band == Green <==> score >= 80
    ensures band == Yellow <==> 60 <= score < 80
    ensures band == Red <==> score < 60
  {
    if score >= 80 then Green
    else if score >= 60 then Yellow
    else Red
  }

  /** A higher rating or score never gets a worse colour. */
  lemma ColorsMonotone(lower: int, higher: int)
    requires lower <= higher
    ensures Rank(RatingColor(lower)) <= Rank(RatingColor(higher))
    ensures Rank(ScoreColor(lower)) <= Rank(ScoreColor(higher))
  {
  }

  /** The market-potential star row: five stars, filled first, as many filled
      as the market potential clamped to 0..5. */
  function MarketStars(analysis: Analysis): (stars: seq<bool>)
    ensures |stars| == StarCount
    ensures Filled(stars) == Clamp(analysis.marketPotential, 0, StarCount)
    ensures forall i, j :: 0 <= i < j < StarCount && stars[j] ==> stars[i]
  {
    StarRowFilled(analysis.marketPotential);
    StarRow(analysis.marketPotential)
  }

  /** Number of description characters shown in the page header. */
  const PreviewLength := 200

  /** `description.substring(0, 200)`: the first 200 characters, or the whole
      description when it is shorter. (The page then always appends "...".) */
  function DescriptionPreview(description: string): (preview: string)
    ensures preview <= description
    ensures |preview| == if |description| < PreviewLength then |description| else PreviewLength
  {
    if |description| <= PreviewLength then description else description[..PreviewLength]
  }

  /** One recommendation as listed: its number and its text. */
  datatype NumberedItem = NumberedItem(number: int, text: string)

  /** Numbers the items consecutively from `first`, in their order. */
  function NumberFrom(items: seq<string>, first: int): (numbered: seq<NumberedItem>)
    ensures |numbered| == |items|
    ensures forall k :: 0 <= k < |items| ==> numbered[k] == NumberedItem(first + k, items[k])
  {
    if items == [] then []
    else [NumberedItem(first, items[0])] + NumberFrom(items[1..], first + 1)
  }

  /** `suggestions.map((s, index) => <li>{index + 1}. {s}</li>)`: every
      suggestion in its input order, numbered 1 to n without gaps. */
  function NumberedSuggestions(suggestions: seq<string>): (numbered: seq<NumberedItem>)
    ensures |numbered| == |suggestions|
    ensures forall k :: 0 <= k < |numbered| ==> numbered[k].number == k + 1 && numbered[k].text == suggestions[k]
  {
    NumberFrom(suggestions, 1)
  }

  /** Every analysis the form produces gets green from both colour
      functions (only the rating colour is applied on the page) and has as
      many filled stars as its rating. */
  lemma MockAnalysisShowsGreen(analysis: Analysis)
    requires MockShaped(analysis)
    ensures RatingColor(analysis.marketPotential) == Green
    ensures ScoreColor(analysis.overallScore) == Green
    ensures Filled(MarketStars(analysis)) == analysis.marketPotential
    ensures |NumberedSuggestions(analysis.suggestions)| == 4
  {
  }

  /** Whenever the form shows the analysis page, both colour functions give
      green for the analysis shown; the page applies the rating colour. */
  lemma ShownAnalysisIsGreen(form: IdeaSubmissionForm)
    requires form.Valid()
    requires form.View().AnalysisPage?
    ensures RatingColor(form.View().analysis.marketPotential) == Green
    ensures ScoreColor(form.View().analysis.overallScore) == Green
  {
    MockAnalysisShowsGreen(form.View().analysis);
  }
}
