/** The idea submission form: the idea being edited, an "analyzing" flag and
    the mock analysis result, changed by field edits, a file attachment, the
    submit handler, the completion of the simulated analysis and the "new
    idea" reset. */
module SubmissionForm {

  datatype Option<T> = None | Some(value: T)

  /** An attached file; only its identity matters here, its name is what the
      form shows ("<name> selected"). */
  datatype Attachment = Attachment(name: string)

  /** `IdeaData`: three text fields and an optional attachment. */
  datatype IdeaData = IdeaData(title: string, description: string, category: string, file: Option<Attachment>)

  /** The fields `handleInputChange` is called with. */
  datatype Field = Title | Description | Category

  /** The idea the form starts from and is reset to: no text, no file. */
  const EmptyIdea := IdeaData("", "", "", None)

  /** The value of one text field. */
  function FieldValue(idea: IdeaData, field: Field): string
  {
    match field
    case Title => idea.title
    case Description => idea.description
    case Category => idea.category
  }

  /** `{ ...prev, [field]: value }`: the named field takes the value, the other
      fields and the attachment keep theirs. */
  function WithField(idea: IdeaData, field: Field, value: string): (edited: IdeaData)
    ensures FieldValue(edited, field) == value
    ensures forall other :: other != field ==> FieldValue(edited, other) == FieldValue(idea, other)
    ensures edited.file == idea.file
  {
    match field
    case Title => idea.(title := value)
    case Description => idea.(description := value)
    case Category => idea.(category := value)
  }

  /** Writing a field back to its old value undoes an edit. */
  lemma WithFieldUndo(idea: IdeaData, field: Field, value: string)
    ensures WithField(WithField(idea, field, value), field, FieldValue(idea, field)) == idea
  {
  }

  /** The submit handler's check: title, description and category are all
      non-empty. */
  function ReadyToSubmit(idea: IdeaData): (ready: bool)
    ensures ready ==> idea != EmptyIdea
  {
    idea.title != "" && idea.description != "" && idea.category != ""
  }

  /** The SWOT part of an analysis. */
  datatype Swot = Swot(strengths: seq<string>, weaknesses: seq<string>, opportunities: seq<string>, threats: seq<string>)

  /** The analysis result shown on the analysis page. */
  datatype Analysis = Analysis(marketPotential: int, swot: Swot, suggestions: seq<string>, overallScore: int)

  /** Largest draw of `Math.floor(Math.random() * 2)`. */
  const MarketDraws := 2
  /** Largest draw of `Math.floor(Math.random() * 20)`. */
  const ScoreDraws := 20

  /** What every mock analysis satisfies: a rating of 4 or 5, a score of 80
      to 99, and 3 strengths, 2 weaknesses, 3 opportunities, 3 threats and 4
      suggestions. */
  predicate MockShaped(a: Analysis)
  {
    && 4 <= a.marketPotential <= 5
    && 80 <= a.overallScore <= 99
    && |a.swot.strengths| == 3 && |a.swot.weaknesses| == 2
    && |a.swot.opportunities| == 3 && |a.swot.threats| == 3
    && |a.suggestions| == 4
  }

  /** The fixed texts of every mock analysis. */
  const MockStrengths: seq<string> := [
    "Innovative approach to solving existing problems",
    "Clear target market identification",
    "Scalable business model"]
  const MockWeaknesses: seq<string> := [
    "Potential high initial investment required",
    "Competition from established players"]
  const MockOpportunities: seq<string> := [
    "Growing market demand",
    "Potential for strategic partnerships",
    "Technology advancement opportunities"]
  const MockThreats: seq<string> := [
    "Market saturation risk",
    "Regulatory changes",
    "Economic downturn impact"]
  const MockSuggestions: seq<string> := [
    "Consider conducting market research to validate demand",
    "Develop a minimum viable product (MVP) for testing",
    "Identify potential funding sources early",
    "Build a strong team with complementary skills"]

  /** The mock analysis built when the simulated delay ends, for the two
      random draws `marketDraw` (0 or 1) and `scoreDraw` (0 to 19). */
  function MockAnalysis(marketDraw: int, scoreDraw: int): (a: Analysis)
    requires 0 <= marketDraw < MarketDraws && 0 <= scoreDraw < ScoreDraws
    ensures MockShaped(a)
    ensures a.marketPotential == marketDraw + 4 && a.overallScore == scoreDraw + 80
  {
    Analysis(
      marketDraw + 4,
      Swot(MockStrengths, MockWeaknesses, MockOpportunities, MockThreats),
      MockSuggestions,
      scoreDraw + 80)
  }

  /** The mock scores are exactly 80 to 99: each of them is drawn by some
      draw, and no draw gives 100. */
  lemma MockScores(score: int)
    ensures (exists d :: 0 <= d < ScoreDraws && MockAnalysis(0, d).overallScore == score) <==> 80 <= score <= 99
  {
    if 80 <= score <= 99 {
      assert MockAnalysis(0, score - 80).overallScore == score;
    }
  }

  /** The mock ratings are exactly 4 and 5. */
  lemma MockRatings(rating: int)
    ensures (exists d :: 0 <= d < MarketDraws && MockAnalysis(d, 0).marketPotential == rating) <==> rating == 4 || rating == 5
  {
    if rating == 4 || rating == 5 {
      assert MockAnalysis(rating - 4, 0).marketPotential == rating;
    }
  }

  /** What the component renders: the analysis page for a stored result, the
      form otherwise. */
  datatype Screen = AnalysisPage(idea: IdeaData, analysis: Analysis) | FormPage(idea: IdeaData, submitDisabled: bool)

  /** The state of the `IdeaSubmissionForm` component. `pendingAnalyses`
      counts the simulated analyses scheduled by successful submits whose
      delay has not yet ended. */
  class IdeaSubmissionForm {
    var ideaData: IdeaData
    var isAnalyzing: bool
    var analysisResult: Option<Analysis>
    var pendingAnalyses: nat

    /** While analysing, an analysis is scheduled; a stored result is a mock
        analysis. */
    ghost predicate Valid()
      reads this
    {
      && (isAnalyzing ==> pendingAnalyses > 0)
      && (analysisResult.Some? ==> MockShaped(analysisResult.value))
    }

    constructor ()
      ensures Valid()
      ensures ideaData == EmptyIdea && !isAnalyzing && analysisResult == None && pendingAnalyses == 0
    {
      ideaData := EmptyIdea;
      isAnalyzing := false;
      analysisResult := None;
      pendingAnalyses := 0;
    }

    /** The screen rendered: the analysis page exactly when a result is
        stored, showing that result for the current idea; otherwise the form,
        whose submit button is disabled while analysing. */
    function View(): (screen: Screen)
      reads this
      ensures screen.AnalysisPage? <==> analysisResult.Some?
      ensures screen.idea == ideaData
    {
      if analysisResult.Some? then AnalysisPage(ideaData, analysisResult.value)
      else FormPage(ideaData, isAnalyzing)
    }

    /** `handleInputChange(field, value)`: only the named field changes. */
    method InputChange(field: Field, value: string)
      requires Valid()
      modifies this`ideaData
      ensures Valid()
      ensures ideaData == WithField(old(ideaData), field, value)
    {
      ideaData := WithField(ideaData, field, value);
    }

    /** `handleFileUpload`: with no file chosen nothing changes; otherwise the
        chosen file is attached and the text fields keep their values. */
    method FileUpload(chosen: Option<Attachment>)
      requires Valid()
      modifies this`ideaData
      ensures Valid()
      ensures chosen.None? ==> ideaData == old(ideaData)
      ensures chosen.Some? ==> ideaData == old(ideaData).(file := chosen)
    {
      if chosen.Some? {
        ideaData := ideaData.(file := chosen);
      }
    }

    /** `handleSubmit`: with an empty title, description or category nothing
        starts; otherwise analysing begins and one simulated analysis is
        scheduled. The idea is never changed. */
    method Submit() returns (started: bool)
      requires Valid()
      modifies this`isAnalyzing, this`pendingAnalyses
      ensures Valid()
      ensures started == ReadyToSubmit(ideaData)
      ensures started ==> isAnalyzing && pendingAnalyses == old(pendingAnalyses) + 1
      ensures !started ==> isAnalyzing == old(isAnalyzing) && pendingAnalyses == old(pendingAnalyses)
    {
      if ideaData.title == "" || ideaData.description == "" || ideaData.category == "" {
        started := false;
        return;
      }
      started := true;
      isAnalyzing := true;
      pendingAnalyses := pendingAnalyses + 1;
    }

    /** The end of a scheduled analysis's delay: the mock analysis for the
        two draws is stored and analysing stops, so the analysis page shows. */
    method CompleteAnalysis(marketDraw: int, scoreDraw: int)
      requires Valid()
      requires pendingAnalyses > 0
      requires 0 <= marketDraw < MarketDraws && 0 <= scoreDraw < ScoreDraws
      modifies this`analysisResult, this`isAnalyzing, this`pendingAnalyses
      ensures Valid()
      ensures analysisResult == Some(MockAnalysis(marketDraw, scoreDraw))
      ensures !isAnalyzing && pendingAnalyses == old(pendingAnalyses) - 1
      ensures View() == AnalysisPage(ideaData, MockAnalysis(marketDraw, scoreDraw))
    {
      analysisResult := Some(MockAnalysis(marketDraw, scoreDraw));
      isAnalyzing := false;
      pendingAnalyses := pendingAnalyses - 1;
    }

    /** `onNewIdea`: the result is cleared and the idea reset to empty text
        with no file, so the form shows again. */
    method NewIdea()
      requires Valid()
      modifies this`analysisResult, this`ideaData
      ensures Valid()
      ensures analysisResult == None && ideaData == EmptyIdea
      ensures View() == FormPage(EmptyIdea, isAnalyzing)
    {
      analysisResult := None;
      ideaData := EmptyIdea;
    }
  }
}
