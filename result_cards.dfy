/**
 * The result cards' interactive state: the quiz, which is answered once,
 * and the translation, which is hidden until the reader asks for it.
 */
module ResultCards {
  import opened Wrappers
  import opened Results

  const SuccessMessage: string := "🎉 Riktig! Godt jobbet!"
  const WrongAnswerPrefix: string := "Ikke helt riktig. Det riktige svaret er: \""

  /** How an option button is drawn. */
  datatype OptionMark =
    | Selectable      // before the reveal: enabled, with hover styling
    | MarkedCorrect   // green, with a check mark
    | MarkedWrong     // red, with a cross
    | Plain           // after the reveal, neither

  class QuizCard {
    const quiz: Quiz
    var selectedAnswer: Option<string>
    var showResult: bool
    var showTranslation: bool

    /** An answer is recorded exactly when the result is shown. */
    ghost predicate Valid()
      reads this
    {
      showResult <==> selectedAnswer.Some?
    }

    constructor(quiz: Quiz)
      ensures Valid()
      ensures this.quiz == quiz && selectedAnswer == None && !showResult && !showTranslation
    {
      this.quiz := quiz;
      selectedAnswer := None;
      showResult := false;
      showTranslation := false;
    }

    /** `handleAnswerClick`: the first click fixes the answer and reveals the result; later clicks do nothing. */
    method AnswerClick(option: string)
      requires Valid()
      modifies this`selectedAnswer, this`showResult
      ensures Valid() && showResult
      ensures selectedAnswer == if old(showResult) then old(selectedAnswer) else Some(option)
    {
      if showResult {
        return;
      }
      selectedAnswer := Some(option);
      showResult := true;
    }

    /** The "Vis oversettelse" button. */
    method ShowTranslation()
      requires Valid()
      modifies this`showTranslation
      ensures Valid() && showTranslation
    {
      showTranslation := true;
    }

    /** The "Skjul" button. */
    method HideTranslation()
      requires Valid()
      modifies this`showTranslation
      ensures Valid() && !showTranslation
    {
      showTranslation := false;
    }

    /** `isCorrect`: after the reveal, the answer is correct exactly when the selected option is the one marked correct. */
    function IsCorrect(): (r: bool)
      reads this
      ensures showResult && selectedAnswer.Some? ==> (r <==> MarkOf(selectedAnswer.value) == MarkedCorrect)
      ensures selectedAnswer.None? ==> !r
    {
      selectedAnswer == Some(quiz.correctAnswer)
    }

    /** The styling conditions of one option button. */
    function MarkOf(option: string): OptionMark
      reads this
    {
      if !showResult then Selectable
      else if option == quiz.correctAnswer then MarkedCorrect
      else if selectedAnswer == Some(option) then MarkedWrong
      else Plain
    }

    /** The marks of all option buttons, in option order. */
    function Marks(): (r: seq<OptionMark>)
      reads this
      ensures |r| == |quiz.options|
      ensures !showResult ==> forall i :: 0 <= i < |r| ==> r[i] == Selectable
      ensures showResult ==> forall i :: 0 <= i < |r| ==> r[i] != Selectable
      ensures showResult ==> forall i :: 0 <= i < |r| ==>
                (r[i] == MarkedCorrect <==> quiz.options[i] == quiz.correctAnswer)
      ensures showResult ==> forall i :: 0 <= i < |r| ==>
                (r[i] == MarkedWrong <==>
                   selectedAnswer == Some(quiz.options[i]) && quiz.options[i] != quiz.correctAnswer)
      ensures forall i :: 0 <= i < |r| && r[i] == MarkedWrong ==>
                showResult && selectedAnswer == Some(quiz.options[i]) && !IsCorrect()
      ensures forall i, j :: 0 <= i < |r| && 0 <= j < |r| && r[i] == MarkedWrong && r[j] == MarkedWrong ==>
                quiz.options[i] == quiz.options[j]
      ensures showResult && selectedAnswer.Some? && selectedAnswer.value in quiz.options ==>
                (IsCorrect() <==> forall i :: 0 <= i < |r| ==> r[i] != MarkedWrong)
    {
      seq(|quiz.options|, i requires 0 <= i < |quiz.options| reads this => MarkOf(quiz.options[i]))
    }

    /** The feedback panel under the options: absent before the reveal. */
    function Feedback(): (r: Option<string>)
      reads this
      ensures r.None? <==> !showResult
      ensures r.Some? && IsCorrect() ==> r.value == SuccessMessage
      ensures r.Some? && !IsCorrect() ==>
                && r.value != SuccessMessage
                && |r.value| == |WrongAnswerPrefix| + |quiz.correctAnswer| + 1
                && r.value[..|WrongAnswerPrefix|] == WrongAnswerPrefix
                && r.value[|WrongAnswerPrefix|..|r.value| - 1] == quiz.correctAnswer
                && r.value[|r.value| - 1] == '"'
    {
      if !showResult then None
      else if IsCorrect() then Some(SuccessMessage)
      else
        var text := WrongAnswerPrefix + quiz.correctAnswer + "\"";
        assert text[0] != SuccessMessage[0];
        Some(text)
    }
  }
}
