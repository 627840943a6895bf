/** The generated explanation that the page displays and the history stores. */
module Results {
  /** One multiple-choice question; `correctAnswer` is compared with the options by value. */
  datatype Quiz = Quiz(question: string, options: seq<string>, correctAnswer: string)

  datatype ResultData = ResultData(
    simpleNorwegian: string,
    nativeTranslation: string,
    analogy: string,
    quiz: Quiz)
}
