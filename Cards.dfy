/** The dataset and quiz records of src/lib/types.ts. */
module Cards {
  import opened Wrappers

  /** `GradeBand`: "3-4" | "5-6" | "7-8". */
  datatype GradeBand = Grades3To4 | Grades5To6 | Grades7To8

  /** `Focus`: "Roots" | "Prefixes" | "Suffixes" | "Mixed". */
  datatype Focus = Roots | Prefixes | Suffixes | Mixed

  /** `WordCard`; a JSON `null` fragment is `None`. */
  datatype WordCard = WordCard(
    id: string,
    word: string,
    prefix: Option<string>,
    root: Option<string>,
    suffix: Option<string>,
    studentFriendlyMeaning: string,
    partOfSpeech: string,
    gradeBand: GradeBand,
    decodingNotes: string,
    exampleSentence: string,
    distractorMeanings: seq<string>)

  /** `QuizOption`. */
  datatype QuizOption = QuizOption(text: string, isCorrect: bool)
}
