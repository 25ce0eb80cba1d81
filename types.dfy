/** The value shapes shared by the application: subjects, themes, the
    accessibility configuration, chat messages and quiz questions. */
module Types {

  datatype Option<+T> = None | Some(value: T)

  /** An unsigned 8-bit value, the element type of a Uint8Array. */
  type Byte = b: int | 0 <= b < 256

  /** A signed 16-bit value, the element type of an Int16Array. */
  type Int16 = x: int | -32768 <= x < 32768

  /** The two course modules. */
  datatype Subject = AIA | Bioethics

  /** The string value of each member of the Subject enumeration. */
  function SubjectTitle(s: Subject): string
  {
    match s
    case AIA => "Avaliação de Impactos Ambientais"
    case Bioethics => "Bioética e Legislação"
  }

  /** Name of the mentor that speaks for a subject: Gaia for AIA, Sofia otherwise. */
  function TutorName(s: Subject): string
  {
    if s == AIA then "Gaia" else "Sofia"
  }

  /** How every tutor persona instruction opens, before the tutor's name. */
  const PersonaIntro: string := "Você é a Dra. "

  datatype Theme = Light | Dark

  datatype AccessibilityConfig = AccessibilityConfig(
    simplifiedLanguage: bool,
    highContrast: bool,
    voiceGuidance: bool)

  datatype Role = User | Model

  /** A web source attached to a model answer by search grounding. */
  datatype GroundingChunk = GroundingChunk(uri: string, title: string)

  datatype ChatMessage = ChatMessage(
    role: Role,
    text: string,
    tutor: Option<string>,
    grounding: Option<seq<GroundingChunk>>)

  datatype Level = Academic | PublicExam | Professional

  datatype Question = Question(
    id: string,
    text: string,
    options: seq<string>,
    correctAnswer: int,
    explanation: string,
    source: string,
    level: Level)

  /** What the course content guarantees of every question: the correct
      answer indexes one of its options. */
  predicate WellFormedQuestion(q: Question)
  {
    0 <= q.correctAnswer < |q.options|
  }
}
