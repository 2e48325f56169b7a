/**
 * src/types/question.ts, plus the category / question-set record the list pages
 * and the update modal use (its declaring file is not part of this model; its
 * fields are the ones those pages read).
 */
module QuestionTypes {
  import opened Wrappers

  /** The variant name that carries answer options. */
  const MULTIPLE_CHOICE := "multiple_choice"

  /** An answer option (`Option` in src/types/question.ts). */
  datatype QuestionOption = QuestionOption(id: string, text_en: string, text_vi: string)

  datatype QuestionVariant = QuestionVariant(id: string, name: string, options: Option<seq<QuestionOption>>)

  datatype Topic = Topic(id: string, name_en: string, name_vi: string)

  datatype TopicLink = TopicLink(id: string, topic_id: string, question_id: string, topics: Topic)

  datatype Question = Question(
    id: string,
    question_en: string,
    question_vi: string,
    example_en: Option<string>,
    example_vi: Option<string>,
    question_variant: seq<QuestionVariant>,
    topics_questions: seq<TopicLink>,
    question_set_id: Option<string>)

  /** A category or a question set: an id and a bilingual name. */
  datatype NamedEntity = NamedEntity(id: string, name_en: string, name_vi: string)

  type Category = NamedEntity
  type QuestionSet = NamedEntity
}
