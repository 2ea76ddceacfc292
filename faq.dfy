/**
 * The FAQ collection of the CMS (src/collections/FAQ.ts): the shape of a
 * stored question/answer pair, the two languages a pair may be written in,
 * the validation the collection applies when a record is created, and its
 * read access rule.
 */
module Faq {
  import opened Wrappers

  /** The collection's slug, under which the chat route queries it. */
  const Slug: string := "faq"

  /** The options of the `language` select field. */
  datatype Language = Hr | En {
    /** The stored option value. */
    function Code(): string
    {
      match this
      case Hr => "hr"
      case En => "en"
    }
  }

  /** The option used when a record is created without a language. */
  const DefaultLanguage: Language := Hr

  /** The option value naming `code`, if any option has that value. */
  function ParseLanguage(code: string): (l: Option<Language>)
    ensures l.Some? <==> code == "hr" || code == "en"
    ensures l.Some? ==> l.value.Code() == code
  {
    if code == "hr" then Some(Hr)
    else if code == "en" then Some(En)
    else None
  }

  /** Every language has a distinct code, and parsing a code gives back its language. */
  lemma CodeRoundTrip(l: Language)
    ensures ParseLanguage(l.Code()) == Some(l)
  {
  }

  /** A stored FAQ record. The type fixes the language to one of the two options. */
  datatype Record = Record(question: string, answer: string, language: Language)

  /** What a stored record always satisfies: both text fields are required, so neither is empty. */
  predicate Valid(r: Record) {
    |r.question| > 0 && |r.answer| > 0
  }

  /** The fields as submitted when a record is created; `None` is a field left out. */
  datatype Draft = Draft(question: Option<string>, answer: Option<string>, language: Option<string>)

  datatype FieldError = QuestionRequired | AnswerRequired | LanguageNotAnOption

  /** A required text field is satisfied only by a non-empty string. */
  predicate Present(field: Option<string>) {
    field.Some? && |field.value| > 0
  }

  /** The submitted language after the default is applied. */
  function LanguageOf(d: Draft): (code: string)
    ensures d.language.None? ==> code == DefaultLanguage.Code()
    ensures d.language.Some? ==> code == d.language.value
  {
    d.language.GetOr(DefaultLanguage.Code())
  }

  /** The validation errors of a draft, one per failing field, in field order. */
  function Errors(d: Draft): (es: seq<FieldError>)
    ensures QuestionRequired in es <==> !Present(d.question)
    ensures AnswerRequired in es <==> !Present(d.answer)
    ensures LanguageNotAnOption in es <==> ParseLanguage(LanguageOf(d)).None?
    ensures |es| <= 3
  {
    (if Present(d.question) then [] else [QuestionRequired])
    + (if Present(d.answer) then [] else [AnswerRequired])
    + (if ParseLanguage(LanguageOf(d)).Some? then [] else [LanguageNotAnOption])
  }

  /**
   * Creating a record: the language defaults to `hr` when left out, and the
   * record is stored only when every field validates.
   */
  function Create(d: Draft): (r: Result<Record, seq<FieldError>>)
    ensures r.Success? <==> Present(d.question) && Present(d.answer)
                            && (d.language.None? || d.language.value in {"hr", "en"})
    ensures r.Success? ==> Valid(r.value)
                           && r.value.question == d.question.value
                           && r.value.answer == d.answer.value
                           && r.value.language.Code() == d.language.GetOr("hr")
    ensures r.Failure? ==> |r.error| > 0 && r.error == Errors(d)
  {
    var es := Errors(d);
    if es == [] then
      Success(Record(d.question.value, d.answer.value, ParseLanguage(LanguageOf(d)).value))
    else
      Failure(es)
  }

  /** Leaving the language out is the same as choosing Croatian. */
  lemma DefaultIsCroatian(question: string, answer: string)
    ensures Create(Draft(Some(question), Some(answer), None))
         == Create(Draft(Some(question), Some(answer), Some("hr")))
  {
  }

  /** Who is asking to read the collection; the rule does not look at it. */
  datatype Reader = Anonymous | User(id: string)

  /** The collection's read access rule: every reader, signed in or not, may read. */
  function CanRead(reader: Reader): (granted: bool)
    ensures granted
  {
    true
  }
}
