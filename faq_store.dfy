/**
 * The lookup the chat route asks of the CMS: a query on the FAQ collection
 * whose `question` is `like` a pattern and whose `language` `equals` a code.
 * How the CMS matches `like` is not visible here, so the match is a
 * parameter; the language test is exact string equality and the records come
 * back in the order the collection holds them.
 */
module FaqStore {
  import Faq

  /** A find request: `{collection, where: {question: {like}, language: {equals}}}`. */
  datatype Query = Query(collection: string, questionLike: string, languageEquals: string)

  /** Whether record `r` satisfies both conditions of `q`, given the CMS's `like` test. */
  predicate Matches(like: (string, string) -> bool, q: Query, r: Faq.Record) {
    like(r.question, q.questionLike) && r.language.Code() == q.languageEquals
  }

  /**
   * The records of `store` that satisfy `q`, keeping the store's order.
   * Every result is in the store and matches; every matching record is a
   * result; and the first result is the first matching record of the store.
   */
  function Find(store: seq<Faq.Record>, like: (string, string) -> bool, q: Query): (docs: seq<Faq.Record>)
    ensures |docs| <= |store|
    ensures forall r :: r in docs ==> r in store && Matches(like, q, r)
    ensures forall r :: r in store && Matches(like, q, r) ==> r in docs
    ensures |docs| > 0 ==> exists i :: 0 <= i < |store| && store[i] == docs[0]
                                 && forall j :: 0 <= j < i ==> !Matches(like, q, store[j])
  {
    if store == [] then []
    else
      var rest := Find(store[1..], like, q);
      assert forall r :: r in store[1..] ==> r in store;
      if Matches(like, q, store[0]) then
        [store[0]] + rest
      else
        if |rest| > 0 then
          var i :| 0 <= i < |store[1..]| && store[1..][i] == rest[0]
                   && forall j :: 0 <= j < i ==> !Matches(like, q, store[1..][j]);
          assert store[i + 1] == rest[0];
          assert forall j :: 0 <= j < i + 1 ==> !Matches(like, q, store[j]) by {
            forall j | 0 <= j < i + 1 ensures !Matches(like, q, store[j]) {
              if j > 0 { assert store[j] == store[1..][j - 1]; }
            }
          }
          rest
        else
          rest
  }

  /** Language isolation: a record is never found for a language other than its own. */
  lemma NoCrossLanguage(store: seq<Faq.Record>, like: (string, string) -> bool, q: Query, r: Faq.Record)
    requires r in Find(store, like, q)
    ensures r.language.Code() == q.languageEquals
  {
  }

  /** A language code outside the collection's options finds nothing, whatever the store holds. */
  lemma UnknownLanguageFindsNothing(store: seq<Faq.Record>, like: (string, string) -> bool, q: Query)
    requires q.languageEquals != "hr" && q.languageEquals != "en"
    ensures Find(store, like, q) == []
  {
  }
}
