/** The help page's search: each category keeps the questions whose
    question or answer contains the term (compared in lower case), and
    categories left without questions are dropped. The question table is
    a parameter. */
module FaqPage {
  import opened Common
  import opened Text

  datatype Faq = Faq(question: string, answer: string)

  datatype Category = Category(category: string, questions: seq<Faq>)

  /** The search test: the lower-cased question or answer includes the
      lower-cased term. */
  predicate Matches(q: Faq, term: string) {
    Includes(ToLower(q.question), ToLower(term)) || Includes(ToLower(q.answer), ToLower(term))
  }

  /** `{ ...category, questions: category.questions.filter(...) }`. */
  function FilterCategory(c: Category, term: string): (r: Category)
    ensures r.category == c.category
  {
    c.(questions := Filter(c.questions, (q: Faq) => Matches(q, term)))
  }

  /** The `map` over the categories. */
  function MapCategories(faqs: seq<Category>, term: string): (r: seq<Category>)
    ensures |r| == |faqs|
  {
    seq(|faqs|, i requires 0 <= i < |faqs| => FilterCategory(faqs[i], term))
  }

  predicate NonEmpty(c: Category) {
    |c.questions| > 0
  }

  /** `filteredFaqs`. */
  function FilterFaqs(faqs: seq<Category>, term: string): seq<Category> {
    Filter(MapCategories(faqs, term), NonEmpty)
  }

  /** Every question matches the empty term, so a table without empty
      categories is shown whole. */
  lemma EmptyTermKeepsAll(faqs: seq<Category>)
    requires forall i | 0 <= i < |faqs| :: NonEmpty(faqs[i])
    ensures FilterFaqs(faqs, "") == faqs
  {
    var m := MapCategories(faqs, "");
    forall i | 0 <= i < |faqs| ensures m[i] == faqs[i] {
      var qs := faqs[i].questions;
      forall k | 0 <= k < |qs| ensures Matches(qs[k], "") {
        IncludesEmpty(ToLower(qs[k].question));
      }
      FilterAllKept(qs, (q: Faq) => Matches(q, ""));
    }
    assert m == faqs;
    FilterAllKept(faqs, NonEmpty);
  }

  /** What is shown: every category has questions, every question matches
      the term, and each shown category is the filtered form of one of the
      table's categories. */
  lemma ResultSound(faqs: seq<Category>, term: string)
    ensures forall c | c in FilterFaqs(faqs, term) :: NonEmpty(c)
    ensures forall c | c in FilterFaqs(faqs, term) :: forall q | q in c.questions :: Matches(q, term)
    ensures forall c | c in FilterFaqs(faqs, term) :: exists i | 0 <= i < |faqs| :: c == FilterCategory(faqs[i], term)
  {
    var m := MapCategories(faqs, term);
    forall c | c in FilterFaqs(faqs, term)
      ensures NonEmpty(c) && c in m
    {
      FilterMembership(m, NonEmpty, c);
    }
    forall c, q | c in FilterFaqs(faqs, term) && q in c.questions ensures Matches(q, term) {
      var i :| 0 <= i < |m| && m[i] == c;
      FilterMembership(faqs[i].questions, (x: Faq) => Matches(x, term), q);
    }
  }

  /** Nothing matching is lost: a matching question stays, inside the
      filtered form of its category. */
  lemma ResultComplete(faqs: seq<Category>, term: string, i: int, q: Faq)
    requires 0 <= i < |faqs| && q in faqs[i].questions && Matches(q, term)
    ensures FilterCategory(faqs[i], term) in FilterFaqs(faqs, term)
    ensures q in FilterCategory(faqs[i], term).questions
  {
    var m := MapCategories(faqs, term);
    FilterMembership(faqs[i].questions, (x: Faq) => Matches(x, term), q);
    assert m[i] == FilterCategory(faqs[i], term);
    FilterMembership(m, NonEmpty, m[i]);
  }

  /** Order is kept: categories appear in table order, and questions in
      their category's order. */
  lemma ResultKeepsOrder(faqs: seq<Category>, term: string)
    ensures IsSubsequence(FilterFaqs(faqs, term), MapCategories(faqs, term))
    ensures forall i | 0 <= i < |faqs| :: IsSubsequence(MapCategories(faqs, term)[i].questions, faqs[i].questions)
  {
    FilterIsSubsequence(MapCategories(faqs, term), NonEmpty);
    forall i | 0 <= i < |faqs|
      ensures IsSubsequence(MapCategories(faqs, term)[i].questions, faqs[i].questions)
    {
      FilterIsSubsequence(faqs[i].questions, (x: Faq) => Matches(x, term));
    }
  }
}
