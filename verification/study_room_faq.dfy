// The FAQ tab of the study room: the built-in entries followed by the
// stored ones, filtered by category and by a case-insensitive substring
// search over the question and the answer in the page's language (falling
// back to English), with at most one entry expanded at a time.
module StudyRoomFaq {
  import opened Wrappers
  import opened JsValue
  import opened JsText
  import opened SeqFilter

  /** One entry: a question and an answer per language (absent when the
    * entry lacks them) and an optional category. */
  datatype Faq = Faq(id: Value, category: Option<string>,
                     question: Option<map<string, string>>, answer: Option<map<string, string>>)

  /** An entry slot as stored; None is a null entry. */
  type Entry = Option<Faq>

  /** `text[language] || text['en'] || ""`. */
  function LocalText(text: map<string, string>, language: string): (r: string)
    ensures language in text && text[language] != [] ==> r == text[language]
    ensures !(language in text && text[language] != []) && "en" in text ==> r == text["en"]
    ensures !(language in text && text[language] != []) && "en" !in text ==> r == []
  {
    if language in text && text[language] != [] then text[language]
    else if "en" in text then text["en"]
    else []
  }

  /** An entry with both a question and an answer. */
  predicate WellFormed(e: Entry)
  {
    e.Some? && e.value.question.Some? && e.value.answer.Some?
  }

  predicate MatchesCategory(f: Faq, category: string)
  {
    category == "all" || f.category == Some(category)
  }

  /** The lower-cased query occurs in the lower-cased question or answer. */
  predicate MatchesSearch(f: Faq, language: string, lowerQuery: string)
    requires f.question.Some? && f.answer.Some?
  {
    Includes(Lower(LocalText(f.question.value, language)), lowerQuery)
    || Includes(Lower(LocalText(f.answer.value, language)), lowerQuery)
  }

  /** The filter callback of `filteredFaqs`, for the lower-cased query. */
  function Keep(language: string, category: string, lowerQuery: string): Entry -> bool
  {
    (e: Entry) => WellFormed(e) && MatchesCategory(e.value, category) && MatchesSearch(e.value, language, lowerQuery)
  }

  /** `filteredFaqs`: the entries that pass, in their original order;
    * an entry is kept exactly when it is well formed, in the category
    * (or the category is 'all') and the lower-cased query occurs in its
    * lower-cased question or answer. */
  function FilteredFaqs(all: seq<Entry>, language: string, category: string, query: string): (r: seq<Entry>)
    ensures IsSubsequence(r, all)
    ensures forall e :: e in r <==> e in all && Keep(language, category, Lower(query))(e)
    ensures forall i :: 0 <= i < |r| ==> WellFormed(r[i])
  {
    FilterIsSubsequence(Keep(language, category, Lower(query)), all);
    forall e ensures e in Filter(Keep(language, category, Lower(query)), all) <==> e in all && Keep(language, category, Lower(query))(e) {
      FilterMembership(Keep(language, category, Lower(query)), all, e);
    }
    Filter(Keep(language, category, Lower(query)), all)
  }

  /** An empty search in 'all' shows every well-formed entry, in order. */
  lemma EmptySearchShowsAll(all: seq<Entry>, language: string)
    ensures FilteredFaqs(all, language, "all", "") == Filter((e: Entry) => WellFormed(e), all)
  {
    FilterSameCallback(all, Keep(language, "all", Lower("")), (e: Entry) => WellFormed(e));
  }

  /** Two callbacks that agree on every element give the same filter. */
  lemma {:induction false} FilterSameCallback(s: seq<Entry>, p: Entry -> bool, q: Entry -> bool)
    requires forall e :: WellFormed(e) ==> (p(e) <==> q(e))
    requires forall e :: !WellFormed(e) ==> !p(e) && !q(e)
    ensures Filter(p, s) == Filter(q, s)
  {
    if s != [] {
      FilterSameCallback(s[1..], p, q);
    }
  }

  /** Queries that differ only in letter case give the same entries. */
  lemma SearchIgnoresCase(all: seq<Entry>, language: string, category: string, q1: string, q2: string)
    requires Lower(q1) == Lower(q2)
    ensures FilteredFaqs(all, language, category, q1) == FilteredFaqs(all, language, category, q2)
  {
  }

  /** The expand toggle: clicking the open entry closes it, any other
    * entry opens alone. */
  function Toggle(expandedId: Option<Value>, id: Value): (r: Option<Value>)
    ensures expandedId == Some(id) ==> r.None?
    ensures expandedId != Some(id) ==> r == Some(id)
  {
    if expandedId == Some(id) then None else Some(id)
  }

  /** Clicking the same entry twice restores what was open only when it
    * was that entry or nothing. */
  lemma ToggleTwice(expandedId: Option<Value>, id: Value)
    ensures Toggle(Toggle(expandedId, id), id) == (if expandedId == Some(id) then Some(id) else None)
  {
  }

  class StudyRoomFaqState {
    const staticFaqs: seq<Entry>
    const language: string
    var searchQuery: string
    var selectedCategory: string
    var expandedId: Option<Value>
    var dynamicFaqs: seq<Entry>

    /** The entries shown now. */
    function Shown(): seq<Entry>
      reads this
    {
      FilteredFaqs(staticFaqs + dynamicFaqs, language, selectedCategory, searchQuery)
    }

    constructor(staticFaqs: seq<Entry>, language: string)
      ensures this.staticFaqs == staticFaqs && this.language == language
      ensures searchQuery == [] && selectedCategory == "all" && expandedId.None? && dynamicFaqs == []
    {
      this.staticFaqs := staticFaqs;
      this.language := language;
      searchQuery := [];
      selectedCategory := "all";
      expandedId := None;
      dynamicFaqs := [];
    }

    /** The load effect: the stored list, or `[]` when what was stored is
      * not a list (None) or reading it failed (None as well). */
    method LoadDynamicFaqs(saved: Option<seq<Entry>>)
      modifies this
      ensures saved.Some? ==> dynamicFaqs == saved.value
      ensures saved.None? ==> dynamicFaqs == []
      ensures searchQuery == old(searchQuery) && selectedCategory == old(selectedCategory) && expandedId == old(expandedId)
    {
      if saved.Some? {
        dynamicFaqs := saved.value;
      } else {
        dynamicFaqs := [];
      }
    }

    method SetSearchQuery(query: string)
      modifies this
      ensures searchQuery == query
      ensures selectedCategory == old(selectedCategory) && expandedId == old(expandedId) && dynamicFaqs == old(dynamicFaqs)
    {
      searchQuery := query;
    }

    method SelectCategory(category: string)
      modifies this
      ensures selectedCategory == category
      ensures searchQuery == old(searchQuery) && expandedId == old(expandedId) && dynamicFaqs == old(dynamicFaqs)
    {
      selectedCategory := category;
    }

    /** A click on an entry's header. */
    method ToggleEntry(id: Value)
      modifies this
      ensures expandedId == Toggle(old(expandedId), id)
      ensures searchQuery == old(searchQuery) && selectedCategory == old(selectedCategory) && dynamicFaqs == old(dynamicFaqs)
    {
      expandedId := if expandedId == Some(id) then None else Some(id);
    }
  }
}
