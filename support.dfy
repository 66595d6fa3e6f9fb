/** The support page: the FAQ search (a case-insensitive substring filter
    over categories of questions that drops the categories left empty) and
    the contact form, which is cleared once submitted. */
module Support {
  import opened Common
  import opened Strings

  datatype Faq = Faq(question: string, answer: string)

  datatype Category = Category(name: string, questions: seq<Faq>)

  const FaqCatalog: seq<Category> := [
    Category("Getting Started", [
      Faq("How do I create my first voiceover?",
          "Simply click on \"Create Voice\" from the homepage, enter your script, choose your language and voice, then click generate. Your voiceover will be ready in seconds!"),
      Faq("Which Indian languages are supported?",
          "We support 15+ Indian languages including Hindi, Tamil, Telugu, Gujarati, Bengali, Marathi, Kannada, Malayalam, Punjabi, Odia, Assamese, and Urdu. More languages are added regularly."),
      Faq("How accurate is the pronunciation?",
          "Our AI models are specifically trained on Indian languages and achieve 99%+ accuracy in pronunciation, including proper regional accents and speech patterns.")
    ]),
    Category("Pricing & Plans", [
      Faq("Can I try PariVaani for free?",
          "Yes! Our Free plan includes 5 voiceovers per month forever. You can also try any paid plan with a 7-day free trial."),
      Faq("Can I change my plan anytime?",
          "Absolutely! You can upgrade or downgrade your plan at any time. Changes take effect immediately with prorated billing."),
      Faq("Do you offer refunds?",
          "Yes, we offer a 30-day money-back guarantee for all paid plans. Contact our support team for assistance.")
    ]),
    Category("Technical Support", [
      Faq("What audio formats do you support?",
          "All voiceovers are generated in high-quality MP3 format (320kbps for paid plans, 128kbps for free plan). We're working on adding more formats like WAV and FLAC."),
      Faq("Can I use the voiceovers commercially?",
          "Yes, all paid plans include commercial usage rights. You can use the generated voiceovers in your business projects, YouTube videos, podcasts, and more."),
      Faq("Is there an API available?",
          "API access is available for Enterprise customers. Contact our sales team to discuss your integration needs.")
    ]),
    Category("Account & Billing", [
      Faq("How do I update my payment method?",
          "Go to your Dashboard > Account Settings > Billing to update your payment method. Changes take effect immediately."),
      Faq("Can I download my previous voiceovers?",
          "Yes, all your generated voiceovers are saved in your Dashboard and can be downloaded anytime. Free plan users have access for 30 days, paid users have unlimited access."),
      Faq("How do I cancel my subscription?",
          "You can cancel your subscription anytime from your Dashboard > Account Settings. Your plan will remain active until the end of your billing period.")
    ])
  ]

  // ---------------------------------------------------------------------
  // FAQ search

  /** The question filter: an empty query keeps everything; otherwise the
      lower-cased query must occur in the lower-cased question or answer. */
  predicate Matches(query: string, faq: Faq) {
    query == "" || Includes(Lower(faq.question), Lower(query)) || Includes(Lower(faq.answer), Lower(query))
  }

  /** The questions of one category that match the query, in their order. */
  function FilterQuestions(query: string, questions: seq<Faq>): (r: seq<Faq>)
    ensures |r| <= |questions|
  {
    if questions == [] then []
    else
      (if Matches(query, questions[0]) then [questions[0]] else []) + FilterQuestions(query, questions[1..])
  }

  /** A question is kept exactly when it is one of the category's questions
      and matches the query. */
  lemma {:induction false} FilterQuestionsKeeps(query: string, questions: seq<Faq>)
    ensures forall f :: f in FilterQuestions(query, questions) <==> f in questions && Matches(query, f)
  {
    if questions != [] {
      FilterQuestionsKeeps(query, questions[1..]);
    }
  }

  /** `filteredFAQs`: every category with its questions filtered, then the
      categories left without questions dropped. */
  function FilterFaqs(query: string, categories: seq<Category>): (r: seq<Category>)
    ensures |r| <= |categories|
  {
    if categories == [] then []
    else FilterCategory(query, categories[0]) + FilterFaqs(query, categories[1..])
  }

  /** One category with its questions filtered, or nothing when none is left. */
  function FilterCategory(query: string, category: Category): (r: seq<Category>)
    ensures |r| <= 1
  {
    var kept := FilterQuestions(query, category.questions);
    if |kept| > 0 then [Category(category.name, kept)] else []
  }

  /** Every category shown has questions left, and every question shown matches. */
  lemma {:induction false} FilterFaqsShowsMatches(query: string, categories: seq<Category>)
    ensures forall c :: c in FilterFaqs(query, categories) ==> c.questions != []
    ensures forall c, f :: c in FilterFaqs(query, categories) && f in c.questions ==> Matches(query, f)
  {
    if categories != [] {
      FilterFaqsShowsMatches(query, categories[1..]);
      FilterQuestionsKeeps(query, categories[0].questions);
      assert FilterFaqs(query, categories) == FilterCategory(query, categories[0]) + FilterFaqs(query, categories[1..]);
    }
  }

  /** `a` is `b` with some elements left out, the rest in their order. */
  predicate IsSubsequence<T(==)>(a: seq<T>, b: seq<T>) {
    if a == [] then true
    else if b == [] then false
    else (a[0] == b[0] && IsSubsequence(a[1..], b[1..])) || IsSubsequence(a, b[1..])
  }

  /** `r` is a subsequence of the categories `cs` in which every kept
      category keeps its name and a subsequence of its questions. */
  predicate IsCategorySubsequence(r: seq<Category>, cs: seq<Category>) {
    if r == [] then true
    else if cs == [] then false
    else
      (r[0].name == cs[0].name && IsSubsequence(r[0].questions, cs[0].questions) && IsCategorySubsequence(r[1..], cs[1..]))
      || IsCategorySubsequence(r, cs[1..])
  }

  /** The kept questions keep their order. */
  lemma {:induction false} FilterQuestionsIsSubsequence(query: string, questions: seq<Faq>)
    ensures IsSubsequence(FilterQuestions(query, questions), questions)
  {
    if questions != [] {
      var rest := FilterQuestions(query, questions[1..]);
      FilterQuestionsIsSubsequence(query, questions[1..]);
      if Matches(query, questions[0]) {
        var r := [questions[0]] + rest;
        assert r[0] == questions[0] && r[1..] == rest;
      } else {
        assert FilterQuestions(query, questions) == rest;
      }
    }
  }

  /** Categories and questions keep their order: the result is a
      subsequence of the input at both levels. */
  lemma {:induction false} FilterFaqsIsSubsequence(query: string, categories: seq<Category>)
    ensures IsCategorySubsequence(FilterFaqs(query, categories), categories)
  {
    if categories != [] {
      FilterFaqsIsSubsequence(query, categories[1..]);
      FilterQuestionsIsSubsequence(query, categories[0].questions);
      var kept := FilterQuestions(query, categories[0].questions);
      var rest := FilterFaqs(query, categories[1..]);
      if |kept| > 0 {
        var r := [Category(categories[0].name, kept)] + rest;
        assert FilterFaqs(query, categories) == r;
        assert r[0] == Category(categories[0].name, kept) && r[1..] == rest;
      } else {
        assert FilterFaqs(query, categories) == rest;
      }
    }
  }

  /** Nothing that matches is lost: a matching question of a category shows
      up under that category's name. */
  lemma {:induction false} FilterFaqsComplete(query: string, categories: seq<Category>, i: nat, f: Faq)
    requires i < |categories| && f in categories[i].questions && Matches(query, f)
    ensures exists c :: c in FilterFaqs(query, categories) && c.name == categories[i].name && f in c.questions
  {
    var kept := FilterQuestions(query, categories[0].questions);
    if i == 0 {
      FilterQuestionsKeeps(query, categories[0].questions);
      assert f in kept;
      assert Category(categories[0].name, kept) in FilterFaqs(query, categories);
    } else {
      FilterFaqsComplete(query, categories[1..], i - 1, f);
      var c :| c in FilterFaqs(query, categories[1..]) && c.name == categories[i].name && f in c.questions;
      assert c in FilterFaqs(query, categories);
    }
  }

  /** The "No results found" card is shown exactly when no question of any
      category matches the query. */
  lemma NoResultsIff(query: string, categories: seq<Category>)
    ensures FilterFaqs(query, categories) == [] <==>
      forall i, f :: 0 <= i < |categories| && f in categories[i].questions ==> !Matches(query, f)
  {
    if exists i, f :: 0 <= i < |categories| && f in categories[i].questions && Matches(query, f) {
      var i, f :| 0 <= i < |categories| && f in categories[i].questions && Matches(query, f);
      FilterFaqsComplete(query, categories, i, f);
    } else {
      NothingMatchesShowsNothing(query, categories);
    }
  }

  lemma {:induction false} NoQuestionMatches(query: string, questions: seq<Faq>)
    requires forall f :: f in questions ==> !Matches(query, f)
    ensures FilterQuestions(query, questions) == []
  {
    if questions != [] {
      assert questions[0] in questions;
      NoQuestionMatches(query, questions[1..]);
    }
  }

  lemma {:induction false} NothingMatchesShowsNothing(query: string, categories: seq<Category>)
    requires forall i, f :: 0 <= i < |categories| && f in categories[i].questions ==> !Matches(query, f)
    ensures FilterFaqs(query, categories) == []
  {
    if categories != [] {
      NoQuestionMatches(query, categories[0].questions);
      forall i, f | 0 <= i < |categories[1..]| && f in categories[1..][i].questions
        ensures !Matches(query, f)
      {
        assert categories[1..][i] == categories[i + 1];
      }
      NothingMatchesShowsNothing(query, categories[1..]);
    }
  }

  /** An empty query keeps every question. */
  lemma {:induction false} EmptyQueryKeepsQuestions(questions: seq<Faq>)
    ensures FilterQuestions("", questions) == questions
  {
    if questions != [] {
      EmptyQueryKeepsQuestions(questions[1..]);
      assert questions == [questions[0]] + questions[1..];
    }
  }

  /** An empty query returns the categories unchanged, provided none is empty. */
  lemma {:induction false} EmptyQueryKeepsAll(categories: seq<Category>)
    requires forall i :: 0 <= i < |categories| ==> categories[i].questions != []
    ensures FilterFaqs("", categories) == categories
  {
    if categories != [] {
      EmptyQueryKeepsQuestions(categories[0].questions);
      EmptyQueryKeepsAll(categories[1..]);
      assert categories == [categories[0]] + categories[1..];
    }
  }

  /** Every category of the page's FAQ has questions, so the empty search shows all of it. */
  lemma CatalogShownInFull()
    ensures FilterFaqs("", FaqCatalog) == FaqCatalog
  {
    var categories := FaqCatalog;
    assert |categories| == 4;
    assert categories[0].questions != [] && categories[1].questions != [];
    assert categories[2].questions != [] && categories[3].questions != [];
    EmptyQueryKeepsAll(categories);
  }

  /** Whatever matches a query also matches every query it contains. */
  lemma MatchesWeaker(long: string, short: string, f: Faq)
    requires Includes(long, short) && Matches(long, f)
    ensures Matches(short, f)
  {
    if short != "" && long != "" {
      IncludesLower(long, short);
      if Includes(Lower(f.question), Lower(long)) {
        IncludesTransitive(Lower(short), Lower(long), Lower(f.question));
      } else {
        IncludesTransitive(Lower(short), Lower(long), Lower(f.answer));
      }
    }
  }

  /** Filtering questions by a longer query is filtering the shorter query's
      results by it. */
  lemma {:induction false} NarrowQuestions(long: string, short: string, questions: seq<Faq>)
    requires Includes(long, short)
    ensures FilterQuestions(long, FilterQuestions(short, questions)) == FilterQuestions(long, questions)
  {
    if questions != [] {
      NarrowQuestions(long, short, questions[1..]);
      var f := questions[0];
      if Matches(long, f) {
        MatchesWeaker(long, short, f);
      }
      var tail := FilterQuestions(short, questions[1..]);
      var keptLong := if Matches(long, f) then [f] else [];
      assert FilterQuestions(long, questions) == keptLong + FilterQuestions(long, questions[1..]);
      if Matches(short, f) {
        var once := [f] + tail;
        assert FilterQuestions(short, questions) == once;
        assert once[0] == f && once[1..] == tail;
        assert FilterQuestions(long, once) == keptLong + FilterQuestions(long, tail);
      } else {
        assert FilterQuestions(short, questions) == tail;
        assert keptLong == [];
      }
    }
  }

  /** Filtering a category list that starts with at most one category is
      filtering that category and the rest separately. */
  lemma FilterFaqsPrepend(query: string, head: seq<Category>, rest: seq<Category>)
    requires |head| <= 1
    ensures FilterFaqs(query, head + rest) == FilterFaqs(query, head) + FilterFaqs(query, rest)
  {
    if head == [] {
      assert head + rest == rest;
    } else {
      var all := head + rest;
      assert all[0] == head[0] && all[1..] == rest;
      assert FilterFaqs(query, head) == FilterCategory(query, head[0]) + FilterFaqs(query, head[1..]);
    }
  }

  /** A category filtered by the shorter query and then by the longer one is
      that category filtered by the longer one. */
  lemma NarrowCategory(long: string, short: string, category: Category)
    requires Includes(long, short)
    ensures FilterFaqs(long, FilterCategory(short, category)) == FilterCategory(long, category)
  {
    NarrowQuestions(long, short, category.questions);
    var kept := FilterQuestions(short, category.questions);
    if |kept| > 0 {
      var once := [Category(category.name, kept)];
      assert FilterFaqs(long, once) == FilterCategory(long, once[0]) + FilterFaqs(long, once[1..]);
    } else {
      assert FilterQuestions(long, kept) == [];
    }
  }

  /** Typing more of a query only narrows the results: the results for a
      query that contains another are the shorter query's results filtered
      again, so every question they show is also shown for the shorter one. */
  lemma {:induction false} NarrowFaqs(long: string, short: string, categories: seq<Category>)
    requires Includes(long, short)
    ensures FilterFaqs(long, FilterFaqs(short, categories)) == FilterFaqs(long, categories)
  {
    if categories != [] {
      NarrowFaqs(long, short, categories[1..]);
      NarrowCategory(long, short, categories[0]);
      FilterFaqsPrepend(long, FilterCategory(short, categories[0]), FilterFaqs(short, categories[1..]));
    }
  }

  // ---------------------------------------------------------------------
  // The page

  datatype ContactForm = ContactForm(name: string, email: string, subject: string, message: string)

  const EmptyForm: ContactForm := ContactForm("", "", "", "")

  datatype FormField = Name | Email | Subject | Message

  function FieldValue(form: ContactForm, field: FormField): string {
    match field
    case Name => form.name
    case Email => form.email
    case Subject => form.subject
    case Message => form.message
  }

  /** Every input of the form is marked `required`, so the browser submits
      only a form with no empty field; the email input also has type "email",
      and `emailAccepted` is the browser's verdict on its format. */
  predicate CanSubmit(form: ContactForm, emailAccepted: bool) {
    form.name != "" && form.email != "" && form.subject != "" && form.message != "" && emailAccepted
  }

  /** The page's state: the search box and the contact form. */
  class SupportPage {
    var searchQuery: string
    var contactForm: ContactForm

    constructor ()
      ensures searchQuery == "" && contactForm == EmptyForm
    {
      searchQuery := "";
      contactForm := EmptyForm;
    }

    /** Typing in the search box. */
    method Search(query: string)
      modifies this`searchQuery
      ensures searchQuery == query
    {
      searchQuery := query;
    }

    /** Typing in one input of the form (`{...contactForm, field: value}`). */
    method EditField(field: FormField, value: string)
      modifies this`contactForm
      ensures FieldValue(contactForm, field) == value
      ensures forall other :: other != field ==> FieldValue(contactForm, other) == FieldValue(old(contactForm), other)
    {
      match field
      case Name => contactForm := contactForm.(name := value);
      case Email => contactForm := contactForm.(email := value);
      case Subject => contactForm := contactForm.(subject := value);
      case Message => contactForm := contactForm.(message := value);
    }

    /** Send Message: the browser blocks a form it does not accept, and
        `handleContactSubmit` never runs; a submitted form is handed over
        (returned) and every field is cleared. */
    method SubmitContact(emailAccepted: bool) returns (sent: Option<ContactForm>)
      modifies this`contactForm
      ensures CanSubmit(old(contactForm), emailAccepted) ==> sent == Some(old(contactForm)) && contactForm == EmptyForm
      ensures !CanSubmit(old(contactForm), emailAccepted) ==> sent == None && contactForm == old(contactForm)
      ensures sent.Some? ==> forall field :: FieldValue(contactForm, field) == ""
    {
      if !CanSubmit(contactForm, emailAccepted) {
        return None;
      }
      sent := Some(contactForm);
      contactForm := EmptyForm;
    }
  }
}
