/** The request each data hook sends (src/hooks/api-hooks.ts), read as a
    selection over an in-memory copy of the table: which rows pass the
    filters, in which order, how many. `.single()` is the client's
    one-row convention. */
module Queries {
  import opened Wrappers
  import opened Supabase
  import opened Types
  import opened Rows

  /** PostgREST's code for "a single row was requested, but zero or several
      rows matched". */
  const NotFoundCode: string := "PGRST116"
  const NotFoundMessage: string := "JSON object requested, multiple (or no) rows returned"

  /** `.single()`: exactly one row, or the not-found error. */
  function Single<T>(rows: seq<T>): (r: Response<T>)
    ensures r.Data? <==> |rows| == 1
    ensures r.Data? ==> r.value == rows[0]
    ensures r.Failed? ==> r.error.code == NotFoundCode
  {
    if |rows| == 1 then Data(rows[0]) else Failed(BackendError(NotFoundMessage, NotFoundCode))
  }

  // ---------------------------------------------------------------------
  // Filters and sort keys of the requests
  // ---------------------------------------------------------------------

  predicate IsActiveCategory(c: ProgramCategory) { c.isActive }
  function CategoryOrder(c: ProgramCategory): Key { NumberKey(c.displayOrder) }

  function ProgramOrder(p: Program): Key { NumberKey(p.displayOrder) }
  predicate IsFeaturedProgram(p: Program) { p.isFeatured && p.isPublic }

  /** `.eq('is_public', true)`, plus `.eq('category_id', id)` when `categoryId`
      is truthy. */
  predicate InCategory(p: Program, categoryId: Option<string>) {
    p.isPublic && (categoryId.None? || categoryId.value == "" || p.categoryId == categoryId.value)
  }
  function CategoryFilter(categoryId: Option<string>): Program -> bool {
    p => InCategory(p, categoryId)
  }

  function ProgramWithSlug(slug: string): Program -> bool {
    (p: Program) => p.slug == slug && p.isPublic
  }

  predicate IsCurrentTrustee(t: Trustee) { t.isPublic && t.isActive }
  function TrusteeOrder(t: Trustee): Key { NumberKey(t.displayOrder) }

  predicate IsPublishedReport(f: FinancialReport) { f.isPublished }
  function FiscalYearKey(f: FinancialReport): Key { TextKey(f.fiscalYear) }

  predicate IsShownTestimonial(t: Testimonial) { t.isApproved && t.isPublic }
  function TestimonialOrder(t: Testimonial): Key { NumberKey(t.displayOrder) }

  /** `.eq('is_published', true).lte('published_date', now)`; a missing date
      never passes the range filter. */
  predicate IsVisiblePost(b: BlogPost, now: string) {
    b.isPublished && b.publishedDate.Some? && KeyLe(TextKey(b.publishedDate.value), TextKey(now))
  }
  function VisibleAt(now: string): BlogPost -> bool {
    b => IsVisiblePost(b, now)
  }
  function PublishedDateKey(b: BlogPost): Key { TextKey(b.publishedDate.GetOr("")) }

  function PostWithSlug(slug: string): BlogPost -> bool {
    (b: BlogPost) => b.slug == slug && b.isPublished
  }

  predicate IsPublicSetting(s: SiteSetting) { s.isPublic }

  // ---------------------------------------------------------------------
  // One selection per hook
  // ---------------------------------------------------------------------

  /** `useProgramCategories`: the active categories by display order. */
  function ProgramCategoriesQuery(table: seq<ProgramCategory>): (r: seq<ProgramCategory>)
    ensures Selects(r, table, IsActiveCategory)
    ensures SortedBy(r, CategoryOrder, false)
  {
    SortBy(Keep(table, IsActiveCategory), CategoryOrder, false)
  }

  /** `usePrograms(categoryId)`: public programs, of one category when a
      category id is given, by display order. */
  function ProgramsQuery(table: seq<Program>, categoryId: Option<string>): (r: seq<Program>)
    ensures Selects(r, table, CategoryFilter(categoryId))
    ensures SortedBy(r, ProgramOrder, false)
  {
    SortBy(Keep(table, CategoryFilter(categoryId)), ProgramOrder, false)
  }

  /** `useProgram(slug)`: the one public program with that slug. */
  function ProgramQuery(table: seq<Program>, slug: string): (r: Response<Program>)
    ensures r.Data? ==> r.value in table && r.value.slug == slug && r.value.isPublic
    ensures r.Failed? ==> r.error.code == NotFoundCode
    ensures (forall p :: p in table ==> !(p.slug == slug && p.isPublic)) ==> r.Failed?
    ensures r.Data? <==> exists p :: (multiset(table)[p] == 1 && p.slug == slug && p.isPublic &&
                            forall q :: q in table && q.slug == slug && q.isPublic ==> q == p)
  {
    var matching := Keep(table, ProgramWithSlug(slug));
    SelectsMembership(matching, table, ProgramWithSlug(slug));
    SelectsSingleton(matching, table, ProgramWithSlug(slug));
    assert matching != [] ==> matching[0] in matching;
    Single(matching)
  }

  /** `useFeaturedPrograms`: at most three featured public programs, the
      first ones by display order. */
  function FeaturedProgramsQuery(table: seq<Program>): (r: seq<Program>)
    ensures |r| == Min(3, |Keep(table, IsFeaturedProgram)|)
    ensures forall p :: p in r ==> p in table && p.isFeatured && p.isPublic
    ensures multiset(r) <= multiset(table)
    ensures SortedBy(r, ProgramOrder, false)
    ensures forall p, q :: p in r && q in table && IsFeaturedProgram(q) && multiset(r)[q] < multiset(table)[q] ==>
      KeyLe(ProgramOrder(p), ProgramOrder(q))
  {
    FeaturedLeading(table);
    Limit(SortBy(Keep(table, IsFeaturedProgram), ProgramOrder, false), 3)
  }

  lemma FeaturedLeading(table: seq<Program>)
    ensures var r := Limit(SortBy(Keep(table, IsFeaturedProgram), ProgramOrder, false), 3);
      && (forall p :: p in r ==> p in table && p.isFeatured && p.isPublic)
      && multiset(r) <= multiset(table)
      && SortedBy(r, ProgramOrder, false)
      && forall p, q :: p in r && q in table && IsFeaturedProgram(q) && multiset(r)[q] < multiset(table)[q] ==>
           KeyLe(ProgramOrder(p), ProgramOrder(q))
  {
    var featured := Keep(table, IsFeaturedProgram);
    var ordered := SortBy(featured, ProgramOrder, false);
    var r := Limit(ordered, 3);
    LimitKeepsLeading(ordered, 3, ProgramOrder, false);
    SelectsMembership(featured, table, IsFeaturedProgram);
    SelectsSubMultiset(featured, table, IsFeaturedProgram);
    forall p | p in r ensures p in table && p.isFeatured && p.isPublic {
      assert p in multiset(r);
      assert p in multiset(ordered);
      assert p in featured;
    }
    forall p, q | p in r && q in table && IsFeaturedProgram(q) && multiset(r)[q] < multiset(table)[q]
      ensures KeyLe(ProgramOrder(p), ProgramOrder(q))
    {
      assert multiset(ordered)[q] == multiset(featured)[q] == multiset(table)[q];
      assert InOrder(ProgramOrder(p), ProgramOrder(q), false);
    }
  }

  /** `useTrustees`: public, active trustees by display order. */
  function TrusteesQuery(table: seq<Trustee>): (r: seq<Trustee>)
    ensures Selects(r, table, IsCurrentTrustee)
    ensures SortedBy(r, TrusteeOrder, false)
  {
    SortBy(Keep(table, IsCurrentTrustee), TrusteeOrder, false)
  }

  /** `useFinancialReports`: published reports, latest fiscal year first. */
  function FinancialReportsQuery(table: seq<FinancialReport>): (r: seq<FinancialReport>)
    ensures Selects(r, table, IsPublishedReport)
    ensures SortedBy(r, FiscalYearKey, true)
  {
    SortBy(Keep(table, IsPublishedReport), FiscalYearKey, true)
  }

  /** `useLatestFinancialReport`: one published report whose fiscal year no
      other published report exceeds, or not-found when none is published. */
  function LatestFinancialReportQuery(table: seq<FinancialReport>): (r: Response<FinancialReport>)
    ensures r.Failed? <==> forall f :: f in table ==> !f.isPublished
    ensures r.Failed? ==> r.error.code == NotFoundCode
    ensures r.Data? ==> r.value in table && r.value.isPublished
    ensures r.Data? ==> forall f :: f in table && f.isPublished ==> KeyLe(FiscalYearKey(f), FiscalYearKey(r.value))
  {
    var ordered := FinancialReportsQuery(table);
    SelectsMembership(ordered, table, IsPublishedReport);
    HeadLeads(ordered, FiscalYearKey, true);
    Single(Limit(ordered, 1))
  }

  /** `useTestimonials`: approved, public testimonials by display order. */
  function TestimonialsQuery(table: seq<Testimonial>): (r: seq<Testimonial>)
    ensures Selects(r, table, IsShownTestimonial)
    ensures SortedBy(r, TestimonialOrder, false)
  {
    SortBy(Keep(table, IsShownTestimonial), TestimonialOrder, false)
  }

  /** `useBlogPosts`: published posts dated no later than `now`, newest first. */
  function BlogPostsQuery(table: seq<BlogPost>, now: string): (r: seq<BlogPost>)
    ensures Selects(r, table, VisibleAt(now))
    ensures SortedBy(r, PublishedDateKey, true)
  {
    SortBy(Keep(table, VisibleAt(now)), PublishedDateKey, true)
  }

  /** `useBlogPost(slug)`: the one published post with that slug. */
  function BlogPostQuery(table: seq<BlogPost>, slug: string): (r: Response<BlogPost>)
    ensures r.Data? ==> r.value in table && r.value.slug == slug && r.value.isPublished
    ensures r.Failed? ==> r.error.code == NotFoundCode
    ensures (forall b :: b in table ==> !(b.slug == slug && b.isPublished)) ==> r.Failed?
    ensures r.Data? <==> exists b :: (multiset(table)[b] == 1 && b.slug == slug && b.isPublished &&
                            forall c :: c in table && c.slug == slug && c.isPublished ==> c == b)
  {
    var matching := Keep(table, PostWithSlug(slug));
    SelectsMembership(matching, table, PostWithSlug(slug));
    SelectsSingleton(matching, table, PostWithSlug(slug));
    assert matching != [] ==> matching[0] in matching;
    Single(matching)
  }

  /** `useSiteSettings`: the public settings. The request names no order,
      so the table's own order is kept. */
  function SiteSettingsQuery(table: seq<SiteSetting>): (r: seq<SiteSetting>)
    ensures Selects(r, table, IsPublicSetting)
  {
    Keep(table, IsPublicSetting)
  }

  /** `useUnsubscribeNewsletter(email)`: every subscriber row with that email
      is marked unsubscribed as of `now`; other rows are untouched. */
  function UnsubscribeUpdate(table: seq<NewsletterSubscriber>, email: string, now: string): (r: seq<NewsletterSubscriber>)
    ensures |r| == |table|
    ensures forall i :: 0 <= i < |r| && table[i].email == email ==>
      !r[i].isSubscribed && r[i].unsubscriptionDate == Some(now) && r[i].id == table[i].id && r[i].email == email
    ensures forall i :: 0 <= i < |r| && table[i].email != email ==> r[i] == table[i]
  {
    seq(|table|, i requires 0 <= i < |table| =>
      if table[i].email == email then table[i].(isSubscribed := false, unsubscriptionDate := Some(now))
      else table[i])
  }

  /** Unsubscribing twice at the same instant is unsubscribing once. */
  lemma UnsubscribeIdempotent(table: seq<NewsletterSubscriber>, email: string, now: string)
    ensures UnsubscribeUpdate(UnsubscribeUpdate(table, email, now), email, now) == UnsubscribeUpdate(table, email, now)
  {
  }

  /** The end-to-end case: of an active category A and an inactive category
      B, only A is listed. */
  lemma OnlyActiveCategoriesListed(a: ProgramCategory, b: ProgramCategory)
    requires a.isActive && !b.isActive
    ensures ProgramCategoriesQuery([a, b]) == [a]
  {
    var r := ProgramCategoriesQuery([a, b]);
    assert multiset(r)[a] == 1 by {
      assert multiset([a, b])[a] == 1;
    }
    assert forall x :: x != a ==> multiset(r)[x] == 0 by {
      forall x | x != a ensures multiset(r)[x] == 0 {
        assert multiset([a, b])[x] == (if x == b then 1 else 0);
      }
    }
    assert multiset(r) == multiset{a};
    assert |r| == 1;
    assert r[0] in multiset(r);
  }
}
