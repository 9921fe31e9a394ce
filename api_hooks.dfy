/** What the data hooks (src/hooks/api-hooks.ts) decide from the client's
    answer: throw the normalised message or hand the data back, the two
    special error codes, the site-settings fold, the read-then-increment of
    a blog post, and the `enabled` gates that keep a query from running. */
module ApiHooks {
  import opened Wrappers
  import opened Supabase
  import opened Types
  import Rows
  import opened Queries

  /** A query the cache layer runs only while its `enabled` flag holds. */
  datatype QueryRun<+T> = Disabled | Ran(outcome: Outcome<T>)

  /** The requests the site sends to the backend, in the order sent. */
  datatype Request =
    | ReadTable(table: string)
    | IncrementViewCount(postId: string)
    | DonationStatsCall(startDate: Option<string>, endDate: Option<string>)
    | ProgramImpactCall
    | SearchCall(searchTerm: string)

  /** The backend's record of the requests it has received. */
  class RequestLog {
    var requests: seq<Request>

    constructor ()
      ensures requests == []
    {
      requests := [];
    }
  }

  // ---------------------------------------------------------------------
  // Error propagation shared by every plain read, insert and update
  // ---------------------------------------------------------------------

  /** `if (error) throw new Error(handleSupabaseError(error)); return data;` */
  function Settle<T>(resp: Response<T>): (r: Outcome<T>)
    ensures r.Returned? <==> resp.Data?
    ensures resp.Data? ==> r.value == resp.value
    ensures resp.Failed? ==> r.message == HandleSupabaseError(Some(resp.error))
    ensures r.Thrown? ==> r.message != ""
  {
    match resp
    case Data(rows) => Returned(rows)
    case Failed(e) => Thrown(HandleSupabaseError(Some(e)))
  }

  // ---------------------------------------------------------------------
  // useLatestFinancialReport
  // ---------------------------------------------------------------------

  /** Not-found is an empty answer; any other error is thrown. */
  function LatestFinancialReport(resp: Response<FinancialReport>): (r: Outcome<Option<FinancialReport>>)
    ensures resp.Data? ==> r == Returned(Some(resp.value))
    ensures resp.Failed? && resp.error.code == NotFoundCode ==> r == Returned(None)
    ensures resp.Failed? && resp.error.code != NotFoundCode ==>
      r.Thrown? && r.message == HandleSupabaseError(Some(resp.error))
  {
    match resp
    case Data(report) => Returned(Some(report))
    case Failed(e) =>
      if e.code == NotFoundCode then Returned(None) else Thrown(HandleSupabaseError(Some(e)))
  }

  /** With no published report the hook answers "none", not an error; with
      one it answers a report of the latest fiscal year. */
  lemma LatestReportOfTable(table: seq<FinancialReport>)
    ensures var r := LatestFinancialReport(LatestFinancialReportQuery(table));
      && r.Returned?
      && (r.value.None? <==> forall f :: f in table ==> !f.isPublished)
      && (r.value.Some? ==> r.value.value in table && r.value.value.isPublished)
      && (r.value.Some? ==> forall f :: f in table && f.isPublished ==>
            Rows.KeyLe(FiscalYearKey(f), FiscalYearKey(r.value.value)))
  {
  }

  /** The single-program read has no such case: a slug nobody published
      makes `useProgram` throw. */
  lemma MissingProgramThrows(table: seq<Program>, slug: string)
    requires forall p :: p in table ==> !(p.slug == slug && p.isPublic)
    ensures Settle(ProgramQuery(table, slug)).Thrown?
  {
  }

  // ---------------------------------------------------------------------
  // useSubscribeNewsletter
  // ---------------------------------------------------------------------

  /** PostgreSQL's unique-violation code. */
  const UniqueViolationCode: string := "23505"
  const AlreadySubscribedMessage: string := "This email is already subscribed to our newsletter."

  function SubscribeNewsletter<T>(resp: Response<T>): (r: Outcome<T>)
    ensures r.Returned? <==> resp.Data?
    ensures resp.Data? ==> r.value == resp.value
    ensures resp.Failed? && resp.error.code == UniqueViolationCode ==> r == Thrown(AlreadySubscribedMessage)
    ensures resp.Failed? && resp.error.code != UniqueViolationCode ==> r == Settle(resp)
  {
    match resp
    case Data(row) => Returned(row)
    case Failed(e) =>
      if e.code == UniqueViolationCode then Thrown(AlreadySubscribedMessage)
      else Thrown(HandleSupabaseError(Some(e)))
  }

  /** A duplicate e-mail gets its own sentence whatever the backend wrote,
      where every other insert would have shown the generic duplicate one. */
  lemma DuplicateSubscriptionMessage<T>(message: string)
    requires Includes(message, "violates")
    ensures SubscribeNewsletter<T>(Failed(BackendError(message, UniqueViolationCode))) == Thrown(AlreadySubscribedMessage)
    ensures Settle<T>(Failed(BackendError(message, UniqueViolationCode))) == Thrown(DuplicateEntryMessage)
  {
  }

  // ---------------------------------------------------------------------
  // useSiteSettings
  // ---------------------------------------------------------------------

  /** `setting.setting_value || ''` */
  function SettingValue(s: SiteSetting): (r: string)
    ensures s.settingValue.Some? && s.settingValue.value != "" ==> r == s.settingValue.value
    ensures s.settingValue.None? || s.settingValue.value == "" ==> r == ""
  {
    s.settingValue.GetOr("")
  }

  /** The settings object after the rows have been written into it in order. */
  function SettingsMap(rows: seq<SiteSetting>): (m: map<string, string>)
    ensures m.Keys == set i | 0 <= i < |rows| :: rows[i].settingKey
  {
    if rows == [] then
      map[]
    else
      var init := rows[..|rows| - 1];
      var last := rows[|rows| - 1];
      var m := SettingsMap(init)[last.settingKey := SettingValue(last)];
      assert forall i :: 0 <= i < |init| ==> init[i] == rows[i];
      assert (set i | 0 <= i < |rows| :: rows[i].settingKey) ==
        (set i | 0 <= i < |init| :: init[i].settingKey) + {last.settingKey};
      m
  }

  /** A key takes the value of the last row that carries it. */
  lemma {:induction false} SettingsLastWins(rows: seq<SiteSetting>, i: nat)
    requires i < |rows|
    requires forall j :: i < j < |rows| ==> rows[j].settingKey != rows[i].settingKey
    ensures rows[i].settingKey in SettingsMap(rows)
    ensures SettingsMap(rows)[rows[i].settingKey] == SettingValue(rows[i])
    decreases |rows|
  {
    if i < |rows| - 1 {
      var init := rows[..|rows| - 1];
      SettingsLastWins(init, i);
    }
  }

  /** A row whose value is missing or empty, and that no later row
      overrides, is stored as the empty string. */
  lemma MissingSettingIsEmpty(rows: seq<SiteSetting>, i: nat)
    requires i < |rows|
    requires forall j :: i < j < |rows| ==> rows[j].settingKey != rows[i].settingKey
    requires rows[i].settingValue.None? || rows[i].settingValue == Some("")
    ensures SettingsMap(rows)[rows[i].settingKey] == ""
  {
    SettingsLastWins(rows, i);
  }

  /** The hook's `queryFn`: throw, or fold the rows into a key-value object. */
  method SiteSettings(resp: Response<seq<SiteSetting>>) returns (r: Outcome<map<string, string>>)
    ensures resp.Failed? ==> r == Thrown(HandleSupabaseError(Some(resp.error)))
    ensures resp.Data? ==> r == Returned(SettingsMap(resp.value))
  {
    if resp.Failed? {
      return Thrown(HandleSupabaseError(Some(resp.error)));
    }
    var data := resp.value;
    var settings: map<string, string> := map[];
    var i := 0;
    while i < |data|
      invariant 0 <= i <= |data|
      invariant settings == SettingsMap(data[..i])
    {
      assert data[..i + 1][..i] == data[..i];
      settings := settings[data[i].settingKey := SettingValue(data[i])];
      i := i + 1;
    }
    assert data[..|data|] == data;
    r := Returned(settings);
  }

  // ---------------------------------------------------------------------
  // The enabled gates and the hooks that send procedure calls
  // ---------------------------------------------------------------------

  /** `enabled: !!slug` */
  predicate SlugEnabled(slug: string) {
    slug != ""
  }

  /** `enabled: searchTerm.length > 2` */
  predicate SearchEnabled(searchTerm: string) {
    |searchTerm| > 2
  }

  /** `start_date: startDate || null` */
  function DateArgument(date: Option<string>): (r: Option<string>)
    ensures r.Some? <==> date.Some? && date.value != ""
    ensures r.Some? ==> r == date
  {
    if date.Some? && date.value != "" then date else None
  }

  /** `useProgram(slug)`: one read, only for a non-empty slug. */
  method FetchProgram(log: RequestLog, slug: string, read: Response<Program>) returns (run: QueryRun<Program>)
    modifies log
    ensures !SlugEnabled(slug) ==> run == Disabled && log.requests == old(log.requests)
    ensures SlugEnabled(slug) ==>
      run == Ran(Settle(read)) && log.requests == old(log.requests) + [ReadTable("programs")]
  {
    if !SlugEnabled(slug) {
      return Disabled;
    }
    log.requests := log.requests + [ReadTable("programs")];
    run := Ran(Settle(read));
  }

  /** `useBlogPost(slug)`: read the post; only when the read succeeded, ask
      the backend to count one more view of it. The answer to that request
      is awaited and then ignored. */
  method FetchBlogPost(log: RequestLog, slug: string, read: Response<BlogPost>, incrementReply: Response<()>)
    returns (run: QueryRun<BlogPost>)
    modifies log
    ensures !SlugEnabled(slug) ==> run == Disabled && log.requests == old(log.requests)
    ensures SlugEnabled(slug) && read.Failed? ==>
      run == Ran(Thrown(HandleSupabaseError(Some(read.error)))) &&
      log.requests == old(log.requests) + [ReadTable("blog_posts")]
    ensures SlugEnabled(slug) && read.Data? ==>
      run == Ran(Returned(read.value)) &&
      log.requests == old(log.requests) + [ReadTable("blog_posts"), IncrementViewCount(read.value.id)]
  {
    if !SlugEnabled(slug) {
      return Disabled;
    }
    log.requests := log.requests + [ReadTable("blog_posts")];
    if read.Failed? {
      return Ran(Thrown(HandleSupabaseError(Some(read.error))));
    }
    var post := read.value;
    log.requests := log.requests + [IncrementViewCount(post.id)];
    run := Ran(Returned(post));
  }

  /** `useSearchPrograms(term)`: the search procedure is called only for a
      term of three characters or more. */
  method SearchPrograms<T>(log: RequestLog, searchTerm: string, reply: Response<T>) returns (run: QueryRun<T>)
    modifies log
    ensures !SearchEnabled(searchTerm) ==> run == Disabled && log.requests == old(log.requests)
    ensures SearchEnabled(searchTerm) ==>
      run == Ran(Settle(reply)) && log.requests == old(log.requests) + [SearchCall(searchTerm)]
  {
    if !SearchEnabled(searchTerm) {
      return Disabled;
    }
    log.requests := log.requests + [SearchCall(searchTerm)];
    run := Ran(Settle(reply));
  }

  /** `useDonationStats(startDate, endDate)`: empty or missing dates are sent
      as null. */
  method FetchDonationStats<T>(log: RequestLog, startDate: Option<string>, endDate: Option<string>, reply: Response<T>)
    returns (r: Outcome<T>)
    modifies log
    ensures r == Settle(reply)
    ensures log.requests == old(log.requests) + [DonationStatsCall(DateArgument(startDate), DateArgument(endDate))]
  {
    log.requests := log.requests + [DonationStatsCall(DateArgument(startDate), DateArgument(endDate))];
    r := Settle(reply);
  }

  /** `useProgramImpact`: one call, no arguments. */
  method FetchProgramImpact<T>(log: RequestLog, reply: Response<T>) returns (r: Outcome<T>)
    modifies log
    ensures r == Settle(reply)
    ensures log.requests == old(log.requests) + [ProgramImpactCall]
  {
    log.requests := log.requests + [ProgramImpactCall];
    r := Settle(reply);
  }
}
