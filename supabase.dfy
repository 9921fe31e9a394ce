/** The database client binding (src/lib/supabase.ts): the configuration
    check made before the shared client is built, the shape of what the
    client reports back, and the normaliser that turns a backend error into
    the sentence shown to the visitor. */
module Supabase {
  import opened Wrappers

  /** An error as the database client reports it: free text and a code
      (a PostgreSQL SQLSTATE such as "23505", or a PostgREST code such as
      "PGRST116"). */
  datatype BackendError = BackendError(message: string, code: string)

  /** The `{ data, error }` pair of one request. The client fills exactly
      one of the two, so the pair is a sum here. */
  datatype Response<+T> = Data(value: T) | Failed(error: BackendError)

  // ---------------------------------------------------------------------
  // Configuration check
  // ---------------------------------------------------------------------

  const MissingEnvMessage: string :=
    "Missing Supabase environment variables. Please check your .env.local file."

  /** The options the shared client is built with. */
  datatype ClientOptions = ClientOptions(
    url: string,
    anonKey: string,
    persistSession: bool,
    autoRefreshToken: bool,
    schema: string,
    applicationName: string)

  /** `import.meta.env?.NAME || ''`: an absent variable reads as the empty string. */
  function EnvValue(v: Option<string>): (r: string)
    ensures r == "" <==> v.None? || v.value == ""
    ensures r != "" ==> r == v.value
  {
    v.GetOr("")
  }

  /** Module initialisation: throws before any client exists unless both the
      endpoint URL and the anonymous key are non-empty. */
  function CreateClient(urlEnv: Option<string>, keyEnv: Option<string>): (r: Outcome<ClientOptions>)
    ensures r.Returned? <==> urlEnv.Some? && urlEnv.value != "" && keyEnv.Some? && keyEnv.value != ""
    ensures r.Thrown? ==> r.message == MissingEnvMessage
    ensures r.Returned? ==> r.value.url == urlEnv.value && r.value.anonKey == keyEnv.value
    ensures r.Returned? ==> r.value.persistSession && r.value.autoRefreshToken
    ensures r.Returned? ==> r.value.schema == "public" && r.value.applicationName == "nazma-trust-web"
  {
    var url := EnvValue(urlEnv);
    var key := EnvValue(keyEnv);
    if url == "" || key == "" then
      Thrown(MissingEnvMessage)
    else
      Returned(ClientOptions(url, key, true, true, "public", "nazma-trust-web"))
  }

  // ---------------------------------------------------------------------
  // Substring search (`String.prototype.includes`, case-sensitive)
  // ---------------------------------------------------------------------

  /** `sub` occurs in `s` starting at index `i`. */
  ghost predicate OccursAt(s: string, sub: string, i: int) {
    0 <= i && i + |sub| <= |s| && s[i..i + |sub|] == sub
  }

  lemma OccursAtShift(s: string, sub: string, i: int)
    requires |s| > 0 && i >= 0
    ensures OccursAt(s[1..], sub, i) <==> OccursAt(s, sub, i + 1)
  {
    if 0 <= i && i + |sub| <= |s| - 1 {
      assert s[1..][i..i + |sub|] == s[i + 1..i + 1 + |sub|];
    }
  }

  /** When `sub` is not a prefix of `s`, it occurs in `s` exactly when it
      occurs in `s` without its first character. */
  lemma OccursInTail(s: string, sub: string)
    requires |sub| <= |s| && s[..|sub|] != sub
    ensures |s| > 0
    ensures (exists i :: OccursAt(s, sub, i)) <==> (exists i :: OccursAt(s[1..], sub, i))
  {
    if exists i :: OccursAt(s, sub, i) {
      var i :| OccursAt(s, sub, i);
      assert i != 0;
      OccursAtShift(s, sub, i - 1);
    }
    if exists i :: OccursAt(s[1..], sub, i) {
      var i :| OccursAt(s[1..], sub, i);
      OccursAtShift(s, sub, i);
    }
  }

  function Includes(s: string, sub: string): (r: bool)
    ensures r <==> exists i :: OccursAt(s, sub, i)
    decreases |s|
  {
    if |sub| > |s| then
      false
    else if s[..|sub|] == sub then
      assert OccursAt(s, sub, 0);
      true
    else
      OccursInTail(s, sub);
      Includes(s[1..], sub)
  }

  // ---------------------------------------------------------------------
  // Error normaliser (`handleSupabaseError`)
  // ---------------------------------------------------------------------

  const DuplicateEntryMessage: string := "This information is already in our system."
  const InvalidReferenceMessage: string := "Invalid reference. Please try again."
  const PermissionDeniedMessage: string := "You don't have permission to perform this action."
  const UnexpectedErrorMessage: string := "An unexpected error occurred. Please try again."

  /** `error?.message` is truthy: there is an error and its message is not empty. */
  predicate HasMessage(error: Option<BackendError>) {
    error.Some? && error.value.message != ""
  }

  /** Priority-ordered, case-sensitive classification of an error message. */
  function HandleSupabaseError(error: Option<BackendError>): (r: string)
    ensures r != ""
    ensures !HasMessage(error) ==> r == UnexpectedErrorMessage
    ensures HasMessage(error) ==>
      r in {DuplicateEntryMessage, InvalidReferenceMessage, PermissionDeniedMessage, error.value.message}
  {
    if HasMessage(error) then
      var message := error.value.message;
      if Includes(message, "violates") then DuplicateEntryMessage
      else if Includes(message, "foreign key") then InvalidReferenceMessage
      else if Includes(message, "permission") then PermissionDeniedMessage
      else message
    else
      UnexpectedErrorMessage
  }

  /** The normaliser's phrases in priority order, each with the reply it selects. */
  const NormalisationRules: seq<(string, string)> := [
    ("violates", DuplicateEntryMessage),
    ("foreign key", InvalidReferenceMessage),
    ("permission", PermissionDeniedMessage)
  ]

  /** The reply of the first rule whose phrase occurs in `message`, if any. */
  function FirstMatch(rules: seq<(string, string)>, message: string): (r: Option<string>)
    ensures r.None? <==> forall i :: 0 <= i < |rules| ==> !Includes(message, rules[i].0)
    ensures r.Some? ==>
      exists i :: 0 <= i < |rules| && Includes(message, rules[i].0) && r.value == rules[i].1 &&
        forall j :: 0 <= j < i ==> !Includes(message, rules[j].0)
  {
    if rules == [] then
      None
    else if Includes(message, rules[0].0) then
      Some(rules[0].1)
    else
      var r := FirstMatch(rules[1..], message);
      assert forall i :: 1 <= i < |rules| ==> rules[i] == rules[1..][i - 1];
      if r.Some? then
        var i :| 0 <= i < |rules[1..]| && Includes(message, rules[1..][i].0) && r.value == rules[1..][i].1 &&
          forall j :: 0 <= j < i ==> !Includes(message, rules[1..][j].0);
        assert Includes(message, rules[i + 1].0) && r.value == rules[i + 1].1;
        r
      else
        r
  }

  /** The if-chain of the normaliser is the first-match reading of its rule table. */
  lemma HandleSupabaseErrorFollowsRules(error: Option<BackendError>)
    ensures HandleSupabaseError(error) ==
      if HasMessage(error) then FirstMatch(NormalisationRules, error.value.message).GetOr(error.value.message)
      else UnexpectedErrorMessage
  {
    if HasMessage(error) {
      var m := error.value.message;
      var rules := NormalisationRules;
      var tail1 := [("foreign key", InvalidReferenceMessage), ("permission", PermissionDeniedMessage)];
      var tail2 := [("permission", PermissionDeniedMessage)];
      assert rules[1..] == tail1 && tail1[1..] == tail2 && tail2[1..] == [];
      if !Includes(m, "violates") {
        assert FirstMatch(rules, m) == FirstMatch(tail1, m);
        if !Includes(m, "foreign key") {
          assert FirstMatch(tail1, m) == FirstMatch(tail2, m);
          if !Includes(m, "permission") {
            assert FirstMatch(tail2, m) == FirstMatch([], m);
          }
        }
      }
    }
  }

  /** "violates" decides the reply whatever else the message contains. */
  lemma ViolatesWins(message: string, code: string)
    requires Includes(message, "violates")
    ensures HandleSupabaseError(Some(BackendError(message, code))) == DuplicateEntryMessage
  {
  }

  /** "foreign key" selects the invalid-reference reply only without "violates". */
  lemma ForeignKeyBelowViolates(message: string, code: string)
    requires Includes(message, "foreign key")
    ensures HandleSupabaseError(Some(BackendError(message, code))) ==
      if Includes(message, "violates") then DuplicateEntryMessage else InvalidReferenceMessage
  {
  }

  /** "permission" selects the permission reply only without either earlier phrase. */
  lemma PermissionLast(message: string, code: string)
    requires Includes(message, "permission")
    ensures HandleSupabaseError(Some(BackendError(message, code))) ==
      if Includes(message, "violates") then DuplicateEntryMessage
      else if Includes(message, "foreign key") then InvalidReferenceMessage
      else PermissionDeniedMessage
  {
  }

  /** A non-empty message with none of the three phrases is shown verbatim. */
  lemma UnknownMessagePassesThrough(message: string, code: string)
    requires message != ""
    requires !Includes(message, "violates") && !Includes(message, "foreign key") && !Includes(message, "permission")
    ensures HandleSupabaseError(Some(BackendError(message, code))) == message
  {
  }

  /** A foreign-key violation reported by PostgreSQL reads as a duplicate. */
  lemma ForeignKeyViolationReadsAsDuplicate(code: string)
    ensures HandleSupabaseError(Some(BackendError("violates foreign key constraint", code))) == DuplicateEntryMessage
  {
    assert OccursAt("violates foreign key constraint", "violates", 0);
  }

  /** A phrase whose first character never appears in `s` does not occur in `s`. */
  lemma FirstLetterAbsent(s: string, sub: string)
    requires |sub| > 0 && sub[0] !in s
    ensures !Includes(s, sub)
  {
    forall i ensures !OccursAt(s, sub, i) {
      if 0 <= i && i + |sub| <= |s| {
        assert s[i..i + |sub|][0] == s[i];
      }
    }
  }

  /** Matching is case-sensitive: capitalised phrases are not recognised. */
  lemma MatchingIsCaseSensitive(code: string)
    ensures HandleSupabaseError(Some(BackendError("Violates", code))) == "Violates"
    ensures HandleSupabaseError(Some(BackendError("Permission", code))) == "Permission"
  {
    FirstLetterAbsent("Violates", "violates");
    FirstLetterAbsent("Violates", "foreign key");
    FirstLetterAbsent("Violates", "permission");
    FirstLetterAbsent("Permission", "violates");
    FirstLetterAbsent("Permission", "foreign key");
    FirstLetterAbsent("Permission", "permission");
  }
}
