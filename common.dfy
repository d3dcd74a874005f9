/** Values shared by the API routes and the client components. */
module Common {

  datatype Option<+T> = None | Some(value: T)

  /** An optional string as JavaScript's `!x` sees it: absent and "" are falsy. */
  predicate Truthy(s: Option<string>)
  {
    s.Some? && s.value != ""
  }

  /** JavaScript's `s || fallback` on an optional string. */
  function OrElse(s: Option<string>, fallback: string): string
  {
    if Truthy(s) then s.value else fallback
  }

  /** The authenticated caller of an API route. */
  datatype User = User(id: string, email: Option<string>)

  /**
   * What `supabase.auth.getUser()` yields to a route: `None` stands for
   * both an auth error and a missing user, which every route treats alike.
   */
  type Auth = Option<User>

  /** An HTTP response of a route: status code and JSON body. */
  datatype Response<B> = Response(status: nat, body: B)

  /** The process environment read by the core. */
  datatype Env = Env(
    nodeEnv: Option<string>,          // NODE_ENV
    creemMockMode: Option<string>,    // CREEM_MOCK_MODE
    siteUrl: Option<string>,          // NEXT_PUBLIC_SITE_URL
    webhookSecret: Option<string>,    // CREEM_WEBHOOK_SECRET
    openRouterKey: Option<string>)    // OPENROUTER_API_KEY

  const LocalSiteUrl: string := "http://localhost:3000"

  /** `process.env.NEXT_PUBLIC_SITE_URL || 'http://localhost:3000'` */
  function SiteUrl(env: Env): (url: string)
    ensures Truthy(env.siteUrl) ==> url == env.siteUrl.value
    ensures !Truthy(env.siteUrl) ==> url == LocalSiteUrl
    ensures url != ""
  {
    OrElse(env.siteUrl, LocalSiteUrl)
  }

  /** `s.includes(needle)`, by scanning the start positions left to right. */
  predicate Includes(s: string, needle: string)
    decreases |s|
  {
    if needle <= s then true
    else if |s| <= |needle| then false
    else Includes(s[1..], needle)
  }

  /** `needle` occurs in `s` at position `i`. */
  predicate OccursAt(s: string, needle: string, i: nat)
  {
    i + |needle| <= |s| && s[i..i + |needle|] == needle
  }

  /** The scan agrees with the definition of a substring occurrence. */
  lemma {:induction false} IncludesIffOccurs(s: string, needle: string)
    ensures Includes(s, needle) <==> exists i: nat :: OccursAt(s, needle, i)
    decreases |s|
  {
    if needle <= s {
      assert OccursAt(s, needle, 0);
    } else if |s| > |needle| {
      IncludesIffOccurs(s[1..], needle);
      if Includes(s[1..], needle) {
        var i: nat :| OccursAt(s[1..], needle, i);
        assert s[1..][i..i + |needle|] == s[i + 1..i + 1 + |needle|];
        assert OccursAt(s, needle, i + 1);
      } else {
        forall i: nat | 0 < i ensures !OccursAt(s, needle, i) {
          var j: nat := i - 1;
          assert !OccursAt(s[1..], needle, j);
          if i + |needle| <= |s| {
            assert s[1..][j..j + |needle|] == s[i..i + |needle|];
          }
        }
      }
    }
  }
}
