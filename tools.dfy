/** Tool authorisation against the integration platform (Composio): the allowlist
    of supported toolkits, the per-user lookup by slug and the toolkit overview.
    The platform's answers are parameters. */
module Tools {
  import opened Wrappers
  import opened Text
  import opened Records

  /** The keys of the allowlist, in declaration order. */
  const SupportedToolkits: seq<string> := ["GMAIL", "GOOGLECALENDAR", "GITHUB", "NOTION"]

  /** The value the allowlist gives each key (one environment variable per toolkit). */
  datatype AuthConfigIds = AuthConfigIds(gmail: string, googleCalendar: string, github: string, notion: string)

  /** `SUPPORTED_TOOLKITS_WITH_AUTH_CONFIG_ID[key]`. */
  function AuthConfigId(ids: AuthConfigIds, key: string): (r: Option<string>)
    ensures r.Some? <==> key in SupportedToolkits
  {
    if key == "GMAIL" then Some(ids.gmail)
    else if key == "GOOGLECALENDAR" then Some(ids.googleCalendar)
    else if key == "GITHUB" then Some(ids.github)
    else if key == "NOTION" then Some(ids.notion)
    else None
  }

  /** An opaque tool object handed to the execution engine. */
  type ToolHandle = string

  /** A connected account: the toolkit it belongs to and its connection status. */
  datatype ConnectedAccount = ConnectedAccount(toolkitSlug: string, status: string)

  /** Toolkit metadata. */
  datatype Toolkit = Toolkit(slug: string, name: string, description: Option<string>, logo: Option<string>)

  /** The platform's answers: the user's connected accounts (optionally restricted to
      some toolkit slugs), the metadata of a toolkit, and the tools of one toolkit
      for a user (`None` for a null answer). */
  datatype Composio = Composio(
    listAccounts: (UserId, Option<seq<string>>) -> seq<ConnectedAccount>,
    getToolkit: string -> Toolkit,
    getTools: (UserId, string) -> Option<seq<ToolHandle>>)

  /** One entry of a tool listing. */
  datatype ToolkitEntry = ToolkitEntry(
    authConfigId: Option<string>,
    name: string,
    slug: string,
    description: Option<string>,
    logo: Option<string>,
    status: string)

  predicate IsSupported(slug: string) {
    Upper(slug) in SupportedToolkits
  }

  /** The slugs whose upper-case form is an allowlist key, in the given order. */
  function SupportedSlugs(slugs: seq<string>): seq<string> {
    if slugs == [] then []
    else (if IsSupported(slugs[0]) then [slugs[0]] else []) + SupportedSlugs(slugs[1..])
  }

  /** The filter keeps exactly the allowlisted slugs, with their order and repetitions. */
  lemma {:induction false} SupportedSlugsSpec(a: seq<string>, b: seq<string>)
    ensures SupportedSlugs(a + b) == SupportedSlugs(a) + SupportedSlugs(b)
    ensures forall s :: s in SupportedSlugs(a) <==> s in a && IsSupported(s)
  {
    if a == [] {
      assert a + b == b;
    } else {
      assert (a + b)[1..] == a[1..] + b;
      SupportedSlugsSpec(a[1..], b);
    }
  }

  /** The entry built for one connected account, from its toolkit's metadata. */
  function EntryFor(ids: AuthConfigIds, composio: Composio, account: ConnectedAccount): ToolkitEntry {
    var toolkit := composio.getToolkit(account.toolkitSlug);
    ToolkitEntry(
      AuthConfigId(ids, Upper(toolkit.slug)),
      toolkit.name, toolkit.slug, toolkit.description, toolkit.logo,
      Lower(account.status))
  }

  function EntriesFor(ids: AuthConfigIds, composio: Composio, accounts: seq<ConnectedAccount>): seq<ToolkitEntry> {
    seq(|accounts|, i requires 0 <= i < |accounts| => EntryFor(ids, composio, accounts[i]))
  }

  /** `getToolsBySlugsForUserWithId`: nothing for no slugs; otherwise one entry per
      account the platform lists for the allowlisted slugs. */
  function ToolsBySlugsForUser(ids: AuthConfigIds, composio: Composio, userId: UserId, slugs: seq<string>): seq<ToolkitEntry> {
    if |slugs| == 0 then []
    else EntriesFor(ids, composio, composio.listAccounts(userId, Some(SupportedSlugs(slugs))))
  }

  /** No slugs, no entries, whatever the platform would answer; otherwise the
      entries follow the accounts listed for exactly the allowlisted slugs, with the
      status lower-cased and the auth config looked up by the upper-cased toolkit slug. */
  lemma ToolsBySlugsForUserSpec(ids: AuthConfigIds, composio: Composio, userId: UserId, slugs: seq<string>)
    ensures slugs == [] ==> ToolsBySlugsForUser(ids, composio, userId, slugs) == []
    ensures slugs != [] ==>
      var accounts := composio.listAccounts(userId, Some(SupportedSlugs(slugs)));
      var r := ToolsBySlugsForUser(ids, composio, userId, slugs);
      && |r| == |accounts|
      && forall i :: 0 <= i < |r| ==>
           var toolkit := composio.getToolkit(accounts[i].toolkitSlug);
           && r[i].slug == toolkit.slug
           && r[i].status == Lower(accounts[i].status)
           && r[i].authConfigId == AuthConfigId(ids, Upper(toolkit.slug))
  {
  }

  /** The account the last write for `key` leaves in the toolkit map: the last
      account whose upper-cased toolkit slug is `key`. */
  function LatestAccount(accounts: seq<ConnectedAccount>, key: string): Option<ConnectedAccount> {
    if accounts == [] then None
    else if Matches(accounts[|accounts| - 1], key) then Some(accounts[|accounts| - 1])
    else LatestAccount(accounts[..|accounts| - 1], key)
  }

  predicate Matches(account: ConnectedAccount, key: string) {
    Upper(account.toolkitSlug) == key
  }

  /** A later account for the same toolkit replaces an earlier one; the latest account
      is one of the listed accounts and matches the key, and it is missing exactly
      when no listed account matches. */
  lemma {:induction false} LatestAccountSpec(accounts: seq<ConnectedAccount>, later: ConnectedAccount, key: string)
    ensures LatestAccount(accounts + [later], key) ==
      if Matches(later, key) then Some(later) else LatestAccount(accounts, key)
    ensures LatestAccount(accounts, key).Some? ==>
      LatestAccount(accounts, key).value in accounts && Matches(LatestAccount(accounts, key).value, key)
    ensures LatestAccount(accounts, key).None? <==> forall j :: 0 <= j < |accounts| ==> !Matches(accounts[j], key)
  {
    assert (accounts + [later])[..|accounts|] == accounts;
    if accounts != [] {
      var n := |accounts| - 1;
      LatestAccountSpec(accounts[..n], accounts[n], key);
      assert accounts[..n] + [accounts[n]] == accounts;
      if LatestAccount(accounts[..n], key).Some? {
        assert LatestAccount(accounts[..n], key).value in accounts[..n];
      }
      if !Matches(accounts[n], key) && LatestAccount(accounts[..n], key).None? {
        forall j | 0 <= j < |accounts| ensures !Matches(accounts[j], key) {
          if j < n { assert accounts[j] == accounts[..n][j]; }
        }
      }
    }
  }

  /** The status `getAll` shows for an allowlist key. */
  function StatusFor(accounts: seq<ConnectedAccount>, key: string): string {
    match LatestAccount(accounts, key)
    case Some(account) => Lower(account.status)
    case None => "inactive"
  }

  /** `getAll`: one entry per allowlisted toolkit, in allowlist order, whose status
      comes from the user's connected account for that toolkit (the last one listed
      when several match, compared case-insensitively) or is "inactive". */
  method GetAll(ids: AuthConfigIds, composio: Composio, userId: UserId) returns (entries: seq<ToolkitEntry>)
    ensures |entries| == |SupportedToolkits|
    ensures forall i :: 0 <= i < |entries| ==>
      var key := SupportedToolkits[i];
      var toolkit := composio.getToolkit(key);
      entries[i] == ToolkitEntry(AuthConfigId(ids, key), toolkit.name, toolkit.slug,
        toolkit.description, toolkit.logo, StatusFor(composio.listAccounts(userId, None), key))
  {
    var accounts := composio.listAccounts(userId, None);
    var connected: map<string, ConnectedAccount> := map[];
    var i := 0;
    while i < |accounts|
      invariant 0 <= i <= |accounts|
      invariant forall key :: key in connected <==> LatestAccount(accounts[..i], key).Some?
      invariant forall key :: key in connected ==> LatestAccount(accounts[..i], key) == Some(connected[key])
    {
      assert accounts[..i + 1][..i] == accounts[..i];
      connected := connected[Upper(accounts[i].toolkitSlug) := accounts[i]];
      i := i + 1;
    }
    assert accounts[..i] == accounts;
    entries := [];
    var k := 0;
    while k < |SupportedToolkits|
      invariant 0 <= k <= |SupportedToolkits| && |entries| == k
      invariant forall j :: 0 <= j < k ==>
        var key := SupportedToolkits[j];
        var toolkit := composio.getToolkit(key);
        entries[j] == ToolkitEntry(AuthConfigId(ids, key), toolkit.name, toolkit.slug,
          toolkit.description, toolkit.logo, StatusFor(accounts, key))
    {
      var key := SupportedToolkits[k];
      var toolkit := composio.getToolkit(key);
      var status := if key in connected then Lower(connected[key].status) else "inactive";
      entries := entries + [ToolkitEntry(AuthConfigId(ids, key), toolkit.name, toolkit.slug,
        toolkit.description, toolkit.logo, status)];
      k := k + 1;
    }
  }
}
