/**
  The resources a ready session reads: the user's bank accounts, and the
  payments of one account, gathered page by page by following each page's
  `older_url` cursor until a page has none.
*/
module Resources {
  import opened Wrappers
  import opened JsonValues
  import opened Envelope
  import opened Records
  import opened Io
  import opened Handshake

  // ---------------------------------------------------------------------------
  // Paths
  // ---------------------------------------------------------------------------

  function Digit(d: nat): char
    requires d < 10
  {
    "0123456789"[d]
  }

  /** The decimal digits of `n`, most significant first, without leading zeros. */
  function NatToString(n: nat): (r: string)
    ensures |r| > 0
    ensures forall i :: 0 <= i < |r| ==> '0' <= r[i] <= '9'
    decreases n
  {
    if n < 10 then [Digit(n)] else NatToString(n / 10) + [Digit(n % 10)]
  }

  /** The value the decimal text denotes. */
  function DecimalValue(s: string): int
  {
    if s == [] then 0 else 10 * DecimalValue(s[..|s| - 1]) + (s[|s| - 1] as int - '0' as int)
  }

  /** Formatting a number and reading the digits back gives the number. */
  lemma {:induction false} NatToStringValue(n: nat)
    ensures DecimalValue(NatToString(n)) == n
    ensures NatToString(n)[0] != '0' || n == 0
    decreases n
  {
    var r := NatToString(n);
    if n < 10 {
      assert r == [Digit(n)];
      assert r[..0] == [];
    } else {
      NatToStringValue(n / 10);
      assert r[..|r| - 1] == NatToString(n / 10);
      assert r[0] == NatToString(n / 10)[0];
    }
  }

  /** How `{}` formats an `i64`: decimal, with a minus sign when negative. */
  function I64ToString(n: i64): string
  {
    if n < 0 then "-" + NatToString(-(n as int)) else NatToString(n as int)
  }

  function AccountsPath(userId: i64): string
  {
    "/v1/user/" + I64ToString(userId) + "/monetary-account"
  }

  /** Where the payments of an account start: the newest page. */
  function PaymentsPath(userId: i64, accountId: i64): string
  {
    "/v1/user/" + I64ToString(userId) + "/monetary-account/" + I64ToString(accountId) + "/payment"
  }

  /** Distinct ids format to distinct texts: the sign and the digits determine the id. */
  lemma I64ToStringInjective(a: i64, b: i64)
    ensures I64ToString(a) == I64ToString(b) <==> a == b
  {
    if a != b {
      NatToStringValue(if a < 0 then -(a as int) else a as int);
      NatToStringValue(if b < 0 then -(b as int) else b as int);
      if (a < 0) != (b < 0) {
        assert I64ToString(a)[0] != I64ToString(b)[0];
      } else if a < 0 {
        assert I64ToString(a)[1..] == NatToString(-(a as int));
        assert I64ToString(b)[1..] == NatToString(-(b as int));
      }
    }
  }

  /** The text of a path up to its first slash. */
  function UpToSlash(s: string): (r: string)
    ensures |r| <= |s|
  {
    if s == [] || s[0] == '/' then [] else [s[0]] + UpToSlash(s[1..])
  }

  /** A segment without slashes is recovered from the path it starts. */
  lemma {:induction false} UpToSlashSegment(segment: string, rest: string)
    requires forall i :: 0 <= i < |segment| ==> segment[i] != '/'
    requires |rest| > 0 && rest[0] == '/'
    ensures UpToSlash(segment + rest) == segment
  {
    if segment == [] {
      assert segment + rest == rest;
    } else {
      assert (segment + rest)[1..] == segment[1..] + rest;
      UpToSlashSegment(segment[1..], rest);
    }
  }

  lemma I64ToStringNoSlash(n: i64)
    ensures forall i :: 0 <= i < |I64ToString(n)| ==> I64ToString(n)[i] != '/'
  {
    if n < 0 {
      var d := NatToString(-(n as int));
      assert forall i :: 1 <= i < |I64ToString(n)| ==> I64ToString(n)[i] == d[i - 1];
    }
  }

  /** The accounts path names exactly one user. */
  lemma AccountsPathInjective(a: i64, b: i64)
    ensures AccountsPath(a) == AccountsPath(b) <==> a == b
  {
    I64ToStringInjective(a, b);
    AccountsPathUser(a);
    AccountsPathUser(b);
  }

  lemma AccountsPathUser(u: i64)
    ensures |AccountsPath(u)| >= 9 && UpToSlash(AccountsPath(u)[9..]) == I64ToString(u)
  {
    I64ToStringNoSlash(u);
    assert AccountsPath(u)[9..] == I64ToString(u) + "/monetary-account";
    UpToSlashSegment(I64ToString(u), "/monetary-account");
  }

  /** The payments path names exactly one user and one account. */
  lemma PaymentsPathInjective(u1: i64, a1: i64, u2: i64, a2: i64)
    ensures PaymentsPath(u1, a1) == PaymentsPath(u2, a2) <==> u1 == u2 && a1 == a2
  {
    I64ToStringInjective(u1, u2);
    I64ToStringInjective(a1, a2);
    PaymentsPathIds(u1, a1);
    PaymentsPathIds(u2, a2);
  }

  lemma PaymentsPathIds(u: i64, a: i64)
    ensures |PaymentsPath(u, a)| >= 27 + |I64ToString(u)|
    ensures UpToSlash(PaymentsPath(u, a)[9..]) == I64ToString(u)
    ensures UpToSlash(PaymentsPath(u, a)[27 + |I64ToString(u)|..]) == I64ToString(a)
  {
    var user := I64ToString(u);
    var account := I64ToString(a);
    I64ToStringNoSlash(u);
    I64ToStringNoSlash(a);
    DropPrefixes("/v1/user/", user, "/monetary-account/", account, "/payment");
    UpToSlashSegment(user, "/monetary-account/" + (account + "/payment"));
    UpToSlashSegment(account, "/payment");
  }

  lemma DropPrefixes(a: string, b: string, c: string, d: string, e: string)
    ensures ((((a + b) + c) + d) + e)[|a|..] == b + (c + (d + e))
    ensures ((((a + b) + c) + d) + e)[|a| + |b| + |c|..] == d + e
  {
  }


  /** A read: a GET of the path on the host, authenticated by the session token, unsigned. */
  function ReadRequest(session: Session, path: string): Request
  {
    Request(Get, BASE + path, Some(session.token), None, NoBody)
  }

  // ---------------------------------------------------------------------------
  // Accounts
  // ---------------------------------------------------------------------------

  /** Each account wrapper gives up its bank account, in order. */
  function UnwrapAccounts(ws: seq<MonetaryAccount>): (r: seq<MonetaryAccountBank>)
    ensures |r| == |ws|
    ensures forall i :: 0 <= i < |ws| ==> r[i] == ws[i].monetaryAccountBank
  {
    if ws == [] then [] else [ws[0].monetaryAccountBank] + UnwrapAccounts(ws[1..])
  }

  /**
    The accounts in a reply: one per element of the decoded array, in order,
    each the bank account its element decodes to.
  */
  function AccountsFrom(reply: Option<Reply>): (r: Result<seq<MonetaryAccountBank>>)
    ensures reply.None? ==> r == Err(Transport)
    ensures r.Ok? ==>
              reply.Some? && ParseRawResponse(reply.value.json).Ok? &&
              var raw := ParseRawResponse(reply.value.json).value;
              |r.value| == |raw.response| &&
              forall i :: 0 <= i < |raw.response| ==>
                DecodeMonetaryAccount(raw.response[i]) == Ok(MonetaryAccount(r.value[i]))
  {
    match reply
    case None => Err(Transport)
    case Some(rep) =>
      var accounts :- DeserializeNormal(rep.json, DecodeMonetaryAccount);
      Ok(UnwrapAccounts(accounts.response))
  }

  function AccountsRequest(session: Session): Request
  {
    ReadRequest(session, AccountsPath(session.userId))
  }

  /** Lists the user's bank accounts with one request. */
  method MonetaryAccounts(session: Session, env: Environment) returns (r: Result<seq<MonetaryAccountBank>>)
    modifies env
    ensures env.trace == old(env.trace) + [Sent(AccountsRequest(session))]
    ensures r == AccountsFrom(env.world.respond(AccountsRequest(session)))
  {
    var reply := env.Send(AccountsRequest(session));
    if reply.None? {
      return Err(Transport);
    }
    var accounts := DeserializeNormal(reply.value.json, DecodeMonetaryAccount);
    if accounts.Err? {
      return Err(accounts.error);
    }
    r := Ok(UnwrapAccounts(accounts.value.response));
  }

  // ---------------------------------------------------------------------------
  // Payments
  // ---------------------------------------------------------------------------

  /** Each payment wrapper gives up its payment, in order. */
  function UnwrapPayments(ws: seq<PaymentPayment>): (r: seq<Payment>)
    ensures |r| == |ws|
    ensures forall i :: 0 <= i < |ws| ==> r[i] == ws[i].payment
  {
    if ws == [] then [] else [ws[0].payment] + UnwrapPayments(ws[1..])
  }

  /** One page: its payments, in order, and its cursors. */
  datatype Page = Page(payments: seq<Payment>, pagination: Option<Pagination>)

  function PageFrom(reply: Option<Reply>): Result<Page>
  {
    match reply
    case None => Err(Transport)
    case Some(rep) =>
      var page :- DeserializeNormal(rep.json, DecodePaymentPayment);
      Ok(Page(UnwrapPayments(page.response), page.pagination))
  }

  /**
    A page holds one payment per element of the decoded array, in order, each
    the payment its element decodes to, and the array's cursors.
  */
  lemma PageFromDecodes(reply: Option<Reply>)
    ensures reply.None? ==> PageFrom(reply) == Err(Transport)
    ensures PageFrom(reply).Ok? ==>
              reply.Some? && ParseRawResponse(reply.value.json).Ok? &&
              var raw := ParseRawResponse(reply.value.json).value;
              PageFrom(reply).value.pagination == raw.pagination &&
              |PageFrom(reply).value.payments| == |raw.response| &&
              forall i :: 0 <= i < |raw.response| ==>
                DecodePaymentPayment(raw.response[i]) == Ok(PaymentPayment(PageFrom(reply).value.payments[i]))
  {
  }

  /** The only cursor followed: the older page, when the page names one. */
  function OlderUrl(pagination: Option<Pagination>): (r: Option<string>)
    ensures r.Some? <==> pagination.Some? && pagination.value.olderUrl.Some?
    ensures r.Some? ==> r == pagination.value.olderUrl
  {
    match pagination
    case None => None
    case Some(p) => p.olderUrl
  }

  function FetchPage(w: World, session: Session, path: string): Result<Page>
  {
    PageFrom(w.respond(ReadRequest(session, path)))
  }

  /** The pages a session can read: what the server answers to each path. */
  function Pages(w: World, session: Session): string -> Result<Page>
  {
    path => FetchPage(w, session, path)
  }

  /**
    The chain of pages from `path` ends, with an error or a page without an
    older cursor, within `k` requests.
  */
  ghost predicate ChainEnds(fetch: string -> Result<Page>, path: string, k: nat)
    decreases k
  {
    k > 0 &&
    match fetch(path)
    case Err(_) => true
    case Ok(page) => OlderUrl(page.pagination).None? || ChainEnds(fetch, OlderUrl(page.pagination).value, k - 1)
  }

  /** The payments of the chain from `path`: all pages' payments in page order, or the first error. */
  ghost function Collect(fetch: string -> Result<Page>, path: string, k: nat): Result<seq<Payment>>
    requires ChainEnds(fetch, path, k)
    decreases k
  {
    match fetch(path)
    case Err(e) => Err(e)
    case Ok(page) =>
      match OlderUrl(page.pagination)
      case None => Ok(page.payments)
      case Some(older) =>
        match Collect(fetch, older, k - 1)
        case Err(e) => Err(e)
        case Ok(rest) => Ok(page.payments + rest)
  }

  /** The paths requested along the chain from `path`, in order, the failing one included. */
  ghost function ChainPaths(fetch: string -> Result<Page>, path: string, k: nat): (r: seq<string>)
    requires ChainEnds(fetch, path, k)
    ensures 0 < |r| <= k && r[0] == path
    decreases k
  {
    match fetch(path)
    case Err(_) => [path]
    case Ok(page) =>
      match OlderUrl(page.pagination)
      case None => [path]
      case Some(older) => [path] + ChainPaths(fetch, older, k - 1)
  }

  /** One read request per path, in order. */
  function ReadEvents(session: Session, paths: seq<string>): (r: seq<Event>)
    ensures |r| == |paths|
    ensures forall i :: 0 <= i < |paths| ==> r[i] == Sent(ReadRequest(session, paths[i]))
  {
    if paths == [] then [] else [Sent(ReadRequest(session, paths[0]))] + ReadEvents(session, paths[1..])
  }

  /** Reads one page: a single authenticated GET of the path on the host. */
  method NextPage(session: Session, path: string, env: Environment) returns (page: Result<Page>)
    modifies env
    ensures env.trace == old(env.trace) + [Sent(ReadRequest(session, path))]
    ensures page == Pages(env.world, session)(path)
  {
    var reply := env.Send(ReadRequest(session, path));
    page := PageFrom(reply);
  }

  /** Puts `payments` before a successful result; an error stays the same error. */
  function Prepend(payments: seq<Payment>, r: Result<seq<Payment>>): Result<seq<Payment>>
  {
    match r
    case Err(e) => Err(e)
    case Ok(rest) => Ok(payments + rest)
  }

  /**
    Fetches every page of the account's payments, newest first, following
    `older_url` only, and returns them all, or the first error with nothing
    gathered so far. `k` bounds the number of pages; it is not part of the run.
  */
  method Payments(session: Session, account: MonetaryAccountBank, env: Environment, ghost k: nat)
    returns (r: Result<seq<Payment>>)
    requires ChainEnds(Pages(env.world, session), PaymentsPath(session.userId, account.id), k)
    modifies env
    ensures env.trace == old(env.trace) + ReadEvents(session, ChainPaths(Pages(env.world, session), PaymentsPath(session.userId, account.id), k))
    ensures r == Collect(Pages(env.world, session), PaymentsPath(session.userId, account.id), k)
  {
    ghost var fetch := Pages(env.world, session);
    ghost var first := PaymentsPath(session.userId, account.id);
    var path := PaymentsPath(session.userId, account.id);
    ghost var fuel := k;
    ghost var done: seq<string> := [];
    var all: seq<Payment> := [];
    PrependNothing(Collect(fetch, path, fuel));
    while true
      invariant ChainEnds(fetch, path, fuel)
      invariant ChainPaths(fetch, first, k) == done + ChainPaths(fetch, path, fuel)
      invariant Collect(fetch, first, k) == Prepend(all, Collect(fetch, path, fuel))
      invariant env.trace == old(env.trace) + ReadEvents(session, done)
      decreases fuel
    {
      var page := NextPage(session, path, env);
      ReadEventsAppend(old(env.trace), session, done, path);
      if page.Err? {
        LastPage(fetch, first, k, path, fuel, done, all);
        return Err(page.error);
      }
      ghost var before := all;
      all := all + page.value.payments;
      var older := OlderUrl(page.value.pagination);
      if older.None? {
        LastPage(fetch, first, k, path, fuel, done, before);
        break;
      }
      NextLink(fetch, first, k, path, fuel, done, before);
      done := done + [path];
      path := older.value;
      fuel := fuel - 1;
    }
    r := Ok(all);
  }

  /** The chain stops at `path`: it was the last request, and the result is settled. */
  lemma LastPage(fetch: string -> Result<Page>, first: string, k: nat, path: string, fuel: nat,
                 done: seq<string>, all: seq<Payment>)
    requires ChainEnds(fetch, first, k) && ChainEnds(fetch, path, fuel)
    requires ChainPaths(fetch, first, k) == done + ChainPaths(fetch, path, fuel)
    requires Collect(fetch, first, k) == Prepend(all, Collect(fetch, path, fuel))
    requires fetch(path).Err? || OlderUrl(fetch(path).value.pagination).None?
    ensures ChainPaths(fetch, first, k) == done + [path]
    ensures fetch(path).Err? ==> Collect(fetch, first, k) == Err(fetch(path).error)
    ensures fetch(path).Ok? ==>
              Collect(fetch, first, k) == Ok(all + fetch(path).value.payments)
  {
    ChainStep(fetch, path, fuel);
  }

  /** The chain goes on from `path` to its older page; the bookkeeping moves one page on. */
  lemma NextLink(fetch: string -> Result<Page>, first: string, k: nat, path: string, fuel: nat,
                 done: seq<string>, all: seq<Payment>)
    requires ChainEnds(fetch, first, k) && ChainEnds(fetch, path, fuel)
    requires ChainPaths(fetch, first, k) == done + ChainPaths(fetch, path, fuel)
    requires Collect(fetch, first, k) == Prepend(all, Collect(fetch, path, fuel))
    requires fetch(path).Ok? && OlderUrl(fetch(path).value.pagination).Some?
    ensures var older := OlderUrl(fetch(path).value.pagination).value;
            fuel > 0 && ChainEnds(fetch, older, fuel - 1) &&
            ChainPaths(fetch, first, k) == (done + [path]) + ChainPaths(fetch, older, fuel - 1) &&
            Collect(fetch, first, k) ==
              Prepend(all + fetch(path).value.payments, Collect(fetch, older, fuel - 1))
  {
    ChainStep(fetch, path, fuel);
    var older := OlderUrl(fetch(path).value.pagination).value;
    PrependTwice(all, fetch(path).value.payments, Collect(fetch, older, fuel - 1));
    assert done + ([path] + ChainPaths(fetch, older, fuel - 1)) ==
           (done + [path]) + ChainPaths(fetch, older, fuel - 1);
  }

  lemma PrependNothing(r: Result<seq<Payment>>)
    ensures Prepend([], r) == r
  {
    if r.Ok? {
      assert [] + r.value == r.value;
    }
  }

  lemma PrependTwice(a: seq<Payment>, b: seq<Payment>, r: Result<seq<Payment>>)
    ensures Prepend(a, Prepend(b, r)) == Prepend(a + b, r)
  {
    if r.Ok? {
      assert a + (b + r.value) == (a + b) + r.value;
    }
  }

  /** One step along the chain: what the first page contributes, and where the chain goes on. */
  lemma ChainStep(fetch: string -> Result<Page>, path: string, k: nat)
    requires ChainEnds(fetch, path, k)
    ensures fetch(path).Err? ==>
              Collect(fetch, path, k) == Err(fetch(path).error) &&
              ChainPaths(fetch, path, k) == [path]
    ensures fetch(path).Ok? && OlderUrl(fetch(path).value.pagination).None? ==>
              Collect(fetch, path, k) == Ok(fetch(path).value.payments) &&
              ChainPaths(fetch, path, k) == [path]
    ensures fetch(path).Ok? && OlderUrl(fetch(path).value.pagination).Some? ==>
              var older := OlderUrl(fetch(path).value.pagination).value;
              k > 0 && ChainEnds(fetch, older, k - 1) &&
              Collect(fetch, path, k) == Prepend(fetch(path).value.payments, Collect(fetch, older, k - 1)) &&
              ChainPaths(fetch, path, k) == [path] + ChainPaths(fetch, older, k - 1)
  {
  }

  /**
    The bound only has to be large enough: any two bounds within which the
    chain ends give the same requested paths and the same result.
  */
  lemma {:induction false} FuelIndependent(fetch: string -> Result<Page>, path: string, k1: nat, k2: nat)
    requires ChainEnds(fetch, path, k1) && ChainEnds(fetch, path, k2)
    ensures ChainPaths(fetch, path, k1) == ChainPaths(fetch, path, k2)
    ensures Collect(fetch, path, k1) == Collect(fetch, path, k2)
    decreases k1
  {
    match fetch(path)
    case Err(_) =>
    case Ok(page) =>
      match OlderUrl(page.pagination)
      case None =>
      case Some(older) =>
        FuelIndependent(fetch, older, k1 - 1, k2 - 1);
  }

  /** The trace grows by one read per page. */
  lemma ReadEventsAppend(trace: seq<Event>, session: Session, paths: seq<string>, path: string)
    ensures (trace + ReadEvents(session, paths)) + [Sent(ReadRequest(session, path))] ==
            trace + ReadEvents(session, paths + [path])
  {
    var a := ReadEvents(session, paths + [path]);
    var b := ReadEvents(session, paths) + [Sent(ReadRequest(session, path))];
    assert |a| == |b|;
    assert forall i :: 0 <= i < |a| ==> a[i] == b[i];
    assert a == b;
  }


  // ---------------------------------------------------------------------------
  // Properties of the pagination
  // ---------------------------------------------------------------------------

  /** All payments of the pages, page after page. */
  function AllPayments(pages: seq<Page>): (r: seq<Payment>)
  {
    if pages == [] then [] else pages[0].payments + AllPayments(pages[1..])
  }

  /**
    The pages at `paths` are linked newest to oldest: each names the next
    path as its older page, and `upTo` of them are fetched successfully.
  */
  ghost predicate Linked(fetch: string -> Result<Page>, paths: seq<string>, pages: seq<Page>, upTo: nat)
  {
    upTo <= |pages| && upTo <= |paths| &&
    (forall i :: 0 <= i < upTo ==> fetch(paths[i]) == Ok(pages[i])) &&
    (forall i :: 0 <= i < upTo && i + 1 < |paths| ==> OlderUrl(pages[i].pagination) == Some(paths[i + 1]))
  }

  /**
    A chain of n pages whose last page has no older cursor ends within n
    requests; it requests exactly those n paths, in order, and yields all their
    payments in page order.
  */
  lemma {:induction false} CompleteChain(fetch: string -> Result<Page>, paths: seq<string>, pages: seq<Page>)
    requires 0 < |paths| == |pages|
    requires Linked(fetch, paths, pages, |pages|)
    requires OlderUrl(pages[|pages| - 1].pagination).None?
    ensures ChainEnds(fetch, paths[0], |paths|)
    ensures ChainPaths(fetch, paths[0], |paths|) == paths
    ensures Collect(fetch, paths[0], |paths|) == Ok(AllPayments(pages))
  {
    assert fetch(paths[0]) == Ok(pages[0]);
    if |paths| > 1 {
      assert Linked(fetch, paths[1..], pages[1..], |pages| - 1) by {
        assert forall i :: 0 <= i < |pages| - 1 ==> paths[1..][i] == paths[i + 1] && pages[1..][i] == pages[i + 1];
      }
      CompleteChain(fetch, paths[1..], pages[1..]);
      assert OlderUrl(pages[0].pagination) == Some(paths[1]);
      assert [paths[0]] + paths[1..] == paths;
    } else {
      assert pages[1..] == [];
      assert AllPayments(pages) == pages[0].payments + [] == pages[0].payments;
    }
  }

  /**
    A chain whose pages `paths[0..n-1]` are fetched and linked, and whose
    page at `paths[n]` fails, fails with that page's error, after exactly the
    n + 1 requests: nothing gathered before is returned.
  */
  lemma {:induction false} FailingChain(fetch: string -> Result<Page>, paths: seq<string>, pages: seq<Page>, e: Error)
    requires |paths| == |pages| + 1
    requires Linked(fetch, paths, pages, |pages|)
    requires fetch(paths[|pages|]) == Err(e)
    ensures ChainEnds(fetch, paths[0], |paths|)
    ensures ChainPaths(fetch, paths[0], |paths|) == paths
    ensures Collect(fetch, paths[0], |paths|) == Err(e)
  {
    if |pages| > 0 {
      assert fetch(paths[0]) == Ok(pages[0]);
      assert Linked(fetch, paths[1..], pages[1..], |pages| - 1) by {
        assert forall i :: 0 <= i < |pages| - 1 ==> paths[1..][i] == paths[i + 1] && pages[1..][i] == pages[i + 1];
      }
      FailingChain(fetch, paths[1..], pages[1..], e);
      assert OlderUrl(pages[0].pagination) == Some(paths[1]);
      assert [paths[0]] + paths[1..] == paths;
    }
  }

  /**
    Only `older_url` is followed: every request after the first is for the
    older page named by the page before it, and the chain stops at the first
    page that fails or names no older page. The result is an error exactly
    when that last page failed, and then it is that page's error.
  */
  lemma {:induction false} ChainFollowsOlderUrl(fetch: string -> Result<Page>, path: string, k: nat)
    requires ChainEnds(fetch, path, k)
    ensures var ps := ChainPaths(fetch, path, k);
            forall i :: 0 <= i < |ps| - 1 ==>
              fetch(ps[i]).Ok? &&
              OlderUrl(fetch(ps[i]).value.pagination) == Some(ps[i + 1])
    ensures var ps := ChainPaths(fetch, path, k);
            var last := fetch(ps[|ps| - 1]);
            (last.Err? || OlderUrl(last.value.pagination).None?) &&
            (Collect(fetch, path, k).Err? <==> last.Err?) &&
            (last.Err? ==> Collect(fetch, path, k) == Err(last.error))
    decreases k
  {
    var ps := ChainPaths(fetch, path, k);
    match fetch(path)
    case Err(_) =>
    case Ok(page) =>
      match OlderUrl(page.pagination)
      case None =>
      case Some(older) =>
        ChainFollowsOlderUrl(fetch, older, k - 1);
        var rest := ChainPaths(fetch, older, k - 1);
        assert ps == [path] + rest;
        assert forall i :: 0 < i < |ps| - 1 ==> ps[i] == rest[i - 1] && ps[i + 1] == rest[i];
  }

  /**
    A page that names itself as its older page makes the loop request it
    forever: no bound is enough, so `Payments` cannot be called on it.
  */
  lemma {:induction false} SelfLinkNeverEnds(fetch: string -> Result<Page>, path: string, k: nat)
    requires fetch(path).Ok? && OlderUrl(fetch(path).value.pagination) == Some(path)
    ensures !ChainEnds(fetch, path, k)
    decreases k
  {
    if k > 0 {
      SelfLinkNeverEnds(fetch, path, k - 1);
    }
  }
}
