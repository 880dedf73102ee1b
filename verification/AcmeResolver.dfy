/**
 * The certificate resolver: which key a TLS client is shown. Validation connections of the
 * certificate authority name only the protocol `acme-tls/1` and are shown the key installed for their domain.
 */
module AcmeResolver {
  import opened Common
  import opened AcmeOrder

  type Key = nat      // keys are only handed on

  const ACME_TLS_ALPN_NAME := "acme-tls/1"

  datatype Hello = Hello(alpn: Option<seq<string>>, serverName: Option<Domain>)
  datatype Held = Held(cert: Option<Key>, authKeys: map<Domain, Key>)

  predicate IsChallenge(h: Hello) {
    h.alpn == Some([ACME_TLS_ALPN_NAME])
  }

  /** A client that offers any other protocol, or several, is not taken for a validation connection. */
  lemma OnlyTheOneProtocol(h: Hello)
    ensures IsChallenge(h) <==> h.alpn.Some? && |h.alpn.value| == 1 && h.alpn.value[0] == "acme-tls/1"
  {
    if h.alpn.Some? && |h.alpn.value| == 1 { assert h.alpn.value == [h.alpn.value[0]]; }
  }

  function Answer(r: Held, h: Hello): Option<Key> {
    if !IsChallenge(h) then r.cert
    else if h.serverName.Some? && h.serverName.value in r.authKeys then Some(r.authKeys[h.serverName.value])
    else None
  }

  class Resolver {
    var cert: Option<Key>
    var authKeys: map<Domain, Key>

    constructor ()
      ensures State() == Held(None, map[]) && forall h :: Answer(State(), h) == None
    {
      cert, authKeys := None, map[];
    }

    function State(): Held
      reads this
    {
      Held(cert, authKeys)
    }

    method SetCert(key: Key)
      modifies this`cert
      ensures forall h :: Answer(State(), h) == if IsChallenge(h) then Answer(old(State()), h) else Some(key)
    {
      cert := Some(key);
    }

    method SetAuthKey(domain: Domain, key: Key)
      modifies this`authKeys
      ensures State() == old(State()).(authKeys := old(authKeys)[domain := key])
      ensures forall h :: Answer(State(), h) ==
                          if IsChallenge(h) && h.serverName == Some(domain) then Some(key) else Answer(old(State()), h)
    {
      authKeys := authKeys[domain := key];
    }

    method Resolve(h: Hello) returns (key: Option<Key>)
      ensures key == Answer(State(), h)
    {
      var protocols := if h.alpn.Some? then h.alpn.value else [];
      if protocols == [ACME_TLS_ALPN_NAME] {
        match h.serverName
        case None => return None;
        case Some(domain) => return if domain in authKeys then Some(authKeys[domain]) else None;
      }
      return cert;
    }
  }

  // ---------------------------------------------------------------------
  // The resolver during an order
  // ---------------------------------------------------------------------

  /** The resolver after the actions of an order; `keys(i)` is the key the i-th action installs, if it installs one. */
  function Replay(r: Held, log: seq<Action>, keys: nat -> Key): Held {
    if log == [] then r
    else
      var n := |log| - 1;
      var before := Replay(r, log[..n], keys);
      if log[n].Installed? then before.(authKeys := before.authKeys[log[n].domain := keys(n)]) else before
  }

  predicate InstallsFor(a: Action, domain: Domain) {
    a.Installed? && a.domain == domain
  }

  /** The last key installed for the domain is the one of action `i`. */
  predicate LastInstall(log: seq<Action>, domain: Domain, i: nat) {
    i < |log| && InstallsFor(log[i], domain) && forall j :: i < j < |log| ==> !InstallsFor(log[j], domain)
  }

  lemma {:induction false} HoldsLastInstall(r: Held, log: seq<Action>, keys: nat -> Key, domain: Domain)
    returns (i: nat)
    requires domain in Keys(log)
    ensures LastInstall(log, domain, i)
    ensures domain in Replay(r, log, keys).authKeys && Replay(r, log, keys).authKeys[domain] == keys(i)
    decreases |log|
  {
    var n := |log| - 1;
    if InstallsFor(log[n], domain) {
      i := n;
    } else {
      var p :| 0 <= p < |log| && InstallsFor(log[p], domain);
      assert log[..n][p] == log[p];
      i := HoldsLastInstall(r, log[..n], keys, domain);
      assert forall j :: 0 <= j < n ==> log[..n][j] == log[j];
    }
  }

  /**
   * Whatever the server answers and however the authorizations interleave: when the server is told to validate a
   * domain, a validation connection for it is shown the key last installed for it.
   */
  lemma ChallengeAnswered(
      r: Held, replies: seq<OrderReply>, rounds: seq<Round>, certificate: bool, keys: nat -> Key, p: nat)
    requires p < |WholeOrder(replies, rounds, certificate).log|
    requires WholeOrder(replies, rounds, certificate).log[p].Posted?
    ensures var log := WholeOrder(replies, rounds, certificate).log;
            var hello := Hello(Some([ACME_TLS_ALPN_NAME]), Some(log[p].domain));
            exists i :: LastInstall(log[..p], log[p].domain, i) &&
                        Answer(Replay(r, log[..p], keys), hello) == Some(keys(i))
  {
    hide WholeOrder;
    KeyInstalledBeforeEveryPost(replies, rounds, certificate);
    var log := WholeOrder(replies, rounds, certificate).log;
    assert log[p].domain in Keys(log[..p]);
    var i := HoldsLastInstall(r, log[..p], keys, log[p].domain);
  }

  /** Other clients are shown the same certificate throughout. */
  lemma {:induction false} OthersUndisturbed(r: Held, log: seq<Action>, keys: nat -> Key, h: Hello)
    requires !IsChallenge(h)
    ensures Answer(Replay(r, log, keys), h) == Answer(r, h)
    decreases |log|
  {
    if log != [] { OthersUndisturbed(r, log[..|log| - 1], keys, h); }
  }

  // ---------------------------------------------------------------------
  // Whose key it is
  // ---------------------------------------------------------------------

  /** Which authorization installed the last key of each domain. */
  function Owner(last: map<Domain, nat>, a: Action): map<Domain, nat> {
    if a.Installed? then last[a.domain := a.auth] else last
  }

  function Owners(last: map<Domain, nat>, log: seq<Action>): map<Domain, nat>
    decreases log
  {
    if log == [] then last else Owners(Owner(last, log[0]), log[1..])
  }

  /** At each challenge post the key of the domain is that of the authorization that posts. */
  predicate OwnKeysFrom(last: map<Domain, nat>, log: seq<Action>)
    decreases log
  {
    log == [] ||
    ((log[0].Posted? ==> log[0].domain in last && last[log[0].domain] == log[0].auth) &&
     OwnKeysFrom(Owner(last, log[0]), log[1..]))
  }

  /** Whatever keys were installed before. */
  ghost predicate OwnKeys(log: seq<Action>) {
    forall last :: OwnKeysFrom(last, log)
  }

  predicate PostsFor(log: seq<Action>, domain: Domain) {
    exists i :: 0 <= i < |log| && log[i].Posted? && log[i].domain == domain
  }

  /** A key installed for a domain that is not posted for does not matter. */
  lemma {:induction false} OtherDomain(
      last: map<Domain, nat>, last': map<Domain, nat>, domain: Domain, log: seq<Action>)
    requires OwnKeysFrom(last, log) && !PostsFor(log, domain)
    requires forall d :: d in last && d != domain ==> d in last' && last'[d] == last[d]
    ensures OwnKeysFrom(last', log)
    decreases log
  {
    if log != [] {
      assert !(log[0].Posted? && log[0].domain == domain);
      assert forall i :: 0 <= i < |log[1..]| ==> log[1..][i] == log[i + 1];
      OtherDomain(Owner(last, log[0]), Owner(last', log[0]), domain, log[1..]);
    }
  }

  /** No two of the logs install and post for the same domain. */
  predicate Apart(logs: seq<seq<Action>>) {
    forall i, j, k :: 0 <= i < |logs| && 0 <= j < |logs| && i != j && 0 <= k < |logs[i]| && logs[i][k].Installed? ==>
      !PostsFor(logs[j], logs[i][k].domain)
  }

  lemma ApartTail(logs: seq<seq<Action>>, who: nat)
    requires Apart(logs) && who < |logs| && logs[who] != []
    ensures Apart(logs[who := logs[who][1..]])
  {
    var logs': seq<seq<Action>> := logs[who := logs[who][1..]];
    forall i: int, j: int, k: int
      | 0 <= i < |logs'| && 0 <= j < |logs'| && i != j && 0 <= k < |logs'[i]| && logs'[i][k].Installed?
      ensures !PostsFor(logs'[j], logs'[i][k].domain)
    {
      var a := logs'[i][k];
      assert a == logs[i][if i == who then k + 1 else k];
      assert !PostsFor(logs[j], a.domain);
      assert forall m :: 0 <= m < |logs'[j]| ==> logs'[j][m] == logs[j][if j == who then m + 1 else m];
    }
  }

  lemma {:induction false} InterleaveOwn(last: map<Domain, nat>, logs: seq<seq<Action>>, schedule: seq<nat>)
    requires Apart(logs) && forall i :: 0 <= i < |logs| ==> OwnKeysFrom(last, logs[i])
    ensures OwnKeysFrom(last, Interleave(logs, schedule))
    decreases schedule
  {
    if schedule != [] {
      var who := schedule[0];
      if who < |logs| && logs[who] != [] {
        var a, logs' := logs[who][0], logs[who := logs[who][1..]];
        forall i | 0 <= i < |logs'|
          ensures OwnKeysFrom(Owner(last, a), logs'[i])
        {
          if i != who && a.Installed? {
            assert !PostsFor(logs[i], logs[who][0].domain);
            OtherDomain(last, Owner(last, a), a.domain, logs[i]);
          }
        }
        ApartTail(logs, who);
        InterleaveOwn(Owner(last, a), logs', schedule[1..]);
        var rest := Interleave(logs', schedule[1..]);
        assert ([a] + rest)[1..] == rest;
      } else {
        InterleaveOwn(last, logs, schedule[1..]);
      }
    }
  }

  /** The authorization goes as far as installing a key. */
  predicate Installs(part: (seq<AuthReply>, seq<bool>)) {
    var reply := At(part.0, 0, NoAuth);
    reply.Auth? && reply.status == AuthPending && reply.offersAlpn
  }

  function DomainOf(part: (seq<AuthReply>, seq<bool>)): Domain
    requires Installs(part)
  {
    At(part.0, 0, NoAuth).domain
  }

  /** The authorizations of a round that install keys are for different domains. */
  predicate DistinctDomains(parts: seq<(seq<AuthReply>, seq<bool>)>) {
    forall i, j :: 0 <= i < j < |parts| && Installs(parts[i]) && Installs(parts[j]) ==>
      DomainOf(parts[i]) != DomainOf(parts[j])
  }

  lemma AuthorizedActs(auth: nat, part: (seq<AuthReply>, seq<bool>), p: nat)
    requires p < |Authorized(auth, part.0, part.1).log|
    ensures Installs(part)
    ensures var a, d := Authorized(auth, part.0, part.1).log[p], DomainOf(part);
            a.Slept? || a == Posted(d, auth) || (p == 0 && a == Installed(d, auth))
  {
    if p >= 2 { RetryPostsOnly(DomainOf(part), auth, part.0, part.1, 0, p - 2); }
  }

  lemma {:induction false} PostsOwn(last: map<Domain, nat>, log: seq<Action>, domain: Domain, auth: nat)
    requires domain in last && last[domain] == auth
    requires forall p :: 0 <= p < |log| ==> log[p].Slept? || log[p] == Posted(domain, auth)
    ensures OwnKeysFrom(last, log)
    decreases log
  {
    if log != [] { PostsOwn(last, log[1..], domain, auth); }
  }

  lemma AuthorizedOwn(last: map<Domain, nat>, auth: nat, part: (seq<AuthReply>, seq<bool>))
    ensures OwnKeysFrom(last, Authorized(auth, part.0, part.1).log)
  {
    var log := Authorized(auth, part.0, part.1).log;
    if log != [] {
      forall p | 0 <= p < |log[1..]|
        ensures log[1..][p].Slept? || log[1..][p] == Posted(DomainOf(part), auth)
      {
        AuthorizedActs(auth, part, p + 1);
      }
      AuthorizedActs(auth, part, 0);
      assert log[0] == Installed(DomainOf(part), auth);
      PostsOwn(Owner(last, log[0]), log[1..], DomainOf(part), auth);
    }
  }

  lemma DistinctApart(parts: seq<(seq<AuthReply>, seq<bool>)>)
    requires DistinctDomains(parts)
    ensures Apart(Logs(parts))
  {
    var logs: seq<seq<Action>> := Logs(parts);
    forall i: int, j: int, k: int
      | 0 <= i < |logs| && 0 <= j < |logs| && i != j && 0 <= k < |logs[i]| && logs[i][k].Installed?
      ensures !PostsFor(logs[j], logs[i][k].domain)
    {
      AuthorizedActs(i, parts[i], k);
      forall p: int | 0 <= p < |logs[j]|
        ensures !(logs[j][p].Posted? && logs[j][p].domain == logs[i][k].domain)
      {
        AuthorizedActs(j, parts[j], p);
      }
    }
  }

  /** Every interleaving of the round posts only under own keys. */
  ghost predicate RoundOwnsKeys(parts: seq<(seq<AuthReply>, seq<bool>)>) {
    forall schedule :: OwnKeys(Joint(Round(parts, schedule)))
  }

  /** Two authorizations for one domain: the second installs between the first's installation and post. */
  lemma SharedDomainMixesKeys(parts: seq<(seq<AuthReply>, seq<bool>)>, i: nat, j: nat)
    requires i < j < |parts| && Installs(parts[i]) && Installs(parts[j]) && DomainOf(parts[i]) == DomainOf(parts[j])
    ensures !OwnKeysFrom(map[], Joint(Round(parts, [i, j, i])))
  {
    var d, logs := DomainOf(parts[i]), Logs(parts);
    assert logs[i][..2] == [Installed(d, i), Posted(d, i)] && logs[j][0] == Installed(d, j);
    var one := logs[i := logs[i][1..]];
    var two := one[j := one[j][1..]];
    assert two[i][0] == Posted(d, i);
    var s := [i, j, i];
    assert s[1..] == [j, i] && s[1..][1..] == [i] && s[1..][1..][1..] == [];
    var three := two[i := two[i][1..]];
    assert Interleave(three, []) == [];
    assert Interleave(two, [i]) == [Posted(d, i)];
    assert Interleave(one, [j, i]) == [Installed(d, j)] + [Posted(d, i)];
    var log := [Installed(d, i)] + ([Installed(d, j)] + [Posted(d, i)]);
    assert Joint(Round(parts, s)) == log;
    assert log[1..] == [Installed(d, j)] + [Posted(d, i)] && log[1..][1..] == [Posted(d, i)];
    var last: map<Domain, nat> := Owner(Owner(map[], log[0]), log[1..][0]);
    assert !OwnKeysFrom(last, [Posted(d, i)]);
  }

  /** In every interleaving each post finds its own key, exactly if no two authorizations share a domain. */
  lemma OwnKeysIff(parts: seq<(seq<AuthReply>, seq<bool>)>)
    ensures RoundOwnsKeys(parts) <==> DistinctDomains(parts)
  {
    if DistinctDomains(parts) {
      forall schedule
        ensures OwnKeys(Joint(Round(parts, schedule)))
      {
        DistinctRoundOwns(Round(parts, schedule));
      }
    } else {
      var i, j :| 0 <= i < j < |parts| && Installs(parts[i]) && Installs(parts[j]) &&
                  DomainOf(parts[i]) == DomainOf(parts[j]);
      SharedDomainMixesKeys(parts, i, j);
      assert !OwnKeys(Joint(Round(parts, [i, j, i])));
    }
  }

  lemma DistinctRoundOwns(round: Round)
    requires DistinctDomains(round.parts)
    ensures OwnKeys(Joint(round))
  {
    DistinctApart(round.parts);
    forall last: map<Domain, nat>
      ensures OwnKeysFrom(last, Joint(round))
    {
      forall i | 0 <= i < |round.parts|
        ensures OwnKeysFrom(last, Logs(round.parts)[i])
      {
        AuthorizedOwn(last, i, round.parts[i]);
      }
      InterleaveOwn(last, Logs(round.parts), round.schedule);
    }
  }

  // --- Over whole orders --------------------------------------------------

  lemma {:induction false} OwnKeysConcat(last: map<Domain, nat>, a: seq<Action>, b: seq<Action>)
    requires OwnKeysFrom(last, a) && OwnKeys(b)
    ensures OwnKeysFrom(last, a + b)
    decreases a
  {
    if a == [] {
      assert a + b == b;
    } else {
      assert (a + b)[1..] == a[1..] + b;
      hide OwnKeys;
      OwnKeysConcat(Owner(last, a[0]), a[1..], b);
    }
  }

  lemma OwnConcat(a: seq<Action>, b: seq<Action>)
    requires OwnKeys(a) && OwnKeys(b)
    ensures OwnKeys(a + b)
  {
    forall last: map<Domain, nat>
      ensures OwnKeysFrom(last, a + b)
    {
      OwnKeysConcat(last, a, b);
    }
  }

  lemma OwnOne(a: Action)
    requires !a.Posted?
    ensures OwnKeys([a])
  {
    assert [a][1..] == [];
  }

  lemma {:induction false} WaitOwn(replies: seq<OrderReply>, i: nat)
    requires i <= PROCESSING_RETRIES
    ensures OwnKeys(WaitProcessing(replies, i).log)
    decreases PROCESSING_RETRIES - i
  {
    hide OwnKeys, Pow2;
    if i == PROCESSING_RETRIES {
      OwnNone();
    } else {
      var sleep := Slept(Pow2(i));
      OwnOne(sleep);
      if replies != [] && replies[0].Order? {
        OwnOne(Seen(replies[0].status));
        OwnConcat([sleep], [Seen(replies[0].status)]);
        if replies[0].status == Processing {
          WaitOwn(replies[1..], i + 1);
          OwnConcat([sleep] + [Seen(Processing)], WaitProcessing(replies[1..], i + 1).log);
        }
      }
    }
  }

  lemma OwnNone()
    ensures OwnKeys([])
  {
  }

  predicate AllDistinct(rounds: seq<Round>) {
    forall i :: 0 <= i < |rounds| ==> DistinctDomains(rounds[i].parts)
  }

  lemma {:induction false} OrderedOwn(
      status: OrderStatus, replies: seq<OrderReply>, rounds: seq<Round>, certificate: bool)
    requires AllDistinct(rounds)
    ensures OwnKeys(Ordered(status, replies, rounds, certificate).log)
    decreases |replies|, 1
  {
    hide WaitProcessing, Joint, GoOn, OwnKeys, DistinctDomains;
    OwnNone();
    match status
    case OrderPending =>
      if rounds != [] {
        DistinctRoundOwns(rounds[0]);
        GoOnOwn(Joint(rounds[0]), replies, rounds[1..], certificate);
      }
    case Processing =>
      WaitOwn(replies, 0);
      var w := WaitProcessing(replies, 0);
      if w.next.Some? {
        OrderedOwn(w.next.value, w.replies, rounds, certificate);
        OwnConcat(w.log, Ordered(w.next.value, w.replies, rounds, certificate).log);
      }
    case OrderReady =>
      OwnOne(CsrSent);
      GoOnOwn([CsrSent], replies, rounds, certificate);
    case OrderValid => OwnOne(CertFetched);
    case OrderInvalid =>
  }

  lemma {:induction false} GoOnOwn(
      log: seq<Action>, replies: seq<OrderReply>, rounds: seq<Round>, certificate: bool)
    requires OwnKeys(log) && AllDistinct(rounds)
    ensures OwnKeys(GoOn(log, replies, rounds, certificate).log)
    decreases |replies|, 0
  {
    hide OwnKeys, Ordered, AllDistinct;
    if replies != [] && replies[0].Order? {
      OrderedOwn(replies[0].status, replies[1..], rounds, certificate);
      OwnOne(Seen(replies[0].status));
      OwnConcat(log, [Seen(replies[0].status)]);
      OwnConcat(log + [Seen(replies[0].status)], Ordered(replies[0].status, replies[1..], rounds, certificate).log);
    }
  }

  lemma {:induction false} OwnerUnchanged(last: map<Domain, nat>, log: seq<Action>, domain: Domain)
    requires domain in last && forall j :: 0 <= j < |log| ==> !InstallsFor(log[j], domain)
    ensures domain in Owners(last, log) && Owners(last, log)[domain] == last[domain]
    decreases log
  {
    if log != [] { OwnerUnchanged(Owner(last, log[0]), log[1..], domain); }
  }

  /** The owner of a domain is the authorization that installed last for it. */
  lemma {:induction false} OwnerIsLast(last: map<Domain, nat>, log: seq<Action>, domain: Domain, i: nat)
    requires LastInstall(log, domain, i)
    ensures domain in Owners(last, log) && Owners(last, log)[domain] == log[i].auth
    decreases log
  {
    var rest := log[1..];
    assert forall j :: 0 <= j < |rest| ==> rest[j] == log[j + 1];
    if i == 0 {
      OwnerUnchanged(Owner(last, log[0]), rest, domain);
    } else {
      OwnerIsLast(Owner(last, log[0]), rest, domain, i - 1);
    }
  }

  lemma {:induction false} OwnAt(last: map<Domain, nat>, log: seq<Action>, p: nat)
    requires OwnKeysFrom(last, log) && p < |log| && log[p].Posted?
    ensures var owners := Owners(last, log[..p]); log[p].domain in owners && owners[log[p].domain] == log[p].auth
    decreases log
  {
    if p > 0 {
      assert log[..p][1..] == log[1..][..p - 1];
      OwnAt(Owner(last, log[0]), log[1..], p - 1);
    }
  }

  /**
   * In every order whose rounds authorize each domain at most once: when the server is told to validate, a validation
   * connection is shown the very key made for the authorization that is posted.
   */
  lemma ChallengeAnsweredByOwnKey(
      r: Held, replies: seq<OrderReply>, rounds: seq<Round>, certificate: bool, keys: nat -> Key, p: nat)
    requires AllDistinct(rounds) && p < |WholeOrder(replies, rounds, certificate).log|
    requires WholeOrder(replies, rounds, certificate).log[p].Posted?
    ensures var log := WholeOrder(replies, rounds, certificate).log;
            var hello := Hello(Some([ACME_TLS_ALPN_NAME]), Some(log[p].domain));
            exists i: nat ::
              LastInstall(log[..p], log[p].domain, i) && log[i] == Installed(log[p].domain, log[p].auth) &&
              Answer(Replay(r, log[..p], keys), hello) == Some(keys(i))
  {
    var log := WholeOrder(replies, rounds, certificate).log;
    OwnNone();
    GoOnOwn([], replies, rounds, certificate);
    assert OwnKeysFrom(map[], log);
    hide WholeOrder, GoOn, OwnKeys, OwnKeysFrom, AllDistinct;
    ChallengeAnswered(r, replies, rounds, certificate, keys, p);
    var hello := Hello(Some([ACME_TLS_ALPN_NAME]), Some(log[p].domain));
    var i :| LastInstall(log[..p], log[p].domain, i) && Answer(Replay(r, log[..p], keys), hello) == Some(keys(i));
    OwnerIsLast(map[], log[..p], log[p].domain, i);
    OwnAt(map[], log, p);
  }
}
