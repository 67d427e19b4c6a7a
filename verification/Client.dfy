/** The API client of pkg/ovh/client.go, over a modelled service. */
module OvhClient {
  import opened Sequences
  import opened Errors
  import opened CloudModel

  const MAX_RETRIES := 5
  const INITIAL_BACKOFF := 2
  const MAX_BACKOFF := 60

  function Pow2(n: nat): nat {
    if n == 0 then 1 else 2 * Pow2(n - 1)
  }

  /** Seconds slept after the failing attempt number `attempt`. */
  function Backoff(attempt: nat): nat {
    var b := INITIAL_BACKOFF * Pow2(attempt);
    if b <= MAX_BACKOFF then b else MAX_BACKOFF
  }

  function BackoffSum(attempts: nat): nat {
    if attempts == 0 then 0 else BackoffSum(attempts - 1) + Backoff(attempts - 1)
  }

  /** The sleeps of one retried call are 2, 4, 8, 16 and 32 seconds, so never more than 62 in all. */
  lemma {:induction false} BackoffTotal(n: nat)
    requires n <= MAX_RETRIES
    ensures BackoffSum(n) == 2 * Pow2(n) - 2
    ensures Pow2(n) <= 32
    ensures BackoffSum(n) <= 62
  {
    if n > 0 {
      BackoffTotal(n - 1);
    }
  }

  /** How the service answers one attempt: it works, it fails without effect, or it fails after taking effect. */
  datatype Outcome = Done | Refused(error: Error) | Lost(error: Error)

  /** One retried call: every failure in order, how many attempts took effect, the time slept, the final error. */
  datatype Tries = Tries(failures: seq<Error>, effects: nat, lost: nat, slept: nat, error: Option<Error>) {
    function Calls(): nat {
      |failures| + if error.None? then 1 else 0
    }

    ghost predicate Valid() {
      && 1 <= Calls() <= MAX_RETRIES + 1
      && (forall i | 0 <= i < Calls() - 1 :: IsRetryable(failures[i]))
      && lost <= |failures|
      && effects == lost + (if error.None? then 1 else 0)
      && slept == BackoffSum(Calls() - 1)
      && slept <= 62
      && (error.Some? ==>
            var last := failures[|failures| - 1];
            if IsRetryable(last) then Calls() == MAX_RETRIES + 1 && error.value == Wrap("", last)
            else error.value == last)
    }
  }

  /**
   * Of the failures, only the last one can have a status other than these, or none and a text that names no failure of
   * the network; then the call ends with it. With any other failure last, all six attempts were made.
   */
  method RetryWithBackoff() returns (t: Tries)
    ensures t.Valid()
    ensures forall i | 0 <= i < t.Calls() - 1 ::
              match ApiCode(t.failures[i])
              case Some(code) => code == 429 || code == 500 || code == 502 || code == 503 || code == 504
              case None =>
                var text := Render(t.failures[i]);
                Contains(text, "connection refused") || Contains(text, "connection reset")
                || Contains(text, "timeout") || Contains(text, "temporary failure")
    ensures forall i | 0 <= i < |t.failures| && ApiCode(t.failures[i]).Some? ::
              ApiCode(t.failures[i]).value !in {429, 500, 502, 503, 504} ==>
                i == |t.failures| - 1 && t.error == Some(t.failures[i])
    ensures t.error.Some? && ApiCode(t.failures[|t.failures| - 1]).Some?
            && ApiCode(t.failures[|t.failures| - 1]).value in {429, 500, 502, 503, 504} ==>
              t.Calls() == 6
  {
    var failures: seq<Error> := [];
    var lost, slept := 0, 0;
    for attempt := 0 to MAX_RETRIES + 1
      invariant |failures| == attempt
      invariant forall i | 0 <= i < attempt :: IsRetryable(failures[i])
      invariant lost <= attempt
      invariant slept == BackoffSum(if attempt <= MAX_RETRIES then attempt else MAX_RETRIES)
    {
      var outcome: Outcome := *;
      if outcome.Done? {
        BackoffTotal(attempt);
        return Tries(failures, lost + 1, lost, slept, None);
      }
      var error;
      match outcome {
        case Refused(e) => error := e;
        case Lost(e) => error := e; lost := lost + 1;
      }
      failures := failures + [error];
      if !IsRetryable(error) {
        BackoffTotal(attempt);
        return Tries(failures, lost, lost, slept, Some(error));
      }
      if attempt < MAX_RETRIES {
        slept := slept + Backoff(attempt);
      }
    }
    BackoffTotal(MAX_RETRIES);
    t := Tries(failures, lost, lost, slept, Some(Wrap("", failures[MAX_RETRIES])));
  }

  // ----- what a successful delete does to each list

  function MarkedLbs(s: seq<LoadBalancer>, id: string): seq<LoadBalancer> {
    seq(|s|, i requires 0 <= i < |s| => if s[i].id == id then s[i].(deleting := true) else s[i])
  }

  function DetachedFips(s: seq<FloatingIP>, id: string): seq<FloatingIP> {
    seq(|s|, i requires 0 <= i < |s| => if s[i].id == id then s[i].(entity := None) else s[i])
  }

  function LinkedLbs(s: seq<LoadBalancer>, id: string, fip: FipRef): seq<LoadBalancer> {
    seq(|s|, i requires 0 <= i < |s| => if s[i].id == id then s[i].(fip := Some(fip)) else s[i])
  }

  /** Floating IPs were added to one load balancer, at most one gateway appeared, and the record may show it. */
  ghost predicate FipsGrew(c: Cloud, d: Cloud, lbID: string, gwName: string) {
    && c.issued <= d.issued
    && c.fips <= d.fips
    && (forall i | |c.fips| <= i < |d.fips| :: d.fips[i].entity == Some(lbID) && d.fips[i].id !in c.issued)
    && c.gateways <= d.gateways
    && (forall i | |c.gateways| <= i < |d.gateways| ::
          && d.gateways[i].name == gwName && !d.gateways[i].deleting
          && d.gateways[i].id != "" && d.gateways[i].id !in c.issued)
    && (d.lbs == c.lbs ||
        (|c.fips| < |d.fips| &&
         var f := d.fips[|c.fips|];
         d.lbs == LinkedLbs(c.lbs, lbID, FipRef(f.id, f.ip))))
  }

  function MarkedGateways(s: seq<Gateway>, id: string): seq<Gateway> {
    seq(|s|, i requires 0 <= i < |s| => if s[i].id == id then s[i].(deleting := true) else s[i])
  }

  function ExposedGateways(s: seq<Gateway>, id: string): seq<Gateway> {
    seq(|s|, i requires 0 <= i < |s| => if s[i].id == id then s[i].(exposed := true) else s[i])
  }

  function TerminatingInstances(s: seq<Instance>, id: string): seq<Instance> {
    seq(|s|, i requires 0 <= i < |s| => if s[i].id == id then s[i].(status := "DELETING") else s[i])
  }

  function InPool(poolID: string): Member -> bool {
    (x: Member) => x.poolID == poolID
  }

  function ListedNamed(name: string): LoadBalancer -> bool {
    (x: LoadBalancer) => x.listed && x.name == name
  }

  function LbWithId(id: string): LoadBalancer -> bool {
    (x: LoadBalancer) => x.id == id
  }

  function NetworkWithId(id: string): Network -> bool {
    (x: Network) => x.id == id
  }

  function SubnetOf(networkID: string): Subnet -> bool {
    (x: Subnet) => x.networkID == networkID
  }

  function FipWithId(id: string): FloatingIP -> bool {
    (x: FloatingIP) => x.id == id
  }

  function GatewayNamed(name: string): Gateway -> bool {
    (x: Gateway) => x.name == name
  }

  function MonitorNamed(name: string): Monitor -> bool {
    (x: Monitor) => x.name == name
  }

  function InstanceWithId(id: string): Instance -> bool {
    (x: Instance) => x.id == id
  }

  /** The service refuses to delete a network that a gateway or load balancer still uses. */
  predicate InUse(c: Cloud, n: Network, region: string) {
    var os := OpenStackIDIn(n.regions, region);
    || (exists g | g in c.gateways :: g.network == os)
    || (exists l | l in c.lbs :: l.network == os)
  }

  lemma {:induction false} LongerThanAll(used: set<string>) returns (n: nat)
    ensures forall s | s in used :: |s| < n
    decreases |used|
  {
    if used == {} {
      n := 1;
    } else {
      var s :| s in used;
      n := LongerThanAll(used - {s});
      n := if n <= |s| then |s| + 1 else n;
      forall t | t in used ensures |t| < n {
        if t != s { assert t in used - {s}; }
      }
    }
  }

  lemma UnusedExists(used: set<string>)
    ensures exists id: string :: id != "" && id !in used
  {
    var n := LongerThanAll(used);
    var id := seq(n + 1, i => 'x');
    assert |id| == n + 1;
    assert id != "" && id !in used;
  }

  function CreatedNetwork(h: History, id: string): History {
    h.(networksCreated := h.networksCreated + {id})
  }

  function DeletedNetwork(h: History, id: string): History {
    h.(networksDeleted := h.networksDeleted + {id})
  }

  const NO_OBJECT := Api(404, "")
  const IN_USE := Api(409, "")

  predicate NoneShown(x: Lookup, name: string) {
    x.name == name && x.shown.None? && !x.failed
  }

  /**
   * At most ten lookups of the name, all but the last without a result; after the n-th one a pause of 2n seconds. The
   * loop ends with what the last lookup showed, with a lookup that failed, or after ten lookups and 110 seconds.
   */
  predicate Polled(j: Journal, k: Journal, name: string, r: Result<LoadBalancer>) {
    var n := |k.lookups| - |j.lookups|;
    && j.lookups <= k.lookups && 1 <= n <= 10
    && (forall i | |j.lookups| <= i < |k.lookups| - 1 :: NoneShown(k.lookups[i], name))
    && var last := k.lookups[|k.lookups| - 1];
    && last.name == name && last.shown == (if r.Ok? then Some(r.value) else None)
    && (r.Err? && !last.failed ==> n == 10)
    && (last.failed ==> r.Err? && !Clean(j, k))
    && var pauses := if r.Err? && !last.failed then 110 else n * (n - 1);
    && j.slept + pauses <= k.slept && (Clean(j, k) ==> k.slept == j.slept + pauses)
  }

  /**
   * The same with one lookup before the POST: a clean call returns what the last lookup showed, none before it having
   * shown any, or fails after eleven lookups without a result and 110 seconds of pauses.
   */
  predicate CreatePolled(j: Journal, k: Journal, name: string, r: Result<LoadBalancer>) {
    var n := |k.lookups| - |j.lookups|;
    && j.lookups <= k.lookups && 1 <= n <= 11
    && (r.Ok? ==>
          k.lookups[|k.lookups| - 1].name == name && k.lookups[|k.lookups| - 1].shown == Some(r.value))
    && (Clean(j, k) ==>
          && (forall i | |j.lookups| <= i < |k.lookups| - 1 :: NoneShown(k.lookups[i], name))
          && if r.Ok? then k.slept == j.slept + (n - 1) * (n - 2)
             else n == 11 && NoneShown(k.lookups[|k.lookups| - 1], name) && k.slept == j.slept + 110)
  }

  /** After `n` polls without a result. */
  predicate Polling(j: Journal, k: Journal, name: string, n: nat) {
    && k == j.(faults := k.faults, slept := k.slept, lookups := k.lookups)
    && j.faults <= k.faults
    && j.lookups <= k.lookups && |k.lookups| == |j.lookups| + n
    && (forall i | |j.lookups| <= i < |k.lookups| :: NoneShown(k.lookups[i], name))
    && j.slept + n * (n + 1) <= k.slept <= j.slept + 62 * n + n * (n + 1)
    && (Clean(j, k) ==> k.slept == j.slept + n * (n + 1))
  }

  /** One journalled lookup. */
  predicate LooksUp(j: Journal, k: Journal, x: Lookup) {
    && k.lookups == j.lookups + [x] && Reads(j.(lookups := k.lookups), k)
    && (x.failed ==> x.shown.None? && !Clean(j, k))
  }

  lemma PollMisses(j: Journal, k: Journal, l: Journal, m: Journal, name: string, n: nat)
    requires Polling(j, k, name, n) && LooksUp(k, l, Lookup(name, None, false))
    requires m == l.(slept := l.slept + 2 * (n + 1))
    ensures Polling(j, m, name, n + 1)
  {
    assert (n + 1) * (n + 2) == n * (n + 1) + 2 * (n + 1);
    forall i | |j.lookups| <= i < |m.lookups| ensures NoneShown(m.lookups[i], name) {
      if i < |k.lookups| { assert m.lookups[i] == k.lookups[i]; }
    }
  }

  lemma PollEnds(j: Journal, k: Journal, l: Journal, name: string, n: nat, x: Lookup, r: Result<LoadBalancer>)
    requires Polling(j, k, name, n) && n < 10 && LooksUp(k, l, x) && x.name == name
    requires if r.Ok? then x.shown == Some(r.value) else x.failed
    ensures Polled(j, l, name, r) && l.slept <= j.slept + 10 * 62 + 110 && j.faults <= l.faults
    ensures l == j.(faults := l.faults, slept := l.slept, lookups := l.lookups)
  {
    assert n * (n + 1) <= 90;
    forall i | |j.lookups| <= i < |l.lookups| - 1 ensures NoneShown(l.lookups[i], name) {
      assert l.lookups[i] == k.lookups[i];
    }
  }

  lemma PollGivesUp(j: Journal, k: Journal, name: string, e: Error)
    requires Polling(j, k, name, 10)
    ensures Polled(j, k, name, Err(e)) && k.slept <= j.slept + 10 * 62 + 110
  {
    assert NoneShown(k.lookups[|k.lookups| - 1], name);
  }

  lemma PostedThenPolled(j: Journal, k: Journal, l: Journal, name: string, r: Result<LoadBalancer>)
    requires Writes(j, k) && Polled(k, l, name, r) && k.faults <= l.faults
    requires l == k.(faults := l.faults, slept := l.slept, lookups := l.lookups)
    requires l.slept <= k.slept + 10 * 62 + 110
    ensures Polled(j, l, name, r) && Later(j, l) && j.faults <= l.faults && l.lookups != j.lookups
    ensures l == j.(faults := l.faults, slept := l.slept, lost := l.lost, writes := l.writes, lookups := l.lookups)
    ensures l.slept <= j.slept + 11 * 62 + 110 && Cap(j, k) == Cap(j, l)
  {
    hide NoneShown;
  }

  lemma NotPosted(j: Journal, k: Journal)
    requires Writes(j, k)
    ensures Later(j, k) && j.faults <= k.faults && k.slept <= j.slept + 62
    ensures k == j.(faults := k.faults, slept := k.slept, lost := k.lost, writes := k.writes, lookups := k.lookups)
  {
  }

  /** The lookup before the POST showed the load balancer. */
  lemma FoundAtOnce(c: Cloud, j: Journal, k: Journal, name: string, network: string, lb: LoadBalancer)
    requires LooksUp(j, k, Lookup(name, Some(lb), false))
    ensures CreatePolled(j, k, name, Ok(lb)) && Later(j, k) && SameLookups(j, k)
    ensures LbsGrew(c, c, name, network) && FindOrCreate(LbTally(c, j, name), LbTally(c, k, name))
    ensures k == j.(faults := k.faults, slept := k.slept, lookups := k.lookups) && k.slept <= j.slept + 62
  {
  }

  /** It did not; then POST and polls. */
  lemma FoundLater(j: Journal, k: Journal, x: Lookup, m: Journal, l: Journal, name: string, r: Result<LoadBalancer>)
    requires LooksUp(j, k, x) && x.name == name && x.shown.None?
    requires m.lookups == k.lookups && m.slept == k.slept && m.faults == k.faults <= l.faults
    requires if r.Err? && l.lookups == m.lookups then !Clean(m, l) else Polled(m, l, name, r)
    ensures CreatePolled(j, l, name, r)
  {
    if Clean(j, l) {
      forall i | |j.lookups| <= i < |l.lookups| - 1 ensures NoneShown(l.lookups[i], name) {
        if i < |k.lookups| { assert l.lookups[i] == k.lookups[i]; }
      }
    }
  }

  /** The same load balancers, some of which may have entered the list, and perhaps more. */
  ghost predicate Appeared(s: seq<LoadBalancer>, t: seq<LoadBalancer>) {
    && |s| <= |t|
    && forall i | 0 <= i < |s| :: t[i] == s[i].(listed := t[i].listed) && (s[i].listed ==> t[i].listed)
  }

  /** The load balancers of `c`, some newly listed, and then new ones with the given name and network. */
  ghost predicate LbsGrew(c: Cloud, d: Cloud, name: string, network: string) {
    && Appeared(c.lbs, d.lbs)
    && forall i | |c.lbs| <= i < |d.lbs| ::
         var l := d.lbs[i];
         l.name == name && l.network == network && !l.deleting && l.fip.None? && Fresh(l.id, c, d)
  }

  /** Load balancers that were posted and have then perhaps entered the list. */
  lemma PostedThenAppeared(c: Cloud, d: Cloud, e: Cloud, name: string, network: string)
    requires LbsGrew(c, d, name, network) && d.issued == e.issued
    requires |e.lbs| == |d.lbs| && Appeared(d.lbs, e.lbs)
    ensures LbsGrew(c, e, name, network)
    ensures Count(LbNamed(name), e.lbs) <= Count(LbNamed(name), d.lbs)
    ensures |c.lbs| < |d.lbs| ==> exists l | l in e.lbs :: l.name == name
  {
    CountPointwise(LbNamed(name), d.lbs, e.lbs);
    if |c.lbs| < |d.lbs| {
      assert e.lbs[|c.lbs|] in e.lbs;
    }
  }

  /** A POST is made when the lookup showed none, could not see one, or failed; the journal tells the cases apart. */
  lemma LookedUpThenPosted(c: Cloud, j: Journal, m: Journal, d: Cloud, l: Journal, name: string)
    requires Later(j, m) && Later(m, l) && SameLookups(m, l) && m.lost == j.lost
    requires Count(LbNamed(name), d.lbs) <= Count(LbNamed(name), c.lbs) + Cap(m, l)
    requires Count(LbNamed(name), c.lbs) != 0 ==> !SameLookups(j, m)
    ensures FindOrCreate(LbTally(c, j, name), LbTally(d, l, name)) && Later(j, l)
  {
  }

  /** The lookup before the POST, and what is journalled of it. */
  lemma LookedUpBefore(j: Journal, k: Journal, m: Journal, x: Lookup)
    requires LooksUp(j, k, x)
    requires m == k || (m == k.(failedLookups := k.failedLookups + 1) && x.failed)
             || m == k.(hiddenLookups := k.hiddenLookups + 1)
    ensures Later(j, m) && m.lost == j.lost && k.slept <= j.slept + 62 && SameLookups(j, k)
    ensures m == j.(faults := m.faults, slept := m.slept, lookups := m.lookups, failedLookups := m.failedLookups,
                    hiddenLookups := m.hiddenLookups)
  {
  }

  lemma ExposedSameIDs(s: seq<Gateway>, id: string)
    ensures (exists g | g in s :: g.id == id) <==> exists g | g in ExposedGateways(s, id) :: g.id == id
  {
    var t := ExposedGateways(s, id);
    if g :| g in s && g.id == id {
      var i :| 0 <= i < |s| && s[i] == g;
      assert t[i] in t;
    }
    if g :| g in t && g.id == id {
      var i :| 0 <= i < |t| && t[i] == g;
      assert s[i] in s;
    }
  }

  /** A lookup counts as hidden only if a load balancer of the name exists and is not listed. */
  predicate HidesOnly(lbs: seq<LoadBalancer>, name: string, before: nat, after: nat) {
    && before <= after <= before + 1
    && (after > before ==> exists l | l in lbs :: l.name == name && !l.listed)
  }

  lemma HiddenExists(lbs: seq<LoadBalancer>, name: string)
    requires First(ListedNamed(name), lbs).None? && Count(LbNamed(name), lbs) != 0
    ensures exists l | l in lbs :: l.name == name && !l.listed
  {
    CountZero(LbNamed(name), lbs);
    var l :| l in lbs && LbNamed(name)(l);
    var i :| 0 <= i < |lbs| && lbs[i] == l;
    assert !ListedNamed(name)(lbs[i]);
  }

  lemma NamedAdded(name: string, s: seq<LoadBalancer>, t: seq<LoadBalancer>)
    requires s <= t && forall i | |s| <= i < |t| :: t[i].name == name
    ensures Count(LbNamed(name), t) == Count(LbNamed(name), s) + |t| - |s|
  {
    CountGrown(LbNamed(name), s, t);
  }

  class Client {
    const region: string
    var cloud: Cloud
    ghost var journal: Journal

    // ----- calls

    /** One retried call that only reads. */
    method Read() returns (error: Option<Error>)
      modifies this`journal
      ensures Reads(old(journal), journal)
      ensures Clean(old(journal), journal) ==> error.None?
    {
      var t := RetryWithBackoff();
      journal := journal.(faults := journal.faults + |t.failures|, slept := journal.slept + t.slept);
      error := t.error;
    }

    /** One retried call that changes something; `effects` attempts took effect. */
    method Write() returns (effects: nat, error: Option<Error>)
      modifies this`journal
      ensures Writes(old(journal), journal)
      ensures effects <= Cap(old(journal), journal)
      ensures Clean(old(journal), journal) ==> error.None?
      ensures error.None? ==> effects >= 1
    {
      var t := RetryWithBackoff();
      journal := journal.(faults := journal.faults + |t.failures|, slept := journal.slept + t.slept,
                          lost := journal.lost + t.lost, writes := journal.writes + 1);
      effects, error := t.effects, t.error;
    }

    /** One retried read of an object by its ID; the service itself answers 404 if it is missing. */
    method Ask(ghost request: Request, missing: bool) returns (error: Option<Error>, ghost failed: bool)
      modifies this`journal
      ensures Asked(old(journal), journal, request) && LastAnswer(journal) == error
      ensures error.None? ==> !missing
      ensures failed ==> error.Some? && !Clean(old(journal), journal)
      ensures !failed ==> error == if missing then Some(NO_OBJECT) else None
    {
      var t := RetryWithBackoff();
      error := if t.error.None? && missing then Some(NO_OBJECT) else t.error;
      failed := t.error.Some?;
      journal := journal.(faults := journal.faults + |t.failures|, slept := journal.slept + t.slept,
                          answers := journal.answers + [Answer(request, error)]);
    }

    /** One retried change of an object by its ID, which the service itself may refuse. */
    method Order(ghost request: Request, refusal: Option<Error>) returns (effects: nat, error: Option<Error>)
      modifies this`journal
      ensures Ordered(old(journal), journal, request) && LastAnswer(journal) == error
      ensures effects <= Cap(old(journal), journal)
      ensures Clean(old(journal), journal) ==> error == refusal && effects >= 1
      ensures error.None? ==> effects >= 1
    {
      var t := RetryWithBackoff();
      effects, error := t.effects, if t.error.None? then refusal else t.error;
      journal := journal.(faults := journal.faults + |t.failures|, slept := journal.slept + t.slept,
                          lost := journal.lost + t.lost, writes := journal.writes + 1,
                          answers := journal.answers + [Answer(request, error)]);
    }

    /** `n` IDs that were never handed out before. */
    method FreshIds(n: nat) returns (ids: seq<string>)
      modifies this`cloud
      ensures |ids| == n
      ensures cloud == old(cloud).(issued := cloud.issued) && old(cloud).issued <= cloud.issued
      ensures forall i | 0 <= i < n :: Fresh(ids[i], old(cloud), cloud)
      ensures forall i, j | 0 <= i < j < n :: ids[i] != ids[j]
    {
      ids := [];
      for i := 0 to n
        invariant |ids| == i
        invariant cloud == old(cloud).(issued := cloud.issued) && old(cloud).issued <= cloud.issued
        invariant forall x | 0 <= x < i :: Fresh(ids[x], old(cloud), cloud)
        invariant forall x, y | 0 <= x < y < i :: ids[x] != ids[y]
      {
        UnusedExists(cloud.issued);
        var id: string :| id != "" && id !in cloud.issued;
        ids := ids + [id];
        cloud := cloud.(issued := cloud.issued + {id});
      }
    }

    // ----- listeners, pools, monitors

    method FindListenerByName(lbID: string, name: string) returns (r: Result<Option<Listener>>)
      modifies this`journal
      ensures Reads(old(journal), journal)
      ensures Clean(old(journal), journal) ==> r.Ok?
      ensures r.Ok? ==> r.value == First(ListenerKey(name, lbID), cloud.listeners)
    {
      var e := Read();
      if e.Some? {
        return Err(Wrap("", e.value));
      }
      var found := FindFirst(ListenerKey(name, lbID), cloud.listeners);
      r := Ok(found);
    }

    method CreateListener(name: string, port: int, lbID: string) returns (r: Result<Listener>)
      modifies this
      ensures Writes(old(journal), journal)
      ensures cloud == old(cloud).(listeners := cloud.listeners, issued := cloud.issued)
      ensures old(cloud).issued <= cloud.issued
      ensures Grew(old(cloud).listeners, cloud.listeners, old(journal), journal)
      ensures forall i | |old(cloud).listeners| <= i < |cloud.listeners| ::
                var x := cloud.listeners[i];
                x.name == name && x.port == port && x.lbIDs == [lbID] && Fresh(x.id, old(cloud), cloud)
      ensures r.Ok? ==> |old(cloud).listeners| < |cloud.listeners| && r.value == cloud.listeners[|cloud.listeners| - 1]
      ensures Clean(old(journal), journal) ==> r.Ok?
    {
      var k, e := Write();
      var ids := FreshIds(k);
      var made := seq(k, i requires 0 <= i < k => Listener(ids[i], name, port, [lbID]));
      cloud := cloud.(listeners := cloud.listeners + made);
      r := if e.Some? then Err(Wrap("", e.value)) else Ok(made[k - 1]);
    }

    method FindPoolByName(lbID: string, name: string) returns (r: Result<Option<Pool>>)
      modifies this`journal
      ensures Reads(old(journal), journal)
      ensures Clean(old(journal), journal) ==> r.Ok?
      ensures r.Ok? ==> r.value == First(PoolKey(name, lbID), cloud.pools)
    {
      var e := Read();
      if e.Some? {
        return Err(Wrap("", e.value));
      }
      var found := FindFirst(PoolKey(name, lbID), cloud.pools);
      r := Ok(found);
    }

    method CreatePool(name: string, listenerID: string, lbID: string) returns (r: Result<Pool>)
      modifies this
      ensures Writes(old(journal), journal)
      ensures cloud == old(cloud).(pools := cloud.pools, issued := cloud.issued)
      ensures old(cloud).issued <= cloud.issued
      ensures Grew(old(cloud).pools, cloud.pools, old(journal), journal)
      ensures forall i | |old(cloud).pools| <= i < |cloud.pools| ::
                var x := cloud.pools[i];
                x.name == name && x.listenerID == listenerID && x.lbID == lbID && Fresh(x.id, old(cloud), cloud)
      ensures r.Ok? ==> |old(cloud).pools| < |cloud.pools| && r.value == cloud.pools[|cloud.pools| - 1]
      ensures Clean(old(journal), journal) ==> r.Ok?
    {
      var k, e := Write();
      var ids := FreshIds(k);
      var made := seq(k, i requires 0 <= i < k => Pool(ids[i], name, listenerID, lbID));
      cloud := cloud.(pools := cloud.pools + made);
      r := if e.Some? then Err(Wrap("", e.value)) else Ok(made[k - 1]);
    }

    method FindHealthMonitorByName(name: string) returns (r: Result<Option<Monitor>>)
      modifies this`journal
      ensures Reads(old(journal), journal)
      ensures Clean(old(journal), journal) ==> r.Ok?
      ensures r.Ok? ==> r.value == First(MonitorNamed(name), cloud.monitors)
    {
      var e := Read();
      if e.Some? {
        return Err(Wrap("", e.value));
      }
      var found := FindFirst(MonitorNamed(name), cloud.monitors);
      r := Ok(found);
    }

    method CreateMonitor(name: string, poolID: string) returns (r: Result<Monitor>)
      modifies this
      ensures Writes(old(journal), journal)
      ensures cloud == old(cloud).(monitors := cloud.monitors, issued := cloud.issued)
      ensures old(cloud).issued <= cloud.issued
      ensures Grew(old(cloud).monitors, cloud.monitors, old(journal), journal)
      ensures forall i | |old(cloud).monitors| <= i < |cloud.monitors| ::
                var x := cloud.monitors[i];
                x.name == name && x.poolID == poolID && Fresh(x.id, old(cloud), cloud)
      ensures r.Ok? ==> |old(cloud).monitors| < |cloud.monitors| && r.value == cloud.monitors[|cloud.monitors| - 1]
      ensures Clean(old(journal), journal) ==> r.Ok?
    {
      var k, e := Write();
      var ids := FreshIds(k);
      var made := seq(k, i requires 0 <= i < k => Monitor(ids[i], name, poolID));
      cloud := cloud.(monitors := cloud.monitors + made);
      r := if e.Some? then Err(Wrap("", e.value)) else Ok(made[k - 1]);
    }

    method DeletePool(id: string) returns (e: Option<Error>)
      modifies this
      ensures Writes(old(journal), journal)
      ensures cloud == old(cloud) || cloud == old(cloud).(pools := Keep((x: Pool) => x.id != id, old(cloud).pools))
      ensures Clean(old(journal), journal) ==>
                e.None? && cloud == old(cloud).(pools := Keep((x: Pool) => x.id != id, old(cloud).pools))
    {
      var k;
      k, e := Write();
      if k > 0 {
        cloud := cloud.(pools := Keep((x: Pool) => x.id != id, cloud.pools));
      }
      if e.Some? {
        e := if IsNotFound(e.value) then None else Some(Wrap("", e.value));
      }
    }

    method DeleteListener(id: string) returns (e: Option<Error>)
      modifies this
      ensures Writes(old(journal), journal)
      ensures cloud == old(cloud)
              || cloud == old(cloud).(listeners := Keep((x: Listener) => x.id != id, old(cloud).listeners))
      ensures Clean(old(journal), journal) ==>
                e.None? && cloud == old(cloud).(listeners := Keep((x: Listener) => x.id != id, old(cloud).listeners))
    {
      var k;
      k, e := Write();
      if k > 0 {
        cloud := cloud.(listeners := Keep((x: Listener) => x.id != id, cloud.listeners));
      }
      if e.Some? {
        e := if IsNotFound(e.value) then None else Some(Wrap("", e.value));
      }
    }

    // ----- networks

    /** A missing object is reported as a not-found API error. */
    method GetPrivateNetwork(id: string) returns (r: Result<Network>)
      modifies this`journal
      ensures Asked(old(journal), journal, ReadNetwork(id)) && (r.Ok? <==> LastAnswer(journal).None?)
      ensures r.Err? ==> (IsNotFound(r.error) <==> Missing(LastAnswer(journal)))
      ensures r.Ok? ==> First(NetworkWithId(id), cloud.networks) == Some(r.value)
      ensures Clean(old(journal), journal) && r.Err? ==>
                IsNotFound(r.error) && First(NetworkWithId(id), cloud.networks).None?
    {
      var found := FindFirst(NetworkWithId(id), cloud.networks);
      var e, _ := Ask(ReadNetwork(id), found.None?);
      if e.Some? {
        MissingIsNotFound(e.value);
      }
      r := if e.Some? then Err(Wrap("", e.value)) else Ok(found.value);
    }

    method ListSubnets(networkID: string) returns (r: Result<seq<Subnet>>)
      modifies this`journal
      ensures Reads(old(journal), journal)
      ensures Clean(old(journal), journal) ==> r.Ok?
      ensures r.Ok? ==> r.value == Keep(SubnetOf(networkID), cloud.subnets)
    {
      var e := Read();
      r := if e.Some? then Err(Wrap("", e.value)) else Ok(Keep(SubnetOf(networkID), cloud.subnets));
    }

    method CreateSubnet(networkID: string, cidr: string, start: string, end: string) returns (r: Result<Subnet>)
      modifies this
      ensures Writes(old(journal), journal)
      ensures cloud == old(cloud).(subnets := cloud.subnets, issued := cloud.issued)
      ensures old(cloud).issued <= cloud.issued
      ensures Grew(old(cloud).subnets, cloud.subnets, old(journal), journal)
      ensures forall i | |old(cloud).subnets| <= i < |cloud.subnets| ::
                var x := cloud.subnets[i];
                x.networkID == networkID && x.cidr == cidr && x.start == start && x.end == end
                && Fresh(x.id, old(cloud), cloud)
      ensures r.Ok? ==> |old(cloud).subnets| < |cloud.subnets| && r.value == cloud.subnets[|cloud.subnets| - 1]
      ensures Clean(old(journal), journal) ==> r.Ok?
    {
      var k, e := Write();
      var ids := FreshIds(k);
      var made := seq(k, i requires 0 <= i < k => Subnet(ids[i], networkID, cidr, start, end));
      cloud := cloud.(subnets := cloud.subnets + made);
      r := if e.Some? then Err(Wrap("", e.value)) else Ok(made[k - 1]);
    }

    /** The new network's state in each region is the service's choice; only a returned ID is journalled as created. */
    method CreatePrivateNetwork(name: string) returns (r: Result<Network>)
      modifies this
      ensures cloud == old(cloud).(networks := cloud.networks, issued := cloud.issued)
      ensures old(cloud).issued <= cloud.issued
      ensures Grew(old(cloud).networks, cloud.networks, old(journal), journal)
      ensures forall i | |old(cloud).networks| <= i < |cloud.networks| ::
                var x := cloud.networks[i];
                x.name == name && Fresh(x.id, old(cloud), cloud)
      ensures r.Ok? ==> |old(cloud).networks| < |cloud.networks| && r.value == cloud.networks[|cloud.networks| - 1]
      ensures r.Ok? ==> Writes(old(journal).(history := CreatedNetwork(old(journal).history, r.value.id)), journal)
      ensures r.Err? ==> Writes(old(journal), journal)
      ensures Clean(old(journal), journal) ==> r.Ok?
    {
      var k, e := Write();
      var ids := FreshIds(k);
      var regions: seq<NetworkRegion> := *;
      var made := seq(k, i requires 0 <= i < k => Network(ids[i], name, regions));
      cloud := cloud.(networks := cloud.networks + made);
      if e.Some? {
        return Err(Wrap("", e.value));
      }
      journal := journal.(history := CreatedNetwork(journal.history, made[k - 1].id));
      r := Ok(made[k - 1]);
    }

    /** Refused with a conflict while a gateway or load balancer still uses the network. */
    method DeletePrivateNetwork(id: string) returns (e: Option<Error>)
      modifies this
      ensures Ordered(old(journal).(history := DeletedNetwork(old(journal).history, id)), journal, DeleteNetwork(id))
      ensures e.None? <==> Accepted(DeleteNetwork(id), LastAnswer(journal))
      ensures cloud == old(cloud).(networks := cloud.networks)
      ensures cloud.networks == old(cloud).networks
              || cloud.networks == Keep((x: Network) => x.id != id, old(cloud).networks)
      ensures Clean(old(journal), journal) && e.Some? ==>
                var n := First(NetworkWithId(id), old(cloud).networks);
                n.Some? && InUse(old(cloud), n.value, region) && cloud == old(cloud)
      ensures Clean(old(journal), journal) && e.None? ==> forall n | n in cloud.networks :: n.id != id
    {
      journal := journal.(history := DeletedNetwork(journal.history, id));
      var n := FindFirst(NetworkWithId(id), cloud.networks);
      var refused := n.Some? && InUse(cloud, n.value, region);
      var k;
      k, e := Order(DeleteNetwork(id), if refused then Some(IN_USE) else None);
      if k > 0 && !refused {
        cloud := cloud.(networks := Keep((x: Network) => x.id != id, cloud.networks));
      }
      if e.Some? {
        MissingIsNotFound(e.value);
        e := if IsNotFound(e.value) then None else Some(Wrap("", e.value));
      }
    }

    // ----- load balancers

    method GetLBFlavorByName(name: string) returns (e: Option<Error>)
      modifies this`journal
      ensures Reads(old(journal), journal)
      ensures e.None? ==> name in cloud.flavors
      ensures Clean(old(journal), journal) ==> (e.None? <==> name in cloud.flavors)
    {
      e := Read();
      if e.None? && name !in cloud.flavors {
        e := Some(Text("no flavor"));
      }
    }

    /** A missing object is reported as a not-found API error. */
    method GetLoadBalancer(id: string) returns (r: Result<LoadBalancer>)
      modifies this`journal
      ensures Asked(old(journal), journal, ReadLb(id)) && (r.Ok? <==> LastAnswer(journal).None?)
      ensures r.Err? ==> (IsNotFound(r.error) <==> Missing(LastAnswer(journal)))
      ensures r.Ok? ==> First(LbWithId(id), cloud.lbs) == Some(r.value)
      ensures Clean(old(journal), journal) && r.Err? ==> IsNotFound(r.error) && First(LbWithId(id), cloud.lbs).None?
    {
      var found := FindFirst(LbWithId(id), cloud.lbs);
      var e, _ := Ask(ReadLb(id), found.None?);
      if e.Some? {
        MissingIsNotFound(e.value);
      }
      r := if e.Some? then Err(Wrap("", e.value)) else Ok(found.value);
    }

    method FindLoadBalancerByName(name: string) returns (r: Result<Option<LoadBalancer>>)
      modifies this`journal
      ensures LooksUp(old(journal), journal, Lookup(name, if r.Ok? then r.value else None, r.Err?))
      ensures old(journal).faults <= journal.faults && (Clean(old(journal), journal) ==> r.Ok?)
      ensures r.Ok? ==> r.value == First(ListedNamed(name), cloud.lbs)
    {
      var e := Read();
      if e.Some? {
        journal := journal.(lookups := journal.lookups + [Lookup(name, None, true)]);
        return Err(Wrap("", e.value));
      }
      var found := FindFirst(ListedNamed(name), cloud.lbs);
      journal := journal.(lookups := journal.lookups + [Lookup(name, found, false)]);
      r := Ok(found);
    }

    /** Time passes: load balancers whose creation was still in flight may appear in the list. */
    method Wait(seconds: nat)
      modifies this
      ensures journal == old(journal).(slept := old(journal).slept + seconds)
      ensures cloud == old(cloud).(lbs := cloud.lbs)
      ensures |cloud.lbs| == |old(cloud).lbs| && Appeared(old(cloud).lbs, cloud.lbs)
    {
      var shown: set<string> := *;
      var s := cloud.lbs;
      cloud := cloud.(lbs := seq(|s|, i requires 0 <= i < |s| => s[i].(listed := s[i].listed || s[i].id in shown)));
      journal := journal.(slept := journal.slept + seconds);
    }

    /** The polling loop after the POST: ten lookups with growing pauses. */
    method PollForLoadBalancer(name: string) returns (r: Result<LoadBalancer>)
      modifies this
      ensures cloud == old(cloud).(lbs := cloud.lbs) && |cloud.lbs| == |old(cloud).lbs|
        && Appeared(old(cloud).lbs, cloud.lbs)
      ensures journal == old(journal).(faults := journal.faults, slept := journal.slept, lookups := journal.lookups)
      ensures old(journal).faults <= journal.faults
      ensures journal.slept <= old(journal).slept + 10 * 62 + 110
      ensures Polled(old(journal), journal, name, r)
      ensures r.Ok? ==> First(ListedNamed(name), cloud.lbs) == Some(r.value)
      ensures Clean(old(journal), journal) && old(First(ListedNamed(name), cloud.lbs).Some?) ==> r.Ok?
    {
      hide Polled, NoneShown;
      ghost var j := journal;
      for attempt := 0 to 10
        invariant cloud == old(cloud).(lbs := cloud.lbs) && |cloud.lbs| == |old(cloud).lbs|
        && Appeared(old(cloud).lbs, cloud.lbs)
        invariant Polling(j, journal, name, attempt)
        invariant attempt > 0 && Clean(j, journal) ==> old(First(ListedNamed(name), cloud.lbs).None?)
      {
        hide Polling, LooksUp;
        ghost var k := journal;
        var found := FindLoadBalancerByName(name);
        ghost var l := journal;
        if found.Err? {
          r := Err(Wrap("", found.error));
          PollEnds(j, k, l, name, attempt, Lookup(name, None, true), r);
          return;
        }
        if found.value.Some? {
          r := Ok(found.value.value);
          PollEnds(j, k, l, name, attempt, Lookup(name, found.value, false), r);
          return;
        }
        Wait(2 * (attempt + 1));
        PollMisses(j, k, l, journal, name, attempt);
      }
      r := Err(Text("not listed"));
      PollGivesUp(j, journal, name, r.error);
    }

    /** The POST answers with a task, not with the load balancer. */
    method PostLoadBalancer(name: string, network: string) returns (e: Option<Error>)
      modifies this
      ensures cloud == old(cloud).(lbs := cloud.lbs, issued := cloud.issued) && old(cloud).issued <= cloud.issued
      ensures LbsGrew(old(cloud), cloud, name, network)
      ensures Writes(old(journal), journal)
      ensures Count(LbNamed(name), cloud.lbs) <= Count(LbNamed(name), old(cloud).lbs) + Cap(old(journal), journal)
      ensures e.None? ==> |old(cloud).lbs| < |cloud.lbs|
      ensures Clean(old(journal), journal) ==> e.None?
    {
      var k;
      k, e := Write();
      var ids := FreshIds(k);
      var status: string, listed: bool := *, *;
      var made := seq(k, i requires 0 <= i < k =>
        LoadBalancer(ids[i], name, status, "", network, None, listed, false));
      cloud := cloud.(lbs := cloud.lbs + made);
      NamedAdded(name, old(cloud).lbs, cloud.lbs);
    }

    method PostAndPoll(name: string, network: string) returns (r: Result<LoadBalancer>)
      modifies this
      ensures cloud == old(cloud).(lbs := cloud.lbs, issued := cloud.issued) && old(cloud).issued <= cloud.issued
      ensures LbsGrew(old(cloud), cloud, name, network)
      ensures Count(LbNamed(name), cloud.lbs) <= Count(LbNamed(name), old(cloud).lbs) + Cap(old(journal), journal)
      ensures journal == old(journal).(faults := journal.faults, slept := journal.slept, lost := journal.lost,
                                       writes := journal.writes, lookups := journal.lookups)
      ensures Later(old(journal), journal) && old(journal).faults <= journal.faults
      ensures journal.slept <= old(journal).slept + 11 * 62 + 110
      ensures if r.Err? && journal.lookups == old(journal).lookups then !Clean(old(journal), journal)
              else Polled(old(journal), journal, name, r)
      ensures r.Ok? ==> First(ListedNamed(name), cloud.lbs) == Some(r.value)
      ensures Clean(old(journal), journal) && r.Err? ==> exists l | l in cloud.lbs :: l.name == name
    {
      hide Polled, LbsGrew, Appeared, LbNamed, Later, Writes, ListedNamed;
      ghost var j := journal;
      var error := PostLoadBalancer(name, network);
      ghost var d, k := cloud, journal;
      NotPosted(j, k);
      if error.Some? {
        r := Err(Wrap("", error.value));
      } else {
        r := PollForLoadBalancer(name);
        PostedThenPolled(j, k, journal, name, r);
        PostedThenAppeared(old(cloud), d, cloud, name, network);
      }
    }

    /**
     * Idempotent asynchronous create: look the name up, POST only when it was not seen, then poll.
     * A failed lookup does not stop the POST; it is journalled, and so is one that ran while the
     * list still hid a load balancer of the name.
     */
    method CreateLoadBalancer(name: string, network: string) returns (r: Result<LoadBalancer>)
      modifies this
      ensures cloud == old(cloud).(lbs := cloud.lbs, issued := cloud.issued) && old(cloud).issued <= cloud.issued
      ensures LbsGrew(old(cloud), cloud, name, network)
      ensures journal == old(journal).(faults := journal.faults, slept := journal.slept, lost := journal.lost,
                                       writes := journal.writes, failedLookups := journal.failedLookups,
                                       hiddenLookups := journal.hiddenLookups, lookups := journal.lookups)
      ensures Later(old(journal), journal)
      ensures journal.failedLookups <= old(journal).failedLookups + 1
      ensures HidesOnly(old(cloud).lbs, name, old(journal).hiddenLookups, journal.hiddenLookups)
      ensures journal.slept <= old(journal).slept + 854
      ensures CreatePolled(old(journal), journal, name, r)
      ensures FindOrCreate(LbTally(old(cloud), old(journal), name), LbTally(cloud, journal, name))
      ensures r.Ok? ==> First(ListedNamed(name), cloud.lbs) == Some(r.value)
      ensures Clean(old(journal), journal) && old(First(ListedNamed(name), cloud.lbs).Some?) ==>
                r.Ok? && cloud == old(cloud) && journal.writes == old(journal).writes
      ensures Clean(old(journal), journal) && r.Err? ==> exists l | l in cloud.lbs :: l.name == name
    {
      hide Polled, CreatePolled, LbsGrew, FindOrCreate, LbTally, Later, LooksUp, LbNamed, ListedNamed;
      ghost var c, j := cloud, journal;
      var existing := FindLoadBalancerByName(name);
      ghost var k := journal;
      if existing.Ok? && existing.value.Some? {
        r := Ok(existing.value.value);
        FoundAtOnce(c, j, k, name, network, r.value);
      } else {
        if existing.Err? {
          journal := journal.(failedLookups := journal.failedLookups + 1);
        } else if Count(LbNamed(name), cloud.lbs) != 0 {
          HiddenExists(cloud.lbs, name);
          journal := journal.(hiddenLookups := journal.hiddenLookups + 1);
        }
        ghost var m := journal;
        LookedUpBefore(j, k, m, Lookup(name, None, existing.Err?));
        r := PostAndPoll(name, network);
        LookedUpThenPosted(c, j, m, cloud, journal, name);
        FoundLater(j, k, Lookup(name, None, existing.Err?), m, journal, name, r);
      }
    }

    method ListLoadBalancersByPrefix(prefix: string) returns (r: Result<seq<LoadBalancer>>)
      modifies this`journal
      ensures Reads(old(journal), journal)
      ensures Clean(old(journal), journal) ==> r.Ok?
      ensures r.Ok? ==> forall l :: l in r.value <==> l in cloud.lbs && l.listed && prefix <= l.name
    {
      var e := Read();
      if e.Some? {
        return Err(Wrap("", e.value));
      }
      var matched := [];
      for i := 0 to |cloud.lbs|
        invariant forall l :: l in matched <==> l in cloud.lbs[..i] && l.listed && prefix <= l.name
      {
        if cloud.lbs[i].listed && prefix <= cloud.lbs[i].name {
          matched := matched + [cloud.lbs[i]];
        }
        assert cloud.lbs[..i + 1] == cloud.lbs[..i] + [cloud.lbs[i]];
      }
      assert cloud.lbs[..|cloud.lbs|] == cloud.lbs;
      r := Ok(matched);
    }

    /** A load balancer already pending deletion answers with a conflict, which counts as accepted. */
    method DeleteLoadBalancer(id: string) returns (e: Option<Error>)
      modifies this
      ensures Ordered(old(journal), journal, DeleteLb(id))
      ensures e.None? <==> Accepted(DeleteLb(id), LastAnswer(journal))
      ensures cloud == old(cloud) || cloud == old(cloud).(lbs := MarkedLbs(old(cloud).lbs, id))
      ensures Clean(old(journal), journal) ==> e.None? && cloud == old(cloud).(lbs := MarkedLbs(old(cloud).lbs, id))
    {
      var k;
      k, e := Order(DeleteLb(id), None);
      if k > 0 {
        cloud := cloud.(lbs := MarkedLbs(cloud.lbs, id));
      }
      if e.Some? {
        MissingIsNotFound(e.value);
        e := if IsNotFound(e.value) || IsAlreadyDeleting(e.value) then None else Some(Wrap("", e.value));
      }
    }

    // ----- floating IPs and gateways

    method ListFloatingIPs() returns (r: Result<seq<FloatingIP>>)
      modifies this`journal
      ensures r.Ok? ==> Reads(old(journal), journal) && r.value == cloud.fips
      ensures r.Err? ==> Reads(old(journal).(fipListFailures := old(journal).fipListFailures + 1), journal)
      ensures Clean(old(journal), journal) ==> r.Ok?
    {
      var e := Read();
      if e.Some? {
        journal := journal.(fipListFailures := journal.fipListFailures + 1);
        return Err(Wrap("", e.value));
      }
      r := Ok(cloud.fips);
    }

    /** A missing object is reported as a not-found API error. Every read is journalled. */
    method GetFloatingIP(id: string) returns (r: Result<FloatingIP>, ghost read: FipRead)
      modifies this`journal
      ensures Asked(old(journal).(fipReads := old(journal).fipReads + [read]), journal, ReadFip(id))
      ensures r.Ok? <==> LastAnswer(journal).None?
      ensures r.Err? ==> (IsNotFound(r.error) <==> Missing(LastAnswer(journal)))
      ensures read.id == id && (read.failed ==> read.seen.None? && !Clean(old(journal), journal))
      ensures !read.failed ==> read.seen == First(FipWithId(id), cloud.fips)
      ensures r.Ok? <==> !read.failed && read.seen.Some?
      ensures r.Ok? ==> read.seen == Some(r.value)
      ensures Clean(old(journal), journal) && r.Err? ==> IsNotFound(r.error)
    {
      var found := FindFirst(FipWithId(id), cloud.fips);
      var e, failed := Ask(ReadFip(id), found.None?);
      read := FipRead(id, if failed then None else found, failed);
      journal := journal.(fipReads := journal.fipReads + [read]);
      if e.Some? {
        MissingIsNotFound(e.value);
      }
      r := if e.Some? then Err(Wrap("", e.value)) else Ok(found.value);
    }

    /**
     * Allocates a floating IP on the load balancer, and a gateway on its network if it has none.
     * The record returned carries a placeholder ID that never names a floating IP; the load
     * balancer's own record may or may not show the allocation yet.
     */
    method CreateLoadBalancerFloatingIP(lbID: string, vip: string, gwName: string) returns (r: Result<FloatingIP>)
      requires ValidFips(cloud)
      modifies this
      ensures cloud == old(cloud).(fips := cloud.fips, gateways := cloud.gateways, lbs := cloud.lbs,
                                   issued := cloud.issued)
      ensures FipsGrew(old(cloud), cloud, lbID, gwName)
      ensures ValidFips(cloud)
      ensures |cloud.fips| <= |old(cloud).fips| + Cap(old(journal), journal)
      ensures r.Ok? ==> |old(cloud).fips| < |cloud.fips| && Fresh(r.value.id, old(cloud), cloud)
      ensures r.Ok? ==> forall f | f in cloud.fips :: f.id != r.value.id
      ensures Writes(old(journal), journal)
      ensures Clean(old(journal), journal) && r.Err? ==> First(LbWithId(lbID), old(cloud).lbs).None?
    {
      var k, e := Write();
      var lb := FindFirst(LbWithId(lbID), cloud.lbs);
      if lb.None? {
        return Err(Wrap("", NO_OBJECT));
      }
      AllocateFips(k, lb.value, gwName);
      if e.Some? {
        return Err(Wrap("", e.value));
      }
      var placeholder := FreshIds(1);
      r := Ok(FloatingIP(placeholder[0], "", "", Some(lbID)));
    }

    /** The service's side of an allocation that reached it `k` times. */
    method AllocateFips(k: nat, lb: LoadBalancer, gwName: string)
      requires ValidFips(cloud)
      modifies this`cloud
      ensures cloud == old(cloud).(fips := cloud.fips, gateways := cloud.gateways, lbs := cloud.lbs,
                                   issued := cloud.issued)
      ensures FipsGrew(old(cloud), cloud, lb.id, gwName)
      ensures ValidFips(cloud)
      ensures |cloud.fips| == |old(cloud).fips| + k
    {
      var ids := FreshIds(k + 1);
      var ip: string, status: string, shown: bool := *, *, *;
      var made := seq(k, i requires 0 <= i < k => FloatingIP(ids[i], ip, status, Some(lb.id)));
      var routed := exists g | g in cloud.gateways :: g.network == lb.network;
      var gateway := if k == 0 || routed then [] else [Gateway(ids[k], gwName, lb.network, false, false)];
      var linked := if k == 0 || !shown then cloud.lbs else LinkedLbs(cloud.lbs, lb.id, FipRef(ids[0], ip));
      cloud := cloud.(fips := cloud.fips + made, gateways := cloud.gateways + gateway, lbs := linked);
    }

    /** While the floating IP is attached, a delete only detaches it; the service reaps a detached one later. */
    method DeleteFloatingIP(id: string) returns (e: Option<Error>)
      modifies this
      ensures Writes(old(journal), journal)
      ensures cloud == old(cloud) || cloud == old(cloud).(fips := DetachedFips(old(cloud).fips, id))
      ensures Clean(old(journal), journal) ==>
                e.None? && cloud == old(cloud).(fips := DetachedFips(old(cloud).fips, id))
    {
      var k;
      k, e := Write();
      if k > 0 {
        cloud := cloud.(fips := DetachedFips(cloud.fips, id));
      }
      if e.Some? {
        e := if IsNotFound(e.value) then None else Some(Wrap("", e.value));
      }
    }

    method ListGateways() returns (r: Result<seq<Gateway>>)
      modifies this`journal
      ensures Reads(old(journal), journal)
      ensures Clean(old(journal), journal) ==> r.Ok?
      ensures r.Ok? ==> r.value == cloud.gateways
    {
      var e := Read();
      r := if e.Some? then Err(Wrap("", e.value)) else Ok(cloud.gateways);
    }

    /** Exposing an exposed gateway is a conflict, which counts as success. */
    method ExposeGateway(id: string) returns (e: Option<Error>)
      modifies this
      ensures Ordered(old(journal), journal, Request.ExposeGateway(id))
      ensures e.None? <==> Accepted(Request.ExposeGateway(id), LastAnswer(journal))
      ensures cloud == old(cloud) || cloud == old(cloud).(gateways := ExposedGateways(old(cloud).gateways, id))
      ensures Clean(old(journal), journal) ==>
                && cloud.gateways == ExposedGateways(old(cloud).gateways, id)
                && (e.None? <==> exists g | g in cloud.gateways :: g.id == id)
    {
      var missing := !exists g | g in cloud.gateways :: g.id == id;
      var k;
      k, e := Order(Request.ExposeGateway(id), if missing then Some(NO_OBJECT) else None);
      if k > 0 {
        cloud := cloud.(gateways := ExposedGateways(cloud.gateways, id));
      }
      ExposedSameIDs(old(cloud).gateways, id);
      if e.Some? {
        e := if IsConflict(e.value) then None else Some(Wrap("", e.value));
      }
    }

    method DeleteGateway(id: string) returns (e: Option<Error>)
      modifies this
      ensures Writes(old(journal), journal)
      ensures cloud == old(cloud) || cloud == old(cloud).(gateways := MarkedGateways(old(cloud).gateways, id))
      ensures Clean(old(journal), journal) ==>
                e.None? && cloud == old(cloud).(gateways := MarkedGateways(old(cloud).gateways, id))
    {
      var k;
      k, e := Write();
      if k > 0 {
        cloud := cloud.(gateways := MarkedGateways(cloud.gateways, id));
      }
      if e.Some? {
        e := if IsNotFound(e.value) then None else Some(Wrap("", e.value));
      }
    }

    // ----- instances and pool members

    method FindInstanceByName(name: string) returns (r: Result<Option<Instance>>)
      modifies this`journal
      ensures Reads(old(journal), journal)
      ensures Clean(old(journal), journal) ==> r.Ok?
      ensures r.Ok? ==> r.value == First(InstanceNamed(name), cloud.instances)
    {
      var e := Read();
      if e.Some? {
        return Err(Wrap("", e.value));
      }
      var found := FindFirst(InstanceNamed(name), cloud.instances);
      r := Ok(found);
    }

    /** A missing object is reported as a not-found API error. */
    method GetInstance(id: string) returns (r: Result<Instance>)
      modifies this`journal
      ensures Asked(old(journal), journal, ReadInstance(id)) && (r.Ok? <==> LastAnswer(journal).None?)
      ensures r.Err? ==> (IsNotFound(r.error) <==> Missing(LastAnswer(journal)))
      ensures r.Ok? ==> First(InstanceWithId(id), cloud.instances) == Some(r.value)
      ensures Clean(old(journal), journal) && r.Err? ==>
                IsNotFound(r.error) && First(InstanceWithId(id), cloud.instances).None?
    {
      var found := FindFirst(InstanceWithId(id), cloud.instances);
      var e, _ := Ask(ReadInstance(id), found.None?);
      if e.Some? {
        MissingIsNotFound(e.value);
      }
      r := if e.Some? then Err(Wrap("", e.value)) else Ok(found.value);
    }

    method CreateInstance(name: string) returns (r: Result<Instance>)
      modifies this
      ensures Writes(old(journal), journal)
      ensures cloud == old(cloud).(instances := cloud.instances, issued := cloud.issued)
      ensures old(cloud).issued <= cloud.issued
      ensures Grew(old(cloud).instances, cloud.instances, old(journal), journal)
      ensures forall i | |old(cloud).instances| <= i < |cloud.instances| ::
                var x := cloud.instances[i];
                x.name == name && Fresh(x.id, old(cloud), cloud)
      ensures r.Ok? ==> |old(cloud).instances| < |cloud.instances| && r.value == cloud.instances[|cloud.instances| - 1]
      ensures Clean(old(journal), journal) ==> r.Ok?
    {
      var k, e := Write();
      var ids := FreshIds(k);
      var status: string, addresses: seq<Address> := *, *;
      var made := seq(k, i requires 0 <= i < k => Instance(ids[i], name, status, addresses));
      cloud := cloud.(instances := cloud.instances + made);
      r := if e.Some? then Err(Wrap("", e.value)) else Ok(made[k - 1]);
    }

    method DeleteInstance(id: string) returns (e: Option<Error>)
      modifies this
      ensures Ordered(old(journal), journal, Request.DeleteInstance(id))
      ensures e.None? <==> Accepted(Request.DeleteInstance(id), LastAnswer(journal))
      ensures cloud == old(cloud) || cloud == old(cloud).(instances := TerminatingInstances(old(cloud).instances, id))
      ensures Clean(old(journal), journal) ==>
                e.None? && cloud == old(cloud).(instances := TerminatingInstances(old(cloud).instances, id))
    {
      var k;
      k, e := Order(Request.DeleteInstance(id), None);
      if k > 0 {
        cloud := cloud.(instances := TerminatingInstances(cloud.instances, id));
      }
      if e.Some? {
        MissingIsNotFound(e.value);
        e := if IsNotFound(e.value) then None else Some(Wrap("", e.value));
      }
    }

    method DetachVolume(id: string, instanceID: string) returns (e: Option<Error>)
      modifies this`journal
      ensures Ordered(old(journal), journal, Request.DetachVolume(id, instanceID))
      ensures e.None? <==> Accepted(Request.DetachVolume(id, instanceID), LastAnswer(journal))
      ensures Clean(old(journal), journal) ==> e.None?
    {
      var effects;
      effects, e := Order(Request.DetachVolume(id, instanceID), None);
      if e.Some? {
        MissingIsNotFound(e.value);
        e := if IsNotFound(e.value) then None else Some(Wrap("", e.value));
      }
    }

    method DeleteVolume(id: string) returns (e: Option<Error>)
      modifies this`journal
      ensures Ordered(old(journal), journal, Request.DeleteVolume(id))
      ensures e.None? <==> Accepted(Request.DeleteVolume(id), LastAnswer(journal))
      ensures Clean(old(journal), journal) ==> e.None?
    {
      var effects;
      effects, e := Order(Request.DeleteVolume(id), None);
      if e.Some? {
        MissingIsNotFound(e.value);
        e := if IsNotFound(e.value) then None else Some(Wrap("", e.value));
      }
    }

    method ListPoolMembers(poolID: string) returns (r: Result<seq<Member>>)
      modifies this`journal
      ensures r.Ok? ==> Reads(old(journal), journal) && r.value == Keep(InPool(poolID), cloud.members)
      ensures r.Err? ==> Reads(old(journal).(memberListFailures := old(journal).memberListFailures + 1), journal)
      ensures Clean(old(journal), journal) ==> r.Ok?
    {
      var e := Read();
      if e.Some? {
        journal := journal.(memberListFailures := journal.memberListFailures + 1);
        return Err(Wrap("", e.value));
      }
      r := Ok(Keep(InPool(poolID), cloud.members));
    }

    method AddPoolMember(poolID: string, address: string, port: int) returns (r: Result<Member>)
      modifies this
      ensures Writes(old(journal), journal)
      ensures cloud == old(cloud).(members := cloud.members, issued := cloud.issued)
      ensures old(cloud).issued <= cloud.issued
      ensures Grew(old(cloud).members, cloud.members, old(journal), journal)
      ensures forall i | |old(cloud).members| <= i < |cloud.members| ::
                var x := cloud.members[i];
                x.poolID == poolID && x.address == address && x.port == port && Fresh(x.id, old(cloud), cloud)
      ensures r.Ok? ==> |old(cloud).members| < |cloud.members| && r.value == cloud.members[|cloud.members| - 1]
      ensures Clean(old(journal), journal) ==> r.Ok?
    {
      var k, e := Write();
      var ids := FreshIds(k);
      var made := seq(k, i requires 0 <= i < k => Member(ids[i], poolID, address, port));
      cloud := cloud.(members := cloud.members + made);
      r := if e.Some? then Err(Wrap("", e.value)) else Ok(made[k - 1]);
    }

    method RemovePoolMember(poolID: string, id: string) returns (e: Option<Error>)
      modifies this
      ensures Ordered(old(journal), journal, DeleteMember(poolID, id))
      ensures e.None? <==> Accepted(DeleteMember(poolID, id), LastAnswer(journal))
      ensures cloud == old(cloud)
              || cloud == old(cloud).(members := Keep((x: Member) => !(x.poolID == poolID && x.id == id),
                                                      old(cloud).members))
      ensures Clean(old(journal), journal) ==>
                e.None? && cloud == old(cloud).(members := Keep((x: Member) => !(x.poolID == poolID && x.id == id),
                                                                old(cloud).members))
    {
      var k;
      k, e := Order(DeleteMember(poolID, id), None);
      if k > 0 {
        cloud := cloud.(members := Keep((x: Member) => !(x.poolID == poolID && x.id == id), cloud.members));
      }
      if e.Some? {
        MissingIsNotFound(e.value);
        e := if IsNotFound(e.value) then None else Some(Wrap("", e.value));
      }
    }

    // ----- security groups and DNS

    method ListSecurityGroups() returns (r: Result<seq<SecurityGroup>>)
      modifies this`journal
      ensures Reads(old(journal), journal)
      ensures Clean(old(journal), journal) ==> r.Ok?
      ensures r.Ok? ==> r.value == cloud.groups
    {
      var e := Read();
      r := if e.Some? then Err(Wrap("", e.value)) else Ok(cloud.groups);
    }

    method CreateSecurityGroup(name: string) returns (r: Result<SecurityGroup>)
      modifies this
      ensures Writes(old(journal), journal)
      ensures cloud == old(cloud).(groups := cloud.groups, issued := cloud.issued)
      ensures old(cloud).issued <= cloud.issued
      ensures Grew(old(cloud).groups, cloud.groups, old(journal), journal)
      ensures forall i | |old(cloud).groups| <= i < |cloud.groups| ::
                var x := cloud.groups[i];
                x.name == name && Fresh(x.id, old(cloud), cloud)
      ensures r.Ok? ==> |old(cloud).groups| < |cloud.groups| && r.value == cloud.groups[|cloud.groups| - 1]
      ensures Clean(old(journal), journal) ==> r.Ok?
    {
      var k, e := Write();
      var ids := FreshIds(k);
      var made := seq(k, i requires 0 <= i < k => SecurityGroup(ids[i], name));
      cloud := cloud.(groups := cloud.groups + made);
      r := if e.Some? then Err(Wrap("", e.value)) else Ok(made[k - 1]);
    }

    method DeleteSecurityGroup(id: string) returns (e: Option<Error>)
      modifies this
      ensures Ordered(old(journal), journal, DeleteGroup(id))
      ensures e.None? <==> Accepted(DeleteGroup(id), LastAnswer(journal))
      ensures cloud == old(cloud)
              || cloud == old(cloud).(groups := Keep((x: SecurityGroup) => x.id != id, old(cloud).groups))
      ensures Clean(old(journal), journal) ==>
                e.None? && cloud == old(cloud).(groups := Keep((x: SecurityGroup) => x.id != id, old(cloud).groups))
    {
      var k;
      k, e := Order(DeleteGroup(id), None);
      if k > 0 {
        cloud := cloud.(groups := Keep((x: SecurityGroup) => x.id != id, cloud.groups));
      }
      if e.Some? {
        MissingIsNotFound(e.value);
        e := if IsNotFound(e.value) then None else Some(Wrap("", e.value));
      }
    }

    /** Rules and zone refreshes change nothing the model observes. */
    method UnobservedWrite() returns (e: Option<Error>)
      modifies this`journal
      ensures Writes(old(journal), journal)
      ensures Clean(old(journal), journal) ==> e.None?
    {
      var effects;
      effects, e := Write();
    }

    method DeleteDNSRecord(number: int) returns (e: Option<Error>)
      modifies this`journal
      ensures Ordered(old(journal), journal, DeleteRecord(number))
      ensures e.None? <==> Accepted(DeleteRecord(number), LastAnswer(journal))
      ensures Clean(old(journal), journal) ==> e.None?
    {
      var effects;
      effects, e := Order(DeleteRecord(number), None);
      if e.Some? {
        MissingIsNotFound(e.value);
        e := if IsNotFound(e.value) then None else Some(Wrap("", e.value));
      }
    }

    method CreateDNSRecord() returns (r: Result<int>)
      modifies this
      ensures Writes(old(journal), journal)
      ensures cloud == old(cloud).(records := cloud.records)
      ensures r.Ok? ==> old(cloud).records < cloud.records && r.value == cloud.records
      ensures Clean(old(journal), journal) ==> r.Ok?
    {
      var k, e := Write();
      cloud := cloud.(records := cloud.records + k);
      r := if e.Some? then Err(Wrap("", e.value)) else Ok(cloud.records);
    }
  }
}
