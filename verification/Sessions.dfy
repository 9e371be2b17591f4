/** Sessions as rows: each ends some time after its last use, and at a fixed time however much it is used (db/SessionStore.ts). */
module Sessions {
  import opened Prelude

  type Hash = string
  type UserId = string

  datatype Options = Options(idleMs: nat, maxMs: nat)

  /** How old `last_seen_at` may get before a use rewrites it. */
  const TOUCH_AFTER_MS := 60_000

  datatype Session = Session(userId: UserId, lastSeen: nat, expires: nat)

  datatype Table = Table(sessions: map<Hash, Session>, active: set<UserId>)

  datatype Op =
    | Create(hash: Hash, user: UserId, now: nat)
    | Resolve(hash: Hash, now: nat)
    | Destroy(hash: Hash, now: nat)
    | DestroyAll(user: UserId, now: nat)
    | Purge(now: nat)
    | Enable(user: UserId, now: nat)
    | Disable(user: UserId, now: nat)

  predicate Dead(o: Options, s: Session, now: nat) { s.expires <= now || s.lastSeen + o.idleMs <= now }

  /** The user a session answers with, if it does. */
  function Answer(o: Options, t: Table, hash: Hash, now: nat): Option<UserId> {
    if hash in t.sessions && t.sessions[hash].userId in t.active && !Dead(o, t.sessions[hash], now)
    then Some(t.sessions[hash].userId) else None
  }

  function Touched(o: Options, t: Table, hash: Hash, now: nat): Table {
    if Answer(o, t, hash, now).Some? && now - t.sessions[hash].lastSeen > TOUCH_AFTER_MS
    then t.(sessions := t.sessions[hash := t.sessions[hash].(lastSeen := now)]) else t
  }

  function Others(sessions: map<Hash, Session>, user: UserId): map<Hash, Session> {
    map h | h in sessions && sessions[h].userId != user :: sessions[h]
  }

  function Alive(o: Options, sessions: map<Hash, Session>, now: nat): map<Hash, Session> {
    map h | h in sessions && !Dead(o, sessions[h], now) :: sessions[h]
  }

  function Apply(o: Options, t: Table, op: Op): Table {
    match op
    case Create(hash, user, now) =>
      if hash in t.sessions then t else t.(sessions := t.sessions[hash := Session(user, now, now + o.maxMs)])
    case Resolve(hash, now) => Touched(o, t, hash, now)
    case Destroy(hash, _) => t.(sessions := t.sessions - {hash})
    case DestroyAll(user, _) => t.(sessions := Others(t.sessions, user))
    case Purge(now) => t.(sessions := Alive(o, t.sessions, now))
    case Enable(user, _) => t.(active := t.active + {user})
    case Disable(user, _) => Table(Others(t.sessions, user), t.active - {user})
  }

  function After(o: Options, ops: seq<Op>): Table {
    if ops == [] then Table(map[], {}) else Apply(o, After(o, ops[..|ops| - 1]), ops[|ops| - 1])
  }

  ghost predicate Clocked(ops: seq<Op>) { forall i, j :: 0 <= i < j < |ops| ==> ops[i].now <= ops[j].now }

  function Clock(ops: seq<Op>): nat { if ops == [] then 0 else ops[|ops| - 1].now }

  // ─── The last use ──────────────────────────────────────────────────────────

  /** When the session was created or last answered. */
  function LastUse(o: Options, ops: seq<Op>, hash: Hash): nat {
    if ops == [] then 0
    else
      var init, op := ops[..|ops| - 1], ops[|ops| - 1];
      if op.Create? && op.hash == hash && hash !in After(o, init).sessions then op.now
      else if op.Resolve? && op.hash == hash && Answer(o, After(o, init), hash, op.now).Some? then op.now
      else LastUse(o, init, hash)
  }

  /** `last_seen_at` is never ahead of the last use, and never more than a minute behind it. */
  lemma {:induction false} SeenNearLastUse(o: Options, ops: seq<Op>, hash: Hash)
    requires Clocked(ops) && hash in After(o, ops).sessions
    ensures After(o, ops).sessions[hash].lastSeen <= LastUse(o, ops, hash) <= After(o, ops).sessions[hash].lastSeen + TOUCH_AFTER_MS
    ensures LastUse(o, ops, hash) <= Clock(ops)
  {
    if ops != [] {
      var init := ops[..|ops| - 1];
      if hash in After(o, init).sessions {
        SeenNearLastUse(o, init, hash);
        assert init == [] || init[|init| - 1] == ops[|ops| - 2];
      }
    }
  }

  /** A session unused for `idleMs` is refused, whatever else happened. */
  lemma UnusedIsRefused(o: Options, ops: seq<Op>, hash: Hash, now: nat)
    requires Clocked(ops) && Clock(ops) <= now && LastUse(o, ops, hash) + o.idleMs <= now
    ensures Answer(o, After(o, ops), hash, now) == None
  {
    if hash in After(o, ops).sessions {
      SeenNearLastUse(o, ops, hash);
    }
  }

  predicate Spares(op: Op, hash: Hash, user: UserId) {
    !(op.Destroy? && op.hash == hash) && !((op.DestroyAll? || op.Disable?) && op.user == user)
  }

  /** Nothing ends the session or its user from position `from` on. */
  ghost predicate LeftAlone(ops: seq<Op>, hash: Hash, user: UserId, from: nat) {
    forall k :: from <= k < |ops| ==> Spares(ops[k], hash, user)
  }

  /** The session had been used less than `idleMs` minus a minute before that operation. */
  ghost predicate BusyAt(o: Options, ops: seq<Op>, hash: Hash, k: nat)
    requires k < |ops|
  {
    ops[k].now + TOUCH_AFTER_MS < LastUse(o, ops[..k], hash) + o.idleMs
  }

  ghost predicate KeptBusy(o: Options, ops: seq<Op>, hash: Hash, from: nat) {
    forall k :: from <= k < |ops| ==> BusyAt(o, ops, hash, k)
  }

  ghost predicate StillThere(o: Options, t: Table, hash: Hash, user: UserId, created: nat) {
    && hash in t.sessions && t.sessions[hash].userId == user && t.sessions[hash].expires == created + o.maxMs
    && user in t.active
  }

  /** A session touched recently enough, of an active user, answers. */
  lemma LiveAnswers(o: Options, t: Table, hash: Hash, user: UserId, created: nat, used: nat, now: nat)
    requires StillThere(o, t, hash, user, created) && used <= t.sessions[hash].lastSeen + TOUCH_AFTER_MS
    requires now + TOUCH_AFTER_MS < used + o.idleMs && now < created + o.maxMs
    ensures Answer(o, t, hash, now) == Some(user)
  {
  }

  lemma OpSpares(o: Options, t: Table, op: Op, hash: Hash, user: UserId, created: nat)
    requires StillThere(o, t, hash, user, created) && Answer(o, t, hash, op.now) == Some(user)
    requires Spares(op, hash, user)
    ensures StillThere(o, Apply(o, t, op), hash, user, created)
  {
  }

  lemma {:induction false} BusyStays(o: Options, ops: seq<Op>, hash: Hash, c: nat, k: nat)
    requires Clocked(ops) && c < k <= |ops|
    requires ops[c].Create? && ops[c].hash == hash && hash !in After(o, ops[..c]).sessions && ops[c].user in After(o, ops[..c]).active
    requires LeftAlone(ops, hash, ops[c].user, c + 1) && KeptBusy(o, ops, hash, c + 1)
    requires ops[k - 1].now < ops[c].now + o.maxMs || k == c + 1
    ensures StillThere(o, After(o, ops[..k]), hash, ops[c].user, ops[c].now)
    decreases k
  {
    AfterNext(o, ops, k - 1);
    if k > c + 1 {
      BusyStays(o, ops, hash, c, k - 1);
      assert BusyAt(o, ops, hash, k - 1);
      BusyAnswers(o, ops[..k - 1], hash, ops[c].user, ops[c].now, ops[k - 1].now);
      OpSpares(o, After(o, ops[..k - 1]), ops[k - 1], hash, ops[c].user, ops[c].now);
    }
  }

  lemma AfterNext(o: Options, ops: seq<Op>, k: nat)
    requires k < |ops|
    ensures After(o, ops[..k + 1]) == Apply(o, After(o, ops[..k]), ops[k])
  {
    assert ops[..k + 1][..k] == ops[..k];
  }

  lemma BusyAnswers(o: Options, ops: seq<Op>, hash: Hash, user: UserId, created: nat, now: nat)
    requires Clocked(ops) && StillThere(o, After(o, ops), hash, user, created)
    requires now + TOUCH_AFTER_MS < LastUse(o, ops, hash) + o.idleMs && now < created + o.maxMs
    ensures Answer(o, After(o, ops), hash, now) == Some(user)
  {
    SeenNearLastUse(o, ops, hash);
    LiveAnswers(o, After(o, ops), hash, user, created, LastUse(o, ops, hash), now);
  }

  /**
   * A session of an active user that nothing ends, used at least every `idleMs` minus a minute, answers until its
   * absolute expiry, through any purges.
   */
  lemma BusyIsAccepted(o: Options, ops: seq<Op>, hash: Hash, c: nat, now: nat)
    requires Clocked(ops) && c < |ops| && Clock(ops) <= now
    requires ops[c].Create? && ops[c].hash == hash && hash !in After(o, ops[..c]).sessions && ops[c].user in After(o, ops[..c]).active
    requires LeftAlone(ops, hash, ops[c].user, c + 1) && KeptBusy(o, ops, hash, c + 1)
    requires now + TOUCH_AFTER_MS < LastUse(o, ops, hash) + o.idleMs && now < ops[c].now + o.maxMs
    ensures Answer(o, After(o, ops), hash, now) == Some(ops[c].user)
  {
    assert ops[..|ops|] == ops;
    BusyStays(o, ops, hash, c, |ops|);
    BusyAnswers(o, ops, hash, ops[c].user, ops[c].now, now);
  }

  /**
   * The minute is not slack in the proof: a use exactly a minute after the last touch is not written down, so a
   * session can be refused when it was used less than `idleMs` ago.
   */
  lemma UntouchedUseIsForgotten(o: Options)
    requires TOUCH_AFTER_MS < o.idleMs < o.maxMs
    ensures var ops := [Enable("u", 0), Create("h", "u", 0), Resolve("h", TOUCH_AFTER_MS)];
            && Clocked(ops) && Answers(o, ops) == [Some("u")]
            && LastUse(o, ops, "h") == TOUCH_AFTER_MS
            && Answer(o, After(o, ops), "h", o.idleMs) == None
  {
    var ops := [Enable("u", 0), Create("h", "u", 0), Resolve("h", TOUCH_AFTER_MS)];
    assert ops[..2] == [Enable("u", 0), Create("h", "u", 0)] && ops[..2][..1] == [Enable("u", 0)] && ops[..2][..1][..0] == [];
    assert After(o, ops[..2][..1]) == Table(map[], {"u"});
    assert After(o, ops[..2]) == Table(map["h" := Session("u", 0, o.maxMs)], {"u"});
    assert Answer(o, After(o, ops[..2]), "h", TOUCH_AFTER_MS) == Some("u");
    assert After(o, ops) == After(o, ops[..2]);
    assert Answers(o, ops[..2][..1][..0]) == [] && Answers(o, ops[..2][..1]) == [] && Answers(o, ops[..2]) == [];
  }

  // ─── Exactly how long a session answers ────────────────────────────────────

  /** When a session's token is presented, whatever comes of it. */
  function Uses(ops: seq<Op>, hash: Hash): seq<nat> {
    if ops == [] then []
    else
      var init, op := ops[..|ops| - 1], ops[|ops| - 1];
      Uses(init, hash) + if op.Resolve? && op.hash == hash then [op.now] else []
  }

  /** The last use that is written down, from the times of use alone: more than a minute after the one before, while the session lives. */
  function LastTouch(o: Options, created: nat, uses: seq<nat>): nat {
    if uses == [] then created
    else
      var t, now := LastTouch(o, created, uses[..|uses| - 1]), uses[|uses| - 1];
      if now < t + o.idleMs && now < created + o.maxMs && now - t > TOUCH_AFTER_MS then now else t
  }

  /** The session as its times of use make it: stored like that, or purged because it is over. */
  ghost predicate AsTouched(o: Options, t: Table, hash: Hash, user: UserId, created: nat, touch: nat, clock: nat) {
    var s := Session(user, touch, created + o.maxMs);
    user in t.active && if hash in t.sessions then t.sessions[hash] == s else Dead(o, s, clock)
  }

  predicate NotReissued(op: Op, hash: Hash) { !(op.Create? && op.hash == hash) }

  lemma OpTouches(o: Options, t: Table, op: Op, hash: Hash, user: UserId, created: nat, touch: nat, clock: nat)
    requires AsTouched(o, t, hash, user, created, touch, clock) && clock <= op.now
    requires Spares(op, hash, user) && NotReissued(op, hash)
    ensures var touch' := if op.Resolve? && op.hash == hash && op.now < touch + o.idleMs && op.now < created + o.maxMs
                             && op.now - touch > TOUCH_AFTER_MS then op.now else touch;
            AsTouched(o, Apply(o, t, op), hash, user, created, touch', op.now)
  {
  }

  ghost predicate Issued(o: Options, ops: seq<Op>, hash: Hash, c: nat) {
    && c < |ops| && ops[c].Create? && ops[c].hash == hash
    && hash !in After(o, ops[..c]).sessions && ops[c].user in After(o, ops[..c]).active
    && (forall k :: c < k < |ops| ==> NotReissued(ops[k], hash))
  }

  /** The last use written down among the operations from `c` to `k`. */
  function TouchBy(o: Options, ops: seq<Op>, hash: Hash, c: nat, k: nat): nat
    requires c < k <= |ops|
  {
    LastTouch(o, ops[c].now, Uses(ops[c + 1..k], hash))
  }

  ghost predicate TouchedBy(o: Options, ops: seq<Op>, hash: Hash, c: nat, k: nat)
    requires c < k <= |ops| && ops[c].Create?
  {
    AsTouched(o, After(o, ops[..k]), hash, ops[c].user, ops[c].now, TouchBy(o, ops, hash, c, k), ops[k - 1].now)
  }

  lemma TouchedFirst(o: Options, ops: seq<Op>, hash: Hash, c: nat)
    requires Issued(o, ops, hash, c)
    ensures TouchedBy(o, ops, hash, c, c + 1)
  {
    AfterNext(o, ops, c);
    assert ops[c + 1..c + 1] == [];
  }

  lemma TouchByNext(o: Options, ops: seq<Op>, hash: Hash, c: nat, k: nat)
    requires c < k < |ops|
    ensures var t, op := TouchBy(o, ops, hash, c, k), ops[k];
            TouchBy(o, ops, hash, c, k + 1) ==
              if op.Resolve? && op.hash == hash && op.now < t + o.idleMs && op.now < ops[c].now + o.maxMs
                 && op.now - t > TOUCH_AFTER_MS then op.now else t
  {
    assert ops[c + 1..k + 1] == ops[c + 1..k] + [ops[k]];
    UsesNext(ops[c + 1..k], ops[k], hash);
    LastTouchNext(o, ops[c].now, Uses(ops[c + 1..k], hash), ops[k].now);
    assert Uses(ops[c + 1..k], hash) + [] == Uses(ops[c + 1..k], hash);
  }

  lemma TouchedNext(o: Options, ops: seq<Op>, hash: Hash, c: nat, k: nat)
    requires c < k < |ops| && ops[c].Create? && TouchedBy(o, ops, hash, c, k) && ops[k - 1].now <= ops[k].now
    requires Spares(ops[k], hash, ops[c].user) && NotReissued(ops[k], hash)
    ensures TouchedBy(o, ops, hash, c, k + 1)
  {
    AfterNext(o, ops, k);
    TouchByNext(o, ops, hash, c, k);
    OpTouches(o, After(o, ops[..k]), ops[k], hash, ops[c].user, ops[c].now, TouchBy(o, ops, hash, c, k), ops[k - 1].now);
  }

  lemma {:induction false} TouchedAlong(o: Options, ops: seq<Op>, hash: Hash, c: nat, k: nat)
    requires Clocked(ops) && Issued(o, ops, hash, c) && LeftAlone(ops, hash, ops[c].user, c + 1) && c < k <= |ops|
    ensures TouchedBy(o, ops, hash, c, k)
    decreases k
  {
    if k == c + 1 {
      TouchedFirst(o, ops, hash, c);
    } else {
      TouchedAlong(o, ops, hash, c, k - 1);
      TouchedNext(o, ops, hash, c, k - 1);
    }
  }

  lemma UsesNext(ops: seq<Op>, op: Op, hash: Hash)
    ensures Uses(ops + [op], hash) == Uses(ops, hash) + if op.Resolve? && op.hash == hash then [op.now] else []
  {
    assert (ops + [op])[..|ops|] == ops;
  }

  lemma LastTouchNext(o: Options, created: nat, uses: seq<nat>, now: nat)
    ensures var t := LastTouch(o, created, uses);
            LastTouch(o, created, uses + [now]) ==
              if now < t + o.idleMs && now < created + o.maxMs && now - t > TOUCH_AFTER_MS then now else t
  {
    assert (uses + [now])[..|uses|] == uses;
  }

  /**
   * Exactly: a session of an active user that nothing ends answers, through any purges, if and only if it is not
   * yet `idleMs` since the last use that was written down, and not yet its absolute expiry.
   */
  lemma AnswersExactly(o: Options, ops: seq<Op>, hash: Hash, c: nat, now: nat)
    requires Clocked(ops) && Clock(ops) <= now
    requires Issued(o, ops, hash, c) && LeftAlone(ops, hash, ops[c].user, c + 1)
    ensures Answer(o, After(o, ops), hash, now) ==
              if now < LastTouch(o, ops[c].now, Uses(ops[c + 1..], hash)) + o.idleMs && now < ops[c].now + o.maxMs
              then Some(ops[c].user) else None
  {
    assert ops[..|ops|] == ops && ops[c + 1..|ops|] == ops[c + 1..];
    TouchedAlong(o, ops, hash, c, |ops|);
    assert TouchedBy(o, ops, hash, c, |ops|);
  }

  /**
   * So a session that was used less than `idleMs` ago is refused before its absolute expiry exactly if it is `idleMs`
   * since the last use that was written down.
   */
  lemma ForgottenExactly(o: Options, ops: seq<Op>, hash: Hash, c: nat, now: nat)
    requires Clocked(ops) && Clock(ops) <= now
    requires Issued(o, ops, hash, c) && LeftAlone(ops, hash, ops[c].user, c + 1)
    requires now < LastUse(o, ops, hash) + o.idleMs && now < ops[c].now + o.maxMs
    ensures Answer(o, After(o, ops), hash, now) == None <==> LastTouch(o, ops[c].now, Uses(ops[c + 1..], hash)) + o.idleMs <= now
    ensures Answer(o, After(o, ops), hash, now) == None ==>
              LastTouch(o, ops[c].now, Uses(ops[c + 1..], hash)) < LastUse(o, ops, hash)
  {
    AnswersExactly(o, ops, hash, c, now);
  }

  /** However busy, it ends at its absolute expiry. */
  lemma {:induction false} ExpiresAtLatest(o: Options, ops: seq<Op>, hash: Hash, c: nat, now: nat)
    requires c < |ops| && ops[c].Create? && ops[c].hash == hash && hash !in After(o, ops[..c]).sessions
    requires forall k :: c < k < |ops| ==> !(ops[k].Create? && ops[k].hash == hash)
    requires ops[c].now + o.maxMs <= now
    ensures Answer(o, After(o, ops), hash, now) == None
  {
    SameExpiry(o, ops, hash, c, |ops|);
    assert ops[..|ops|] == ops;
  }

  lemma {:induction false} SameExpiry(o: Options, ops: seq<Op>, hash: Hash, c: nat, k: nat)
    requires c < k <= |ops| && ops[c].Create? && ops[c].hash == hash && hash !in After(o, ops[..c]).sessions
    requires forall k :: c < k < |ops| ==> !(ops[k].Create? && ops[k].hash == hash)
    ensures hash in After(o, ops[..k]).sessions ==> After(o, ops[..k]).sessions[hash].expires == ops[c].now + o.maxMs
    decreases k
  {
    assert ops[..k][..k - 1] == ops[..k - 1];
    if k > c + 1 { SameExpiry(o, ops, hash, c, k - 1); }
  }

  // ─── Ended is ended ────────────────────────────────────────────────────────

  /** A sign-out of the session, or of everything of its user, or a disabled user. */
  ghost predicate Ends(o: Options, ops: seq<Op>, hash: Hash, k: nat)
    requires k < |ops|
  {
    match ops[k]
    case Destroy(h, _) => h == hash
    case DestroyAll(user, _) => Owned(After(o, ops[..k]), hash, user)
    case Disable(user, _) => Owned(After(o, ops[..k]), hash, user)
    case _ => false
  }

  predicate Owned(t: Table, hash: Hash, user: UserId) { hash in t.sessions && t.sessions[hash].userId == user }

  lemma {:induction false} GoneStays(o: Options, ops: seq<Op>, hash: Hash, k: nat, m: nat)
    requires k < m <= |ops| && Ends(o, ops, hash, k) && forall j :: k < j < m ==> NotReissued(ops[j], hash)
    ensures hash !in After(o, ops[..m]).sessions
    decreases m
  {
    AfterNext(o, ops, m - 1);
    if k < m - 1 { GoneStays(o, ops, hash, k, m - 1); }
  }

  /** A session that was ended never answers again, unless its very token is issued once more. */
  lemma EndedIsRefused(o: Options, ops: seq<Op>, hash: Hash, k: nat, now: nat)
    requires k < |ops| && Ends(o, ops, hash, k) && forall j :: k < j < |ops| ==> NotReissued(ops[j], hash)
    ensures Answer(o, After(o, ops), hash, now) == None
  {
    GoneStays(o, ops, hash, k, |ops|);
    assert ops[..|ops|] == ops;
  }

  lemma {:induction false} InactiveStays(o: Options, ops: seq<Op>, user: UserId, k: nat, m: nat)
    requires k < m <= |ops| && ops[k].Disable? && ops[k].user == user
    requires forall j :: k < j < m ==> !(ops[j].Enable? && ops[j].user == user)
    ensures user !in After(o, ops[..m]).active
    decreases m
  {
    AfterNext(o, ops, m - 1);
    if k < m - 1 { InactiveStays(o, ops, user, k, m - 1); }
  }

  /** No session of a disabled user answers, not even one issued since; not until they are enabled again. */
  lemma DisabledIsRefused(o: Options, ops: seq<Op>, user: UserId, hash: Hash, k: nat, now: nat)
    requires k < |ops| && ops[k].Disable? && ops[k].user == user
    requires forall j :: k < j < |ops| ==> !(ops[j].Enable? && ops[j].user == user)
    ensures Answer(o, After(o, ops), hash, now) != Some(user)
  {
    InactiveStays(o, ops, user, k, |ops|);
    assert ops[..|ops|] == ops;
  }

  /** A purge takes exactly the sessions that are past their absolute expiry or idle for too long; the others stay as they are. */
  lemma PurgeTakesTheDead(o: Options, t: Table, now: nat)
    ensures var t' := Apply(o, t, Purge(now));
            && t'.active == t.active
            && (forall h :: h in t'.sessions <==>
                  h in t.sessions && now < t.sessions[h].expires && now < t.sessions[h].lastSeen + o.idleMs)
            && (forall h :: h in t'.sessions ==> t'.sessions[h] == t.sessions[h])
  {
  }

  // ─── Purging ───────────────────────────────────────────────────────────────

  function Answers(o: Options, ops: seq<Op>): seq<Option<UserId>> {
    if ops == [] then []
    else
      var init, op := ops[..|ops| - 1], ops[|ops| - 1];
      Answers(o, init) + if op.Resolve? then [Answer(o, After(o, init), op.hash, op.now)] else []
  }

  function WithoutPurges(ops: seq<Op>): seq<Op> {
    if ops == [] then []
    else WithoutPurges(ops[..|ops| - 1]) + if ops[|ops| - 1].Purge? then [] else [ops[|ops| - 1]]
  }

  /** Tokens are random: none is issued twice. */
  ghost predicate FreshTokens(ops: seq<Op>) {
    forall i, j :: 0 <= i < j < |ops| && ops[i].Create? && ops[j].Create? ==> ops[i].hash != ops[j].hash
  }

  /** The purged table misses only sessions that no longer answer. */
  ghost predicate SameButDead(o: Options, purged: Table, full: Table, clock: nat) {
    && purged.active == full.active
    && (forall h :: h in purged.sessions ==> h in full.sessions && full.sessions[h] == purged.sessions[h])
    && (forall h :: h in full.sessions && h !in purged.sessions ==> Dead(o, full.sessions[h], clock))
  }

  lemma {:induction false} SessionsAreIssued(o: Options, ops: seq<Op>, h: Hash)
    requires h in After(o, ops).sessions
    ensures exists i :: 0 <= i < |ops| && ops[i].Create? && ops[i].hash == h
  {
    var init := ops[..|ops| - 1];
    if h in After(o, init).sessions {
      SessionsAreIssued(o, init, h);
      var i :| 0 <= i < |init| && init[i].Create? && init[i].hash == h;
      assert ops[i] == init[i];
    }
  }

  lemma {:induction false} WithoutPurgesFinds(ops: seq<Op>, i: nat)
    requires i < |WithoutPurges(ops)|
    ensures exists j :: 0 <= j < |ops| && ops[j] == WithoutPurges(ops)[i]
  {
    var init := ops[..|ops| - 1];
    if i < |WithoutPurges(init)| {
      WithoutPurgesFinds(init, i);
      var j :| 0 <= j < |init| && init[j] == WithoutPurges(init)[i];
      assert ops[j] == init[j];
    }
  }

  lemma OpKeepsSame(o: Options, purged: Table, full: Table, op: Op)
    requires SameButDead(o, purged, full, op.now) && !op.Purge?
    requires op.Create? ==> op.hash !in full.sessions
    ensures SameButDead(o, Apply(o, purged, op), Apply(o, full, op), op.now)
    ensures op.Resolve? ==> Answer(o, purged, op.hash, op.now) == Answer(o, full, op.hash, op.now)
  {
  }

  lemma PurgeKeepsSame(o: Options, purged: Table, full: Table, now: nat)
    requires SameButDead(o, purged, full, now)
    ensures SameButDead(o, Apply(o, purged, Purge(now)), full, now)
  {
  }

  /** A token about to be issued is in neither table. */
  lemma FreshIsUnknown(o: Options, ops: seq<Op>, k: nat)
    requires FreshTokens(ops) && k < |ops| && ops[k].Create?
    ensures ops[k].hash !in After(o, WithoutPurges(ops[..k])).sessions
  {
    var kept := WithoutPurges(ops[..k]);
    if ops[k].hash in After(o, kept).sessions {
      SessionsAreIssued(o, kept, ops[k].hash);
      var i :| 0 <= i < |kept| && kept[i].Create? && kept[i].hash == ops[k].hash;
      WithoutPurgesFinds(ops[..k], i);
    }
  }

  lemma PurgedOneStep(o: Options, init: seq<Op>, op: Op)
    requires SameButDead(o, After(o, init), After(o, WithoutPurges(init)), op.now)
    requires Answers(o, init) == Answers(o, WithoutPurges(init))
    requires op.Create? ==> op.hash !in After(o, WithoutPurges(init)).sessions
    ensures SameButDead(o, After(o, init + [op]), After(o, WithoutPurges(init + [op])), op.now)
    ensures Answers(o, init + [op]) == Answers(o, WithoutPurges(init + [op]))
  {
    var kept := WithoutPurges(init);
    assert (init + [op])[..|init|] == init && (kept + [op])[..|kept|] == kept;
    if op.Purge? {
      assert WithoutPurges(init + [op]) == kept && Answers(o, init + [op]) == Answers(o, init);
      PurgeKeepsSame(o, After(o, init), After(o, kept), op.now);
    } else {
      assert WithoutPurges(init + [op]) == kept + [op];
      OpKeepsSame(o, After(o, init), After(o, kept), op);
    }
  }

  lemma {:induction false} PurgedAlongRuns(o: Options, ops: seq<Op>, k: nat)
    requires Clocked(ops) && FreshTokens(ops) && k <= |ops|
    ensures SameButDead(o, After(o, ops[..k]), After(o, WithoutPurges(ops[..k])), Clock(ops[..k]))
    ensures Answers(o, ops[..k]) == Answers(o, WithoutPurges(ops[..k]))
  {
    if k > 0 {
      PurgedAlongRuns(o, ops, k - 1);
      var init, op := ops[..k - 1], ops[k - 1];
      assert ops[..k] == init + [op];
      assert Clock(init) <= op.now;
      assert SameButDead(o, After(o, init), After(o, WithoutPurges(init)), op.now);
      if op.Create? { FreshIsUnknown(o, ops, k - 1); }
      PurgedOneStep(o, init, op);
    }
  }

  /** Purging, whenever and however often, changes no answer. */
  lemma PurgingChangesNoAnswer(o: Options, ops: seq<Op>)
    requires Clocked(ops) && FreshTokens(ops)
    ensures Answers(o, ops) == Answers(o, WithoutPurges(ops))
  {
    PurgedAlongRuns(o, ops, |ops|);
    assert ops[..|ops|] == ops;
  }

  // ─── The object ────────────────────────────────────────────────────────────

  class SessionStore {
    const options: Options
    var sessions: map<Hash, Session>
    var active: set<UserId>

    ghost function State(): Table
      reads this
    {
      Table(sessions, active)
    }

    constructor (options: Options)
      ensures this.options == options && State() == Table(map[], {})
    {
      this.options := options;
      sessions, active := map[], {};
    }

    method CreateSession(hash: Hash, user: UserId, now: nat) returns (expires: Option<nat>)
      modifies this`sessions
      ensures State() == Apply(options, old(State()), Create(hash, user, now))
      ensures expires == if hash in old(sessions) then None else Some(now + options.maxMs)
      ensures sessions == if hash in old(sessions) then old(sessions) else old(sessions)[hash := Session(user, now, now + options.maxMs)]
    {
      if hash in sessions { return None; }
      sessions := sessions[hash := Session(user, now, now + options.maxMs)];
      expires := Some(now + options.maxMs);
    }

    method ResolveSession(hash: Hash, now: nat) returns (user: Option<UserId>)
      modifies this`sessions
      ensures State() == Apply(options, old(State()), Resolve(hash, now))
      ensures user == Answer(options, old(State()), hash, now)
    {
      if hash !in sessions { return None; }
      var row := sessions[hash];
      if row.userId !in active || row.expires <= now || row.lastSeen + options.idleMs <= now { return None; }
      if now - row.lastSeen > TOUCH_AFTER_MS {
        sessions := sessions[hash := row.(lastSeen := now)];
      }
      user := Some(row.userId);
    }

    method DestroySession(hash: Hash, now: nat)
      modifies this`sessions
      ensures State() == Apply(options, old(State()), Destroy(hash, now))
      ensures hash !in sessions && forall h :: h in old(sessions) && h != hash ==> h in sessions && sessions[h] == old(sessions)[h]
    {
      sessions := sessions - {hash};
    }

    method DestroyAllForUser(user: UserId, now: nat)
      modifies this`sessions
      ensures State() == Apply(options, old(State()), DestroyAll(user, now))
      ensures forall h :: h in sessions <==> h in old(sessions) && old(sessions)[h].userId != user
      ensures forall h :: h in sessions ==> sessions[h] == old(sessions)[h]
    {
      sessions := Others(sessions, user);
    }

    method PurgeExpired(now: nat) returns (count: nat)
      modifies this`sessions
      ensures State() == Apply(options, old(State()), Purge(now))
      ensures count == |old(sessions)| - |sessions|
      ensures forall h :: h in sessions <==> h in old(sessions) && now < old(sessions)[h].expires && now < old(sessions)[h].lastSeen + options.idleMs
    {
      var alive := Alive(options, sessions, now);
      SubsetCount(alive.Keys, sessions.Keys);
      count := |sessions| - |alive|;
      sessions := alive;
    }
  }
}
